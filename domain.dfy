/**
 * Domain normalisation (lib/supabase.js `normalizeDomain`): the identity key of a
 * company is its lower-case hostname without scheme, leading `www.` or path.
 *
 * `new URL(url).hostname` is modelled by `Hostname`, a simplified WHATWG parser for
 * `scheme://[userinfo@]host[:port][/...]`: it rejects a missing "://", a malformed
 * scheme, an empty host, a forbidden host character and a port that is not a decimal
 * number up to 65535, and it lower-cases the host. Percent-decoding, IDNA, IPv6
 * literals, the IPv4 reading of a host whose last label is a number and the removal
 * of tabs and newlines inside the URL are not modelled.
 */
module Domain {
  import opened Wrappers
  import opened Text
  import Integers

  predicate IsSchemeChar(c: char) {
    IsAsciiLetter(c) || ('0' <= c <= '9') || c == '+' || c == '-' || c == '.'
  }

  predicate ValidScheme(s: string) {
    |s| >= 1 && IsAsciiLetter(s[0]) && forall i :: 0 <= i < |s| ==> IsSchemeChar(s[i])
  }

  /** Characters a WHATWG domain may not contain (before any percent-decoding). */
  predicate ForbiddenHostChar(c: char) {
    c < ' ' || c == '\U{007F}' || c == ' ' || c == '#' || c == '/' || c == ':' || c == '<'
    || c == '>' || c == '?' || c == '@' || c == '[' || c == '\\' || c == ']' || c == '^'
    || c == '|' || c == '%'
  }

  /** A host with none of the forbidden characters. */
  predicate AllowedHost(host: string) {
    forall k :: 0 <= k < |host| ==> !ForbiddenHostChar(host[k])
  }

  /** An ASCII letter is an allowed host character. */
  lemma LetterAllowed(c: char)
    requires IsAsciiLetter(c)
    ensures !ForbiddenHostChar(c) && c != '@' && c != ':'
  {
  }

  predicate IsAuthorityEnd(c: char) {
    c == '/' || c == '?' || c == '#' || c == '\\'
  }

  /** Length of the authority at the start of `s`: up to the first `/`, `?`, `#` or `\`. */
  function AuthorityLength(s: string): (n: nat)
    ensures n <= |s|
    ensures forall i :: 0 <= i < n ==> !IsAuthorityEnd(s[i])
    ensures n < |s| ==> IsAuthorityEnd(s[n])
  {
    if s == [] || IsAuthorityEnd(s[0]) then 0 else 1 + AuthorityLength(s[1..])
  }

  /** The part of an authority after its last `@` (the user information is dropped). */
  function AfterUserInfo(a: string): (r: string)
    ensures forall i :: 0 <= i < |r| ==> r[i] != '@'
    ensures |r| <= |a| && r == a[|a| - |r|..]
  {
    match LastIndexOfChar(a, '@')
    case None => a
    case Some(k) => a[k + 1..]
  }

  /** A port the parser accepts: decimal digits, possibly none, whose value is at most 65535. */
  predicate ValidPort(s: string) {
    (forall i :: 0 <= i < |s| ==> Integers.IsDigit(s[i])) && Integers.DigitsValue(s) <= 65535
  }

  /** The host part of a host and port: everything before the first `:`. */
  function HostPart(hp: string): (h: string)
    ensures |h| <= |hp| && h == hp[..|h|]
    ensures forall i :: 0 <= i < |h| ==> h[i] != ':'
  {
    if hp == [] || hp[0] == ':' then [] else [hp[0]] + HostPart(hp[1..])
  }

  /** `new URL(url).hostname`, or `None` where the constructor throws. */
  function Hostname(url: string): (r: Option<string>)
    ensures r.Some? ==> r.value != [] && IsLower(r.value)
  {
    match IndexOf(url, "://")
    case None => None
    case Some(i) => HostAfter(url, i)
  }

  /** The hostname behind the "://" found at `i`: the scheme before it and the authority after it. */
  function HostAfter(url: string, i: nat): (r: Option<string>)
    requires i + 3 <= |url|
    ensures r.Some? ==> r.value != [] && IsLower(r.value)
  {
    var rest := url[i + 3..];
    HostOf(url[..i], rest[..AuthorityLength(rest)])
  }

  /** The hostname behind `scheme://` with the authority `a`, or `None` where the host or port is invalid. */
  function HostOf(scheme: string, a: string): (r: Option<string>)
    ensures r.Some? ==> r.value != [] && IsLower(r.value)
  {
    var hp := AfterUserInfo(a);
    var host := HostPart(hp);
    var port := if |host| < |hp| then hp[|host| + 1..] else "";
    if ValidScheme(scheme) && host != [] && ValidPort(port) && AllowedHost(host)
    then Some(Lower(host))
    else None
  }

  /** A port above 65535 makes the constructor throw, whatever the host. */
  lemma PortOutOfRange(scheme: string, host: string, port: string)
    requires forall i :: 0 <= i < |host| ==> host[i] != ':' && host[i] != '@'
    requires forall i :: 0 <= i < |port| ==> Integers.IsDigit(port[i])
    requires Integers.DigitsValue(port) > 65535
    ensures HostOf(scheme, host + ":" + port) == None
  {
    var a := host + ":" + port;
    assert forall i :: 0 <= i < |a| ==> a[i] != '@';
    assert AfterUserInfo(a) == a;
    HostPartStopsAtColon(a, |host|);
    assert a[..|host|] == host && a[|host| + 1..] == port;
  }

  /** `.replace(/^www\./, '')`: removes one leading "www." (case-sensitive). */
  function StripWww(s: string): (r: string)
    ensures StartsWith(s, "www.") ==> r == s[4..]
    ensures !StartsWith(s, "www.") ==> r == s
    ensures IsLower(s) ==> IsLower(r)
  {
    if StartsWith(s, "www.") then s[4..] else s
  }

  /** `.replace(/^https?:\/\//, '')`. */
  function StripHttpScheme(s: string): (r: string)
    ensures StartsWith(s, "http://") ==> r == s[7..]
    ensures StartsWith(s, "https://") ==> r == s[8..]
    ensures !StartsWith(s, "http://") && !StartsWith(s, "https://") ==> r == s
    ensures IsLower(s) ==> IsLower(r)
  {
    NotBothSchemes(s);
    if StartsWith(s, "http://") then s[7..]
    else if StartsWith(s, "https://") then s[8..]
    else s
  }

  lemma NotBothSchemes(s: string)
    ensures !(StartsWith(s, "http://") && StartsWith(s, "https://"))
  {
    if StartsWith(s, "http://") {
      assert s[4] == s[..7][4] == ':';
    }
  }

  /**
   * `.replace(/\/.*$/, '')`: removes the first `/` from which no line terminator
   * follows, and everything after it (`.` does not match line terminators).
   */
  function CutPath(s: string): (r: string)
    ensures |r| <= |s| && r == s[..|r|]
    ensures NoLineTerminator(s) ==> forall i :: 0 <= i < |r| ==> r[i] != '/'
    ensures NoLineTerminator(s) && (forall i :: 0 <= i < |s| ==> s[i] != '/') ==> r == s
    ensures IsLower(s) ==> IsLower(r)
  {
    if s == [] then []
    else if s[0] == '/' && NoLineTerminator(s[1..]) then []
    else [s[0]] + CutPath(s[1..])
  }

  /** The `catch` branch of `normalizeDomain`: plain string surgery. */
  function Fallback(input: string): (r: string)
    ensures IsLower(r)
  {
    CutPath(StripWww(StripHttpScheme(Lower(Trim(input)))))
  }

  /**
   * `normalizeDomain` exactly as written: the "http" prefix test is case-sensitive,
   * so an upper-case scheme gets a second "https://" in front of it.
   */
  function NormalizeAsWritten(input: string): (r: string)
    ensures IsLower(r)
  {
    var url := Trim(input);
    var url' := if StartsWith(url, "http") then url else "https://" + url;
    match Hostname(url')
    case Some(h) => StripWww(h)
    case None => Fallback(input)
  }

  /**
   * `normalizeDomain` with the scheme test made case-insensitive: the definition
   * that the rest of the model uses.
   */
  function Normalize(input: string): (r: string)
    ensures IsLower(r)
  {
    match Hostname(WithScheme(Trim(input)))
    case Some(h) => StripWww(h)
    case None => Fallback(input)
  }

  /** The URL given to the parser: the input itself when it starts with "http" in any case, else "https://" + input. */
  function WithScheme(url: string): (r: string)
    ensures StartsWith(Lower(url), "http") ==> r == url
    ensures !StartsWith(Lower(url), "http") ==> r == "https://" + url
  {
    if StartsWith(Lower(url), "http") then url else "https://" + url
  }

  /**
   * A lower-case DNS-style hostname: letters, digits, dots and hyphens, with a last
   * label that starts with a letter, so that the parser does not read it as an IPv4
   * address.
   */
  predicate WellFormedHost(h: string) {
    |h| >= 1 && HostAlphabet(h) && LastLabel(h) != [] && 'a' <= LastLabel(h)[0] <= 'z'
  }

  /** Only lower-case letters, digits, dots and hyphens. */
  predicate HostAlphabet(h: string) {
    forall i :: 0 <= i < |h| ==> ('a' <= h[i] <= 'z' || '0' <= h[i] <= '9' || h[i] == '.' || h[i] == '-')
  }

  lemma AlphabetAppend(p: string, h: string)
    requires HostAlphabet(p) && HostAlphabet(h)
    ensures HostAlphabet(p + h)
  {
    var w := p + h;
    forall i | 0 <= i < |w| ensures ('a' <= w[i] <= 'z' || '0' <= w[i] <= '9' || w[i] == '.' || w[i] == '-') {
      if i >= |p| { assert w[i] == h[i - |p|]; }
    }
  }

  /** The label after the last dot, or the whole host when it has none. */
  function LastLabel(h: string): string {
    match LastIndexOfChar(h, '.')
    case None => h
    case Some(k) => h[k + 1..]
  }

  /** Behind a prefix that ends in a dot, the last label is the host's own. */
  lemma LastLabelBehindDot(p: string, h: string)
    requires p != [] && p[|p| - 1] == '.'
    ensures LastLabel(p + h) == LastLabel(h)
  {
    var w := p + h;
    match LastIndexOfChar(h, '.')
    case None =>
      assert w[|p| - 1] == '.';
      assert forall j :: |p| - 1 < j < |w| ==> w[j] == h[j - |p|];
      assert LastIndexOfChar(w, '.') == Some(|p| - 1);
      assert w[|p|..] == h;
    case Some(k) =>
      assert w[|p| + k] == '.';
      assert forall j :: |p| + k < j < |w| ==> w[j] == h[j - |p|];
      assert LastIndexOfChar(w, '.') == Some(|p| + k);
      assert w[|p| + k + 1..] == h[k + 1..];
  }

  /** A scheme of ASCII letters followed by "://", such as "https://" or "HTTP://". */
  predicate LetterSchemePrefix(p: string) {
    |p| >= 4 && p[|p| - 3..] == "://" && forall k :: 0 <= k < |p| - 3 ==> IsAsciiLetter(p[k])
  }

  /** A prefix that `normalizeDomain` should treat as an explicit http(s) scheme. */
  predicate HttpPrefix(p: string) {
    LetterSchemePrefix(p) && StartsWith(Lower(p), "http")
  }

  lemma HttpsPrefix()
    ensures HttpPrefix("https://")
  {
    HttpSchemePrefix("https://", 5);
  }

  lemma HttpPrefixPlain()
    ensures HttpPrefix("http://")
  {
    HttpSchemePrefix("http://", 4);
  }

  /** A prefix spelled `http…://` in lower or upper case, whose scheme is `n` letters, is an http prefix. */
  lemma HttpSchemePrefix(p: string, n: nat)
    requires |p| == n + 3 && n >= 4 && (p[..4] == "http" || p[..4] == "HTTP") && p[n..] == "://"
    requires forall k :: 4 <= k < n ==> IsAsciiLetter(p[k])
    ensures HttpPrefix(p)
  {
    LowerHttp(p);
    assert p[|p| - 3..] == "://";
    forall k | 0 <= k < n ensures IsAsciiLetter(p[k]) {
      if k < 4 { assert p[k] == p[..4][k]; }
    }
  }

  /** Lowering turns an `http` or `HTTP` at the front into `http`. */
  lemma LowerHttp(p: string)
    requires |p| >= 4 && (p[..4] == "http" || p[..4] == "HTTP")
    ensures StartsWith(Lower(p), "http")
  {
    if p[..4] == "http" {
      LowerKeepsLowerPrefix(p, "http");
    } else {
      LowerUpperHttp(p);
    }
  }

  lemma LowerUpperHttp(p: string)
    requires |p| >= 4 && p[..4] == "HTTP"
    ensures StartsWith(Lower(p), "http")
  {
    var l := Lower(p);
    forall k | 0 <= k < 4 ensures l[..4][k] == "http"[k] {
      assert p[k] == "HTTP"[k];
    }
  }

  lemma UpperHttpsPrefix()
    ensures HttpPrefix("HTTPS://")
  {
    HttpSchemePrefix("HTTPS://", 5);
  }

  lemma SchemeSeparatorAt(prefix: string, h: string)
    requires LetterSchemePrefix(prefix)
    ensures IndexOf(prefix + h, "://") == Some(|prefix| - 3)
    ensures ValidScheme((prefix + h)[..|prefix| - 3]) && (prefix + h)[|prefix|..] == h
  {
    var url := prefix + h;
    var i := |prefix| - 3;
    assert url[..i] == prefix[..i];
    assert url[i + 3..] == h;
    assert OccursAt(url, "://", i) by { assert url[i..i + 3] == prefix[i..i + 3] == "://"; }
    forall j | 0 <= j < i ensures !OccursAt(url, "://", j) {
      assert url[j] == prefix[j];
    }
    IndexOfIsFirst(url, "://", i);
  }

  /** A host character is none of the characters that end an authority, `@` or `:`. */
  lemma HostChars(h: string)
    requires WellFormedHost(h)
    ensures forall k :: 0 <= k < |h| ==> !IsAuthorityEnd(h[k]) && h[k] != '@' && h[k] != ':' && !ForbiddenHostChar(h[k])
    ensures AllowedHost(h)
  {
    forall k | 0 <= k < |h|
      ensures !IsAuthorityEnd(h[k]) && h[k] != '@' && h[k] != ':' && !ForbiddenHostChar(h[k])
    {
      var c := h[k];
      assert 'a' <= c <= 'z' || '0' <= c <= '9' || c == '.' || c == '-';
    }
    assert AllowedHost(h);
  }

  lemma WholeAuthority(h: string)
    requires WellFormedHost(h)
    ensures AuthorityLength(h) == |h|
    ensures AfterUserInfo(h) == h
    ensures HostPart(h) == h
  {
    HostChars(h);
    assert LastIndexOfChar(h, '@').None?;
    LongHostPart(h);
  }

  /** `HostPart` stops at the first `:`. */
  lemma {:induction false} HostPartStopsAtColon(hp: string, n: nat)
    requires n < |hp| && hp[n] == ':'
    requires forall k :: 0 <= k < n ==> hp[k] != ':'
    ensures HostPart(hp) == hp[..n]
  {
    if n > 0 {
      HostPartStopsAtColon(hp[1..], n - 1);
      assert [hp[0]] + hp[1..][..n - 1] == hp[..n];
    }
  }

  /** On input without `:`, `HostPart` keeps everything. */
  lemma LongHostPart(hp: string)
    requires forall i :: 0 <= i < |hp| ==> hp[i] != ':'
    ensures HostPart(hp) == hp
  {
  }

  /** A URL made of a valid scheme, "://" and a well-formed host parses to that host. */
  lemma HostnameOfHostOnly(url: string, i: nat, h: string)
    requires IndexOf(url, "://") == Some(i)
    requires ValidScheme(url[..i]) && url[i + 3..] == h
    requires WellFormedHost(h)
    ensures Hostname(url) == Some(h)
  {
    WholeAuthority(h);
    assert url[i + 3..][..AuthorityLength(url[i + 3..])] == h;
    HostOfHost(url[..i], h);
  }

  /** An authority that is a well-formed host alone gives that host. */
  lemma HostOfHost(scheme: string, h: string)
    requires ValidScheme(scheme) && WellFormedHost(h)
    ensures HostOf(scheme, h) == Some(h)
  {
    WholeAuthority(h);
    HostChars(h);
    assert IsLower(h);
    LowerOfLower(h);
    assert ValidPort("");
    HostOfFrom(scheme, h, h, h);
  }

  /** `Hostname` once its authority, host and port are known. */
  lemma HostnameFrom(url: string, i: nat, hp: string, host: string)
    requires IndexOf(url, "://") == Some(i)
    requires AfterUserInfo(url[i + 3..][..AuthorityLength(url[i + 3..])]) == hp
    requires HostPart(hp) == host && host != []
    requires ValidScheme(url[..i]) && ValidPort(if |host| < |hp| then hp[|host| + 1..] else "")
    requires AllowedHost(host)
    ensures Hostname(url) == Some(Lower(host))
  {
    HostnameIs(url, i);
    assert HostAfter(url, i) == HostOf(url[..i], url[i + 3..][..AuthorityLength(url[i + 3..])]);
    HostOfFrom(url[..i], url[i + 3..][..AuthorityLength(url[i + 3..])], hp, host);
  }

  /** `Hostname` reads the scheme before the first "://" and the authority after it. */
  lemma HostnameIs(url: string, i: nat)
    requires IndexOf(url, "://") == Some(i)
    ensures Hostname(url) == HostAfter(url, i)
  {
  }

  lemma HostOfFrom(scheme: string, a: string, hp: string, host: string)
    requires AfterUserInfo(a) == hp && HostPart(hp) == host && host != []
    requires ValidScheme(scheme) && ValidPort(if |host| < |hp| then hp[|host| + 1..] else "")
    requires AllowedHost(host)
    ensures HostOf(scheme, a) == Some(Lower(host))
  {
  }

  /** `new URL("https://" + h).hostname` is `h` itself for a well-formed lower-case host. */
  lemma WellFormedHostParses(prefix: string, h: string)
    requires LetterSchemePrefix(prefix)
    requires WellFormedHost(h)
    ensures Hostname(prefix + h) == Some(h)
  {
    SchemeSeparatorAt(prefix, h);
    HostnameOfHostOnly(prefix + h, |prefix| - 3, h);
  }

  /** `normalizeDomain` keeps a URL that already names an http(s) scheme: its hostname, minus a `www.`. */
  lemma NormalizeWithScheme(url: string, h: string)
    requires Trim(url) == url && StartsWith(Lower(url), "http")
    requires Hostname(url) == Some(h)
    ensures Normalize(url) == StripWww(h)
  {
  }

  /** Without a scheme, `normalizeDomain` parses the input behind "https://". */
  lemma NormalizeWithoutScheme(s: string, h: string)
    requires Trim(s) == s && !StartsWith(Lower(s), "http")
    requires Hostname("https://" + s) == Some(h)
    ensures Normalize(s) == StripWww(h)
  {
  }

  lemma WwwHost(h: string)
    requires WellFormedHost(h)
    ensures WellFormedHost("www." + h)
    ensures StartsWith("www." + h, "www.") && ("www." + h)[4..] == h
  {
    var p := "www.";
    assert HostAlphabet(p) && p[3] == '.';
    HostBehindDot(p, h);
    assert (p + h)[..4] == p && (p + h)[4..] == h;
  }

  /** A well-formed host behind a prefix of host characters that ends in a dot is well formed. */
  lemma HostBehindDot(p: string, h: string)
    requires HostAlphabet(p) && p != [] && p[|p| - 1] == '.'
    requires WellFormedHost(h)
    ensures WellFormedHost(p + h)
  {
    AlphabetAppend(p, h);
    LastLabelBehindDot(p, h);
  }

  /** An input that starts with "http" and parses keeps its hostname, minus a `www.`. */
  lemma NormalizeHttpUrl(url: string, h: string)
    requires StartsWith(Lower(url), "http") && !IsSpace(url[0]) && !IsSpace(url[|url| - 1])
    requires Hostname(url) == Some(h)
    ensures Normalize(url) == StripWww(h)
  {
    TrimmedNoOp(url);
    NormalizeWithScheme(url, h);
  }

  lemma SchemeUrlFacts(prefix: string, h: string)
    requires HttpPrefix(prefix)
    requires WellFormedHost(h)
    ensures StartsWith(Lower(prefix + h), "http")
    ensures !IsSpace((prefix + h)[0]) && !IsSpace((prefix + h)[|prefix| + |h| - 1])
    ensures Hostname(prefix + h) == Some(h)
  {
    LowerAppend(prefix, h);
    StartsWithAppend(Lower(prefix), Lower(h), "http");
    EndChars(prefix, h);
    WellFormedHostParses(prefix, h);
  }

  lemma EndChars(prefix: string, h: string)
    requires LetterSchemePrefix(prefix)
    requires WellFormedHost(h)
    ensures !IsSpace((prefix + h)[0]) && !IsSpace((prefix + h)[|prefix| + |h| - 1])
  {
    var url := prefix + h;
    assert url[0] == prefix[0];
    assert IsAsciiLetter(prefix[0]);
    assert url[|url| - 1] == h[|h| - 1];
    HostChars(h);
  }

  /** A hostname after an explicit http(s) scheme is kept, minus one leading `www.`. */
  lemma NormalizeSchemeHost(prefix: string, h: string)
    requires HttpPrefix(prefix)
    requires WellFormedHost(h)
    ensures Normalize(prefix + h) == StripWww(h)
  {
    SchemeUrlFacts(prefix, h);
    NormalizeHttpUrl(prefix + h, h);
  }

  /** A well-formed host without a scheme is parsed behind "https://" and loses one leading `www.`. */
  lemma NormalizeBareHost(w: string)
    requires WellFormedHost(w) && !StartsWith(w, "http")
    ensures Normalize(w) == StripWww(w)
  {
    HostChars(w);
    TrimmedNoOp(w);
    assert IsLower(w);
    LowerOfLower(w);
    HttpsPrefix();
    WellFormedHostParses("https://", w);
    NormalizeWithoutScheme(w, w);
  }

  /** A host written as "www." + h, with no scheme, comes back as h. */
  lemma NormalizeBareWww(h: string)
    requires WellFormedHost(h)
    ensures Normalize("www." + h) == h
  {
    WwwHost(h);
    assert ("www." + h)[3] == '.';
    NormalizeBareHost("www." + h);
  }

  lemma UrlSpellings(h: string)
    ensures "https://www." + h == "https://" + ("www." + h)
    ensures "http://www." + h == "http://" + ("www." + h)
  {
  }

  /** A well-formed host comes back as itself after "https://" or "http://" and any one leading "www.". */
  lemma PrefixInvariance(h: string)
    requires WellFormedHost(h)
    ensures Normalize("www." + h) == h
    ensures Normalize("https://" + h) == StripWww(h)
    ensures Normalize("http://" + h) == StripWww(h)
    ensures Normalize("https://www." + h) == h
    ensures Normalize("http://www." + h) == h
  {
    HttpsPrefix();
    HttpPrefixPlain();
    WwwHost(h);
    UrlSpellings(h);
    NormalizeSchemeHost("https://", h);
    NormalizeSchemeHost("http://", h);
    NormalizeSchemeHost("https://", "www." + h);
    NormalizeSchemeHost("http://", "www." + h);
    NormalizeBareWww(h);
  }

  lemma NoColonNoSeparator(h: string)
    requires forall k :: 0 <= k < |h| ==> h[k] != ':'
    ensures IndexOf(h, "://").None?
  {
    forall j | 0 <= j <= |h| ensures !OccursAt(h, "://", j) {
      if j + 3 <= |h| { assert h[j..j + 3][0] == h[j]; }
    }
  }

  /** Trimming and lower-casing leave a well-formed host untouched. */
  lemma HostTrimmedLower(h: string)
    requires WellFormedHost(h)
    ensures Lower(Trim(h)) == h
  {
    HostChars(h);
    TrimmedNoOp(h);
    assert IsLower(h);
    LowerOfLower(h);
  }

  lemma HostHasNoScheme(h: string)
    requires WellFormedHost(h)
    ensures StripHttpScheme(h) == h
  {
    HostChars(h);
    assert !StartsWith(h, "http://") by { if |h| >= 7 { assert h[..7][4] == h[4]; } }
    assert !StartsWith(h, "https://") by { if |h| >= 8 { assert h[..8][5] == h[5]; } }
  }

  /** Trimming, lower-casing and removing an http(s) scheme leave a well-formed host untouched. */
  lemma HostSurvivesCleanup(h: string)
    requires WellFormedHost(h)
    ensures StripHttpScheme(Lower(Trim(h))) == h
  {
    HostTrimmedLower(h);
    HostHasNoScheme(h);
  }

  lemma PathlessHost(h: string)
    requires WellFormedHost(h)
    ensures CutPath(StripWww(h)) == StripWww(h)
  {
    var w := StripWww(h);
    if StartsWith(h, "www.") { AlphabetSuffix(h, 4); }
    AlphabetPathless(w);
  }

  lemma AlphabetSuffix(h: string, k: nat)
    requires HostAlphabet(h) && k <= |h|
    ensures HostAlphabet(h[k..])
  {
    var t := h[k..];
    forall i | 0 <= i < |t| ensures ('a' <= t[i] <= 'z' || '0' <= t[i] <= '9' || t[i] == '.' || t[i] == '-') {
      assert t[i] == h[k + i];
    }
  }

  /** A host alphabet string holds no `/` and no line terminator, so no path is cut from it. */
  lemma AlphabetPathless(w: string)
    requires HostAlphabet(w)
    ensures CutPath(w) == w
  {
    forall i | 0 <= i < |w| ensures w[i] != '/' && !IsLineTerminator(w[i]) {
      var c := w[i];
      assert 'a' <= c <= 'z' || '0' <= c <= '9' || c == '.' || c == '-';
    }
  }

  /** The string fallback leaves a well-formed host as it is, minus one leading `www.`. */
  lemma FallbackOfHost(h: string)
    requires WellFormedHost(h)
    ensures Fallback(h) == StripWww(h)
  {
    HostSurvivesCleanup(h);
    PathlessHost(h);
  }

  /** When the URL branch throws, the result is the string fallback. */
  lemma NormalizeFallsBack(s: string)
    requires Trim(s) == s && StartsWith(Lower(s), "http") && Hostname(s).None?
    ensures Normalize(s) == Fallback(s)
  {
  }

  /** Every well-formed host normalises to itself minus one leading `www.`, whichever branch handles it. */
  lemma NormalizeHost(h: string)
    requires WellFormedHost(h)
    ensures Normalize(h) == StripWww(h)
  {
    if StartsWith(h, "http") {
      HostChars(h);
      TrimmedNoOp(h);
      assert IsLower(h);
      LowerOfLower(h);
      NoColonNoSeparator(h);
      FallbackOfHost(h);
      NormalizeFallsBack(h);
    } else {
      NormalizeBareHost(h);
    }
  }

  /** Idempotence: a normalised domain (a well-formed host without a leading `www.`) is a fixed point. */
  lemma NormalizeIdempotent(h: string)
    requires WellFormedHost(h) && !StartsWith(h, "www.")
    ensures Normalize(h) == h
    ensures Normalize(Normalize(h)) == Normalize(h)
  {
    NormalizeHost(h);
  }

  /** Only one leading `www.` is removed. */
  lemma SingleWww(h: string)
    requires WellFormedHost(h)
    ensures Normalize("www.www." + h) == "www." + h
  {
    var w := "www." + h;
    WwwHost(h);
    NormalizeBareWww(w);
    WwwTwice(h);
  }

  lemma WwwTwice(h: string)
    ensures "www.www." + h == "www." + ("www." + h)
  {
  }

  /** Surrounding white space is ignored. */
  lemma NormalizeIgnoresPadding(a: string, s: string, b: string)
    requires AllSpace(a) && AllSpace(b)
    ensures Normalize(a + s + b) == Normalize(s)
  {
    TrimPadded(a, s, b);
    SameTrimSameResult(a + s + b, s);
  }

  lemma SameTrimSameResult(x: string, y: string)
    requires Trim(x) == Trim(y)
    ensures Normalize(x) == Normalize(y)
  {
  }

  lemma VitalizeWellFormed(h: string)
    requires h == "vitalize.care"
    ensures WellFormedHost(h) && !StartsWith(h, "www.")
  {
    var p, c := "vitalize.", "care";
    VitalizeParts(p, c);
    NameBehindDot(p, c);
    assert h[0] == p[0];
  }

  lemma VitalizeParts(p: string, c: string)
    requires p == "vitalize." && c == "care"
    ensures HostAlphabet(p) && HostAlphabet(c) && LastIndexOfChar(c, '.').None?
    ensures p + c == "vitalize.care" && p[0] == 'v'
  {
  }

  /** A host whose last label is a name, behind a prefix ending in a dot, is well formed. */
  lemma NameBehindDot(p: string, c: string)
    requires HostAlphabet(p) && HostAlphabet(c) && p != [] && p[|p| - 1] == '.'
    requires LastIndexOfChar(c, '.').None? && c != [] && 'a' <= c[0] <= 'z'
    ensures WellFormedHost(p + c)
  {
    AlphabetAppend(p, c);
    LastLabelBehindDot(p, c);
  }

  /** The domain used as the example: each spelling of `h` = "vitalize.care" normalises to `h`. */
  lemma VitalizeExample(h: string)
    requires h == "vitalize.care"
    ensures Normalize(h) == h
    ensures Normalize("www." + h) == h
    ensures Normalize("https://" + h) == h
  {
    VitalizeWellFormed(h);
    NormalizeIdempotent(h);
    PrefixInvariance(h);
  }

  /** The host taken from an authority has no `/`. */
  lemma AuthorityHostNoSlash(rest: string)
    ensures forall k :: 0 <= k < |HostPart(AfterUserInfo(rest[..AuthorityLength(rest)]))| ==>
      HostPart(AfterUserInfo(rest[..AuthorityLength(rest)]))[k] != '/'
  {
    var a := rest[..AuthorityLength(rest)];
    var hp := AfterUserInfo(a);
    var host := HostPart(hp);
    forall k | 0 <= k < |host| ensures host[k] != '/' {
      assert host[k] == hp[k] == a[|a| - |hp| + k];
    }
  }

  /** No `/` survives in a parsed hostname. */
  lemma HostnameHasNoSlash(url: string)
    requires Hostname(url).Some?
    ensures forall k :: 0 <= k < |Hostname(url).value| ==> Hostname(url).value[k] != '/'
  {
    var i := IndexOf(url, "://").value;
    var rest := url[i + 3..];
    AuthorityHostNoSlash(rest);
    LowerKeepsAbsent(HostPart(AfterUserInfo(rest[..AuthorityLength(rest)])), '/');
  }

  lemma SchemeStripKeepsNoLineTerminator(l: string)
    requires NoLineTerminator(l)
    ensures NoLineTerminator(StripWww(StripHttpScheme(l)))
  {
    NotBothSchemes(l);
    var v := StripHttpScheme(l);
    assert NoLineTerminator(v) by {
      forall k | 0 <= k < |v| ensures !IsLineTerminator(v[k]) { assert v[k] == l[|l| - |v| + k]; }
    }
    var u := StripWww(v);
    forall k | 0 <= k < |u| ensures !IsLineTerminator(u[k]) { assert u[k] == v[|v| - |u| + k]; }
  }

  lemma FallbackHasNoSlash(s: string)
    requires NoLineTerminator(s)
    ensures forall k :: 0 <= k < |Fallback(s)| ==> Fallback(s)[k] != '/'
  {
    TrimKeepsNoLineTerminator(s);
    LowerKeepsNoLineTerminator(Trim(s));
    SchemeStripKeepsNoLineTerminator(Lower(Trim(s)));
  }

  /**
   * Only a hostname survives: for input on one line, the result contains no `/`
   * (the URL branch keeps the host alone, the fallback cuts at the first `/`).
   */
  lemma NormalizeHasNoSlash(s: string)
    requires NoLineTerminator(s)
    ensures forall k :: 0 <= k < |Normalize(s)| ==> Normalize(s)[k] != '/'
  {
    var u := WithScheme(Trim(s));
    match Hostname(u)
    case Some(h) =>
      HostnameHasNoSlash(u);
      StripWwwNoSlash(h);
    case None =>
      FallbackHasNoSlash(s);
  }

  lemma StripWwwNoSlash(h: string)
    requires forall k :: 0 <= k < |h| ==> h[k] != '/'
    ensures forall k :: 0 <= k < |StripWww(h)| ==> StripWww(h)[k] != '/'
  {
    var w := StripWww(h);
    forall k | 0 <= k < |w| ensures w[k] != '/' { assert w[k] == h[|h| - |w| + k]; }
  }

  /** The two definitions differ only where the case-sensitive "http" test and the case-insensitive one disagree. */
  lemma AsWrittenAgrees(s: string)
    requires StartsWith(Trim(s), "http") == StartsWith(Lower(Trim(s)), "http")
    ensures NormalizeAsWritten(s) == Normalize(s)
  {
  }

  lemma AsWrittenWithoutScheme(s: string, h: string)
    requires Trim(s) == s && !StartsWith(s, "http")
    requires Hostname("https://" + s) == Some(h)
    ensures NormalizeAsWritten(s) == StripWww(h)
  {
  }

  /** In p + h, for a scheme prefix p, the authority is the scheme and its colon. */
  lemma SchemeAsAuthority(p: string, h: string)
    requires LetterSchemePrefix(p)
    ensures AuthorityLength(p + h) == |p| - 2 && (p + h)[..|p| - 2] == p[..|p| - 2]
  {
    var rest := p + h;
    assert rest[|p| - 2] == p[|p| - 2] == '/';
    assert forall k :: 0 <= k < |p| - 2 ==> rest[k] == p[k];
    assert p[|p| - 3] == ':';
  }

  /** The authority "<scheme>:" is the host "<scheme>" with an empty port. */
  lemma SchemeAsHost(a: string)
    requires |a| >= 2 && a[|a| - 1] == ':'
    requires forall k :: 0 <= k < |a| - 1 ==> IsAsciiLetter(a[k])
    ensures AfterUserInfo(a) == a
    ensures HostPart(a) == a[..|a| - 1]
    ensures AllowedHost(a[..|a| - 1])
  {
    forall k | 0 <= k < |a| - 1 ensures !ForbiddenHostChar(a[k]) && a[k] != '@' {
      LetterAllowed(a[k]);
    }
    HostPartStopsAtColon(a, |a| - 1);
    assert LastIndexOfChar(a, '@').None?;
  }

  /** A URL whose authority is "<host>:" parses to the lower-cased host (an empty port is allowed). */
  lemma HostnameWithEmptyPort(url: string, i: nat, a: string)
    requires IndexOf(url, "://") == Some(i) && ValidScheme(url[..i])
    requires url[i + 3..][..AuthorityLength(url[i + 3..])] == a
    requires |a| >= 2 && a[|a| - 1] == ':'
    requires forall k :: 0 <= k < |a| - 1 ==> IsAsciiLetter(a[k])
    ensures Hostname(url) == Some(Lower(a[..|a| - 1]))
  {
    SchemeAsHost(a);
    assert a[|a|..] == "";
    HostnameFrom(url, i, a, a[..|a| - 1]);
  }

  /** `new URL("https://" + p + h).hostname`, for a scheme prefix p, is the scheme itself, lower-cased. */
  lemma DoubledSchemeHostname(p: string, h: string)
    requires LetterSchemePrefix(p)
    ensures Hostname("https://" + (p + h)) == Some(Lower(p[..|p| - 3]))
  {
    HttpsPrefix();
    SchemeBeforeScheme("https://", p, h);
  }

  /** After any scheme prefix q, a second scheme prefix p is read as the host "p-without-://" with an empty port. */
  lemma SchemeBeforeScheme(q: string, p: string, h: string)
    requires LetterSchemePrefix(q) && LetterSchemePrefix(p)
    ensures Hostname(q + (p + h)) == Some(Lower(p[..|p| - 3]))
  {
    SchemeSeparatorAt(q, p + h);
    SchemeAsAuthority(p, h);
    var a := p[..|p| - 2];
    assert a[..|a| - 1] == p[..|p| - 3];
    HostnameWithEmptyPort(q + (p + h), |q| - 3, a);
  }

  lemma UnrecognisedSchemeFacts(p: string, h: string)
    requires LetterSchemePrefix(p) && !StartsWith(p, "http")
    requires WellFormedHost(h)
    ensures Trim(p + h) == p + h && !StartsWith(p + h, "http")
  {
    EndChars(p, h);
    TrimmedNoOp(p + h);
    assert (p + h)[..4] == p[..4];
  }

  /**
   * As written, an input whose scheme is not spelt with a lower-case "http" is given
   * a second "https://" and normalises to its own scheme name.
   */
  lemma UnrecognisedSchemeAsWritten(p: string, h: string)
    requires LetterSchemePrefix(p) && !StartsWith(p, "http")
    requires WellFormedHost(h)
    ensures NormalizeAsWritten(p + h) == StripWww(Lower(p[..|p| - 3]))
  {
    UnrecognisedSchemeFacts(p, h);
    DoubledSchemeHostname(p, h);
    AsWrittenWithoutScheme(p + h, Lower(p[..|p| - 3]));
  }

  /** The instance behind the finding: "HTTPS://" + h normalises to "https" as written. */
  lemma UpperSchemeAsWritten(h: string)
    requires WellFormedHost(h)
    ensures NormalizeAsWritten("HTTPS://" + h) == "https"
  {
    UpperHttpsScheme("HTTPS://");
    UnrecognisedSchemeAsWritten("HTTPS://", h);
  }

  lemma UpperHttpsScheme(p: string)
    requires |p| == 8 && p[..5] == "HTTPS" && p[5..] == "://"
    ensures LetterSchemePrefix(p) && !StartsWith(p, "http")
    ensures StripWww(Lower(p[..|p| - 3])) == "https"
  {
    assert p[..4] == p[..5][..4];
    assert p[4] == p[..5][4];
    HttpSchemePrefix(p, 5);
    assert p[0] == p[..5][0];
    UpperSchemeLower(p[..5]);
    assert "https"[0] != 'w';
  }

  lemma UpperSchemeLower(u: string)
    requires u == "HTTPS"
    ensures Lower(u) == "https"
  {
    var l := Lower(u);
    assert l[0] == AsciiLower('H') == 'h';
    assert l[1] == AsciiLower('T') == 't';
    assert l[2] == AsciiLower('T') == 't';
    assert l[3] == AsciiLower('P') == 'p';
    assert l[4] == AsciiLower('S') == 's';
  }

  /** With the case-insensitive test, an upper-case scheme is handled like a lower-case one. */
  lemma UpperSchemeCorrected(h: string)
    requires WellFormedHost(h)
    ensures Normalize("HTTPS://" + h) == StripWww(h)
  {
    UpperHttpsPrefix();
    NormalizeSchemeHost("HTTPS://", h);
  }

  lemma TrimmedNoOp(s: string)
    requires s != [] && !IsSpace(s[0]) && !IsSpace(s[|s| - 1])
    ensures Trim(s) == s
  {
    TrimOfTrimmed(s);
  }
}
