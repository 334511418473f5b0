/**
 * The JavaScript string operations the screener relies on, stated on `seq<char>`:
 * `trim`, `startsWith`, `includes`, `indexOf`, `split` and `join` with a literal
 * separator, `replace` with a literal pattern (first occurrence only), and the
 * ASCII part of `toLowerCase`.
 */
module Text {
  import opened Wrappers

  /** ECMAScript white space and line terminators: the set matched by `\s` and removed by `trim()`. */
  predicate IsSpace(c: char) {
    c == ' ' || c == '\t' || c == '\n' || c == '\r' || c == '\U{000B}' || c == '\U{000C}'
    || c == '\U{00A0}' || c == '\U{1680}' || ('\U{2000}' <= c <= '\U{200A}')
    || c == '\U{2028}' || c == '\U{2029}' || c == '\U{202F}' || c == '\U{205F}'
    || c == '\U{3000}' || c == '\U{FEFF}'
  }

  /** The characters that the regular-expression `.` does not match (no `s` flag). */
  predicate IsLineTerminator(c: char) {
    c == '\n' || c == '\r' || c == '\U{2028}' || c == '\U{2029}'
  }

  predicate AllSpace(s: string) {
    forall i :: 0 <= i < |s| ==> IsSpace(s[i])
  }

  predicate NoLineTerminator(s: string) {
    forall i :: 0 <= i < |s| ==> !IsLineTerminator(s[i])
  }

  /** `s.trimStart()`: the longest suffix of `s` that does not start with white space. */
  function TrimStart(s: string): (r: string)
    ensures |r| <= |s| && r == s[|s| - |r|..]
    ensures AllSpace(s[..|s| - |r|])
    ensures r == [] || !IsSpace(r[0])
  {
    if s != [] && IsSpace(s[0]) then TrimStart(s[1..]) else s
  }

  /** `s.trimEnd()`: the longest prefix of `s` that does not end with white space. */
  function TrimEnd(s: string): (r: string)
    ensures |r| <= |s| && r == s[..|r|]
    ensures AllSpace(s[|r|..])
    ensures r == [] || !IsSpace(r[|r| - 1])
  {
    if s != [] && IsSpace(s[|s| - 1]) then TrimEnd(s[..|s| - 1]) else s
  }

  /** `s.trim()`. */
  function Trim(s: string): (r: string)
    ensures |r| <= |s|
    ensures r == [] || (!IsSpace(r[0]) && !IsSpace(r[|r| - 1]))
    ensures AllSpace(s) <==> r == []
  {
    var t := TrimStart(s);
    assert AllSpace(s) <==> t == [] by {
      if t != [] { assert s[|s| - |t|] == t[0]; }
      else { assert s[..|s|] == s; }
    }
    TrimEnd(t)
  }

  lemma TrimOfTrimmed(s: string)
    requires s == [] || (!IsSpace(s[0]) && !IsSpace(s[|s| - 1]))
    ensures Trim(s) == s
  {
  }

  /** `trim()` only removes characters, so a character absent from `s` is absent from `s.trim()`. */
  lemma TrimKeepsAbsent(s: string, c: char)
    requires c !in s
    ensures c !in Trim(s)
  {
    var t := TrimStart(s);
    AbsentFromSlice(s, c, |s| - |t|, |s|);
    var r := TrimEnd(t);
    AbsentFromSlice(t, c, 0, |r|);
  }

  lemma AbsentFromSlice(s: string, c: char, a: nat, b: nat)
    requires c !in s && a <= b <= |s|
    ensures c !in s[a..b]
  {
    var t := s[a..b];
    forall k | 0 <= k < |t| ensures t[k] != c {
      assert t[k] == s[a + k];
    }
  }

  lemma TrimIdempotent(s: string)
    ensures Trim(Trim(s)) == Trim(s)
  {
    TrimOfTrimmed(Trim(s));
  }

  /** Leading white space makes no difference to `trimStart()`. */
  lemma {:induction false} TrimStartPadded(a: string, s: string)
    requires AllSpace(a)
    ensures TrimStart(a + s) == TrimStart(s)
  {
    if a == [] {
      assert a + s == s;
    } else {
      assert (a + s)[1..] == a[1..] + s;
      TrimStartPadded(a[1..], s);
    }
  }

  /** Trailing white space makes no difference to `trimEnd()`. */
  lemma {:induction false} TrimEndPadded(s: string, b: string)
    requires AllSpace(b)
    ensures TrimEnd(s + b) == TrimEnd(s)
  {
    if b == [] {
      assert s + b == s;
    } else {
      assert (s + b)[..|s + b| - 1] == s + b[..|b| - 1];
      TrimEndPadded(s, b[..|b| - 1]);
    }
  }

  /** Text appended after a part that is not all white space survives `trimStart()`. */
  lemma {:induction false} TrimStartAppend(s: string, b: string)
    requires !AllSpace(s)
    ensures TrimStart(s + b) == TrimStart(s) + b
  {
    if IsSpace(s[0]) {
      assert (s + b)[1..] == s[1..] + b;
      TrimStartAppend(s[1..], b);
    }
  }

  /** `trim()` ignores white space added around its input. */
  lemma TrimPadded(a: string, s: string, b: string)
    requires AllSpace(a) && AllSpace(b)
    ensures Trim(a + s + b) == Trim(s)
  {
    if AllSpace(s) {
      assert AllSpace(a + s + b) by {
        forall i | 0 <= i < |a + s + b| ensures IsSpace((a + s + b)[i]) {
          if i < |a| { assert (a + s + b)[i] == a[i]; }
          else if i < |a| + |s| { assert (a + s + b)[i] == s[i - |a|]; }
          else { assert (a + s + b)[i] == b[i - |a| - |s|]; }
        }
      }
    } else {
      assert a + s + b == a + (s + b);
      TrimStartPadded(a, s + b);
      TrimStartAppend(s, b);
      TrimEndPadded(TrimStart(s), b);
    }
  }

  /** The number of `\s` characters in `s` from index `i` on: how far a greedy `\s*` reaches. */
  function SpaceRun(s: string, i: nat): (n: nat)
    requires i <= |s|
    ensures i + n <= |s|
    ensures forall m :: i <= m < i + n ==> IsSpace(s[m])
    ensures i + n == |s| || !IsSpace(s[i + n])
    decreases |s| - i
  {
    if i < |s| && IsSpace(s[i]) then 1 + SpaceRun(s, i + 1) else 0
  }

  /** A run stops at the first character that is not white space. */
  lemma {:induction false} SpaceRunExact(s: string, i: nat, m: nat)
    requires i <= m < |s| && !IsSpace(s[m])
    requires forall t :: i <= t < m ==> IsSpace(s[t])
    ensures SpaceRun(s, i) == m - i
    decreases m - i
  {
    if i < m {
      SpaceRunExact(s, i + 1, m);
    }
  }

  /** A greedy run from `i` ends no later than the next non-space character. */
  lemma {:induction false} SpaceRunStopsBefore(s: string, i: nat, m: nat)
    requires i <= m < |s| && !IsSpace(s[m])
    ensures i + SpaceRun(s, i) <= m
    decreases m - i
  {
    if i < m && IsSpace(s[i]) {
      SpaceRunStopsBefore(s, i + 1, m);
    }
  }

  function AsciiLower(c: char): (r: char)
    ensures 'A' <= c <= 'Z' ==> r as int == c as int + 32
    ensures !('A' <= c <= 'Z') ==> r == c
  {
    if 'A' <= c <= 'Z' then (c as int + 32) as char else c
  }

  function AsciiUpper(c: char): (r: char)
    ensures 'a' <= c <= 'z' ==> r as int == c as int - 32
    ensures !('a' <= c <= 'z') ==> r == c
  {
    if 'a' <= c <= 'z' then (c as int - 32) as char else c
  }

  predicate IsAsciiLetter(c: char) {
    'A' <= c <= 'Z' || 'a' <= c <= 'z'
  }

  /** No character of `s` is an upper-case ASCII letter. */
  predicate IsLower(s: string) {
    forall i :: 0 <= i < |s| ==> !('A' <= s[i] <= 'Z')
  }

  /** `s.toLowerCase()`, restricted to ASCII letters. */
  function Lower(s: string): (r: string)
    ensures |r| == |s| && IsLower(r)
    ensures forall i :: 0 <= i < |s| ==> r[i] == AsciiLower(s[i])
  {
    if s == [] then [] else [AsciiLower(s[0])] + Lower(s[1..])
  }

  lemma LowerOfLower(s: string)
    requires IsLower(s)
    ensures Lower(s) == s
  {
  }

  lemma LowerAppend(a: string, b: string)
    ensures Lower(a + b) == Lower(a) + Lower(b)
  {
    var l := Lower(a + b);
    var r := Lower(a) + Lower(b);
    forall k | 0 <= k < |l| ensures l[k] == r[k] {
      if k < |a| { assert (a + b)[k] == a[k]; } else { assert (a + b)[k] == b[k - |a|]; }
    }
  }

  lemma StartsWithAppend(x: string, y: string, q: string)
    requires StartsWith(x, q)
    ensures StartsWith(x + y, q)
  {
    assert (x + y)[..|q|] == x[..|q|];
  }

  /** Lower-casing keeps a prefix that is already lower case. */
  lemma LowerKeepsLowerPrefix(s: string, p: string)
    requires StartsWith(s, p) && IsLower(p)
    ensures StartsWith(Lower(s), p)
  {
    var l := Lower(s);
    forall k | 0 <= k < |p| ensures l[..|p|][k] == p[k] {
      assert s[k] == p[k];
    }
  }

  /** Lower-casing never produces a character that is not an ASCII letter unless it was there already. */
  lemma LowerKeepsAbsent(s: string, c: char)
    requires !IsAsciiLetter(c)
    requires forall k :: 0 <= k < |s| ==> s[k] != c
    ensures forall k :: 0 <= k < |Lower(s)| ==> Lower(s)[k] != c
  {
  }

  lemma LowerKeepsNoLineTerminator(s: string)
    requires NoLineTerminator(s)
    ensures NoLineTerminator(Lower(s))
  {
    var l := Lower(s);
    forall k | 0 <= k < |l| ensures !IsLineTerminator(l[k]) { assert l[k] == AsciiLower(s[k]); }
  }

  lemma TrimKeepsNoLineTerminator(s: string)
    requires NoLineTerminator(s)
    ensures NoLineTerminator(Trim(s))
  {
    var t := TrimStart(s);
    assert NoLineTerminator(t) by {
      forall k | 0 <= k < |t| ensures !IsLineTerminator(t[k]) { assert t[k] == s[|s| - |t| + k]; }
    }
    var r := TrimEnd(t);
    forall k | 0 <= k < |r| ensures !IsLineTerminator(r[k]) { assert r[k] == t[k]; }
  }

  /** `a` and `b` agree up to ASCII case (the regular-expression `i` flag without `u`). */
  predicate EqualIgnoringCase(a: string, b: string) {
    |a| == |b| && forall i :: 0 <= i < |a| ==> AsciiLower(a[i]) == AsciiLower(b[i])
  }

  predicate StartsWith(s: string, p: string) {
    |p| <= |s| && s[..|p|] == p
  }

  predicate EndsWith(s: string, p: string) {
    |p| <= |s| && s[|s| - |p|..] == p
  }

  /** `p` occurs in `s` at index `i`. */
  predicate OccursAt(s: string, p: string, i: nat) {
    i + |p| <= |s| && s[i..i + |p|] == p
  }

  /** `s.indexOf(p, from)`, or `None` for -1. */
  function IndexOfFrom(s: string, p: string, from: nat): (r: Option<nat>)
    requires from <= |s|
    ensures r.Some? ==> from <= r.value && OccursAt(s, p, r.value)
    ensures r.Some? ==> forall j :: from <= j < r.value ==> !OccursAt(s, p, j)
    ensures r.None? ==> forall j :: from <= j <= |s| ==> !OccursAt(s, p, j)
    decreases |s| - from
  {
    if OccursAt(s, p, from) then Some(from)
    else if from == |s| then None
    else IndexOfFrom(s, p, from + 1)
  }

  /** `s.indexOf(p)`: the first occurrence of `p` in `s`. */
  function IndexOf(s: string, p: string): (r: Option<nat>)
    ensures r.Some? ==> OccursAt(s, p, r.value)
    ensures r.Some? ==> forall j :: 0 <= j < r.value ==> !OccursAt(s, p, j)
    ensures r.None? ==> forall j :: 0 <= j <= |s| ==> !OccursAt(s, p, j)
  {
    IndexOfFrom(s, p, 0)
  }

  /** `s.includes(p)`. */
  predicate Contains(s: string, p: string) {
    IndexOf(s, p).Some?
  }

  /** The first occurrence is the one that every earlier index fails. */
  lemma IndexOfIsFirst(s: string, p: string, k: nat)
    requires OccursAt(s, p, k)
    requires forall j :: 0 <= j < k ==> !OccursAt(s, p, j)
    ensures IndexOf(s, p) == Some(k)
  {
  }

  lemma ContainsWhenOccurs(s: string, p: string, k: nat)
    requires OccursAt(s, p, k)
    ensures Contains(s, p)
  {
  }

  lemma NotContainsWhenNowhere(s: string, p: string)
    requires forall j :: 0 <= j <= |s| ==> !OccursAt(s, p, j)
    ensures !Contains(s, p)
  {
  }

  /** A text that lacks one of the characters of `p` does not contain `p`. */
  lemma WithoutCharOf(s: string, p: string, m: nat)
    requires m < |p| && p[m] !in s
    ensures !Contains(s, p)
  {
    forall j | 0 <= j <= |s| ensures !OccursAt(s, p, j) {
      if j + |p| <= |s| { assert s[j..j + |p|][m] == s[j + m]; }
    }
  }

  /** `s.lastIndexOf(c)` for a single character. */
  function LastIndexOfChar(s: string, c: char): (r: Option<nat>)
    ensures r.Some? ==> r.value < |s| && s[r.value] == c
    ensures r.Some? ==> forall j :: r.value < j < |s| ==> s[j] != c
    ensures r.None? ==> forall j :: 0 <= j < |s| ==> s[j] != c
  {
    if s == [] then None
    else if s[|s| - 1] == c then Some(|s| - 1)
    else LastIndexOfChar(s[..|s| - 1], c)
  }

  /** `s.replace(p, q)` with a string pattern: only the first occurrence is replaced. */
  function ReplaceFirst(s: string, p: string, q: string): (r: string)
    ensures IndexOf(s, p).None? ==> r == s
    ensures IndexOf(s, p).Some? ==>
      var i := IndexOf(s, p).value; r == s[..i] + q + s[i + |p|..]
  {
    match IndexOf(s, p)
    case None => s
    case Some(i) => s[..i] + q + s[i + |p|..]
  }

  /** `parts.join(sep)`. */
  function Join(parts: seq<string>, sep: string): string {
    if |parts| == 0 then ""
    else if |parts| == 1 then parts[0]
    else parts[0] + sep + Join(parts[1..], sep)
  }

  /** `s.split(sep)` for a non-empty literal separator. */
  function Split(s: string, sep: string): (r: seq<string>)
    requires sep != []
    ensures |r| >= 1
    decreases |s|
  {
    match IndexOf(s, sep)
    case None => [s]
    case Some(i) => [s[..i]] + Split(s[i + |sep|..], sep)
  }

  /** `parts.filter(Boolean)` on strings: drops the empty ones, keeps the order. */
  function NonEmpty(parts: seq<string>): (r: seq<string>)
    ensures |r| <= |parts|
    ensures forall k :: 0 <= k < |r| ==> r[k] != []
    ensures forall x :: x in r <==> x in parts && x != []
  {
    if parts == [] then []
    else if parts[0] == [] then NonEmpty(parts[1..])
    else [parts[0]] + NonEmpty(parts[1..])
  }

  lemma NonEmptyOfNonEmpty(parts: seq<string>)
    requires forall k :: 0 <= k < |parts| ==> parts[k] != []
    ensures NonEmpty(parts) == parts
  {
  }

  /**
   * Joining `p` to what follows with `sep` creates no occurrence of `sep` that starts
   * inside `p`: the first occurrence after `p` is the separator itself.
   */
  predicate SeparatesCleanly(p: string, sep: string) {
    forall i :: 0 <= i < |p| ==> !OccursAt(p + sep, sep, i)
  }

  /** `split` undoes `join` when every part but the last separates cleanly and the last holds no separator. */
  lemma {:induction false} SplitJoin(parts: seq<string>, sep: string)
    requires sep != [] && |parts| >= 1
    requires forall k :: 0 <= k < |parts| - 1 ==> SeparatesCleanly(parts[k], sep)
    requires !Contains(parts[|parts| - 1], sep)
    ensures Split(Join(parts, sep), sep) == parts
  {
    if |parts| > 1 {
      var p, rest := parts[0], Join(parts[1..], sep);
      assert Join(parts, sep) == p + sep + rest;
      SplitStep(p, sep, rest);
      SplitJoin(parts[1..], sep);
    }
  }

  /** Splitting `p + sep + rest` cuts at the separator after `p` when `p` separates cleanly. */
  lemma SplitStep(p: string, sep: string, rest: string)
    requires sep != [] && SeparatesCleanly(p, sep)
    ensures Split(p + sep + rest, sep) == [p] + Split(rest, sep)
  {
    var s := p + sep + rest;
    forall j | 0 <= j < |p| ensures !OccursAt(s, sep, j) {
      assert !OccursAt(p + sep, sep, j);
      assert s[j..j + |sep|] == (p + sep)[j..j + |sep|];
    }
    assert s[|p|..|p| + |sep|] == sep;
    IndexOfIsFirst(s, sep, |p|);
    assert s[..|p|] == p;
    assert s[|p| + |sep|..] == rest;
  }

  /** A two-character separator whose characters differ ("; ", ", ") cannot overlap itself. */
  lemma CleanForBorderFreePair(p: string, sep: string)
    requires |sep| == 2 && sep[0] != sep[1]
    requires !Contains(p, sep)
    ensures SeparatesCleanly(p, sep)
  {
    forall i | 0 <= i < |p| ensures !OccursAt(p + sep, sep, i) {
      if i + 2 <= |p| {
        assert (p + sep)[i..i + 2] == p[i..i + 2];
        if OccursAt(p + sep, sep, i) { ContainsWhenOccurs(p, sep, i); }
      } else {
        assert (p + sep)[i..i + 2] == [p[i], sep[0]];
      }
    }
  }

  /** The list round trip for a border-free two-character separator. */
  lemma SplitJoinPair(parts: seq<string>, sep: string)
    requires |sep| == 2 && sep[0] != sep[1] && |parts| >= 1
    requires forall k :: 0 <= k < |parts| ==> !Contains(parts[k], sep)
    ensures Split(Join(parts, sep), sep) == parts
  {
    forall k | 0 <= k < |parts| - 1 ensures SeparatesCleanly(parts[k], sep) {
      CleanForBorderFreePair(parts[k], sep);
    }
    SplitJoin(parts, sep);
  }

  /** The list round trip for a one-character separator that no part holds. */
  lemma SplitJoinChar(parts: seq<string>, sep: string)
    requires |sep| == 1 && |parts| >= 1
    requires forall k :: 0 <= k < |parts| ==> sep[0] !in parts[k]
    ensures Split(Join(parts, sep), sep) == parts
  {
    forall k | 0 <= k < |parts| - 1 ensures SeparatesCleanly(parts[k], sep) {
      var p := parts[k];
      forall i | 0 <= i < |p| ensures !OccursAt(p + sep, sep, i) {
        assert (p + sep)[i] == p[i];
      }
    }
    var last := parts[|parts| - 1];
    forall j | 0 <= j <= |last| ensures !OccursAt(last, sep, j) {
      if j + 1 <= |last| { assert last[j..j + 1][0] == last[j]; }
    }
    NotContainsWhenNowhere(last, sep);
    SplitJoin(parts, sep);
  }

  /** Joining non-empty parts gives the empty text only for the empty list. */
  lemma {:induction false} JoinEmpty(parts: seq<string>, sep: string)
    requires forall k :: 0 <= k < |parts| ==> parts[k] != []
    ensures Join(parts, sep) == [] <==> parts == []
  {
    if |parts| > 1 {
      assert |Join(parts, sep)| >= |parts[0]|;
    }
  }
}
