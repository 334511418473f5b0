/**
 * The page-fetching route, app/api/fetch-page/route.js: the URL variants it tries, the loop that
 * takes the first one served, the links and banners it keeps, and its reply. The fetches are a
 * function from a URL to what fetching it produced; the route's regular-expression scans of the
 * raw page (links, banners) are functions from the page to their matches, in order.
 */
module FetchPage {
  import opened Wrappers
  import opened Text
  import opened Http
  import Integers
  import PageText

  // ------------------------------------------------------------ URL variants

  /** The original URL; then without its first `www.`, or with `www.` after its first `://`; then over `http` for an `https` URL. */
  function Variants(url: string): (tries: seq<string>)
    ensures 2 <= |tries| <= 3 && tries[0] == url
    ensures tries[1] == if Contains(url, "www.") then ReplaceFirst(url, "www.", "") else ReplaceFirst(url, "://", "://www.")
    ensures |tries| == 3 <==> StartsWith(url, "https://")
    ensures |tries| == 3 ==> tries[2] == "http://" + url[8..]
  {
    var second := if Contains(url, "www.") then ReplaceFirst(url, "www.", "") else ReplaceFirst(url, "://", "://www.");
    if StartsWith(url, "https://") then
      assert IndexOf(url, "https://") == Some(0) by {
        IndexOfIsFirst(url, "https://", 0);
      }
      [url, second, ReplaceFirst(url, "https://", "http://")]
    else [url, second]
  }

  /** The pushes onto `urlVariations`. */
  method Variations(url: string) returns (tries: seq<string>)
    ensures tries == Variants(url)
  {
    tries := [url];
    if Contains(url, "www.") {
      tries := tries + [ReplaceFirst(url, "www.", "")];
    } else {
      tries := tries + [ReplaceFirst(url, "://", "://www.")];
    }
    if StartsWith(url, "https://") {
      tries := tries + [ReplaceFirst(url, "https://", "http://")];
    }
  }

  /** The second variant repeats the URL only when the URL has neither `www.` nor `://`. */
  lemma SecondVariantDiffers(url: string)
    ensures var second := if Contains(url, "www.") then ReplaceFirst(url, "www.", "") else ReplaceFirst(url, "://", "://www.");
      second == url <==> !Contains(url, "www.") && !Contains(url, "://")
  {
    if Contains(url, "www.") {
      assert |ReplaceFirst(url, "www.", "")| == |url| - 4;
    } else if Contains(url, "://") {
      assert |ReplaceFirst(url, "://", "://www.")| == |url| + 4;
    }
  }

  // ------------------------------------------------------------ trying the variants

  /** What fetching one URL produced: a response with its status and text, or a thrown error. */
  datatype Fetched = Served(status: nat, body: string) | Unreachable(message: string)

  predicate Succeeded(f: Fetched) {
    f.Served? && IsOk(f.status)
  }

  /** `lastError` after a failed try. */
  function TryError(tryUrl: string, f: Fetched): string {
    match f
    case Served(status, _) => tryUrl + ": HTTP " + Integers.Decimal(status)
    case Unreachable(message) => tryUrl + ": " + message
  }

  /** The index of the first URL served, `|tries|` when none was. */
  function FirstServed(tries: seq<string>, fetch: string -> Fetched): (n: nat)
    ensures n <= |tries| && (n < |tries| ==> Succeeded(fetch(tries[n])))
    ensures forall k :: 0 <= k < n ==> !Succeeded(fetch(tries[k]))
    decreases |tries|
  {
    if tries == [] then 0
    else if Succeeded(fetch(tries[0])) then 0
    else 1 + FirstServed(tries[1..], fetch)
  }

  /** The `for (const tryUrl of urlVariations)` loop: the page of the first URL served, and the last error before it. */
  method TryInOrder(tries: seq<string>, fetch: string -> Fetched) returns (html: Option<string>, lastError: string)
    ensures var n := FirstServed(tries, fetch);
      && (html.Some? <==> n < |tries|)
      && (html.Some? ==> html.value == fetch(tries[n]).body)
      && lastError == LastError(tries, fetch, n)
  {
    html := None;
    lastError := "null";
    var i := 0;
    while i < |tries|
      invariant 0 <= i <= |tries| && i <= FirstServed(tries, fetch)
      invariant lastError == LastError(tries, fetch, i)
      invariant html.None?
    {
      var f := fetch(tries[i]);
      if f.Served? && IsOk(f.status) {
        html := Some(f.body);
        FirstServedAt(tries, fetch, i);
        return;
      }
      lastError := match f
        case Served(status, _) => tries[i] + ": HTTP " + Integers.Decimal(status)
        case Unreachable(message) => tries[i] + ": " + message;
      assert i < FirstServed(tries, fetch);
      i := i + 1;
    }
  }

  lemma FirstServedAt(tries: seq<string>, fetch: string -> Fetched, n: nat)
    requires n < |tries| && Succeeded(fetch(tries[n]))
    requires forall k :: 0 <= k < n ==> !Succeeded(fetch(tries[k]))
    ensures FirstServed(tries, fetch) == n
  {
  }

  // ------------------------------------------------------------ links

  /** A link match of the raw page: the `href` and the inner HTML of an `<a>` element. */
  datatype LinkMatch = LinkMatch(href: string, inner: string)

  datatype Link = Link(href: string, text: string)

  /** The inner HTML of a link without its tags, trimmed. */
  function LinkText(inner: string): (t: string)
    ensures t == [] || (!IsSpace(t[0]) && !IsSpace(t[|t| - 1]))
  {
    Trim(PageText.StripTags(inner, ""))
  }

  /** An `href` that leads somewhere: not empty, not a fragment, not a script. */
  predicate Navigable(href: string) {
    href != "" && !StartsWith(href, "#") && !StartsWith(href, "javascript:")
  }

  /** A link is kept when its text is non-empty and its `href` is navigable. */
  function KeptLink(m: LinkMatch): seq<Link> {
    var text := LinkText(m.inner);
    if text != "" && Navigable(m.href) then [Link(m.href, text)] else []
  }

  function KeptLinks(ms: seq<LinkMatch>): seq<Link>
    decreases |ms|
  {
    if ms == [] then []
    else KeptLinks(ms[..|ms| - 1]) + KeptLink(ms[|ms| - 1])
  }

  /** The `while (linkMatch = linkRegex.exec(html))` loop. */
  method CollectLinks(ms: seq<LinkMatch>) returns (links: seq<Link>)
    ensures links == KeptLinks(ms)
  {
    links := [];
    for i := 0 to |ms|
      invariant links == KeptLinks(ms[..i])
    {
      assert ms[..i + 1][..i] == ms[..i];
      var href := ms[i].href;
      var linkText := LinkText(ms[i].inner);
      if linkText != "" && Navigable(href) {
        links := links + [Link(href, linkText)];
      }
    }
    assert ms[..|ms|] == ms;
  }

  /** A kept link: a text free of surrounding space, an `href` that leads somewhere. */
  predicate Clean(l: Link) {
    l.text != "" && !IsSpace(l.text[0]) && !IsSpace(l.text[|l.text| - 1]) && Navigable(l.href)
  }

  lemma {:induction false} KeptLinksClean(ms: seq<LinkMatch>)
    ensures |KeptLinks(ms)| <= |ms|
    ensures forall l :: l in KeptLinks(ms) ==> Clean(l)
    decreases |ms|
  {
    if ms != [] {
      var init, last := ms[..|ms| - 1], ms[|ms| - 1];
      KeptLinksClean(init);
      KeptLinkClean(last);
      assert KeptLinks(ms) == KeptLinks(init) + KeptLink(last);
    }
  }

  lemma KeptLinkClean(m: LinkMatch)
    ensures |KeptLink(m)| <= 1
    ensures forall l :: l in KeptLink(m) ==> Clean(l)
  {
  }

  /** The text of a kept link is its inner HTML with no tag left. */
  lemma KeptLinkTagless(m: LinkMatch)
    ensures forall l :: l in KeptLink(m) ==> l.href == m.href && exists x :: PageText.Tagless(x) && l.text == Trim(x)
  {
    PageText.StripTagsTagless(m.inner, "");
  }

  // ------------------------------------------------------------ announcements

  const Keywords := ["introduc", "launch", "announc", "new", "blog", "news", "learn more", "read more",
                     "what's new", "changelog", "update", "release"]

  /** The link's text and `href`, lower-cased, mention one of the keywords. */
  predicate Announces(l: Link) {
    var t := Lower(l.text + " " + l.href);
    exists k :: 0 <= k < |Keywords| && Contains(t, Keywords[k])
  }

  function Announcing(links: seq<Link>): (r: seq<Link>)
    ensures |r| <= |links|
    ensures forall l :: l in r ==> l in links && Announces(l)
    decreases |links|
  {
    if links == [] then []
    else (if Announces(links[0]) then [links[0]] else []) + Announcing(links[1..])
  }

  /** `links.filter(…).slice(0, 10)`. */
  function AnnouncementLinks(links: seq<Link>): (r: seq<Link>)
    ensures |r| <= 10 && |r| <= |links|
    ensures forall l :: l in r ==> l in links && Announces(l)
  {
    var a := Announcing(links);
    if |a| <= 10 then a else a[..10]
  }

  /** `a` is `b` with some elements left out, in the same order. */
  predicate Subsequence<T(==)>(a: seq<T>, b: seq<T>)
    decreases |b|
  {
    if a == [] then true
    else if b == [] then false
    else if a[0] == b[0] then Subsequence(a[1..], b[1..])
    else Subsequence(a, b[1..])
  }

  lemma {:induction false} SubsequencePrefix<T>(a: seq<T>, b: seq<T>, n: nat)
    requires Subsequence(a, b) && n <= |a|
    ensures Subsequence(a[..n], b)
    decreases |b|
  {
    if n > 0 && b != [] {
      if a[0] == b[0] {
        assert a[..n][1..] == a[1..][..n - 1];
        SubsequencePrefix(a[1..], b[1..], n - 1);
      } else {
        SubsequencePrefix(a, b[1..], n);
      }
    }
  }

  lemma {:induction false} AnnouncingSubsequence(links: seq<Link>)
    ensures Subsequence(Announcing(links), links)
    decreases |links|
  {
    if links != [] {
      AnnouncingSubsequence(links[1..]);
      if Announces(links[0]) {
        assert ([links[0]] + Announcing(links[1..]))[1..] == Announcing(links[1..]);
      } else {
        assert Announcing(links) == Announcing(links[1..]);
        SubsequenceSkip(Announcing(links[1..]), links[0], links[1..]);
      }
    }
  }

  lemma {:induction false} SubsequenceSkip<T>(a: seq<T>, x: T, b: seq<T>)
    requires Subsequence(a, b)
    ensures Subsequence(a, [x] + b)
    decreases |b|, 1
  {
    assert ([x] + b)[1..] == b;
    if a != [] && a[0] == x {
      DropFirstKeeps(a, b);
    }
  }

  lemma {:induction false} DropFirstKeeps<T>(a: seq<T>, b: seq<T>)
    requires a != [] && Subsequence(a, b)
    ensures Subsequence(a[1..], b)
    decreases |b|, 0
  {
    if b != [] {
      if a[0] == b[0] {
        SubsequenceSkip(a[1..], b[0], b[1..]);
        assert [b[0]] + b[1..] == b;
      } else {
        DropFirstKeeps(a, b[1..]);
        SubsequenceSkip(a[1..], b[0], b[1..]);
        assert [b[0]] + b[1..] == b;
      }
    }
  }

  /** The announcement links keep the page's order, and are its first ten announcing links. */
  lemma AnnouncementsInOrder(links: seq<Link>)
    ensures Subsequence(AnnouncementLinks(links), links)
    ensures |Announcing(links)| >= 10 ==> |AnnouncementLinks(links)| == 10
  {
    AnnouncingSubsequence(links);
    var a := Announcing(links);
    if |a| > 10 {
      SubsequencePrefix(a, links, 10);
    }
  }

  // ------------------------------------------------------------ banners

  /** A banner match: the first capture group when the expression has one, and the whole match. */
  datatype BannerMatch = BannerMatch(group: Option<string>, whole: string)

  /** `(m[1] || m[0])` without tags and trimmed. */
  function BannerText(m: BannerMatch): string {
    Trim(PageText.StripTags(if m.group.Some? && m.group.value != "" then m.group.value else m.whole, ""))
  }

  /** The banner `cleaned` is kept when it is longer than 5 and shorter than 200 characters. */
  function Keep(cleaned: string): seq<string> {
    if 5 < |cleaned| < 200 then [cleaned] else []
  }

  function KeptBanners(ms: seq<BannerMatch>): seq<string>
    decreases |ms|
  {
    if ms == [] then [] else KeptBanners(ms[..|ms| - 1]) + Keep(BannerText(ms[|ms| - 1]))
  }

  /** The banners of the three scans, in the order of the expressions. */
  function Banners(scans: seq<seq<BannerMatch>>): seq<string>
    decreases |scans|
  {
    if scans == [] then [] else Banners(scans[..|scans| - 1]) + KeptBanners(scans[|scans| - 1])
  }

  lemma Appended<T>(a: seq<T>, b: seq<T>, c: seq<T>)
    ensures (a + b) + c == a + (b + c)
  {
  }

  /** The `while ((m = regex.exec(html)) !== null)` loop of one expression, pushing onto `start`. */
  method KeepBanners(ms: seq<BannerMatch>, start: seq<string>) returns (banners: seq<string>)
    ensures banners == start + KeptBanners(ms)
  {
    banners := start;
    for i := 0 to |ms|
      invariant banners == start + KeptBanners(ms[..i])
    {
      assert ms[..i + 1][..i] == ms[..i];
      var cleaned := BannerText(ms[i]);
      Appended(start, KeptBanners(ms[..i]), Keep(cleaned));
      banners := banners + Keep(cleaned);
    }
    assert ms[..|ms|] == ms;
  }

  /** The loop over `bannerRegexes`. */
  method CollectBanners(scans: seq<seq<BannerMatch>>) returns (banners: seq<string>)
    ensures banners == Banners(scans)
  {
    banners := [];
    for r := 0 to |scans|
      invariant banners == Banners(scans[..r])
    {
      assert scans[..r + 1][..r] == scans[..r];
      banners := KeepBanners(scans[r], banners);
    }
    assert scans[..|scans|] == scans;
  }

  lemma {:induction false} KeptBannersBounded(ms: seq<BannerMatch>)
    ensures forall k :: 0 <= k < |KeptBanners(ms)| ==> 5 < |KeptBanners(ms)[k]| < 200
    decreases |ms|
  {
    if ms != [] {
      KeptBannersBounded(ms[..|ms| - 1]);
    }
  }

  /** Every banner is longer than 5 and shorter than 200 characters. */
  lemma {:induction false} BannersBounded(scans: seq<seq<BannerMatch>>)
    ensures forall k :: 0 <= k < |Banners(scans)| ==> 5 < |Banners(scans)[k]| < 200
    decreases |scans|
  {
    if scans != [] {
      BannersBounded(scans[..|scans| - 1]);
      KeptBannersBounded(scans[|scans| - 1]);
    }
  }

  // ------------------------------------------------------------ the route

  datatype Page = Page(text: string, banners: seq<string>, announcementLinks: seq<Link>, linkCount: nat, charCount: nat)

  datatype Reply = Extracted(page: Page) | Failure(status: nat, error: string)

  /** What the route answers for the page `html`. */
  function PageOf(html: string, linkScan: string -> seq<LinkMatch>, bannerScan: string -> seq<seq<BannerMatch>>): (p: Page)
    ensures |p.text| <= 8000 && p.text <= PageText.Cleaned(html) && p.charCount == |PageText.Cleaned(html)|
    ensures |p.announcementLinks| <= 10 && |p.announcementLinks| <= p.linkCount
  {
    var links := KeptLinks(linkScan(html));
    KeptLinksClean(linkScan(html));
    Page(PageText.Truncated(PageText.Cleaned(html)), Banners(bannerScan(html)), AnnouncementLinks(links),
         |links|, |PageText.Cleaned(html)|)
  }

  /** `lastError` once the loop has stopped at index `n`. */
  function LastError(tries: seq<string>, fetch: string -> Fetched, n: nat): string
    requires n <= |tries|
  {
    if n == 0 then "null" else TryError(tries[n - 1], fetch(tries[n - 1]))
  }

  /** `POST`: the variants in order; the text, links and banners of the first page served, unless it is empty. */
  method Handle(url: string, fetch: string -> Fetched, linkScan: string -> seq<LinkMatch>,
                bannerScan: string -> seq<seq<BannerMatch>>)
    returns (reply: Reply)
    ensures url == "" ==> reply == Failure(400, "URL required")
    ensures url != "" ==>
      var tries := Variants(url);
      var n := FirstServed(tries, fetch);
      && (reply.Extracted? <==> n < |tries| && fetch(tries[n]).body != "")
      && (reply.Extracted? ==> reply.page == PageOf(fetch(tries[n]).body, linkScan, bannerScan))
      && (reply.Failure? ==> reply == Failure(400, "All fetch attempts failed. Last: " + LastError(tries, fetch, n)))
  {
    if url == "" {
      return Failure(400, "URL required");
    }
    var tries := Variations(url);
    var html, lastError := TryInOrder(tries, fetch);
    if html.None? || html.value == "" {
      return Failure(400, "All fetch attempts failed. Last: " + lastError);
    }
    var page := html.value;
    var text := PageText.ExtractText(page);
    var links := CollectLinks(linkScan(page));
    var banners := CollectBanners(bannerScan(page));
    var truncated := PageText.Truncated(text);
    var announcements := AnnouncementLinks(links);
    reply := Extracted(Page(truncated, banners, announcements, |links|, |text|));
  }
}
