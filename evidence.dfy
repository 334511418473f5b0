/**
 * The research document the scoring model reads (components/ICPScreener.jsx:1081-1091,
 * 1201-1250): search results rendered as numbered entries, the homepage and its subpages,
 * and nine delimited sections in a fixed order, each with a placeholder when it has nothing.
 */
module Evidence {
  import opened Wrappers
  import opened Text
  import opened Integers

  /** One search result; an absent member is ''. `subpages` is absent or an array. */
  datatype SearchResult = SearchResult(title: string, url: string, text: string, highlights: seq<string>,
                                       summary: string, publishedDate: string, subpages: Option<seq<Page>>)

  /** A crawled subpage. */
  datatype Page = Page(title: string, url: string, text: string, summary: string)

  const EntrySep: string := "\n\n---\n\n"
  const NoResults: string := "No results found."
  const NoHomepage: string := "NOT AVAILABLE — Exa could not crawl this page."
  const NoSubpages: string := "No subpages found."

  /** The body of an entry: the text, else the highlights one per line, else the summary. */
  function Content(r: SearchResult): string {
    if r.text != "" then r.text
    else if |r.highlights| > 0 then Join(r.highlights, "\n")
    else r.summary
  }

  /** ` (YYYY-MM-DD)` from the first ten characters of the publication date, when there is one. */
  function DateNote(d: string): string {
    if d == "" then "" else " (" + d[..if |d| < 10 then |d| else 10] + ")"
  }

  /** An entry: `[i+1] title (date)`, the URL line, then the content. */
  function Entry(r: SearchResult, i: nat): string {
    "[" + Decimal(i + 1) + "] " + (if r.title != "" then r.title else "Untitled") + DateNote(r.publishedDate)
    + "\nURL: " + r.url + "\n" + Content(r)
  }

  function Entries(rs: seq<SearchResult>): (es: seq<string>)
    ensures |es| == |rs| && forall i :: 0 <= i < |rs| ==> es[i] == Entry(rs[i], i)
  {
    seq(|rs|, i requires 0 <= i < |rs| => Entry(rs[i], i))
  }

  /** `formatExaResults`: the entries separated by `---` lines, or the placeholder. */
  function FormatResults(rs: seq<SearchResult>): (s: string)
    ensures s != ""
  {
    if rs == [] then NoResults else EntriesOpen(rs); Join(Entries(rs), EntrySep)
  }

  /** What the homepage search gives: the main page's text and the rendered subpages. */
  datatype Homepage = Homepage(content: string, pages: string)

  /** A subpage: `PAGE: title-or-url`, the URL line, then its text or summary. */
  function PageEntry(p: Page): string {
    "PAGE: " + (if p.title != "" then p.title else p.url) + "\nURL: " + p.url + "\n"
    + (if p.text != "" then p.text else p.summary)
  }

  /** The subpages of a homepage search: the main page's `subpages` when present (even empty), else the other results. */
  function Subpages(results: seq<SearchResult>): seq<Page>
    requires results != []
  {
    match results[0].subpages
    case Some(ps) => ps
    case None => seq(|results| - 1, k requires 0 <= k < |results| - 1 =>
                       Page(results[k + 1].title, results[k + 1].url, results[k + 1].text, results[k + 1].summary))
  }

  function PageEntries(ps: seq<Page>): (es: seq<string>)
    ensures |es| == |ps| && forall k :: 0 <= k < |ps| ==> es[k] == PageEntry(ps[k])
  {
    seq(|ps|, k requires 0 <= k < |ps| => PageEntry(ps[k]))
  }

  /** The first result is the homepage; its subpages are rendered like result entries. */
  function SplitHomepage(results: seq<SearchResult>): Homepage {
    if results == [] then Homepage("", "")
    else
      var subs := Subpages(results);
      Homepage(results[0].text, if subs == [] then "" else Join(PageEntries(subs), EntrySep))
  }

  /** The searches behind the sections after the homepage, in the order the document lists them. */
  datatype Research = Research(news: seq<SearchResult>, competitors: seq<SearchResult>, cases: seq<SearchResult>,
                               funding: seq<SearchResult>, linkedin: seq<SearchResult>, tweets: seq<SearchResult>,
                               ceo: seq<SearchResult>)

  /** A section: its header line, its body, its end line. */
  function Section(header: string, body: string, end: string): string {
    "=== " + header + " ===\n" + body + "\n=== " + end + " ==="
  }

  function Headers(fullUrl: string): seq<string> {
    ["HOMEPAGE CONTENT (crawled from " + fullUrl + " via Exa)", "PRODUCT / SUBPAGES (crawled from links on homepage)",
     "NEWS & ANNOUNCEMENTS (last 24 months)", "COMPETITOR COMPARISONS & REVIEWS", "CASE STUDIES & CUSTOMER OUTCOMES",
     "FUNDING & COMPANY FACTS", "LINKEDIN COMPANY INFO", "CEO/FOUNDER TWEETS",
     "CEO/FOUNDER BLOG, PODCAST & CONFERENCE CONTENT (last 6 months)"]
  }

  const Ends: seq<string> := ["END HOMEPAGE CONTENT", "END PRODUCT / SUBPAGES", "END NEWS", "END COMPETITORS",
                              "END CASE STUDIES", "END FUNDING", "END LINKEDIN", "END TWEETS", "END CEO CONTENT"]

  /** The nine section bodies, with the placeholders for the homepage and the subpages. */
  function Bodies(home: Homepage, r: Research): seq<string> {
    [if home.content != "" then home.content else NoHomepage,
     if home.pages != "" then home.pages else NoSubpages,
     FormatResults(r.news), FormatResults(r.competitors), FormatResults(r.cases), FormatResults(r.funding),
     FormatResults(r.linkedin), FormatResults(r.tweets), FormatResults(r.ceo)]
  }

  /** The research document: the nine sections in order, a blank line between two. */
  function Document(fullUrl: string, home: Homepage, r: Research): string {
    var hs, bs := Headers(fullUrl), Bodies(home, r);
    Join(seq(9, k requires 0 <= k < 9 => Section(hs[k], bs[k], Ends[k])), "\n\n")
  }

  // ------------------------------------------------------------------ lemmas

  /** An entry opens with its number in brackets. */
  lemma EntryNumbered(r: SearchResult, i: nat)
    ensures StartsWith(Entry(r, i), "[" + Decimal(i + 1) + "] ")
  {
    var h := "[" + Decimal(i + 1) + "] ";
    var t := if r.title != "" then r.title else "Untitled";
    assert StartsWith(h, h);
    StartsWithAppend(h, t, h);
    StartsWithAppend(h + t, DateNote(r.publishedDate), h);
    StartsWithAppend(h + t + DateNote(r.publishedDate), "\nURL: ", h);
    StartsWithAppend(h + t + DateNote(r.publishedDate) + "\nURL: ", r.url, h);
    StartsWithAppend(h + t + DateNote(r.publishedDate) + "\nURL: " + r.url, "\n", h);
    StartsWithAppend(h + t + DateNote(r.publishedDate) + "\nURL: " + r.url + "\n", Content(r), h);
  }

  /** A rendered list starts with the first entry's number, so it is never the placeholder. */
  lemma {:induction false} JoinStartsWithFirst(parts: seq<string>, sep: string)
    requires |parts| >= 1
    ensures StartsWith(Join(parts, sep), parts[0])
  {
    var j := Join(parts, sep);
    if |parts| > 1 {
      assert j == parts[0] + (sep + Join(parts[1..], sep));
      assert j[..|parts[0]|] == parts[0];
    }
  }

  /** A non-empty list renders to its first entry followed by the rest, so it opens with `[1] `. */
  lemma EntriesOpen(rs: seq<SearchResult>)
    requires rs != []
    ensures Join(Entries(rs), EntrySep) != "" && Join(Entries(rs), EntrySep)[0] == '['
  {
    var es := Entries(rs);
    JoinStartsWithFirst(es, EntrySep);
    EntryNumbered(rs[0], 0);
    assert Join(es, EntrySep)[0] == es[0][0] == '[';
  }

  /** The placeholder stands exactly for an empty result list. */
  lemma NoResultsExactly(rs: seq<SearchResult>)
    ensures FormatResults(rs) == NoResults <==> rs == []
  {
    if rs != [] {
      EntriesOpen(rs);
      assert NoResults[0] == 'N';
    }
  }

  /** A part without `---` separates cleanly from what follows. */
  lemma NoDashesSeparates(p: string)
    requires !Contains(p, "---")
    ensures SeparatesCleanly(p, EntrySep)
  {
    var sep := EntrySep;
    var t := p + sep;
    forall i | 0 <= i < |p| ensures !OccursAt(t, sep, i) {
      if i + 7 <= |t| {
        var w := t[i..i + 7];
        if i + 5 <= |p| {
          assert !OccursAt(p, "---", i + 2);
          assert w[2..5] == t[i + 2..i + 5] == p[i + 2..i + 5];
        } else {
          var d := |p| - i;
          if d <= 2 {
            assert w[2] == sep[2 - d] == '\n';
          } else {
            assert w[d] == sep[0] == '\n';
          }
        }
      }
    }
  }

  /** When no entry holds `---`, splitting the rendered list on the separator gives back the entries. */
  lemma ResultsSplitBack(rs: seq<SearchResult>)
    requires rs != []
    requires forall i :: 0 <= i < |rs| ==> !Contains(Entry(rs[i], i), "---")
    ensures Split(FormatResults(rs), EntrySep) == Entries(rs)
  {
    var es := Entries(rs);
    forall k | 0 <= k < |es| - 1 ensures SeparatesCleanly(es[k], EntrySep) {
      NoDashesSeparates(es[k]);
    }
    NoSeparatorWithoutDashes(es[|es| - 1]);
    SplitJoin(es, EntrySep);
  }

  /** An entry's body: the text first; otherwise the highlights, which split back on new lines; otherwise the summary. */
  lemma ContentPriority(r: SearchResult)
    ensures r.text != "" ==> Content(r) == r.text
    ensures (r.text == "" && r.highlights != [] && (forall k :: 0 <= k < |r.highlights| ==> '\n' !in r.highlights[k]))
              ==> Split(Content(r), "\n") == r.highlights
    ensures r.text == "" && r.highlights == [] ==> Content(r) == r.summary
  {
    if r.text == "" && r.highlights != [] && (forall k :: 0 <= k < |r.highlights| ==> '\n' !in r.highlights[k]) {
      SplitJoinChar(r.highlights, "\n");
    }
  }

  /** A subpage entry is never empty: it opens with `PAGE: `. */
  lemma PageEntryOpens(p: Page)
    ensures StartsWith(PageEntry(p), "PAGE: ")
  {
    var e := PageEntry(p);
    assert e == "PAGE: " + ((if p.title != "" then p.title else p.url) + "\nURL: " + p.url + "\n"
                            + (if p.text != "" then p.text else p.summary));
    assert e[..6] == "PAGE: ";
  }

  /**
   * The homepage search: the main page's text, and rendered subpages exactly when there are
   * some — the `subpages` array when the main page has one, the other results otherwise.
   */
  lemma HomepageParts(results: seq<SearchResult>)
    requires results != []
    ensures SplitHomepage(results).content == results[0].text
    ensures SplitHomepage(results).pages == "" <==>
      (if results[0].subpages.Some? then results[0].subpages.value == [] else |results| == 1)
  {
    var subs := Subpages(results);
    var es := PageEntries(subs);
    if subs != [] {
      PageEntryOpens(subs[0]);
      JoinStartsWithFirst(es, EntrySep);
      assert Join(es, EntrySep)[0] == es[0][0] == 'P';
    }
  }

  /** A main page that carries a `subpages` array makes the other results irrelevant. */
  lemma SubpagesPreferred(results: seq<SearchResult>, others: seq<SearchResult>)
    requires results != [] && results[0].subpages.Some?
    ensures SplitHomepage(results) == SplitHomepage([results[0]] + others)
  {
    assert ([results[0]] + others)[0] == results[0];
  }

  /** Without a `subpages` array the other results are the subpages, in order. */
  lemma ResultsAsSubpages(results: seq<SearchResult>)
    requires results != [] && results[0].subpages.None?
    ensures |Subpages(results)| == |results| - 1
    ensures forall k :: 1 <= k < |results| ==>
              (Subpages(results)[k - 1].url == results[k].url && Subpages(results)[k - 1].title == results[k].title)
  {
  }

  /** When no subpage entry holds `---`, the rendered subpages split back into their entries. */
  lemma PagesSplitBack(results: seq<SearchResult>)
    requires results != [] && Subpages(results) != []
    requires forall k :: 0 <= k < |Subpages(results)| ==> !Contains(PageEntry(Subpages(results)[k]), "---")
    ensures Split(SplitHomepage(results).pages, EntrySep) == PageEntries(Subpages(results))
  {
    var es := PageEntries(Subpages(results));
    forall k | 0 <= k < |es| - 1 ensures SeparatesCleanly(es[k], EntrySep) {
      NoDashesSeparates(es[k]);
    }
    NoSeparatorWithoutDashes(es[|es| - 1]);
    SplitJoin(es, EntrySep);
  }

  /** The separator holds `---`, so a part without `---` holds no separator. */
  lemma NoSeparatorWithoutDashes(p: string)
    requires !Contains(p, "---")
    ensures !Contains(p, EntrySep)
  {
    forall j | 0 <= j <= |p| ensures !OccursAt(p, EntrySep, j) {
      SeparatorHasDashes(p, j);
    }
    NotContainsWhenNowhere(p, EntrySep);
  }

  lemma SeparatorHasDashes(p: string, j: nat)
    ensures OccursAt(p, EntrySep, j) ==> OccursAt(p, "---", j + 2)
  {
    if OccursAt(p, EntrySep, j) {
      var w := p[j..j + 7];
      assert w == EntrySep;
      assert p[j + 2..j + 5] == w[2..5];
      SeparatorDashes();
    }
  }

  lemma SeparatorDashes()
    ensures |EntrySep| == 7 && EntrySep[2..5] == "---"
  {
  }

  /** Every one of the nine sections has a non-empty body: a placeholder stands in for nothing. */
  lemma BodiesNonEmpty(home: Homepage, r: Research)
    ensures |Bodies(home, r)| == 9 && forall k :: 0 <= k < 9 ==> Bodies(home, r)[k] != ""
  {
  }

  /** The document opens with the homepage section, headed by the crawled URL. */
  lemma DocumentOpensWithHomepage(fullUrl: string, home: Homepage, r: Research)
    ensures StartsWith(Document(fullUrl, home, r),
                       Section("HOMEPAGE CONTENT (crawled from " + fullUrl + " via Exa)",
                               if home.content != "" then home.content else NoHomepage, "END HOMEPAGE CONTENT"))
  {
    var hs, bs := Headers(fullUrl), Bodies(home, r);
    var secs := seq(9, k requires 0 <= k < 9 => Section(hs[k], bs[k], Ends[k]));
    JoinStartsWithFirst(secs, "\n\n");
  }
}
