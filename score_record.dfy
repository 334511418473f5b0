/**
 * The scoring record of a screened company and its flat storage form
 * (components/ICPScreener.jsx).
 *
 * The model's scoring JSON is nested: six factors `factor_a` .. `factor_f`, each with a
 * score, lists and sections of its own. The screener flattens it into the string and
 * integer columns of a research run, and rebuilds the nested factors from those columns
 * when the company list is loaded again. Lists are joined with "; ", products with ", ",
 * an audience with " — ", and the four homepage-section names are stored once, taken
 * from factor A, and shared by factors A, B and C.
 */
module ScoreRecord {
  import opened Wrappers
  import opened Text
  import opened FitBand
  import opened RowPatterns

  /**
   * A homepage section as one factor describes it. For factor A the two texts are the
   * finding and the status, for factor B the finding and the outcome type, for factor C
   * the orientation and the evidence.
   */
  datatype Section = Section(name: string, first: string, second: string)

  datatype Audience = Audience(buyer: string, department: string, market: string)

  datatype FactorA = FactorA(score: int, differentiators: seq<string>, sections: seq<Section>, verdict: string)

  datatype FactorB = FactorB(score: int, decisionMaker: string, strategic: seq<string>,
                             tactical: seq<string>, sections: seq<Section>, verdict: string)

  datatype FactorC = FactorC(score: int, sections: seq<Section>, verdict: string)

  datatype FactorD = FactorD(score: int, changes: seq<Change>, verdict: string)

  /** `before` and `today` are `None` when the model gave no audience object. */
  datatype FactorE = FactorE(score: int, before: Option<Audience>, today: Option<Audience>, verdict: string)

  datatype FactorF = FactorF(score: int, products: seq<Product>, description: string, verdict: string)

  /** The decoded scoring JSON; an absent member stands for the default its `||` gives. */
  datatype Scoring = Scoring(totalScore: int, icpFit: string, reason: string, summary: string,
                             a: FactorA, b: FactorB, c: FactorC, d: FactorD, e: FactorE, f: FactorF)

  /** The four numbered columns `..._1_...` to `..._4_...`. */
  type Slots = s: seq<string> | |s| == 4 witness ["", "", "", ""]

  /** The scoring columns of a stored research run. */
  datatype Row = Row(
    totalScore: int, summary: string, icpFit: string, reason: string,
    sectionNames: Slots,
    scoreA: int, aDifferentiators: string, aFindings: Slots, aStatuses: Slots, aVerdict: string,
    scoreB: int, bDecisionMaker: string, bStrategic: string, bTactical: string,
    bFindings: Slots, bTypes: Slots, bVerdict: string,
    scoreC: int, cOrientations: Slots, cEvidence: Slots, cVerdict: string,
    scoreD: int, dChanges: string, dVerdict: string,
    scoreE: int, eBefore: string, eToday: string, eVerdict: string,
    scoreF: int, fProducts: string, fDescription: string, fVerdict: string)

  /**
   * The rebuilt record: the top-level scores and verdicts the list shows, and the factor
   * panels, a panel being `None` when its columns say the factor was never scored.
   */
  datatype Loaded = Loaded(totalScore: int, icpFit: string, reason: string, summary: string,
                           scoreA: int, scoreB: int, scoreC: int, scoreD: int, scoreE: int, scoreF: int,
                           aVerdict: string, bVerdict: string, cVerdict: string,
                           dVerdict: string, eVerdict: string, fVerdict: string,
                           a: Option<FactorA>, b: Option<FactorB>, c: Option<FactorC>,
                           d: Option<FactorD>, e: Option<FactorE>, f: Option<FactorF>)

  // ------------------------------------------------------------ flattening

  /** `sections[k]`, or a section of empty texts past the end (`sections[k]?.x || ''`). */
  function Slot(ss: seq<Section>, k: nat): Section {
    if k < |ss| then ss[k] else Section("", "", "")
  }

  function NameSlots(ss: seq<Section>): Slots {
    [Slot(ss, 0).name, Slot(ss, 1).name, Slot(ss, 2).name, Slot(ss, 3).name]
  }

  function FirstSlots(ss: seq<Section>): Slots {
    [Slot(ss, 0).first, Slot(ss, 1).first, Slot(ss, 2).first, Slot(ss, 3).first]
  }

  function SecondSlots(ss: seq<Section>): Slots {
    [Slot(ss, 0).second, Slot(ss, 1).second, Slot(ss, 2).second, Slot(ss, 3).second]
  }

  function FormatChanges(cs: seq<Change>): (r: seq<string>)
    ensures |r| == |cs| && forall k :: 0 <= k < |cs| ==> r[k] == FormatChange(cs[k])
  {
    seq(|cs|, k requires 0 <= k < |cs| => FormatChange(cs[k]))
  }

  function FormatProducts(ps: seq<Product>): (r: seq<string>)
    ensures |r| == |ps| && forall k :: 0 <= k < |ps| ==> r[k] == FormatProduct(ps[k])
  {
    seq(|ps|, k requires 0 <= k < |ps| => FormatProduct(ps[k]))
  }

  /** `buyer — department — market`, or the empty text when there is no audience. */
  function FormatAudience(a: Option<Audience>): string {
    match a
    case None => ""
    case Some(x) => x.buyer + " — " + x.department + " — " + x.market
  }

  /** The stored reason: an empty reason is written as "None". */
  function StoredReason(reason: string): string {
    if reason == "" then "None" else reason
  }

  /** The columns written for a scoring that arrived as JSON. */
  function Flatten(s: Scoring): Row {
    Row(s.totalScore, s.summary, FitName(ScoredFit(s.totalScore, s.icpFit, s.reason)), StoredReason(s.reason),
        NameSlots(s.a.sections),
        s.a.score, Join(s.a.differentiators, "; "), FirstSlots(s.a.sections), SecondSlots(s.a.sections), s.a.verdict,
        s.b.score, s.b.decisionMaker, Join(s.b.strategic, "; "), Join(s.b.tactical, "; "),
        FirstSlots(s.b.sections), SecondSlots(s.b.sections), s.b.verdict,
        s.c.score, FirstSlots(s.c.sections), SecondSlots(s.c.sections), s.c.verdict,
        s.d.score, Join(FormatChanges(s.d.changes), "; "), s.d.verdict,
        s.e.score, FormatAudience(s.e.before), FormatAudience(s.e.today), s.e.verdict,
        s.f.score, Join(FormatProducts(s.f.products), ", "), s.f.description, s.f.verdict)
  }

  // ----------------------------------------------------------- rehydration

  /** `(field || '').split(sep).filter(Boolean)`. */
  function RestoreList(field: string, sep: string): seq<string>
    requires sep != []
  {
    NonEmpty(Split(field, sep))
  }

  /** `.filter(s => s.name)`: the sections with a non-empty name, in order. */
  function Named(ss: seq<Section>): (r: seq<Section>)
    ensures |r| <= |ss|
    ensures forall k :: 0 <= k < |r| ==> r[k].name != [] && r[k] in ss
  {
    if ss == [] then []
    else if ss[0].name == [] then Named(ss[1..])
    else [ss[0]] + Named(ss[1..])
  }

  /** `[1,2,3,4].map(n => ({name, ...})).filter(s => s.name)`. */
  function RestoreSections(names: Slots, first: Slots, second: Slots): seq<Section> {
    Named([Section(names[0], first[0], second[0]), Section(names[1], first[1], second[1]),
           Section(names[2], first[2], second[2]), Section(names[3], first[3], second[3])])
  }

  /** A change that does not match the pattern keeps its whole text as the name. */
  function ParseChange(text: string): Change {
    match MatchChange(text)
    case Some(c) => c
    case None => Change(text, "", "", "")
  }

  /** A product that does not match the pattern keeps its whole text as the name and tag "module". */
  function ParseProduct(text: string): Product {
    match MatchProduct(text)
    case Some(p) => p
    case None => Product(text, "module")
  }

  function RestoreChanges(field: string): (r: seq<Change>)
    ensures |r| == |RestoreList(field, "; ")|
  {
    var items := RestoreList(field, "; ");
    seq(|items|, k requires 0 <= k < |items| => ParseChange(items[k]))
  }

  function RestoreProducts(field: string): (r: seq<Product>)
    ensures |r| == |RestoreList(field, ", ")|
  {
    var items := RestoreList(field, ", ");
    seq(|items|, k requires 0 <= k < |items| => ParseProduct(items[k]))
  }

  /** An audience column split on " — ", missing parts empty; an empty column gives no audience. */
  function RestoreAudience(field: string): Option<Audience> {
    if field == "" then None
    else
      var p := Split(field, " — ");
      Some(Audience(p[0], if |p| > 1 then p[1] else "", if |p| > 2 then p[2] else ""))
  }

  function RehydrateA(r: Row): Option<FactorA> {
    if r.aVerdict != "" || r.aDifferentiators != "" then
      Some(FactorA(r.scoreA, RestoreList(r.aDifferentiators, "; "),
                   RestoreSections(r.sectionNames, r.aFindings, r.aStatuses), r.aVerdict))
    else None
  }

  function RehydrateB(r: Row): Option<FactorB> {
    if r.bVerdict != "" || r.bDecisionMaker != "" then
      Some(FactorB(r.scoreB, r.bDecisionMaker, RestoreList(r.bStrategic, "; "), RestoreList(r.bTactical, "; "),
                   RestoreSections(r.sectionNames, r.bFindings, r.bTypes), r.bVerdict))
    else None
  }

  function RehydrateC(r: Row): Option<FactorC> {
    if r.cVerdict != "" || r.cOrientations[0] != "" then
      Some(FactorC(r.scoreC, RestoreSections(r.sectionNames, r.cOrientations, r.cEvidence), r.cVerdict))
    else None
  }

  function RehydrateD(r: Row): Option<FactorD> {
    if r.dVerdict != "" || r.dChanges != "" then
      Some(FactorD(r.scoreD, RestoreChanges(r.dChanges), r.dVerdict))
    else None
  }

  function RehydrateE(r: Row): Option<FactorE> {
    if r.eVerdict != "" || r.eBefore != "" then
      Some(FactorE(r.scoreE, RestoreAudience(r.eBefore), RestoreAudience(r.eToday), r.eVerdict))
    else None
  }

  function RehydrateF(r: Row): Option<FactorF> {
    if r.fVerdict != "" || r.fProducts != "" then
      Some(FactorF(r.scoreF, RestoreProducts(r.fProducts), r.fDescription, r.fVerdict))
    else None
  }

  /** The record rebuilt from a stored row, with the band recomputed on load. */
  function Rehydrate(r: Row): Loaded {
    Loaded(r.totalScore, LoadedFit(r.totalScore, r.icpFit), r.reason, r.summary,
           r.scoreA, r.scoreB, r.scoreC, r.scoreD, r.scoreE, r.scoreF,
           r.aVerdict, r.bVerdict, r.cVerdict, r.dVerdict, r.eVerdict, r.fVerdict,
           RehydrateA(r), RehydrateB(r), RehydrateC(r), RehydrateD(r), RehydrateE(r), RehydrateF(r))
  }

  // ------------------------------------------------------------ round trips

  /** The list round trip: every item non-empty and without the separator. */
  lemma ListRoundTrip(xs: seq<string>, sep: string)
    requires |sep| == 2 && sep[0] != sep[1]
    requires forall k :: 0 <= k < |xs| ==> xs[k] != [] && !Contains(xs[k], sep)
    ensures RestoreList(Join(xs, sep), sep) == xs
  {
    if xs == [] {
      assert Split([], sep) == [[]];
    } else {
      SplitJoinPair(xs, sep);
      NonEmptyOfNonEmpty(xs);
    }
  }

  /** A list item that survives storage: non-empty and without "; ". */
  predicate StorableItem(x: string) {
    x != [] && !Contains(x, "; ")
  }

  /** A product that survives storage: readable by its pattern, and its line holds no ", ". */
  predicate StorableProduct(p: Product) {
    ReadableProduct(p) && !Contains(FormatProduct(p), ", ")
  }

  /** A change that survives storage: readable by its pattern, and its line holds no "; ". */
  predicate StorableChange(c: Change) {
    ReadableChange(c) && !Contains(FormatChange(c), "; ")
  }

  /** An audience that survives storage: no part holds an em dash. */
  predicate StorableAudience(a: Option<Audience>) {
    a.Some? ==> '—' !in a.value.buyer && '—' !in a.value.department && '—' !in a.value.market
  }

  lemma ProductsRoundTrip(ps: seq<Product>)
    requires forall k :: 0 <= k < |ps| ==> StorableProduct(ps[k])
    ensures RestoreProducts(Join(FormatProducts(ps), ", ")) == ps
  {
    var items := FormatProducts(ps);
    ListRoundTrip(items, ", ");
    forall k | 0 <= k < |ps| ensures ParseProduct(items[k]) == ps[k] {
      MatchFormattedProduct(ps[k]);
    }
  }

  lemma ChangesRoundTrip(cs: seq<Change>)
    requires forall k :: 0 <= k < |cs| ==> StorableChange(cs[k])
    ensures RestoreChanges(Join(FormatChanges(cs), "; ")) == cs
  {
    var items := FormatChanges(cs);
    ListRoundTrip(items, "; ");
    forall k | 0 <= k < |cs| ensures ParseChange(items[k]) == cs[k] {
      MatchFormattedChange(cs[k]);
    }
  }

  /** A part without an em dash cannot start an occurrence of " — " when joined. */
  lemma EmDashFreeSeparates(p: string)
    requires '—' !in p
    ensures SeparatesCleanly(p, " — ")
  {
    var sep := " — ";
    forall i | 0 <= i < |p| ensures !OccursAt(p + sep, sep, i) {
      if i + 3 <= |p + sep| {
        assert (p + sep)[i..i + 3][1] == (p + sep)[i + 1];
        if i + 1 < |p| { assert (p + sep)[i + 1] == p[i + 1]; }
      }
    }
  }

  lemma AudienceRoundTrip(a: Option<Audience>)
    requires StorableAudience(a)
    ensures RestoreAudience(FormatAudience(a)) == a
    ensures FormatAudience(a) == "" <==> a.None?
  {
    if a.Some? {
      var x, sep := a.value, " — ";
      var parts := [x.buyer, x.department, x.market];
      assert parts[1..] == [x.department, x.market] && parts[1..][1..] == [x.market];
      assert Join(parts[1..], sep) == x.department + sep + x.market;
      assert FormatAudience(a) == Join(parts, sep);
      EmDashFreeSeparates(x.buyer);
      EmDashFreeSeparates(x.department);
      WithoutCharOf(x.market, sep, 1);
      SplitJoin(parts, sep);
    }
  }

  /** The first `n` characters of a joined list are empty only for an empty list. */
  lemma JoinedNonEmpty(xs: seq<string>, sep: string)
    requires forall k :: 0 <= k < |xs| ==> xs[k] != []
    ensures Join(xs, sep) == [] <==> xs == []
  {
    JoinEmpty(xs, sep);
  }

  // ---------------------------------------------------------- section slots

  /** At most the first four sections are stored. */
  function Take4(ss: seq<Section>): (r: seq<Section>)
    ensures |r| <= 4 && |r| <= |ss| && r == ss[..|r|]
    ensures |ss| <= 4 ==> r == ss
  {
    if |ss| <= 4 then ss else ss[..4]
  }

  /** One factor's section texts under another factor's section names, position by position. */
  function Relabel(names: seq<Section>, texts: seq<Section>): (r: seq<Section>)
    ensures |r| == |names|
    ensures forall k :: 0 <= k < |r| ==>
      r[k].name == names[k].name && r[k].first == Slot(texts, k).first && r[k].second == Slot(texts, k).second
  {
    seq(|names|, k requires 0 <= k < |names| => Section(names[k].name, Slot(texts, k).first, Slot(texts, k).second))
  }

  lemma {:induction false} NamedAppend(a: seq<Section>, b: seq<Section>)
    ensures Named(a + b) == Named(a) + Named(b)
  {
    if a == [] {
      assert a + b == b;
    } else {
      var ab := a + b;
      assert ab[0] == a[0] && ab[1..] == a[1..] + b;
      NamedAppend(a[1..], b);
      if a[0].name == [] {
        assert Named(ab) == Named(a[1..]) + Named(b);
      } else {
        assert Named(ab) == [a[0]] + (Named(a[1..]) + Named(b));
        assert Named(a) == [a[0]] + Named(a[1..]);
      }
    }
  }

  lemma {:induction false} NamedUnnamed(b: seq<Section>)
    requires forall k :: 0 <= k < |b| ==> b[k].name == []
    ensures Named(b) == []
  {
    if b != [] {
      NamedUnnamed(b[1..]);
    }
  }

  lemma {:induction false} NamedAllNamed(b: seq<Section>)
    requires forall k :: 0 <= k < |b| ==> b[k].name != []
    ensures Named(b) == b
  {
    if b != [] {
      NamedAllNamed(b[1..]);
    }
  }

  /**
   * The sections rebuilt from the shared name slots of `names` and the text slots of
   * `texts`: the first four sections of `names` that have a name, each with the texts
   * `texts` holds at its position.
   */
  lemma RelabelledSections(names: seq<Section>, texts: seq<Section>)
    ensures RestoreSections(NameSlots(names), FirstSlots(texts), SecondSlots(texts))
         == Named(Relabel(Take4(names), texts))
  {
    var ns, fs, ss := NameSlots(names), FirstSlots(texts), SecondSlots(texts);
    var d := [Section(ns[0], fs[0], ss[0]), Section(ns[1], fs[1], ss[1]),
              Section(ns[2], fs[2], ss[2]), Section(ns[3], fs[3], ss[3])];
    var m := |Take4(names)|;
    assert d[..m] == Relabel(Take4(names), texts);
    forall k | 0 <= k < |d[m..]| ensures d[m..][k].name == [] {
      assert d[m..][k] == d[m + k];
    }
    assert d == d[..m] + d[m..];
    NamedAppend(d[..m], d[m..]);
    NamedUnnamed(d[m..]);
  }

  /** Factor A's own sections: the first four, those without a name dropped. */
  lemma OwnSections(ss: seq<Section>)
    ensures RestoreSections(NameSlots(ss), FirstSlots(ss), SecondSlots(ss)) == Named(Take4(ss))
  {
    RelabelledSections(ss, ss);
    assert Relabel(Take4(ss), ss) == Take4(ss);
  }

  /** Sections that survive storage unchanged: at most four, each with a name. */
  predicate StorableSections(ss: seq<Section>) {
    |ss| <= 4 && forall k :: 0 <= k < |ss| ==> ss[k].name != []
  }

  /** Two factors describe the same homepage sections, in the same order. */
  predicate SameNames(ss: seq<Section>, ts: seq<Section>) {
    |ss| == |ts| && forall k :: 0 <= k < |ss| ==> ss[k].name == ts[k].name
  }

  /** Sections stored under factor A's names come back whole when they carry the same names. */
  lemma SharedSectionsRoundTrip(names: seq<Section>, texts: seq<Section>)
    requires StorableSections(names) && SameNames(names, texts)
    ensures RestoreSections(NameSlots(names), FirstSlots(texts), SecondSlots(texts)) == texts
  {
    RelabelledSections(names, texts);
    assert Relabel(Take4(names), texts) == texts;
    NamedAllNamed(texts);
  }

  // ------------------------------------------------------ factor round trips

  predicate StorableList(xs: seq<string>) {
    forall k :: 0 <= k < |xs| ==> StorableItem(xs[k])
  }

  lemma StorableListRoundTrip(xs: seq<string>)
    requires StorableList(xs)
    ensures RestoreList(Join(xs, "; "), "; ") == xs
    ensures Join(xs, "; ") == "" <==> xs == []
  {
    ListRoundTrip(xs, "; ");
    JoinEmpty(xs, "; ");
  }

  /** Factor A comes back whole when it was scored at all (a verdict or a differentiator). */
  lemma FactorARoundTrip(s: Scoring)
    requires StorableList(s.a.differentiators) && StorableSections(s.a.sections)
    ensures RehydrateA(Flatten(s)) == if s.a.verdict == "" && s.a.differentiators == [] then None else Some(s.a)
  {
    StorableListRoundTrip(s.a.differentiators);
    SharedSectionsRoundTrip(s.a.sections, s.a.sections);
  }

  /** Factor B comes back whole when its sections carry factor A's names in factor A's order. */
  lemma FactorBRoundTrip(s: Scoring)
    requires StorableList(s.b.strategic) && StorableList(s.b.tactical)
    requires StorableSections(s.a.sections) && SameNames(s.a.sections, s.b.sections)
    ensures RehydrateB(Flatten(s)) == if s.b.verdict == "" && s.b.decisionMaker == "" then None else Some(s.b)
  {
    StorableListRoundTrip(s.b.strategic);
    StorableListRoundTrip(s.b.tactical);
    SharedSectionsRoundTrip(s.a.sections, s.b.sections);
  }

  /**
   * Factor C comes back whole under the same condition on its names; it counts as scored
   * when it has a verdict or its first section has an orientation.
   */
  lemma FactorCRoundTrip(s: Scoring)
    requires StorableSections(s.a.sections) && SameNames(s.a.sections, s.c.sections)
    ensures RehydrateC(Flatten(s))
         == if s.c.verdict == "" && Slot(s.c.sections, 0).first == "" then None else Some(s.c)
  {
    SharedSectionsRoundTrip(s.a.sections, s.c.sections);
  }

  lemma FactorDRoundTrip(s: Scoring)
    requires forall k :: 0 <= k < |s.d.changes| ==> StorableChange(s.d.changes[k])
    ensures RehydrateD(Flatten(s)) == if s.d.verdict == "" && s.d.changes == [] then None else Some(s.d)
  {
    ChangesRoundTrip(s.d.changes);
    forall k | 0 <= k < |s.d.changes| ensures FormatChanges(s.d.changes)[k] != [] {
    }
    JoinEmpty(FormatChanges(s.d.changes), "; ");
  }

  lemma FactorERoundTrip(s: Scoring)
    requires StorableAudience(s.e.before) && StorableAudience(s.e.today)
    ensures RehydrateE(Flatten(s)) == if s.e.verdict == "" && s.e.before.None? then None else Some(s.e)
  {
    AudienceRoundTrip(s.e.before);
    AudienceRoundTrip(s.e.today);
  }

  lemma FactorFRoundTrip(s: Scoring)
    requires forall k :: 0 <= k < |s.f.products| ==> StorableProduct(s.f.products[k])
    ensures RehydrateF(Flatten(s)) == if s.f.verdict == "" && s.f.products == [] then None else Some(s.f)
  {
    ProductsRoundTrip(s.f.products);
    forall k | 0 <= k < |s.f.products| ensures FormatProducts(s.f.products)[k] != [] {
    }
    JoinEmpty(FormatProducts(s.f.products), ", ");
  }

  /** Everything flattening can store survives. */
  predicate Storable(s: Scoring) {
    && StorableList(s.a.differentiators) && StorableSections(s.a.sections)
    && StorableList(s.b.strategic) && StorableList(s.b.tactical) && SameNames(s.a.sections, s.b.sections)
    && SameNames(s.a.sections, s.c.sections)
    && (forall k :: 0 <= k < |s.d.changes| ==> StorableChange(s.d.changes[k]))
    && StorableAudience(s.e.before) && StorableAudience(s.e.today)
    && (forall k :: 0 <= k < |s.f.products| ==> StorableProduct(s.f.products[k]))
  }

  /**
   * What loading a saved scoring shows: the total, the band it was saved with, the stored
   * reason, the summary, all six factor scores and verdicts, and the panel of every factor
   * that was scored.
   */
  predicate LoadsBack(l: Loaded, s: Scoring) {
    && l.totalScore == s.totalScore
    && l.icpFit == FitName(ScoredFit(s.totalScore, s.icpFit, s.reason))
    && l.reason == StoredReason(s.reason) && l.summary == s.summary
    && l.scoreA == s.a.score && l.scoreB == s.b.score && l.scoreC == s.c.score
    && l.scoreD == s.d.score && l.scoreE == s.e.score && l.scoreF == s.f.score
    && l.aVerdict == s.a.verdict && l.bVerdict == s.b.verdict && l.cVerdict == s.c.verdict
    && l.dVerdict == s.d.verdict && l.eVerdict == s.e.verdict && l.fVerdict == s.f.verdict
    && l.a == (if s.a.verdict == "" && s.a.differentiators == [] then None else Some(s.a))
    && l.b == (if s.b.verdict == "" && s.b.decisionMaker == "" then None else Some(s.b))
    && l.c == (if s.c.verdict == "" && Slot(s.c.sections, 0).first == "" then None else Some(s.c))
    && l.d == (if s.d.verdict == "" && s.d.changes == [] then None else Some(s.d))
    && l.e == (if s.e.verdict == "" && s.e.before.None? then None else Some(s.e))
    && l.f == (if s.f.verdict == "" && s.f.products == [] then None else Some(s.f))
  }

  /** Saving a storable scoring and loading it again shows what was saved. */
  lemma RehydrateFlatten(s: Scoring)
    requires Storable(s)
    ensures LoadsBack(Rehydrate(Flatten(s)), s)
  {
    LoadShowsSavedFit(s.totalScore, s.icpFit, s.reason);
    FactorARoundTrip(s);
    FactorBRoundTrip(s);
    FactorCRoundTrip(s);
    FactorDRoundTrip(s);
    FactorERoundTrip(s);
    FactorFRoundTrip(s);
  }

  /**
   * Whatever the sections hold, factor A keeps its first four named sections, and factors
   * B and C take their names from factor A by position, dropping the positions without a name.
   */
  lemma SectionSlots(s: Scoring)
    ensures var r := Flatten(s);
      && |r.sectionNames| == 4
      && (RehydrateA(r).Some? ==> RehydrateA(r).value.sections == Named(Take4(s.a.sections)))
      && (RehydrateB(r).Some? ==> RehydrateB(r).value.sections == Named(Relabel(Take4(s.a.sections), s.b.sections)))
      && (RehydrateC(r).Some? ==> RehydrateC(r).value.sections == Named(Relabel(Take4(s.a.sections), s.c.sections)))
  {
    OwnSections(s.a.sections);
    RelabelledSections(s.a.sections, s.b.sections);
    RelabelledSections(s.a.sections, s.c.sections);
  }

  /** A stored product without "(" comes back as its whole text with tag "module". */
  lemma UnmatchedProduct(text: string)
    requires '(' !in text
    ensures ParseProduct(text) == Product(text, "module")
  {
    NoParenNoProduct(text, 1);
  }

  /** A stored change without "(" comes back as its whole text with empty date, before and after. */
  lemma UnmatchedChange(text: string)
    requires '(' !in text
    ensures ParseChange(text) == Change(text, "", "", "")
  {
    NoParenNoChange(text, 1);
  }
}
