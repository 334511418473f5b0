/**
 * The search-filter builders of the screener (components/ICPScreener.jsx): the company
 * discovery filter of the Crustdata database search (`buildCrustdataFilters`, 1808-1855), the
 * LinkedIn company search filter list (`buildLinkedInFilters`, 770-797) and the people search
 * filter (`buildPeopleFilters`, 2085-2140).
 *
 * The filter catalogs are parameters. `parseFloat` and `Number` are not evaluated: a value
 * they would convert is kept as the text they are given.
 */
module Filters {
  import opened Wrappers
  import opened Text
  import opened Company
  import CompanyList

  // ------------------------------------------------------------ filter JSON

  /** A filter's `value`. */
  datatype Json =
    | JText(s: string)                 // a string
    | JList(items: seq<string>)        // an array of strings
    | JParsed(text: string)            // `parseFloat(text)` or `Number(text)`
    | JInt(n: nat)                     // an employee-count bound
    | JBool(b: bool)
    | JValues(values: seq<Value>)      // the listed companies' `domain` members

  datatype Condition =
    | Where(field: string, op: string, value: Json)   // `{ filter_type | column, type, value }`
    | Flagged(field: string)                          // `{ filter_type }`
    | Between(field: string, min: Option<string>, max: Option<string>, subFilter: Option<string>)
    | AnyOf(conditions: seq<Condition>)               // `{ op: 'or', conditions }`

  /** `{ op: 'and', conditions }`. */
  datatype Filter = And(conditions: seq<Condition>)

  /** What a filter row of the form holds: text, a list of choices, or nothing. */
  datatype Raw = RawText(s: string) | RawList(items: seq<string>) | Missing

  /** `catalog.find(s => s.key === key)`. */
  function Find<T>(catalog: seq<T>, keyOf: T -> string, key: string): (r: Option<T>)
    ensures r.Some? ==> r.value in catalog && keyOf(r.value) == key
    ensures r.None? ==> forall k :: 0 <= k < |catalog| ==> keyOf(catalog[k]) != key
  {
    if catalog == [] then None
    else if keyOf(catalog[0]) == key then Some(catalog[0])
    else Find(catalog[1..], keyOf, key)
  }

  /** The conditions of each filter row, one row after another. */
  function Flat<T>(rows: seq<T>, of: T -> seq<Condition>): seq<Condition>
    decreases |rows|
  {
    if rows == [] then [] else Flat(rows[..|rows| - 1], of) + of(rows[|rows| - 1])
  }

  /** What holds of the conditions of every row holds of the flattened list. */
  lemma {:induction false} FlatAll<T>(rows: seq<T>, of: T -> seq<Condition>, p: Condition -> bool)
    requires forall k, j :: 0 <= k < |rows| && 0 <= j < |of(rows[k])| ==> p(of(rows[k])[j])
    ensures forall j :: 0 <= j < |Flat(rows, of)| ==> p(Flat(rows, of)[j])
    decreases |rows|
  {
    if rows != [] {
      var init := rows[..|rows| - 1];
      forall k, j | 0 <= k < |init| && 0 <= j < |of(init[k])| ensures p(of(init[k])[j]) {
        assert init[k] == rows[k];
      }
      FlatAll(init, of, p);
      var last := of(rows[|rows| - 1]);
      forall j | 0 <= j < |Flat(rows, of)| ensures p(Flat(rows, of)[j]) {
        if j >= |Flat(init, of)| {
          assert Flat(rows, of)[j] == last[j - |Flat(init, of)|];
        }
      }
    }
  }

  lemma {:induction false} FlatLength<T>(rows: seq<T>, of: T -> seq<Condition>, n: nat)
    requires forall k :: 0 <= k < |rows| ==> |of(rows[k])| <= n
    ensures |Flat(rows, of)| <= n * |rows|
    decreases |rows|
  {
    if rows != [] {
      FlatLength(rows[..|rows| - 1], of, n);
    }
  }

  /** `s.split(',').map(v => v.trim()).filter(Boolean)`. */
  function CommaList(s: string): (r: seq<string>)
    ensures forall k :: 0 <= k < |r| ==> r[k] != []
  {
    NonEmpty(TrimEach(Split(s, ",")))
  }

  /** `parts.map(v => v.trim())`. */
  function TrimEach(parts: seq<string>): (r: seq<string>)
    ensures |r| == |parts| && forall k :: 0 <= k < |parts| ==> r[k] == Trim(parts[k])
  {
    seq(|parts|, k requires 0 <= k < |parts| => Trim(parts[k]))
  }

  // ------------------------------------------------------------ employee ranges

  /** A row of `rangeMap`: its low and high ends, `null` written as `None`. */
  datatype Interval = Interval(lo: Option<nat>, hi: Option<nat>)

  /** `rangeMap[choice] || [null, null]`. */
  function RangeOf(choice: string): Interval {
    if choice == "1-10" then Interval(Some(1), Some(10))
    else if choice == "11-50" then Interval(Some(11), Some(50))
    else if choice == "51-200" then Interval(Some(51), Some(200))
    else if choice == "201-500" then Interval(Some(201), Some(500))
    else if choice == "501-1000" then Interval(Some(501), Some(1000))
    else if choice == "1001-5000" then Interval(Some(1001), Some(5000))
    else if choice == "5001-10000" then Interval(Some(5001), Some(10000))
    else if choice == "10001+" then Interval(Some(10001), None)
    else Interval(None, None)
  }

  /** Only `10001+` and labels outside the map have no high end; only the latter have no low end. */
  lemma RangeEnds(choice: string)
    ensures RangeOf(choice).hi.None? <==> choice == "10001+" || RangeOf(choice).lo.None?
    ensures RangeOf(choice).lo.Some? && RangeOf(choice).hi.Some? ==> RangeOf(choice).lo.value <= RangeOf(choice).hi.value
  {
  }

  /** `globalMax`: `-Infinity` before any choice, `null` once unbounded, else a count. */
  datatype Ceiling = NoCeiling | Unbounded | AtMost(n: nat)

  /** `globalMin` (`Infinity` as `None`) and `globalMax`. */
  datatype Bounds = Bounds(low: Option<nat>, high: Ceiling)

  /** One turn of the range loop, with `rangeOf` standing for the map lookup. */
  function BoundsStep(b: Bounds, r: Interval): Bounds {
    Bounds(
      if r.lo.Some? && (b.low.None? || r.lo.value < b.low.value) then r.lo else b.low,
      if r.hi.None? then Unbounded
      else if !b.high.Unbounded? && (b.high.NoCeiling? || r.hi.value > b.high.n) then AtMost(r.hi.value)
      else b.high)
  }

  /** `globalMin` and `globalMax` after the range loop over `labels`. */
  function RangeBounds(labels: seq<string>, rangeOf: string -> Interval): Bounds
    decreases |labels|
  {
    if labels == [] then Bounds(None, NoCeiling)
    else BoundsStep(RangeBounds(labels[..|labels| - 1], rangeOf), rangeOf(labels[|labels| - 1]))
  }

  /** The range loop, with `globalMin` and `globalMax` updated across turns. */
  method EmployeeBounds(labels: seq<string>, rangeOf: string -> Interval) returns (b: Bounds)
    ensures b == RangeBounds(labels, rangeOf)
  {
    var globalMin: Option<nat> := None;
    var globalMax: Ceiling := NoCeiling;
    for i := 0 to |labels|
      invariant Bounds(globalMin, globalMax) == RangeBounds(labels[..i], rangeOf)
    {
      assert labels[..i + 1][..i] == labels[..i];
      var r := rangeOf(labels[i]);
      if r.lo.Some? && (globalMin.None? || r.lo.value < globalMin.value) {
        globalMin := r.lo;
      }
      if r.hi.None? {
        globalMax := Unbounded;
      } else if !globalMax.Unbounded? && (globalMax.NoCeiling? || r.hi.value > globalMax.n) {
        globalMax := AtMost(r.hi.value);
      }
    }
    assert labels[..|labels|] == labels;
    b := Bounds(globalMin, globalMax);
  }

  /**
   * The low bound is the least low end among the labels, absent only when no label has one;
   * the high bound is the greatest high end, absent once a label has no high end.
   */
  lemma {:induction false} RangeBoundsExtremes(labels: seq<string>, rangeOf: string -> Interval)
    ensures var b := RangeBounds(labels, rangeOf);
      && (b.low.Some? <==> exists k :: 0 <= k < |labels| && rangeOf(labels[k]).lo.Some?)
      && (b.low.Some? ==> exists k :: 0 <= k < |labels| && rangeOf(labels[k]).lo == b.low)
      && (forall k :: 0 <= k < |labels| && rangeOf(labels[k]).lo.Some? ==> b.low.Some? && b.low.value <= rangeOf(labels[k]).lo.value)
      && (b.high.NoCeiling? <==> labels == [])
      && (b.high.Unbounded? <==> exists k :: 0 <= k < |labels| && rangeOf(labels[k]).hi.None?)
      && (b.high.AtMost? ==> exists k :: 0 <= k < |labels| && rangeOf(labels[k]).hi == Some(b.high.n))
      && (b.high.AtMost? ==> forall k :: 0 <= k < |labels| ==> rangeOf(labels[k]).hi.Some? && rangeOf(labels[k]).hi.value <= b.high.n)
    decreases |labels|
  {
    if labels != [] {
      var init := labels[..|labels| - 1];
      RangeBoundsExtremes(init, rangeOf);
      var last := |labels| - 1;
      forall k | 0 <= k < |init| ensures labels[k] == init[k] { }
      var b, b0, r := RangeBounds(labels, rangeOf), RangeBounds(init, rangeOf), rangeOf(labels[last]);
      if b.low.Some? {
        if r.lo.Some? && (b0.low.None? || r.lo.value < b0.low.value) {
          assert rangeOf(labels[last]).lo == b.low;
        } else {
          var k :| 0 <= k < |init| && rangeOf(init[k]).lo == b0.low;
          assert rangeOf(labels[k]).lo == b.low;
        }
      }
      if b.high.AtMost? {
        if r.hi.Some? && !b0.high.Unbounded? && (b0.high.NoCeiling? || r.hi.value > b0.high.n) {
          assert rangeOf(labels[last]).hi == Some(b.high.n);
        } else {
          var k :| 0 <= k < |init| && rangeOf(init[k]).hi == Some(b0.high.n);
          assert rangeOf(labels[k]).hi == Some(b.high.n);
        }
      }
      if b.high.Unbounded? && r.hi.Some? {
        var k :| 0 <= k < |init| && rangeOf(init[k]).hi.None?;
        assert rangeOf(labels[k]).hi.None?;
      }
    }
  }

  const LatestCount := "employee_metrics.latest_count"
  const EmployeeRange := "employee_count_range"

  /** The conditions that stand for the selected employee ranges. */
  function BoundConditions(b: Bounds): (r: seq<Condition>)
    ensures forall k :: 0 <= k < |r| ==> r[k].Where? && r[k].field == LatestCount && r[k].value.JInt?
  {
    (if b.low.Some? then [Where(LatestCount, "=>", JInt(b.low.value))] else [])
    + (if b.high.AtMost? then [Where(LatestCount, "=<", JInt(b.high.n))] else [])
  }

  // ------------------------------------------------------------ company discovery

  datatype InputType = AutocompleteText | TextInput | NumberInput | DateInput | MultiSelect | AutocompleteMulti | TextList

  /** A `FILTER_CATALOG` entry: the field and its input. */
  datatype FieldSpec = FieldSpec(key: string, inputType: InputType)

  /** A row of the discovery filter form. */
  datatype ActiveFilter = ActiveFilter(fieldKey: string, operator: string, value: Raw)

  /** An empty list, '', `null` or `undefined`: the row is skipped. */
  predicate IsBlank(v: Raw) {
    v.Missing? || v == RawText("") || v == RawList([])
  }

  /** `parseFloat` for number inputs, the comma list for text-list inputs given as text. */
  function Converted(t: InputType, v: Raw): Json {
    match v
    case RawText(s) => if t == NumberInput then JParsed(s) else if t == TextList then JList(CommaList(s)) else JText(s)
    case RawList(xs) => if t == NumberInput then JParsed(Join(xs, ",")) else JList(xs)
    case Missing => JText("")
  }

  function SpecKey(s: FieldSpec): string { s.key }

  /** The conditions one row of the form contributes. */
  function DiscoveryConditions(catalog: seq<FieldSpec>, f: ActiveFilter): seq<Condition> {
    match Find(catalog, SpecKey, f.fieldKey)
    case None => []
    case Some(spec) =>
      if IsBlank(f.value) then []
      else
        var value := Converted(spec.inputType, f.value);
        if f.fieldKey == EmployeeRange && value.JList? && |value.items| > 0 then BoundConditions(RangeBounds(value.items, RangeOf))
        else [Where(f.fieldKey, f.operator, value)]
  }

  /** `companies.filter(c => c.domain).map(c => c.domain)`. */
  function ExistingDomains(cs: seq<Company>): (r: seq<Value>)
    ensures |r| <= |cs|
    ensures forall k :: 0 <= k < |r| ==> Truthy(r[k])
    decreases |cs|
  {
    if cs == [] then []
    else
      var d := CompanyList.DomainMember(cs[|cs| - 1]);
      ExistingDomains(cs[..|cs| - 1]) + (if d.Some? && Truthy(d.value) then [d.value] else [])
  }

  /** JavaScript truthiness of a member. */
  predicate Truthy(v: Value) {
    match v
    case Str(s) => s != ""
    case Num(n) => n != 0
    case Null => false
  }

  function Exclusion(cs: seq<Company>): seq<Condition> {
    var existing := ExistingDomains(cs);
    if |existing| > 0 then [Where("company_website_domain", "not_in", JValues(existing))] else []
  }

  /** The conditions of the rows of the form, in order. */
  function DiscoveryRows(filters: seq<ActiveFilter>, catalog: seq<FieldSpec>): seq<Condition> {
    Flat(filters, f => DiscoveryConditions(catalog, f))
  }

  lemma DiscoveryRowsSnoc(filters: seq<ActiveFilter>, catalog: seq<FieldSpec>, i: nat)
    requires i < |filters|
    ensures DiscoveryRows(filters[..i + 1], catalog) == DiscoveryRows(filters[..i], catalog) + DiscoveryConditions(catalog, filters[i])
  {
    assert filters[..i + 1][..i] == filters[..i];
  }

  /** The discovery filter, `null` when it has no condition. */
  function DiscoveryFilter(filters: seq<ActiveFilter>, catalog: seq<FieldSpec>, cs: seq<Company>): Option<Filter> {
    var conditions := DiscoveryRows(filters, catalog) + Exclusion(cs);
    if |conditions| == 0 then None else Some(And(conditions))
  }

  /** One turn of the loop of `buildCrustdataFilters`: the conditions the row pushes. */
  method RowConditions(catalog: seq<FieldSpec>, f: ActiveFilter) returns (pushed: seq<Condition>)
    ensures pushed == DiscoveryConditions(catalog, f)
  {
    pushed := [];
    var spec := Find(catalog, SpecKey, f.fieldKey);
    if spec.None? || IsBlank(f.value) {
      return;
    }
    var value := Converted(spec.value.inputType, f.value);
    if f.fieldKey == EmployeeRange && value.JList? && |value.items| > 0 {
      var b := EmployeeBounds(value.items, RangeOf);
      if b.low.Some? {
        pushed := pushed + [Where(LatestCount, "=>", JInt(b.low.value))];
      }
      if b.high.AtMost? {
        pushed := pushed + [Where(LatestCount, "=<", JInt(b.high.n))];
      }
      return;
    }
    pushed := [Where(f.fieldKey, f.operator, value)];
  }

  /** `buildCrustdataFilters`. */
  method BuildCrustdataFilters(filters: seq<ActiveFilter>, catalog: seq<FieldSpec>, cs: seq<Company>) returns (r: Option<Filter>)
    ensures r == DiscoveryFilter(filters, catalog, cs)
  {
    var conditions: seq<Condition> := [];
    for i := 0 to |filters|
      invariant conditions == DiscoveryRows(filters[..i], catalog)
    {
      DiscoveryRowsSnoc(filters, catalog, i);
      var row := RowConditions(catalog, filters[i]);
      conditions := conditions + row;
    }
    assert filters[..|filters|] == filters;
    conditions := conditions + Exclusion(cs);
    if |conditions| == 0 {
      return None;
    }
    return Some(And(conditions));
  }

  /** Selected employee ranges become count bounds; the range field itself is never sent. */
  lemma EmployeeRangeRow(catalog: seq<FieldSpec>, f: ActiveFilter, labels: seq<string>)
    requires f.fieldKey == EmployeeRange && f.value == RawList(labels) && labels != []
    requires var spec := Find(catalog, SpecKey, EmployeeRange); spec.Some? && spec.value.inputType != NumberInput
    ensures DiscoveryConditions(catalog, f) == BoundConditions(RangeBounds(labels, RangeOf))
    ensures forall k :: 0 <= k < |DiscoveryConditions(catalog, f)| ==> DiscoveryConditions(catalog, f)[k].field == LatestCount
  {
  }

  /** A row contributes at most two conditions, none when unknown or blank, one unless it is the range row. */
  lemma DiscoveryRow(catalog: seq<FieldSpec>, f: ActiveFilter)
    ensures |DiscoveryConditions(catalog, f)| <= 2
    ensures Find(catalog, SpecKey, f.fieldKey).None? || IsBlank(f.value) ==> DiscoveryConditions(catalog, f) == []
    ensures Find(catalog, SpecKey, f.fieldKey).Some? && !IsBlank(f.value) && f.fieldKey != EmployeeRange ==>
      DiscoveryConditions(catalog, f) == [Where(f.fieldKey, f.operator, Converted(Find(catalog, SpecKey, f.fieldKey).value.inputType, f.value))]
  {
  }

  /**
   * The filter is `null` exactly when no row contributes and no listed company has a domain;
   * otherwise the known domains are excluded by the last condition.
   */
  lemma DiscoveryExcludesKnown(filters: seq<ActiveFilter>, catalog: seq<FieldSpec>, cs: seq<Company>)
    ensures DiscoveryFilter(filters, catalog, cs).None? <==>
      DiscoveryRows(filters, catalog) == [] && ExistingDomains(cs) == []
    ensures ExistingDomains(cs) != [] ==> var r := DiscoveryFilter(filters, catalog, cs);
      r.Some? && r.value.conditions[|r.value.conditions| - 1] == Where("company_website_domain", "not_in", JValues(ExistingDomains(cs)))
  {
  }

  /** Every truthy listed domain is excluded, and nothing else is. */
  lemma {:induction false} ExistingDomainsExact(cs: seq<Company>)
    ensures forall v :: v in ExistingDomains(cs) <==> Truthy(v) && exists c :: c in cs && CompanyList.DomainMember(c) == Some(v)
    decreases |cs|
  {
    if cs != [] {
      var init, last := cs[..|cs| - 1], cs[|cs| - 1];
      ExistingDomainsExact(init);
      assert cs == init + [last];
      forall v | Truthy(v) && exists c :: c in cs && CompanyList.DomainMember(c) == Some(v)
        ensures v in ExistingDomains(cs)
      {
        var c :| c in cs && CompanyList.DomainMember(c) == Some(v);
        if c != last { assert c in init; }
      }
    }
  }

  // ------------------------------------------------------------ LinkedIn company search

  datatype LinkedinKind = FlagKind | KeywordKind | ListKind | RangeKind

  /** A `LINKEDIN_FILTER_CATALOG` entry. */
  datatype LinkedinSpec = LinkedinSpec(key: string, kind: LinkedinKind)

  /** A row of the LinkedIn filter form; `min`, `max` and `subFilter` are '' when unset. */
  datatype LinkedinFilter = LinkedinFilter(filterKey: string, value: Raw, notIn: bool, min: string, max: string, subFilter: string)

  function LinkedinKey(s: LinkedinSpec): string { s.key }

  /** `s !== '' ? s : null`, and `if (s) ...` for the sub-filter. */
  function Given(s: string): Option<string> {
    if s != "" then Some(s) else None
  }

  /** The condition one row contributes, if any. */
  function LinkedinConditions(catalog: seq<LinkedinSpec>, f: LinkedinFilter): seq<Condition> {
    match Find(catalog, LinkedinKey, f.filterKey)
    case None => []
    case Some(spec) =>
      match spec.kind
      case FlagKind => [Flagged(f.filterKey)]
      case KeywordKind =>
        if f.value.RawText? && Trim(f.value.s) != "" then [Where("KEYWORD", "in", JList([Trim(f.value.s)]))] else []
      case ListKind =>
        if f.value.RawList? && |f.value.items| > 0 then [Where(f.filterKey, if f.notIn then "not in" else "in", JList(f.value.items))] else []
      case RangeKind =>
        if Given(f.min).Some? || Given(f.max).Some? then [Between(f.filterKey, Given(f.min), Given(f.max), Given(f.subFilter))] else []
  }

  /** The filters of the rows of the form, in order. */
  function LinkedinRows(rows: seq<LinkedinFilter>, catalog: seq<LinkedinSpec>): seq<Condition> {
    Flat(rows, f => LinkedinConditions(catalog, f))
  }

  lemma LinkedinRowsSnoc(rows: seq<LinkedinFilter>, catalog: seq<LinkedinSpec>, i: nat)
    requires i < |rows|
    ensures LinkedinRows(rows[..i + 1], catalog) == LinkedinRows(rows[..i], catalog) + LinkedinConditions(catalog, rows[i])
  {
    assert rows[..i + 1][..i] == rows[..i];
  }

  /** `buildLinkedInFilters`. */
  method BuildLinkedInFilters(rows: seq<LinkedinFilter>, catalog: seq<LinkedinSpec>) returns (filters: seq<Condition>)
    ensures filters == LinkedinRows(rows, catalog)
  {
    filters := [];
    for i := 0 to |rows|
      invariant filters == LinkedinRows(rows[..i], catalog)
    {
      LinkedinRowsSnoc(rows, catalog, i);
      var f := rows[i];
      var spec := Find(catalog, LinkedinKey, f.filterKey);
      if spec.None? {
        continue;
      }
      match spec.value.kind {
        case FlagKind =>
          filters := filters + [Flagged(f.filterKey)];
        case KeywordKind =>
          if f.value.RawText? && Trim(f.value.s) != "" {
            filters := filters + [Where("KEYWORD", "in", JList([Trim(f.value.s)]))];
          }
        case ListKind =>
          if f.value.RawList? && |f.value.items| > 0 {
            filters := filters + [Where(f.filterKey, if f.notIn then "not in" else "in", JList(f.value.items))];
          }
        case RangeKind =>
          var min, max := Given(f.min), Given(f.max);
          if min.Some? || max.Some? {
            filters := filters + [Between(f.filterKey, min, max, Given(f.subFilter))];
          }
      }
    }
    assert rows[..|rows|] == rows;
  }

  /** The shapes the LinkedIn search accepts: a list condition with a non-empty list, a range with a bound. */
  predicate LinkedinShaped(c: Condition) {
    match c
    case Flagged(_) => true
    case Where(_, op, value) => (op == "in" || op == "not in") && value.JList? && |value.items| > 0
    case Between(_, min, max, _) => min.Some? || max.Some?
    case AnyOf(_) => false
  }

  lemma LinkedinRow(catalog: seq<LinkedinSpec>, f: LinkedinFilter)
    ensures |LinkedinConditions(catalog, f)| <= 1
    ensures forall j :: 0 <= j < |LinkedinConditions(catalog, f)| ==> LinkedinShaped(LinkedinConditions(catalog, f)[j])
    ensures Find(catalog, LinkedinKey, f.filterKey).None? ==> LinkedinConditions(catalog, f) == []
  {
  }

  /** At most one filter per row, each of an accepted shape. */
  lemma LinkedinFiltersShaped(rows: seq<LinkedinFilter>, catalog: seq<LinkedinSpec>)
    ensures |LinkedinRows(rows, catalog)| <= |rows|
    ensures var r := LinkedinRows(rows, catalog); forall j :: 0 <= j < |r| ==> LinkedinShaped(r[j])
  {
    var of := f => LinkedinConditions(catalog, f);
    forall k | 0 <= k < |rows| ensures |of(rows[k])| <= 1 && forall j :: 0 <= j < |of(rows[k])| ==> LinkedinShaped(of(rows[k])[j]) {
      LinkedinRow(catalog, rows[k]);
    }
    FlatLength(rows, of, 1);
    FlatAll(rows, of, LinkedinShaped);
  }

  // ------------------------------------------------------------ people search

  /** `contactsCompany`: nothing, one company's `domain` ('' when absent), or several. */
  datatype Selection = NoCompany | One(domain: string) | Several(domains: seq<string>)

  /** `contactsFilters`. */
  datatype PeopleCriteria = PeopleCriteria(titles: string, functions: seq<string>, verifiedEmailOnly: bool, recentlyChangedJobs: bool)

  const EmployerDomain := "current_employers.company_website_domain"

  /** The domains the selection names, the falsy ones dropped. */
  function SelectedDomains(sel: Selection): seq<string> {
    match sel
    case NoCompany => []
    case One(d) => if d != "" then [d] else []
    case Several(ds) => NonEmpty(ds)
  }

  /** The company condition: `=` for one domain, `in` for several; `null` without a domain. */
  function CompanyCondition(sel: Selection): Option<Condition> {
    match sel
    case NoCompany => None
    case One(d) => if d == "" then None else Some(Where(EmployerDomain, "=", JText(d)))
    case Several(ds) =>
      var domains := NonEmpty(ds);
      if |domains| == 0 then None
      else if |domains| == 1 then Some(Where(EmployerDomain, "=", JText(domains[0])))
      else Some(Where(EmployerDomain, "in", JList(domains)))
  }

  /** `{ column: 'current_employers.title', type: '(.)', value: t }`. */
  function Fuzzy(t: string): Condition {
    Where("current_employers.title", "(.)", JText(t))
  }

  function FuzzyAll(ts: seq<string>): (r: seq<Condition>)
    ensures |r| == |ts| && forall k :: 0 <= k < |ts| ==> r[k] == Fuzzy(ts[k])
  {
    seq(|ts|, k requires 0 <= k < |ts| => Fuzzy(ts[k]))
  }

  /** The title conditions as written: an `or` group whenever the list is not a single title, even an empty one. */
  function TitleConditionsAsWritten(titles: string): seq<Condition> {
    if Trim(titles) == "" then []
    else
      var ts := CommaList(titles);
      if |ts| == 1 then [Fuzzy(ts[0])] else [AnyOf(FuzzyAll(ts))]
  }

  /** A titles text of only a comma passes the guard and yields an `or` group of nothing. */
  lemma CommaOnlyTitlesAsWritten()
    ensures TitleConditionsAsWritten(",") == [AnyOf([])]
  {
    TrimOfTrimmed(",");
    CommaOnlyList();
  }

  lemma CommaSplit()
    ensures Split(",", ",") == ["", ""]
  {
    assert IndexOf(",", ",") == Some(0);
    assert IndexOf("", ",").None?;
  }

  /** A lone comma lists no value. */
  lemma CommaOnlyList()
    ensures CommaList(",") == []
  {
    CommaSplit();
    TrimBlanks();
    BlanksDropped();
  }

  lemma TrimBlanks()
    ensures TrimEach(["", ""]) == ["", ""]
  {
    assert Trim("") == "";
  }

  lemma BlanksDropped()
    ensures NonEmpty(["", ""]) == []
  {
    assert ["", ""][1..] == [""];
    assert [""][1..] == [];
  }

  /** The title conditions: one fuzzy condition for one title, an `or` group for several, nothing for none. */
  function TitleConditions(titles: string): (r: seq<Condition>)
    ensures var ts := CommaList(titles);
      && (r == [] <==> Trim(titles) == "" || ts == [])
      && (r != [] && |ts| == 1 ==> r == [Fuzzy(ts[0])])
      && (r != [] && |ts| != 1 ==> |ts| >= 2 && r == [AnyOf(FuzzyAll(ts))])
  {
    var ts := CommaList(titles);
    if Trim(titles) == "" || ts == [] then []
    else if |ts| == 1 then [Fuzzy(ts[0])] else [AnyOf(FuzzyAll(ts))]
  }

  /** Every `or` group the corrected title conditions produce has at least two titles. */
  lemma TitleGroupsHaveTwo(titles: string)
    ensures forall j :: 0 <= j < |TitleConditions(titles)| ==> TitleConditions(titles)[j].AnyOf? ==>
      |TitleConditions(titles)[j].conditions| >= 2
  {
    GroupsOfTwo(TitleConditions(titles), CommaList(titles));
  }

  /** The shape the title conditions take, read off their list of titles. */
  lemma GroupsOfTwo(r: seq<Condition>, ts: seq<string>)
    requires r != [] && |ts| == 1 ==> r == [Fuzzy(ts[0])]
    requires r != [] && |ts| != 1 ==> |ts| >= 2 && r == [AnyOf(FuzzyAll(ts))]
    ensures forall j :: 0 <= j < |r| ==> r[j].AnyOf? ==> |r[j].conditions| >= 2
  {
  }

  /** The optional conditions after the titles, each present when its criterion is set. */
  function FunctionCondition(c: PeopleCriteria): seq<Condition> {
    if |c.functions| > 0 then [Where("current_employers.function_category", "in", JList(c.functions))] else []
  }

  function VerifiedCondition(c: PeopleCriteria): seq<Condition> {
    if c.verifiedEmailOnly then [Where("current_employers.business_email_verified", "=", JBool(true))] else []
  }

  function RecentCondition(c: PeopleCriteria): seq<Condition> {
    if c.recentlyChangedJobs then [Where("recently_changed_jobs", "=", JBool(true))] else []
  }

  /** The people filter, `null` without a company to search in; the conditions in the order the source pushes them. */
  function PeopleFilter(sel: Selection, c: PeopleCriteria): Option<Filter> {
    match CompanyCondition(sel)
    case None => None
    case Some(company) =>
      Some(And([company] + TitleConditions(c.titles) + FunctionCondition(c) + VerifiedCondition(c) + RecentCondition(c)))
  }

  /** `buildPeopleFilters`, pushing each condition in turn. */
  method BuildPeopleFilters(sel: Selection, c: PeopleCriteria) returns (r: Option<Filter>)
    ensures r == PeopleFilter(sel, c)
  {
    var company := CompanyCondition(sel);
    if company.None? {
      return None;
    }
    var conditions := [company.value];
    conditions := conditions + TitleConditions(c.titles);
    conditions := conditions + FunctionCondition(c);
    conditions := conditions + VerifiedCondition(c);
    conditions := conditions + RecentCondition(c);
    return Some(And(conditions));
  }

  /**
   * There is a people filter exactly when the selection names a domain; it opens with that
   * domain under `=` when there is one and all of them under `in` otherwise.
   */
  lemma PeopleCompanyFirst(sel: Selection, c: PeopleCriteria)
    ensures PeopleFilter(sel, c).Some? <==> SelectedDomains(sel) != []
    ensures var ds := SelectedDomains(sel); PeopleFilter(sel, c).Some? ==>
      && |PeopleFilter(sel, c).value.conditions| >= 1
      && PeopleFilter(sel, c).value.conditions[0] ==
         (if |ds| == 1 then Where(EmployerDomain, "=", JText(ds[0])) else Where(EmployerDomain, "in", JList(ds)))
  {
  }
}
