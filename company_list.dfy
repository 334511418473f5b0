/**
 * The screening list (components/ICPScreener.jsx): the companies on screen, the merge of an
 * uploaded CSV into them (1357-1366), the per-index update `updateCompany` (1385-1387), the
 * indices the batch run picks up (1737), and the discovery results that join the queue
 * (1916-1919, 2005-2020).
 *
 * The merge keys each company by `normalizeDomain(c.website)`. Its laws hold for any key
 * function, so they are stated for a parameter `key` and `DomainOf` is passed in.
 */
module CompanyList {
  import opened Wrappers
  import opened Company
  import Domain
  import Integers
  import opened OrderedMap

  /** `normalizeDomain(c.website)`. */
  function DomainOf(c: Company): string {
    Domain.Normalize(Member(c, Website))
  }

  // ------------------------------------------------------------ the merge

  /** `new Map(cs.map(c => [key(c), c]))`: a later company with a key replaces an earlier one, in its place. */
  function Load(cs: seq<Company>, key: Company -> string): Entries<Company>
    decreases |cs|
  {
    if cs == [] then Empty()
    else Put(Load(cs[..|cs| - 1], key), key(cs[|cs| - 1]), cs[|cs| - 1])
  }

  /** Whether the merge sets `d`: it is new, or what it holds is not `complete`. */
  predicate Writes(e: Entries<Company>, d: string) {
    d !in e.vals || StatusOf(e.vals[d]) != "complete"
  }

  /** The merge's loop over the parsed companies. */
  function MergeInto(e: Entries<Company>, parsed: seq<Company>, key: Company -> string): Entries<Company>
    decreases |parsed|
  {
    if parsed == [] then e
    else
      var m := MergeInto(e, parsed[..|parsed| - 1], key);
      var co := parsed[|parsed| - 1];
      if Writes(m, key(co)) then Put(m, key(co), co) else m
  }

  /** The list after merging the parsed companies into `prev`. */
  function Merged(prev: seq<Company>, parsed: seq<Company>, key: Company -> string): seq<Company> {
    LoadWellFormed(prev, key);
    MergeWellFormed(Load(prev, key), parsed, key);
    Values(MergeInto(Load(prev, key), parsed, key))
  }

  /** The merge of the upload handler, on the `Map` it builds. */
  method MergeCsv(prev: seq<Company>, parsed: seq<Company>, key: Company -> string) returns (r: seq<Company>)
    ensures r == Merged(prev, parsed, key)
  {
    var m := new Table<Company>();
    for i := 0 to |prev|
      invariant m.State() == Load(prev[..i], key)
    {
      assert prev[..i + 1][..i] == prev[..i];
      m.Set(key(prev[i]), prev[i]);
    }
    assert prev[..|prev|] == prev;
    for i := 0 to |parsed|
      invariant m.State() == MergeInto(Load(prev, key), parsed[..i], key)
    {
      assert parsed[..i + 1][..i] == parsed[..i];
      var co := parsed[i];
      var d := key(co);
      if d !in m.vals || StatusOf(m.vals[d]) != "complete" {
        m.Set(d, co);
      }
    }
    assert parsed[..|parsed|] == parsed;
    LoadWellFormed(prev, key);
    MergeWellFormed(Load(prev, key), parsed, key);
    r := Values(m.State());
  }

  // ------------------------------------------------------------ laws of the merge

  /** Every entry is filed under its own key. */
  ghost predicate Keyed(e: Entries<Company>, key: Company -> string) {
    forall d :: d in e.vals ==> key(e.vals[d]) == d
  }

  lemma {:induction false} LoadWellFormed(cs: seq<Company>, key: Company -> string)
    ensures WellFormed(Load(cs, key)) && Keyed(Load(cs, key), key)
    decreases |cs|
  {
    if cs != [] {
      var init := cs[..|cs| - 1];
      LoadWellFormed(init, key);
      PutWellFormed(Load(init, key), key(cs[|cs| - 1]), cs[|cs| - 1]);
    }
  }

  lemma {:induction false} MergeWellFormed(e: Entries<Company>, parsed: seq<Company>, key: Company -> string)
    requires WellFormed(e)
    ensures WellFormed(MergeInto(e, parsed, key))
    ensures Keyed(e, key) ==> Keyed(MergeInto(e, parsed, key), key)
    decreases |parsed|
  {
    if parsed != [] {
      var init := parsed[..|parsed| - 1];
      MergeWellFormed(e, init, key);
      var m := MergeInto(e, init, key);
      var co := parsed[|parsed| - 1];
      PutWellFormed(m, key(co), co);
    }
  }

  /** The keys of the loaded list are the keys of its companies. */
  lemma {:induction false} LoadKeys(cs: seq<Company>, key: Company -> string, d: string)
    ensures d in Load(cs, key).vals <==> exists c :: c in cs && key(c) == d
    decreases |cs|
  {
    if cs != [] {
      var init, last := cs[..|cs| - 1], cs[|cs| - 1];
      LoadKeys(init, key, d);
      assert cs == init + [last];
      if exists c :: c in init && key(c) == d {
        var c :| c in init && key(c) == d;
        assert c in cs;
      }
    }
  }

  /** A `complete` company already in the list is never replaced. */
  lemma {:induction false} CompleteKept(e: Entries<Company>, parsed: seq<Company>, key: Company -> string, d: string)
    requires d in e.vals && StatusOf(e.vals[d]) == "complete"
    ensures d in MergeInto(e, parsed, key).vals && MergeInto(e, parsed, key).vals[d] == e.vals[d]
    decreases |parsed|
  {
    if parsed != [] {
      CompleteKept(e, parsed[..|parsed| - 1], key, d);
    }
  }

  /** A key that no parsed company has keeps what it had, or stays absent. */
  lemma {:induction false} Untouched(e: Entries<Company>, parsed: seq<Company>, key: Company -> string, d: string)
    requires forall k :: 0 <= k < |parsed| ==> key(parsed[k]) != d
    ensures d in MergeInto(e, parsed, key).vals <==> d in e.vals
    ensures d in e.vals ==> MergeInto(e, parsed, key).vals[d] == e.vals[d]
    decreases |parsed|
  {
    if parsed != [] {
      Untouched(e, parsed[..|parsed| - 1], key, d);
    }
  }

  /** The last of the parsed companies filed under `d`. */
  function LastWith(parsed: seq<Company>, key: Company -> string, d: string): (r: Option<Company>)
    ensures r.Some? ==> r.value in parsed && key(r.value) == d
    ensures r.None? ==> forall k :: 0 <= k < |parsed| ==> key(parsed[k]) != d
    decreases |parsed|
  {
    if parsed == [] then None
    else if key(parsed[|parsed| - 1]) == d then Some(parsed[|parsed| - 1])
    else LastWith(parsed[..|parsed| - 1], key, d)
  }

  /**
   * Where the list has no `complete` company for `d`, the merge files under `d` the last
   * parsed company with that key, as long as no parsed company is itself `complete` (those
   * `parseCSV` gives are all pending).
   */
  lemma {:induction false} LastParsedWins(e: Entries<Company>, parsed: seq<Company>, key: Company -> string, d: string)
    requires Writes(e, d)
    requires forall k :: 0 <= k < |parsed| ==> StatusOf(parsed[k]) != "complete"
    requires LastWith(parsed, key, d).Some?
    ensures d in MergeInto(e, parsed, key).vals
    ensures MergeInto(e, parsed, key).vals[d] == LastWith(parsed, key, d).value
    decreases |parsed|
  {
    var init, co := parsed[..|parsed| - 1], parsed[|parsed| - 1];
    if key(co) == d {
      if init != [] && LastWith(init, key, d).Some? {
        LastParsedWins(e, init, key, d);
      } else {
        Untouched(e, init, key, d);
      }
    } else {
      LastParsedWins(e, init, key, d);
    }
  }

  /** Every parsed company's key is in the merged map. */
  lemma {:induction false} ParsedKeysPresent(e: Entries<Company>, parsed: seq<Company>, key: Company -> string)
    ensures forall k :: 0 <= k < |parsed| ==> key(parsed[k]) in MergeInto(e, parsed, key).vals
    ensures forall d :: d in e.vals ==> d in MergeInto(e, parsed, key).vals
    decreases |parsed|
  {
    if parsed != [] {
      var init := parsed[..|parsed| - 1];
      ParsedKeysPresent(e, init, key);
      forall k | 0 <= k < |parsed| - 1 ensures parsed[k] == init[k] { }
    }
  }

  /** The companies already listed keep their places in front; new keys follow. */
  lemma {:induction false} KeysExtended(e: Entries<Company>, parsed: seq<Company>, key: Company -> string)
    ensures e.keys <= MergeInto(e, parsed, key).keys
    decreases |parsed|
  {
    if parsed != [] {
      KeysExtended(e, parsed[..|parsed| - 1], key);
    }
  }

  /** The merged list has one company per key, each under its own key. */
  lemma OnePerDomain(prev: seq<Company>, parsed: seq<Company>, key: Company -> string)
    ensures var r := Merged(prev, parsed, key);
      forall i, j :: 0 <= i < j < |r| ==> key(r[i]) != key(r[j])
  {
    LoadWellFormed(prev, key);
    MergeWellFormed(Load(prev, key), parsed, key);
  }

  // ------------------------------------------------------------ the list on screen

  /** `pending` and `error` companies are (re)screened by a batch run. */
  predicate IsPending(c: Company) {
    StatusOf(c) == "pending" || StatusOf(c) == "error"
  }

  /** The indices from `i` on whose companies are pending, in order. */
  function PendingFrom(cs: seq<Company>, i: nat): seq<nat>
    requires i <= |cs|
    decreases |cs| - i
  {
    if i == |cs| then [] else (if IsPending(cs[i]) then [i] else []) + PendingFrom(cs, i + 1)
  }

  /** `companies.map((_, i) => i).filter(i => status is 'pending' or 'error')`. */
  function PendingIndices(cs: seq<Company>): seq<nat> {
    PendingFrom(cs, 0)
  }

  lemma {:induction false} PendingFromExact(cs: seq<Company>, i: nat)
    requires i <= |cs|
    ensures forall n :: n in PendingFrom(cs, i) <==> i <= n < |cs| && IsPending(cs[n])
    ensures forall a, b :: 0 <= a < b < |PendingFrom(cs, i)| ==> PendingFrom(cs, i)[a] < PendingFrom(cs, i)[b]
    ensures forall a :: 0 <= a < |PendingFrom(cs, i)| ==> i <= PendingFrom(cs, i)[a]
    decreases |cs| - i
  {
    if i < |cs| {
      PendingFromExact(cs, i + 1);
    }
  }

  /** The selected indices are exactly those of pending or errored companies, in increasing order. */
  lemma PendingSelection(cs: seq<Company>)
    ensures forall n :: n in PendingIndices(cs) <==> 0 <= n < |cs| && IsPending(cs[n])
    ensures forall a, b :: 0 <= a < b < |PendingIndices(cs)| ==> PendingIndices(cs)[a] < PendingIndices(cs)[b]
  {
    PendingFromExact(cs, 0);
  }

  /** Companies that agree on being pending, index by index, select the same indices. */
  lemma {:induction false} PendingAgree(cs: seq<Company>, ds: seq<Company>, i: nat)
    requires |cs| == |ds| && i <= |cs|
    requires forall k :: 0 <= k < |cs| ==> (IsPending(cs[k]) <==> IsPending(ds[k]))
    ensures PendingFrom(cs, i) == PendingFrom(ds, i)
    decreases |cs| - i
  {
    if i < |cs| {
      PendingAgree(cs, ds, i + 1);
      var mine: seq<nat> := if IsPending(cs[i]) then [i] else [];
      assert mine == if IsPending(ds[i]) then [i] else [];
      assert PendingFrom(cs, i) == mine + PendingFrom(cs, i + 1);
    }
  }

  /** `updateCompany(fields)` on index `index`: `u[index] = { ...u[index], ...fields }`. */
  function Updated(cs: seq<Company>, index: nat, fields: Company): seq<Company>
    requires index < |cs|
  {
    cs[index := Spread(cs[index], fields)]
  }

  /** An update that does not set `status` leaves the batch run's selection as it was. */
  lemma UpdateKeepsPending(cs: seq<Company>, index: nat, fields: Company)
    requires index < |cs| && Status !in fields
    ensures PendingIndices(Updated(cs, index, fields)) == PendingIndices(cs)
  {
    var u := Updated(cs, index, fields);
    forall k | 0 <= k < |cs| ensures IsPending(cs[k]) <==> IsPending(u[k]) {
      if k == index { assert StatusOf(u[k]) == StatusOf(cs[k]); }
    }
    PendingAgree(cs, u, 0);
  }

  /** An update sets the given members, keeps the others, and touches no other company. */
  lemma UpdateSets(cs: seq<Company>, index: nat, fields: Company)
    requires index < |cs|
    ensures var u := Updated(cs, index, fields);
      && |u| == |cs| && (forall k :: 0 <= k < |cs| && k != index ==> u[k] == cs[k])
      && (forall m :: m in fields ==> m in u[index] && u[index][m] == fields[m])
      && (forall m :: m in cs[index] && m !in fields ==> m in u[index] && u[index][m] == cs[index][m])
  {
  }

  /** Applying the same update twice is applying it once. */
  lemma UpdateIdempotent(cs: seq<Company>, index: nat, fields: Company)
    requires index < |cs|
    ensures Updated(Updated(cs, index, fields), index, fields) == Updated(cs, index, fields)
  {
    SpreadIdempotent(cs[index], fields);
  }

  // ------------------------------------------------------------ discovery

  /** A company found by discovery, as the results list shows it. */
  datatype Prospect = Prospect(name: string, domain: string, website: string, employees: nat,
                               funding: string, totalFunding: nat)

  /** `c.domain`, absent as `None`. */
  function DomainMember(c: Company): Option<Value> {
    if CompanyDomain in c then Some(c[CompanyDomain]) else None
  }

  /** `new Set(companies.map(c => c.domain))`. */
  function ExistingDomains(cs: seq<Company>): set<Option<Value>> {
    set c | c in cs :: DomainMember(c)
  }

  predicate Known(cs: seq<Company>, d: string) {
    Some(Str(d)) in ExistingDomains(cs)
  }

  /** The results kept: those with a domain that no listed company has (1916-1919). */
  function NewProspects(found: seq<Prospect>, cs: seq<Company>): (r: seq<Prospect>)
    ensures |r| <= |found|
    decreases |found|
  {
    if found == [] then []
    else
      var p := found[|found| - 1];
      NewProspects(found[..|found| - 1], cs) + (if p.domain != "" && !Known(cs, p.domain) then [p] else [])
  }

  lemma {:induction false} NewProspectsExact(found: seq<Prospect>, cs: seq<Company>)
    ensures forall p :: p in NewProspects(found, cs) <==> p in found && p.domain != "" && !Known(cs, p.domain)
    decreases |found|
  {
    if found != [] {
      var init := found[..|found| - 1];
      NewProspectsExact(init, cs);
      assert found == init + [found[|found| - 1]];
    }
  }

  /** The funding text: `$<millions>M total (<round>)` when a total is known, else the round. */
  function FundingText(p: Prospect, millions: nat -> string): string {
    if p.totalFunding != 0 then "$" + millions(p.totalFunding) + "M total (" + p.funding + ")" else p.funding
  }

  /** `~<n> employees`, or '' when the head count is 0. */
  function TeamSizeText(n: nat): string {
    if n != 0 then "~" + Integers.Decimal(n) + " employees" else ""
  }

  /** The company a prospect becomes in the queue. */
  function Enqueued(p: Prospect, millions: nat -> string): Company {
    map[CompanyName := Str(p.name), Website := Str(p.website), CompanyDomain := Str(p.domain),
        Status := Str("pending"), Step := Str(""), Error := Null,
        Funding := Str(FundingText(p, millions)), TeamSize := Str(TeamSizeText(p.employees))]
  }

  /** `toAdd`: the selected results, or all of them. */
  function ToAdd(results: seq<Prospect>, selected: Option<set<string>>): (r: seq<Prospect>)
    ensures |r| <= |results|
    ensures forall p :: p in r <==> p in results && (selected.Some? ==> p.domain in selected.value)
    decreases |results|
  {
    if results == [] then []
    else
      var p := results[|results| - 1];
      ToAdd(results[..|results| - 1], selected) + (if selected.None? || p.domain in selected.value then [p] else [])
  }

  /** The companies `addDiscoveredToQueue` appends. */
  function Queued(results: seq<Prospect>, selected: Option<set<string>>, cs: seq<Company>, millions: nat -> string): seq<Company>
    decreases |results|
  {
    if results == [] then []
    else
      var p := results[|results| - 1];
      Queued(results[..|results| - 1], selected, cs, millions)
      + (if (selected.None? || p.domain in selected.value) && !Known(cs, p.domain) then [Enqueued(p, millions)] else [])
  }

  /** `c` is the queued form of a selected result whose domain the list does not have. */
  ghost predicate FreshResult(c: Company, results: seq<Prospect>, selected: Option<set<string>>, cs: seq<Company>, millions: nat -> string) {
    exists p :: p in ToAdd(results, selected) && c == Enqueued(p, millions) && !Known(cs, p.domain)
  }

  /**
   * Every queued company is pending, carries the domain of a selected result, and that
   * domain is not one the list already has.
   */
  lemma {:induction false} QueuedFresh(results: seq<Prospect>, selected: Option<set<string>>, cs: seq<Company>, millions: nat -> string)
    ensures |Queued(results, selected, cs, millions)| <= |results|
    ensures forall c :: c in Queued(results, selected, cs, millions) ==>
      IsPending(c) && StatusOf(c) == "pending" && FreshResult(c, results, selected, cs, millions)
    decreases |results|
  {
    if results != [] {
      var init, p := results[..|results| - 1], results[|results| - 1];
      QueuedFresh(init, selected, cs, millions);
      assert results == init + [p];
      var q0 := Queued(init, selected, cs, millions);
      var isNew := (selected.None? || p.domain in selected.value) && !Known(cs, p.domain);
      assert Queued(results, selected, cs, millions) == q0 + (if isNew then [Enqueued(p, millions)] else []);
      forall c | c in q0 ensures FreshResult(c, results, selected, cs, millions) {
        FreshResultGrows(c, init, p, selected, cs, millions);
      }
      if isNew {
        EnqueuedPending(p, millions);
        assert p in ToAdd(results, selected);
      }
    }
  }

  lemma FreshResultGrows(c: Company, init: seq<Prospect>, p: Prospect, selected: Option<set<string>>, cs: seq<Company>, millions: nat -> string)
    requires FreshResult(c, init, selected, cs, millions)
    ensures FreshResult(c, init + [p], selected, cs, millions)
  {
    var p' :| p' in ToAdd(init, selected) && c == Enqueued(p', millions) && !Known(cs, p'.domain);
    assert p' in init + [p];
  }

  /** A queued company starts out pending. */
  lemma EnqueuedPending(p: Prospect, millions: nat -> string)
    ensures StatusOf(Enqueued(p, millions)) == "pending" && IsPending(Enqueued(p, millions))
  {
  }

  /** The companies in the queue, updated in place by the screener's handlers. */
  class Screening {
    var companies: seq<Company>

    constructor (cs: seq<Company>)
      ensures companies == cs
    {
      companies := cs;
    }

    /** The upload handler's merge of the parsed CSV. */
    method LoadCsv(parsed: seq<Company>)
      modifies this
      ensures companies == Merged(old(companies), parsed, DomainOf)
    {
      companies := MergeCsv(companies, parsed, DomainOf);
    }

    /** `updateCompany(fields)` for the company at `index`. */
    method Update(index: nat, fields: Company)
      requires index < |companies|
      modifies this
      ensures companies == Updated(old(companies), index, fields)
    {
      var u := companies;
      u := u[index := Spread(u[index], fields)];
      companies := u;
    }

    /** `addDiscoveredToQueue(selected)`. */
    method AddDiscovered(results: seq<Prospect>, selected: Option<set<string>>, millions: nat -> string)
      modifies this
      ensures companies == old(companies) + Queued(results, selected, old(companies), millions)
    {
      var added := Queued(results, selected, companies, millions);
      if |added| > 0 {
        companies := companies + added;
      }
    }
  }
}
