/**
 * A company in the screening list (components/ICPScreener.jsx): a JavaScript object
 * whose members are strings, numbers or `null`. The member names are the constructors of
 * `Key`, the names the screener writes. Object spread `{ ...a, ...b }` is map union with `b`
 * winning, which is Dafny's `a + b` on maps.
 */
module Company {
  datatype Value = Str(s: string) | Num(n: int) | Null

  datatype Key =
    | CompanyName | Website | CompanyDomain | DbCompanyId | DbRunId
    | ResearchResult | ProductSummary | TargetCustomer | TargetDecisionMaker | Top3Outcomes
    | Top3Differentiators | MajorAnnouncements | Competitors | Customers | Funding | TeamSize
    | HomepageSections | HomepageNav | ProductPages | NewDirectionPage | LinkedinDescription
    | CeoFounderName | CeoRecentContent | CeoNarrativeTheme | NewMarketingLeader
    | ProductMarketingPeople | ScoringResult
    | TotalScore | ScoreA | ScoreAJust | ScoreB | ScoreBJust | ScoreC | ScoreCJust
    | ScoreD | ScoreDJust | ScoreE | ScoreEJust | ScoreF | ScoreFJust
    | ScoreSummary | IcpFit | DisqualificationReason | ManualScore | AccountStatus
    | Status | Step | Error

  type Company = map<Key, Value>

  /** A string member, '' when absent or not a string (`c.x || ''`). */
  function Member(c: Company, key: Key): string {
    if key in c && c[key].Str? then c[key].s else ""
  }

  function StatusOf(c: Company): string {
    Member(c, Status)
  }

  /** `{ ...a, ...b }`: the members of both, those of `b` winning. */
  function Spread(a: Company, b: Company): (r: Company)
    ensures r.Keys == a.Keys + b.Keys
    ensures forall k :: k in b ==> r[k] == b[k]
    ensures forall k :: k in a && k !in b ==> r[k] == a[k]
  {
    a + b
  }

  /** Spreading the same members twice is spreading them once. */
  lemma SpreadIdempotent(a: Company, b: Company)
    ensures Spread(Spread(a, b), b) == Spread(a, b)
  {
    var x, y := Spread(Spread(a, b), b), Spread(a, b);
    assert x.Keys == y.Keys;
    forall k | k in x ensures x[k] == y[k] {
      if k in b { assert x[k] == b[k]; } else { assert x[k] == y[k]; }
    }
  }

  /** Two spreads in a row are one spread of the later members over the earlier ones. */
  lemma SpreadTwice(a: Company, b: Company, c: Company)
    ensures Spread(Spread(a, b), c) == Spread(a, Spread(b, c))
  {
    var x, y := Spread(Spread(a, b), c), Spread(a, Spread(b, c));
    assert x.Keys == y.Keys;
    forall k | k in x ensures x[k] == y[k] {
      if k in c { assert x[k] == c[k] == y[k]; }
      else if k in b { assert x[k] == b[k] == y[k]; }
    }
  }
}
