/**
 * The calibration section of the scoring prompt (components/ICPScreener.jsx:1483-1503): the
 * manually corrected factor scores, grouped by company domain in the order the domains first
 * appear, written out ahead of the company to score.
 */
module Calibration {
  import opened Wrappers
  import opened OrderedMap
  import Integers

  /** A training example: one corrected factor score for one company. */
  datatype Example = Example(domain: string, companyName: string, snapshot: string, factor: string,
                             score: nat, justification: string)

  datatype Correction = Correction(score: nat, justification: string)

  /** `byCompany[domain]`: the company's name and research, and its corrected factors. */
  datatype Group = Group(name: string, snapshot: string, factors: Entries<Correction>)

  // ------------------------------------------------------------ grouping

  /** One turn of the grouping loop: create the company's group on first sight, then set the factor. */
  function AddExample(byCompany: Entries<Group>, ex: Example): Entries<Group> {
    var g := if ex.domain in byCompany.vals then byCompany.vals[ex.domain] else Group(ex.companyName, ex.snapshot, Empty());
    Put(byCompany, ex.domain, g.(factors := Put(g.factors, ex.factor, Correction(ex.score, ex.justification))))
  }

  function Grouped(exs: seq<Example>): Entries<Group>
    decreases |exs|
  {
    if exs == [] then Empty() else AddExample(Grouped(exs[..|exs| - 1]), exs[|exs| - 1])
  }

  /** The table and every group's factor table are well formed. */
  ghost predicate Tidy(byCompany: Entries<Group>) {
    WellFormed(byCompany) && forall d :: d in byCompany.vals ==> WellFormed(byCompany.vals[d].factors)
  }

  lemma {:induction false} GroupedTidy(exs: seq<Example>)
    ensures Tidy(Grouped(exs))
    decreases |exs|
  {
    if exs != [] {
      var g0, ex := Grouped(exs[..|exs| - 1]), exs[|exs| - 1];
      GroupedTidy(exs[..|exs| - 1]);
      var g := if ex.domain in g0.vals then g0.vals[ex.domain] else Group(ex.companyName, ex.snapshot, Empty());
      PutWellFormed(g.factors, ex.factor, Correction(ex.score, ex.justification));
      PutWellFormed(g0, ex.domain, g.(factors := Put(g.factors, ex.factor, Correction(ex.score, ex.justification))));
    }
  }

  /** The position of a domain's first example, or the number of examples when it has none. */
  function FirstIndex(exs: seq<Example>, d: string): (r: nat)
    ensures r <= |exs| && (r < |exs| ==> exs[r].domain == d)
    ensures forall k :: 0 <= k < r ==> exs[k].domain != d
    decreases |exs|
  {
    if exs == [] then 0
    else if exs[0].domain == d then 0
    else 1 + FirstIndex(exs[1..], d)
  }

  /** The last example of a domain and a factor. */
  function LastOf(exs: seq<Example>, d: string, f: string): (r: Option<Example>)
    ensures r.Some? ==> r.value in exs && r.value.domain == d && r.value.factor == f
    ensures r.None? <==> forall k :: 0 <= k < |exs| ==> exs[k].domain != d || exs[k].factor != f
    decreases |exs|
  {
    if exs == [] then None
    else if exs[|exs| - 1].domain == d && exs[|exs| - 1].factor == f then Some(exs[|exs| - 1])
    else LastOf(exs[..|exs| - 1], d, f)
  }

  lemma {:induction false} FirstIndexSnoc(exs: seq<Example>, ex: Example, d: string)
    ensures FirstIndex(exs + [ex], d) ==
      if FirstIndex(exs, d) < |exs| || ex.domain == d then FirstIndex(exs, d) else |exs| + 1
    decreases |exs|
  {
    if exs != [] {
      assert (exs + [ex])[1..] == exs[1..] + [ex];
      FirstIndexSnoc(exs[1..], ex, d);
    }
  }

  /** A domain has a group exactly when some example has that domain. */
  lemma {:induction false} GroupedDomains(exs: seq<Example>, d: string)
    ensures d in Grouped(exs).vals <==> FirstIndex(exs, d) < |exs|
    decreases |exs|
  {
    if exs != [] {
      var init, ex := exs[..|exs| - 1], exs[|exs| - 1];
      GroupedDomains(init, d);
      assert exs == init + [ex];
      FirstIndexSnoc(init, ex, d);
    }
  }

  /** A company's group carries the name and research of the domain's first example. */
  lemma {:induction false} GroupedFirst(exs: seq<Example>, d: string)
    requires FirstIndex(exs, d) < |exs|
    ensures d in Grouped(exs).vals
    ensures Grouped(exs).vals[d].name == exs[FirstIndex(exs, d)].companyName
    ensures Grouped(exs).vals[d].snapshot == exs[FirstIndex(exs, d)].snapshot
    decreases |exs|
  {
    var init, ex := exs[..|exs| - 1], exs[|exs| - 1];
    assert exs == init + [ex];
    FirstIndexSnoc(init, ex, d);
    GroupedDomains(init, d);
    if FirstIndex(init, d) < |init| {
      GroupedFirst(init, d);
    }
  }

  /** The companies are listed in the order their domains first appear among the examples. */
  lemma {:induction false} GroupedInOrder(exs: seq<Example>, p: nat, q: nat)
    requires p < q < |Grouped(exs).keys|
    ensures FirstIndex(exs, Grouped(exs).keys[p]) < FirstIndex(exs, Grouped(exs).keys[q]) < |exs|
    decreases |exs|
  {
    var init, ex := exs[..|exs| - 1], exs[|exs| - 1];
    var before, after := Grouped(init).keys, Grouped(exs).keys;
    assert exs == init + [ex];
    GroupedTidy(init);
    var kp, kq := after[p], after[q];
    assert kp in before && kp in Grouped(init).vals;
    GroupedDomains(init, kp);
    FirstIndexSnoc(init, ex, kp);
    if q < |before| {
      GroupedInOrder(init, p, q);
      assert kq in before && kq in Grouped(init).vals;
      FirstIndexSnoc(init, ex, kq);
    } else {
      assert kq == ex.domain && kq !in Grouped(init).vals;
      GroupedDomains(init, kq);
      FirstIndexSnoc(init, ex, kq);
    }
  }

  /**
   * A company's group holds a factor exactly when some example of the domain corrects it, and
   * then the score and justification of the last such example.
   */
  lemma {:induction false} GroupedFactors(exs: seq<Example>, d: string, f: string)
    requires d in Grouped(exs).vals
    ensures f in Grouped(exs).vals[d].factors.vals <==> LastOf(exs, d, f).Some?
    ensures f in Grouped(exs).vals[d].factors.vals ==>
      Grouped(exs).vals[d].factors.vals[f] == Correction(LastOf(exs, d, f).value.score, LastOf(exs, d, f).value.justification)
    decreases |exs|
  {
    var init, ex := exs[..|exs| - 1], exs[|exs| - 1];
    if d in Grouped(init).vals {
      GroupedFactors(init, d, f);
    } else {
      assert ex.domain == d;
      assert LastOf(init, d, f).None? by {
        GroupedDomains(init, d);
      }
    }
  }

  // ------------------------------------------------------------ rendering

  const Header := "\n\n=== CALIBRATION EXAMPLES ===\nBelow are manually reviewed and corrected scoring examples for individual factors. Use these to calibrate your scoring. Match the reasoning style and score levels shown here.\n\n"
  const Footer := "=== END CALIBRATION EXAMPLES ===\n\nNow score the following company using the same standards:\n"

  /** `factorNames[f]`, rendered `undefined` for a letter outside the table. */
  function FactorName(f: string): string {
    if f == "A" then "DIFFERENTIATION"
    else if f == "B" then "OUTCOMES"
    else if f == "C" then "CUSTOMER_CENTRIC"
    else if f == "D" then "PRODUCT_CHANGE"
    else if f == "E" then "AUDIENCE_CHANGE"
    else if f == "F" then "MULTI_PRODUCT"
    else "undefined"
  }

  /** `(snapshot || '').slice(0, 1500)`. */
  function Abbreviated(s: string): (r: string)
    ensures |r| <= 1500 && r <= s
    ensures |s| <= 1500 ==> r == s
  {
    if |s| <= 1500 then s else s[..1500]
  }

  /** The two lines of one corrected factor. */
  function FactorLines(f: string, c: Correction): string {
    "SCORE_" + f + "_" + FactorName(f) + ": " + Integers.Decimal(c.score) + "\nSCORE_" + f + "_JUSTIFICATION: " + c.justification + "\n"
  }

  /** The lines of the first `n` factors of a group. */
  function ScoreLines(factors: Entries<Correction>, n: nat): string
    requires WellFormed(factors) && n <= |factors.keys|
  {
    if n == 0 then ""
    else ScoreLines(factors, n - 1) + FactorLines(factors.keys[n - 1], factors.vals[factors.keys[n - 1]])
  }

  /** The heading of a company's block, up to its score lines. */
  function BlockHead(d: string, g: Group): string {
    "--- " + g.name + " (" + d + ") ---\n" + "Research (abbreviated):\n" + Abbreviated(g.snapshot) + "\n\n" + "CORRECT SCORES:\n"
  }

  function Block(d: string, g: Group): string
    requires WellFormed(g.factors)
  {
    BlockHead(d, g) + ScoreLines(g.factors, |g.factors.keys|) + "\n"
  }

  /** The blocks of the first `n` companies. */
  function Blocks(byCompany: Entries<Group>, n: nat): string
    requires Tidy(byCompany) && n <= |byCompany.keys|
  {
    if n == 0 then ""
    else Blocks(byCompany, n - 1) + Block(byCompany.keys[n - 1], byCompany.vals[byCompany.keys[n - 1]])
  }

  /** `trainingSection`: '' without examples, else the framed blocks of every company. */
  function TrainingSection(exs: seq<Example>): string {
    if exs == [] then ""
    else
      GroupedTidy(exs);
      var byCompany := Grouped(exs);
      Header + Blocks(byCompany, |byCompany.keys|) + Footer
  }

  lemma Framed(a: string, m: string, b: string)
    ensures a <= a + m + b
    ensures var s := a + m + b; |b| <= |s| && s[|s| - |b|..] == b
  {
    var s := a + m + b;
    assert s[..|a|] == a;
    assert s[|s| - |b|..] == b;
  }

  /** The section is empty without examples; otherwise it opens with the header and closes with the footer. */
  lemma SectionFramed(exs: seq<Example>)
    ensures TrainingSection(exs) == "" <==> exs == []
    ensures exs != [] ==> Header <= TrainingSection(exs)
    ensures exs != [] ==> var s := TrainingSection(exs); |Footer| <= |s| && s[|s| - |Footer|..] == Footer
  {
    if exs != [] {
      GroupedTidy(exs);
      Framed(Header, Blocks(Grouped(exs), |Grouped(exs).keys|), Footer);
    }
  }

  // ------------------------------------------------------------ the building loops

  /** The grouping loop over the examples. */
  method GroupExamples(exs: seq<Example>) returns (byCompany: Entries<Group>)
    ensures byCompany == Grouped(exs)
  {
    byCompany := Empty();
    for i := 0 to |exs|
      invariant byCompany == Grouped(exs[..i])
    {
      assert exs[..i + 1][..i] == exs[..i];
      var ex := exs[i];
      if ex.domain !in byCompany.vals {
        byCompany := Put(byCompany, ex.domain, Group(ex.companyName, ex.snapshot, Empty()));
      }
      var g := byCompany.vals[ex.domain];
      byCompany := Put(byCompany, ex.domain, g.(factors := Put(g.factors, ex.factor, Correction(ex.score, ex.justification))));
    }
    assert exs[..|exs|] == exs;
  }

  /** The inner loop: a group's score lines. */
  method RenderScores(factors: Entries<Correction>) returns (lines: string)
    requires WellFormed(factors)
    ensures lines == ScoreLines(factors, |factors.keys|)
  {
    lines := "";
    for j := 0 to |factors.keys|
      invariant lines == ScoreLines(factors, j)
    {
      var f := factors.keys[j];
      var c := factors.vals[f];
      var line := FactorLines(f, c);
      assert lines + line == ScoreLines(factors, j + 1);
      lines := lines + line;
    }
  }

  lemma Appended(a: string, b: string, c: string)
    ensures (a + b) + c == a + (b + c)
  {
  }

  /** The loop over the companies, each block appended to the section built so far. */
  method AppendBlocks(byCompany: Entries<Group>, start: string) returns (section: string)
    requires Tidy(byCompany)
    ensures section == start + Blocks(byCompany, |byCompany.keys|)
  {
    section := start;
    for i := 0 to |byCompany.keys|
      invariant section == start + Blocks(byCompany, i)
    {
      var d := byCompany.keys[i];
      assert d in byCompany.vals;
      var g := byCompany.vals[d];
      var lines := RenderScores(g.factors);
      var block := BlockHead(d, g) + lines + "\n";
      assert block == Block(d, g);
      assert section + block == start + Blocks(byCompany, i + 1) by {
        Appended(start, Blocks(byCompany, i), block);
      }
      section := section + block;
    }
  }

  /** The section built by `trainingSection +=`. */
  method BuildTrainingSection(exs: seq<Example>) returns (section: string)
    ensures section == TrainingSection(exs)
  {
    section := "";
    if |exs| == 0 {
      return;
    }
    var byCompany := GroupExamples(exs);
    GroupedTidy(exs);
    section := Header;
    section := AppendBlocks(byCompany, section);
    section := section + Footer;
  }
}
