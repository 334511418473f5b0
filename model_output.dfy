/**
 * Reading the scoring model's reply into the stored row (components/ICPScreener.jsx:1509-1653).
 *
 * The reply is first tried as JSON: the candidate text goes to `JSON.parse`, which is a
 * parameter here (`parse`, `None` when it throws or gives no object). On success the decoded
 * scoring is flattened; otherwise the legacy fallback reads plain-text `LABEL: value` fields
 * with `parseField` and `parseInt(...) || 0`, and the text columns of the row stay empty.
 */
module ModelOutput {
  import opened Wrappers
  import opened Text
  import opened FitBand
  import opened Integers
  import opened FieldParser
  import opened JsonCandidate
  import opened ScoreRecord

  const TotalLabel: string := "TOTAL_SCORE"
  const FitLabel: string := "ICP_FIT"
  const ReasonLabel: string := "DISQUALIFICATION_REASON"
  const SummaryLabel: string := "SCORE_SUMMARY"
  const ScoreALabel: string := "SCORE_A_DIFFERENTIATION"
  const ScoreBLabel: string := "SCORE_B_OUTCOMES"
  const ScoreCLabel: string := "SCORE_C_CUSTOMER_CENTRIC"
  const ScoreDLabel: string := "SCORE_D_PRODUCT_CHANGE"
  const ScoreELabel: string := "SCORE_E_AUDIENCE_CHANGE"
  const ScoreFLabel: string := "SCORE_F_MULTI_PRODUCT"

  const Blank: Slots := ["", "", "", ""]

  /** A score read by the fallback: `parseInt(parseField(text, label), 10) || 0`. */
  function LegacyScore(text: string, field: string): int {
    ParseIntOrZero(ParseField(text, field))
  }

  /**
   * The row the fallback stores: the total, the band from it with the disqualification
   * override, the reason and summary as parsed, the six factor scores, and '' everywhere else.
   */
  function LegacyRow(text: string): Row {
    var total := LegacyScore(text, TotalLabel);
    var reason := ParseField(text, ReasonLabel);
    Row(total, ParseField(text, SummaryLabel), FitName(ScoredFit(total, ParseField(text, FitLabel), reason)), reason,
        Blank,
        LegacyScore(text, ScoreALabel), "", Blank, Blank, "",
        LegacyScore(text, ScoreBLabel), "", "", "", Blank, Blank, "",
        LegacyScore(text, ScoreCLabel), Blank, Blank, "",
        LegacyScore(text, ScoreDLabel), "", "",
        LegacyScore(text, ScoreELabel), "", "", "",
        LegacyScore(text, ScoreFLabel), "", "", "")
  }

  /** The row stored for a reply: the flattened JSON scoring, or the fallback's row. */
  function ScoreReply(text: string, parse: string -> Option<Scoring>): Row {
    match parse(Candidate(text))
    case Some(s) => Flatten(s)
    case None => LegacyRow(text)
  }

  // ------------------------------------------------------------------ lemmas

  /**
   * The fallback's band: "Disqualified" exactly when the ICP_FIT field says so or the
   * reason field is a disqualifying one; otherwise the band of the parsed total.
   */
  lemma LegacyFit(text: string)
    ensures var r := LegacyRow(text);
      && (r.icpFit == "Disqualified" <==>
            ParseField(text, FitLabel) == "Disqualified" || IsDisqualifyingReason(ParseField(text, ReasonLabel)))
      && (r.icpFit != "Disqualified" ==> r.icpFit == FitName(ScoreBand(r.totalScore)))
  {
  }

  /** A fallback row loads back with its total, its band, its six scores, empty verdicts and no factor panels. */
  lemma LegacyLoadsBare(text: string)
    ensures var r := LegacyRow(text); var l := Rehydrate(r);
      && l.totalScore == LegacyScore(text, TotalLabel) && l.icpFit == r.icpFit
      && l.reason == ParseField(text, ReasonLabel) && l.summary == ParseField(text, SummaryLabel)
      && l.scoreA == LegacyScore(text, ScoreALabel) && l.scoreB == LegacyScore(text, ScoreBLabel)
      && l.scoreC == LegacyScore(text, ScoreCLabel) && l.scoreD == LegacyScore(text, ScoreDLabel)
      && l.scoreE == LegacyScore(text, ScoreELabel) && l.scoreF == LegacyScore(text, ScoreFLabel)
      && l.aVerdict == "" && l.bVerdict == "" && l.cVerdict == "" && l.dVerdict == "" && l.eVerdict == ""
      && l.fVerdict == ""
      && l.a.None? && l.b.None? && l.c.None? && l.d.None? && l.e.None? && l.f.None?
  {
    var r := LegacyRow(text);
    LoadShowsSavedFit(r.totalScore, ParseField(text, FitLabel), ParseField(text, ReasonLabel));
  }

  /** A labelled line holding a number gives that number to the fallback. */
  lemma ScoreLine(s: string, pre: string, l: string, field: string, n: nat, tail: string)
    requires s == pre + l + ":" + Decimal(n) + tail
    requires EqualIgnoringCase(l, field) && FieldEndAt(tail, 0)
    requires forall m :: 0 <= m < |pre| ==> !LabelAt(s, field, m)
    ensures LegacyScore(s, field) == n
  {
    DecimalReadsBack(n);
    FieldLine(s, pre, l, field, Decimal(n), tail);
  }

  /** A rendered number stays on one line, has nothing to trim, and reads back as itself. */
  lemma DecimalReadsBack(n: nat)
    ensures '\n' !in Decimal(n) && Trim(Decimal(n)) == Decimal(n) && ParseIntOrZero(Decimal(n)) == n
  {
    var d := Decimal(n);
    assert '\n' !in d by {
      forall k | 0 <= k < |d| ensures d[k] != '\n' { assert IsDigit(d[k]); }
    }
    TrimOfTrimmed(d);
    assert d + [] == d;
    ParseDecimal(n, []);
  }

  /** The row for a reply that parses as JSON is its flattened scoring. */
  lemma ReplyOfJson(text: string, parse: string -> Option<Scoring>, s: Scoring)
    requires parse(Candidate(text)) == Some(s)
    ensures ScoreReply(text, parse) == Flatten(s)
  {
  }

  /**
   * A reply that parses to a storable scoring loads back with its total, the band it was
   * saved with, its reason and summary, all six scores and verdicts, and every factor that
   * was scored.
   */
  lemma ReplyRoundTrip(text: string, parse: string -> Option<Scoring>, s: Scoring)
    requires parse(Candidate(text)) == Some(s) && Storable(s)
    ensures LoadsBack(Rehydrate(ScoreReply(text, parse)), s)
  {
    RehydrateFlatten(s);
  }

  /** A reply that does not parse is stored by the fallback and loads with no factor details. */
  lemma ReplyOfText(text: string, parse: string -> Option<Scoring>)
    requires parse(Candidate(text)).None?
    ensures ScoreReply(text, parse) == LegacyRow(text)
    ensures var l := Rehydrate(ScoreReply(text, parse));
      l.a.None? && l.b.None? && l.c.None? && l.d.None? && l.e.None? && l.f.None?
  {
    LegacyLoadsBare(text);
  }

  // ------------------------------------------------- an empty reason field

  /** The fallback's band with `parseField` as written. */
  function LegacyFitAsWritten(text: string): string {
    var total := ParseIntOrZero(ParseFieldAsWritten(text, TotalLabel));
    FitName(ScoredFit(total, ParseFieldAsWritten(text, FitLabel), ParseFieldAsWritten(text, ReasonLabel)))
  }

  /** A character that is not white space, after a start that is not either, survives the trim. */
  lemma TrimKeepsInner(t: string, k: nat)
    requires k < |t| && !IsSpace(t[0]) && !IsSpace(t[k])
    ensures k < |Trim(t)| && Trim(t)[k] == t[k]
  {
    assert TrimStart(t) == t;
  }

  /** The next label's line, taken as the reason, is a disqualifying reason. */
  lemma NextLineDisqualifies(next: string, v: string)
    requires next != [] && (forall k :: 0 <= k < |next| ==> IsLabelChar(next[k]))
    ensures IsDisqualifyingReason(Trim(next + ":" + v))
  {
    var t := next + ":" + v;
    assert t[0] == next[0] && t[|next|] == ':';
    TrimKeepsInner(t, |next|);
    var r := Trim(t);
    assert r[|next|] == ':';
    assert ':' in r;
    assert ':' !in "None" && ':' !in "none";
  }

  /**
   * As written, an empty DISQUALIFICATION_REASON followed by another label's line
   * disqualifies the company whatever its score: the greedy `\s*` crosses the new line and
   * the reason becomes the next line.
   */
  lemma EmptyReasonAsWritten(s: string, l: string, next: string, v: string)
    requires s == l + ":\n" + next + ":" + v
    requires EqualIgnoringCase(l, ReasonLabel) && '\n' !in v
    requires next != [] && (forall k :: 0 <= k < |next| ==> IsLabelChar(next[k]))
    ensures LegacyFitAsWritten(s) == "Disqualified"
  {
    EmptyFieldAsWritten(s, l, ReasonLabel, next, v);
    NextLineDisqualifies(next, v);
  }

  /** With the capture starting after the colon, the same reply has no reason and keeps its band. */
  lemma EmptyReasonCorrected(s: string, l: string, next: string, v: string)
    requires s == l + ":\n" + next + ":" + v
    requires EqualIgnoringCase(l, ReasonLabel)
    requires next != [] && (forall k :: 0 <= k < |next| ==> IsLabelChar(next[k]))
    ensures LegacyRow(s).reason == ""
    ensures LegacyRow(s).icpFit == "Disqualified" <==> ParseField(s, FitLabel) == "Disqualified"
  {
    EmptyFieldCorrected(s, l, ReasonLabel, next, v);
  }
}
