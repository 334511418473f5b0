/**
 * The ICP fit band of a screened company (components/ICPScreener.jsx).
 *
 * When a score arrives from the model, the band comes from the model's own total
 * (not from a sum of the factor scores) and is overridden by a disqualification.
 * When a stored row is loaded again, the band is recomputed from the stored total,
 * with an extra "Weak" threshold at 6 below which the stored label is kept.
 */
module FitBand {

  datatype Fit = Strong | Moderate | Weak | Disqualified

  /** The label written for a band. */
  function FitName(f: Fit): string {
    match f
    case Strong => "Strong"
    case Moderate => "Moderate"
    case Weak => "Weak"
    case Disqualified => "Disqualified"
  }

  /** A disqualification reason counts when it is non-empty and not "None" or "none". */
  predicate IsDisqualifyingReason(reason: string) {
    reason != "" && reason != "None" && reason != "none"
  }

  /** The band of a total score alone: 14 and above Strong, 10 to 13 Moderate, below 10 Weak. */
  function ScoreBand(total: int): (f: Fit)
    ensures f != Disqualified
    ensures f == Strong <==> total >= 14
    ensures f == Moderate <==> 10 <= total < 14
    ensures f == Weak <==> total < 10
  {
    if total >= 14 then Strong else if total >= 10 then Moderate else Weak
  }

  /**
   * The band of a freshly scored company: the score band, unless the model's fit is
   * "Disqualified" or it gave a disqualifying reason.
   */
  function ScoredFit(total: int, icpFit: string, reason: string): (f: Fit)
    ensures f == Disqualified <==> icpFit == "Disqualified" || IsDisqualifyingReason(reason)
    ensures f != Disqualified ==> f == ScoreBand(total)
  {
    if icpFit == "Disqualified" || IsDisqualifyingReason(reason) then Disqualified else ScoreBand(total)
  }

  /** Band order: Weak < Moderate < Strong. */
  function Rank(f: Fit): nat
    requires f != Disqualified
  {
    match f
    case Weak => 0
    case Moderate => 1
    case Strong => 2
  }

  /** A higher total never gives a lower band. */
  lemma ScoreBandMonotone(t1: int, t2: int)
    requires t1 <= t2
    ensures Rank(ScoreBand(t1)) <= Rank(ScoreBand(t2))
  {
  }

  /** Disqualification does not depend on the score. */
  lemma DisqualifiedWhateverTheScore(t1: int, t2: int, icpFit: string, reason: string)
    requires ScoredFit(t1, icpFit, reason) == Disqualified
    ensures ScoredFit(t2, icpFit, reason) == Disqualified
  {
  }

  /**
   * The band shown for a row loaded from the store: "Disqualified" when stored so,
   * otherwise from the stored total, with the stored label kept below 6.
   */
  function LoadedFit(total: int, storedFit: string): (r: string)
    ensures storedFit == "Disqualified" ==> r == "Disqualified"
    ensures storedFit != "Disqualified" && total >= 6 ==> r == FitName(ScoreBand(total))
    ensures storedFit != "Disqualified" && total < 6 ==> r == storedFit
  {
    if storedFit == "Disqualified" then "Disqualified"
    else if total >= 14 then "Strong"
    else if total >= 10 then "Moderate"
    else if total >= 6 then "Weak"
    else storedFit
  }

  /** Loading a saved score shows the band it was saved with. */
  lemma LoadShowsSavedFit(total: int, icpFit: string, reason: string)
    ensures LoadedFit(total, FitName(ScoredFit(total, icpFit, reason))) == FitName(ScoredFit(total, icpFit, reason))
  {
  }

  /** Below 6 a stored label other than "Disqualified" is kept as it is, even one the score would not give. */
  lemma LoadKeepsLowLabel(total: int, storedFit: string)
    requires total < 6 && storedFit != "Disqualified"
    ensures LoadedFit(total, storedFit) == storedFit
  {
  }

  /** `verdictColor`: a factor score of 3 is green, 2 amber, anything else red. */
  function VerdictColor(score: int): (c: string)
    ensures c == "green" <==> score == 3
    ensures c == "amber" <==> score == 2
    ensures c == "red" <==> score != 3 && score != 2
  {
    if score == 3 then "green" else if score == 2 then "amber" else "red"
  }
}
