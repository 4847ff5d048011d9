/** The risk register's rating badge. */
module RisksPage {
  import opened WorkspaceUtils

  /** `ratingTone`: 16 and above is danger, 10 to 15 a warning, below 10 success. */
  function RatingTone(rating: int): (t: Tone)
    ensures t == Danger <==> rating >= 16
    ensures t == Warning <==> 10 <= rating < 16
    ensures t == Success <==> rating < 10
  {
    if rating >= 16 then Danger
    else if rating >= 10 then Warning
    else Success
  }

  /** How severe a rating tone is: success < warning < danger. */
  function Severity(t: Tone): nat {
    match t
    case Success => 0
    case Warning => 1
    case Danger => 2
    case Info => 0
    case Neutral => 0
  }

  /** Raising a rating never lowers the severity of its badge. */
  lemma RatingToneMonotone(a: int, b: int)
    requires a <= b
    ensures Severity(RatingTone(a)) <= Severity(RatingTone(b))
  {
  }

  /**
   * With likelihood and impact each in 1..5, the danger band is reached only
   * when both are at least 4: 16, 20 and 25 are the only dangerous ratings.
   */
  lemma DangerNeedsHighLikelihoodAndImpact(likelihood: int, impact: int)
    requires 1 <= likelihood <= 5 && 1 <= impact <= 5
    requires RatingTone(likelihood * impact) == Danger
    ensures likelihood >= 4 && impact >= 4
    ensures likelihood * impact in {16, 20, 25}
  {
  }
}
