/** The answer-quality scale and the failure threshold. */
module Eval {

  /** Lowest answer quality. */
  const MinResponseQuality: real := 1.0

  /** Highest answer quality. */
  const MaxResponseQuality: real := 5.0

  /** Whether an evaluation could be made. */
  datatype EvalStatus = Invalid | Success

  /** The string value each status stands for. */
  function StatusValue(s: EvalStatus): (v: string)
    ensures s == Invalid <==> v == "invalid"
    ensures s == Success <==> v == "success"
  {
    match s
    case Invalid => "invalid"
    case Success => "success"
  }

  /** The two statuses are the only ones and their values tell them apart. */
  lemma StatusValuesDistinct(s: EvalStatus, t: EvalStatus)
    ensures s == Invalid || s == Success
    ensures StatusValue(s) == StatusValue(t) ==> s == t
  {
  }

  /** A response fails when its quality is below the midpoint of the top of the scale. */
  predicate IsFailResponse(q: real)
    ensures IsFailResponse(q) <==> q < 2.5
  {
    q < MaxResponseQuality / 2.0
  }

  /** The bottom of the scale fails and the top passes. */
  lemma ScaleEnds()
    ensures MinResponseQuality < MaxResponseQuality
    ensures IsFailResponse(MinResponseQuality)
    ensures !IsFailResponse(MaxResponseQuality)
  {
  }

  /** Failing is closed downwards: a lower quality than a failing one fails too. */
  lemma FailDownwardClosed(q1: real, q2: real)
    requires IsFailResponse(q2) && q1 <= q2
    ensures IsFailResponse(q1)
  {
  }
}
