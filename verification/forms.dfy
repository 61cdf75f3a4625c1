/** The form validators the treatment pages share: the first-period
    consumption choice and the belief report. The pages' error_message hooks
    return None to accept, or a message; the message is modelled by which
    check failed (its wording is given on each constructor). */
module Forms {
  import opened Base

  datatype FormError =
    | MissingC1                  // "Please choose c1."
    | C1OutOfRange(c1Max: real)  // "c1 must be between 1 and {c1_max:.2f}."
    | MissingBelief              // "Please enter your belief."
    | BeliefOutOfRange           // "Enter how many red dots you saw (0–400)."

  /** Belief reports are a count of red dots out of 400. */
  const BeliefMax: real := 400.0

  /** Choice.error_message: c1 is required and must lie in [1, c1_max]. */
  function ChoiceError(c1: Option<real>, c1Max: real): (e: Option<FormError>)
    ensures e.None? <==> c1.Some? && 1.0 <= c1.value <= c1Max
    ensures c1.None? ==> e == Some(MissingC1)
    ensures c1.Some? && !(1.0 <= c1.value <= c1Max) ==> e == Some(C1OutOfRange(c1Max))
  {
    match c1
    case None => Some(MissingC1)
    case Some(x) => if !(1.0 <= x <= c1Max) then Some(C1OutOfRange(c1Max)) else None
  }

  /** Belief.error_message: the raw report is required and must lie in [0, 400]. */
  function BeliefError(raw: Option<real>): (e: Option<FormError>)
    ensures e.None? <==> raw.Some? && 0.0 <= raw.value <= BeliefMax
    ensures raw.None? ==> e == Some(MissingBelief)
    ensures raw.Some? && !(0.0 <= raw.value <= BeliefMax) ==> e == Some(BeliefOutOfRange)
  {
    match raw
    case None => Some(MissingBelief)
    case Some(v) => if !(0.0 <= v <= 400.0) then Some(BeliefOutOfRange) else None
  }

  /** h_hat = belief_input_raw / 400: the report as a share, which the raw
      count can be recovered from, and which lies in [0, 1] for any report
      the belief validator accepts. */
  function Normalize(raw: real): (h: real)
    ensures h * BeliefMax == raw
    ensures BeliefError(Some(raw)).None? ==> 0.0 <= h <= 1.0
  {
    raw / 400.0
  }
}
