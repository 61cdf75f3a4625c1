/** Treatment t3: the income information first, then the signal, then one
    ChoiceBelief page that takes the belief report and c1 together. Its
    rounds come from the shared create_session under the name "t3", which is
    also its ledger label. */
module T3 {
  import opened Base
  import opened Shuffling
  import opened Participant
  import opened Helpers
  import opened Forms
  import opened ExchangeRounds

  const Treatment: string := "t3"
  const AppLabel: string := "t3"

  /** ChoiceBelief.error_message: the belief is checked first, then c1; the
      first failing check is the one reported, and the page is accepted
      exactly when both fields are. */
  function ChoiceBeliefError(raw: Option<real>, c1: Option<real>, c1Max: real): (e: Option<FormError>)
    ensures e.None? <==> BeliefError(raw).None? && ChoiceError(c1, c1Max).None?
    ensures BeliefError(raw).Some? ==> e == BeliefError(raw)
    ensures BeliefError(raw).None? ==> e == ChoiceError(c1, c1Max)
    ensures e.Some? ==> e.value in {MissingBelief, BeliefOutOfRange, MissingC1, C1OutOfRange(c1Max)}
  {
    match raw
    case None => Some(MissingBelief)
    case Some(x) =>
      if !(0.0 <= x <= 400.0) then Some(BeliefOutOfRange)
      else match c1
        case None => Some(MissingC1)
        case Some(c) => if !(1.0 <= c <= c1Max) then Some(C1OutOfRange(c1Max)) else None
  }

  /** ChoiceBelief.before_next_page. */
  function SubmitNext(v: Vars, p: ExchangePlayer): (r: (Vars, ExchangePlayer))
    requires p.c1.Some? && p.beliefInputRaw.Some? && p.rp.p2 != 0.0
    ensures r.1 == p.(hHat := r.1.hHat, c2 := r.1.c2, u := r.1.u)
    ensures r.1.hHat.Some? && r.1.hHat.value * BeliefMax == p.beliefInputRaw.value
    ensures r.1.c2.Some? && p.rp.p2 * (r.1.c2.value - p.rp.y2 as real) == C.r * (p.rp.y1 as real - C.p1 * p.c1.value)
    ensures r.1.u.Some? && r.1.u.value == p.c1.value * r.1.c2.value
    ensures |Ledger(r.0)| == |Ledger(v)| + 1 && Ledger(r.0)[..|Ledger(v)|] == Ledger(v)
    ensures Ledger(r.0)[|Ledger(v)|] == Entry("t3", ExchangeSnapshot(r.1))
    ensures r.0 == v.(mainRounds := r.0.mainRounds)
  {
    FinishRound(v, p, AppLabel)
  }

  /** creating_session keeps this app's lists under "t3_schedule" and
      "t3_images": the treatment name, which is not always the app label. */
  lemma RoundStoresUnderTreatmentKeys(v: Vars, roundNumber: int, draws: seq<nat>)
    requires 1 <= roundNumber <= 12
    requires roundNumber == 1 ==> ValidDraws(draws, |ExchangePairs()|)
    requires roundNumber == 1 || ExchangeBuilt(v, Treatment)
    ensures StartRound(v, roundNumber, Treatment, draws).Success?
    ensures var w := StartRound(v, roundNumber, Treatment, draws).value.0;
      "t3_schedule" in w.exchangeSchedules && "t3_images" in w.images
  {
    KeysSpelledOut();
    RoundIsServed(v, roundNumber, Treatment, draws);
  }

  /** The two keys the treatment name makes. */
  lemma KeysSpelledOut()
    ensures Treatment + "_schedule" == "t3_schedule" && Treatment + "_images" == "t3_images"
  {
  }

  /** One round of the app: answers the ChoiceBelief page accepts end in a
      ledger entry labelled "t3" with a belief in [0, 1], c2 >= 1 and u >= c1. */
  lemma RoundRecordsFeasibleEntry(v: Vars, roundNumber: int, draws: seq<nat>, c1: real, raw: real)
    requires 1 <= roundNumber <= 12
    requires roundNumber == 1 ==> ValidDraws(draws, |ExchangePairs()|)
    requires roundNumber == 1 || ExchangeBuilt(v, Treatment)
    ensures StartRound(v, roundNumber, Treatment, draws).Success?
    ensures var start := StartRound(v, roundNumber, Treatment, draws).value;
      ChoiceBeliefError(Some(raw), Some(c1), start.1.rp.c1Max as real).None? ==>
        && start.1.rp.p2 != 0.0
        && AppendsFeasibleEntry(start.0, SubmitNext(start.0, start.1.(c1 := Some(c1), beliefInputRaw := Some(raw))).0, "t3", c1)
  {
    RoundIsServed(v, roundNumber, Treatment, draws);
    var start := StartRound(v, roundNumber, Treatment, draws).value;
    if ChoiceBeliefError(Some(raw), Some(c1), start.1.rp.c1Max as real).None? {
      AcceptedAnswersRecordFeasibleEntry(start.0, start.1, c1, raw, AppLabel);
    }
  }
}
