/** The baseline treatment t0_baseline: Choice, then Signal, then Belief.
    Its rounds come from the shared create_session under the treatment name
    "t0", while its ledger entries are labelled "t0_baseline". */
module T0Baseline {
  import opened Base
  import opened Shuffling
  import opened Participant
  import opened Helpers
  import opened Forms
  import opened ExchangeRounds

  /** The treatment name passed to create_session. */
  const Treatment: string := "t0"
  /** The app label recorded in the ledger. */
  const AppLabel: string := "t0_baseline"

  /** Belief.before_next_page (its timing is left out). */
  function BeliefNext(v: Vars, p: ExchangePlayer): (r: (Vars, ExchangePlayer))
    requires p.c1.Some? && p.beliefInputRaw.Some? && p.rp.p2 != 0.0
    ensures r.1 == p.(hHat := r.1.hHat, c2 := r.1.c2, u := r.1.u)
    ensures r.1.hHat.Some? && r.1.hHat.value * BeliefMax == p.beliefInputRaw.value
    ensures r.1.c2.Some? && p.rp.p2 * (r.1.c2.value - p.rp.y2 as real) == C.r * (p.rp.y1 as real - C.p1 * p.c1.value)
    ensures r.1.u.Some? && r.1.u.value == p.c1.value * r.1.c2.value
    ensures |Ledger(r.0)| == |Ledger(v)| + 1 && Ledger(r.0)[..|Ledger(v)|] == Ledger(v)
    ensures Ledger(r.0)[|Ledger(v)|] == Entry("t0_baseline", ExchangeSnapshot(r.1))
    ensures r.0 == v.(mainRounds := r.0.mainRounds)
  {
    FinishRound(v, p, AppLabel)
  }

  /** creating_session keeps this app's lists under "t0_schedule" and
      "t0_images": the treatment name, which is not always the app label. */
  lemma RoundStoresUnderTreatmentKeys(v: Vars, roundNumber: int, draws: seq<nat>)
    requires 1 <= roundNumber <= 12
    requires roundNumber == 1 ==> ValidDraws(draws, |ExchangePairs()|)
    requires roundNumber == 1 || ExchangeBuilt(v, Treatment)
    ensures StartRound(v, roundNumber, Treatment, draws).Success?
    ensures var w := StartRound(v, roundNumber, Treatment, draws).value.0;
      "t0_schedule" in w.exchangeSchedules && "t0_images" in w.images
  {
    KeysSpelledOut();
    RoundIsServed(v, roundNumber, Treatment, draws);
  }

  /** The two keys the treatment name makes. */
  lemma KeysSpelledOut()
    ensures Treatment + "_schedule" == "t0_schedule" && Treatment + "_images" == "t0_images"
  {
  }

  /** One round of the app: a c1 and a report that pass
      Choice.error_message and Belief.error_message end in a ledger entry
      labelled "t0_baseline" with a belief in [0, 1], c2 >= 1 and u >= c1. */
  lemma RoundRecordsFeasibleEntry(v: Vars, roundNumber: int, draws: seq<nat>, c1: real, raw: real)
    requires 1 <= roundNumber <= 12
    requires roundNumber == 1 ==> ValidDraws(draws, |ExchangePairs()|)
    requires roundNumber == 1 || ExchangeBuilt(v, Treatment)
    ensures StartRound(v, roundNumber, Treatment, draws).Success?
    ensures var start := StartRound(v, roundNumber, Treatment, draws).value;
      ChoiceError(Some(c1), start.1.rp.c1Max as real).None? && BeliefError(Some(raw)).None? ==>
        && start.1.rp.p2 != 0.0
        && AppendsFeasibleEntry(start.0, BeliefNext(start.0, start.1.(c1 := Some(c1), beliefInputRaw := Some(raw))).0, "t0_baseline", c1)
  {
    RoundIsServed(v, roundNumber, Treatment, draws);
    var start := StartRound(v, roundNumber, Treatment, draws).value;
    if ChoiceError(Some(c1), start.1.rp.c1Max as real).None? && BeliefError(Some(raw)).None? {
      AcceptedAnswersRecordFeasibleEntry(start.0, start.1, c1, raw, AppLabel);
    }
  }
}
