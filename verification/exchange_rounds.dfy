/** What the two treatments built on the shared create_session (t0_baseline
    and t3) do alike: start a round from the stored schedule and, once the
    answers are in, normalise the belief, derive c2 and u and record the
    round. Each app passes its own treatment name and ledger label. */
module ExchangeRounds {
  import opened Base
  import opened Shuffling
  import opened Participant
  import opened Helpers
  import opened Forms

  /** Both apps declare Y1 = 10, P1 = 1, R = 1. */
  const C: Consts := AppConsts

  /** creating_session: create_session for the app's treatment name, and a
      player holding the round's fields who has not answered yet. */
  function StartRound(v: Vars, roundNumber: int, treatment: string, draws: seq<nat>)
    : (res: Result<(Vars, ExchangePlayer), SessionError>)
    requires roundNumber >= 1
    requires roundNumber == 1 ==> ValidDraws(draws, |ExchangePairs()|)
    ensures res.Success? <==> CreateSession(v, roundNumber, treatment, C, draws).Success?
    ensures res.Success? ==>
      && res.value.0 == CreateSession(v, roundNumber, treatment, C, draws).value.0
      && res.value.1 == NewExchangePlayer(roundNumber, CreateSession(v, roundNumber, treatment, C, draws).value.1)
  {
    match CreateSession(v, roundNumber, treatment, C, draws)
    case Failure(e) => Failure(e)
    case Success((w, rp)) => Success((w, NewExchangePlayer(roundNumber, rp)))
  }

  /** Every round up to the 12 stored ones is served once round 1 has built
      the schedule, and the player starts with valid round fields. */
  lemma RoundIsServed(v: Vars, roundNumber: int, treatment: string, draws: seq<nat>)
    requires 1 <= roundNumber <= 12
    requires roundNumber == 1 ==> ValidDraws(draws, |ExchangePairs()|)
    requires roundNumber == 1 || ExchangeBuilt(v, treatment)
    ensures StartRound(v, roundNumber, treatment, draws).Success?
    ensures var (w, p) := StartRound(v, roundNumber, treatment, draws).value;
      && ExchangeBuilt(w, treatment) && ValidExchangeRound(p.rp, C)
      && p.roundNumber == roundNumber && p.c1.None? && p.beliefInputRaw.None?
  {
    BuiltScheduleServesRound(v, roundNumber, treatment, C, draws);
    var (w, rp) := CreateSession(v, roundNumber, treatment, C, draws).value;
    assert StartRound(v, roundNumber, treatment, draws) == Success((w, NewExchangePlayer(roundNumber, rp)));
  }

  /** The before_next_page of the page that completes the round: h_hat =
      belief_input_raw / 400, c2 from the stored y1, y2, p2 and the chosen
      c1, u = c1 * c2, then one ledger entry labelled with the app. Only
      h_hat, c2 and u change on the player. */
  function FinishRound(v: Vars, p: ExchangePlayer, appLabel: string): (r: (Vars, ExchangePlayer))
    requires p.c1.Some? && p.beliefInputRaw.Some? && p.rp.p2 != 0.0
    ensures r.1 == p.(hHat := r.1.hHat, c2 := r.1.c2, u := r.1.u)
    ensures r.1.hHat.Some? && r.1.hHat.value * BeliefMax == p.beliefInputRaw.value
    ensures r.1.c2.Some? && p.rp.p2 * (r.1.c2.value - p.rp.y2 as real) == C.r * (p.rp.y1 as real - C.p1 * p.c1.value)
    ensures r.1.u.Some? && r.1.u.value == p.c1.value * r.1.c2.value
    ensures |Ledger(r.0)| == |Ledger(v)| + 1 && Ledger(r.0)[..|Ledger(v)|] == Ledger(v)
    ensures Ledger(r.0)[|Ledger(v)|] == Entry(appLabel, ExchangeSnapshot(r.1))
    ensures r.0 == v.(mainRounds := r.0.mainRounds)
  {
    var c1 := p.c1.value;
    var hHat := Normalize(p.beliefInputRaw.value);
    var c2 := C2Given(p.rp, C, c1);
    var u := UGiven(c1, c2);
    var q := p.(hHat := Some(hHat), c2 := Some(c2), u := Some(u));
    assert q.u.value == c1 * c2;
    (RecordMainRound(v, ExchangeSnapshot(q), appLabel), q)
  }

  /** For a round drawn from the shared schedule, a c1 the Choice validator
      accepts and a report the Belief validator accepts give a new last
      ledger entry with the app's label, a normalised belief in [0, 1],
      c2 >= 1 and utility at least c1. */
  lemma AcceptedAnswersRecordFeasibleEntry(v: Vars, p: ExchangePlayer, c1: real, raw: real, appLabel: string)
    requires ValidExchangeRound(p.rp, C)
    requires ChoiceError(Some(c1), p.rp.c1Max as real).None? && BeliefError(Some(raw)).None?
    ensures p.rp.p2 != 0.0
    ensures AppendsFeasibleEntry(v, FinishRound(v, p.(c1 := Some(c1), beliefInputRaw := Some(raw)), appLabel).0, appLabel, c1)
  {
    var rp := p.rp;
    assert rp.p2 == PriceLow || rp.p2 == PriceHigh;
    HelperC1MaxBinding(rp.y1, c1);
    var c2 := C2Given(rp, C, c1);
    assert c2 == CalcC2(rp.y1 as real, (20 - rp.y1) as real, 1.0, rp.p2, c1, 1.0);
    assert c2 >= 1.0;
    var (w, q) := FinishRound(v, p.(c1 := Some(c1), beliefInputRaw := Some(raw)), appLabel);
    assert q.c2 == Some(c2);
    assert c1 * c2 >= c1 * 1.0;
  }
}
