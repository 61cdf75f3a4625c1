/** The payoff app: one round of the ledger is drawn, then whether the
    consumption outcome or the belief is paid; a belief is paid by the
    binary lottery. The Final page does this once per participant. The
    three random draws (the ledger index, the payoff type and the lottery's
    uniform U) are inputs. */
module Payoff {
  import opened Base
  import opened Participant
  import opened Helpers

  /** The session config entries the app reads; an absent entry is None. */
  datatype Config = Config(
    showupFee: Option<real>,        // "showup_fee"
    conversionRate: Option<real>,   // "conversion_rate"
    prize: Option<real>,            // "binary_lotterie_prize"
    beliefPayEnabled: Option<bool>) // "belief_pay_enabled"

  /** float(None) raises: a config entry the payment needs is missing. */
  datatype PayoffError = MissingConfig(key: string)

  datatype PayoffType = Consumption | Belief

  /** The payoff player's fields (None while unset) and oTree's payoff, which starts at 0. */
  datatype PayoffPlayer = PayoffPlayer(
    paidIndex: Option<int>, paidTreatment: Option<string>, paidRound: Option<int>,
    payoffType: Option<PayoffType>,
    threshold: Option<real>, beliefPoints: Option<real>, uPoints: Option<real>,
    finalPayoff: Option<real>, conversionRate: Option<real>, showupFee: Option<real>,
    trueRedCount: Option<int>, beliefRaw: Option<real>,
    payoff: real)

  const NewPayoffPlayer: PayoffPlayer :=
    PayoffPlayer(None, None, None, None, None, None, None, None, None, None, None, None, 0.0)

  /** belief_enabled: config.get('belief_pay_enabled', True), so belief pay is
      on unless the entry is present and false. */
  function BeliefEnabled(cfg: Config): (b: bool)
    ensures b <==> cfg.beliefPayEnabled != Some(false)
  {
    cfg.beliefPayEnabled.GetOr(true)
  }

  /** set_final_payoff. An empty ledger pays nothing but records the
      consumption type, index 0, treatment "n/a", round 0, 0 points and the
      show-up fee (possibly absent) as final_payoff. Otherwise the entry at
      `index` is paid: its treatment and round are recorded; the three
      config amounts are read (a missing one fails); the consumption type,
      or any type while belief pay is off, pays the entry's u (0 when unset)
      times the conversion rate; the belief type pays the lottery's points
      times the rate and records the entry's red count and raw report; and
      the show-up fee is added. */
  function SetFinalPayoff(v: Vars, p: PayoffPlayer, cfg: Config, index: int, payType: PayoffType, uDraw: real)
    : (res: Result<PayoffPlayer, PayoffError>)
    requires |Ledger(v)| > 0 ==> 0 <= index < |Ledger(v)|
    ensures |Ledger(v)| == 0 ==> res == Success(p.(
      payoffType := Some(Consumption), paidIndex := Some(0), paidTreatment := Some("n/a"),
      paidRound := Some(0), uPoints := Some(0.0), finalPayoff := cfg.showupFee))
    ensures |Ledger(v)| > 0 ==>
      (res.Success? <==> cfg.showupFee.Some? && cfg.conversionRate.Some? && cfg.prize.Some?)
    ensures |Ledger(v)| > 0 && cfg.showupFee.None? ==> res == Failure(MissingConfig("showup_fee"))
    ensures |Ledger(v)| > 0 && cfg.showupFee.Some? && cfg.conversionRate.None? ==> res == Failure(MissingConfig("conversion_rate"))
    ensures |Ledger(v)| > 0 && res.Success? ==>
      var chosen := Ledger(v)[index];
      var q := res.value;
      && q.paidIndex == Some(index) && q.paidTreatment == Some(chosen.treatment)
      && q.paidRound == Some(chosen.data.round) && q.payoffType == Some(payType)
      && q.showupFee == cfg.showupFee && q.conversionRate == cfg.conversionRate
      && q.finalPayoff == p.finalPayoff
    ensures |Ledger(v)| > 0 && res.Success? && (payType == Consumption || !BeliefEnabled(cfg)) ==>
      var chosen := Ledger(v)[index];
      var q := res.value;
      && q.uPoints == Some(chosen.data.u.GetOr(0.0))
      && q.payoff == chosen.data.u.GetOr(0.0) * cfg.conversionRate.value + cfg.showupFee.value
      && q.threshold == p.threshold && q.beliefPoints == p.beliefPoints
      && q.trueRedCount == p.trueRedCount && q.beliefRaw == p.beliefRaw
    ensures |Ledger(v)| > 0 && res.Success? && payType == Belief && BeliefEnabled(cfg) ==>
      var chosen := Ledger(v)[index];
      var q := res.value;
      var l := RunBinaryLottery(chosen.data.hHat, chosen.data.hTrue, cfg.prize.value, uDraw);
      && q.beliefPoints == Some(l.points) && q.threshold == Some(l.threshold)
      && q.payoff == l.points * cfg.conversionRate.value + cfg.showupFee.value
      && q.trueRedCount == chosen.data.redCount && q.beliefRaw == chosen.data.beliefInputRaw
      && q.uPoints == p.uPoints
  {
    var rounds := Ledger(v);
    if |rounds| == 0 then
      Success(p.(payoffType := Some(Consumption), paidIndex := Some(0), paidTreatment := Some("n/a"),
                 paidRound := Some(0), uPoints := Some(0.0), finalPayoff := cfg.showupFee))
    else
      var chosen := rounds[index];
      var q := p.(paidIndex := Some(index), paidTreatment := Some(chosen.treatment),
                  paidRound := Some(chosen.data.round), payoffType := Some(payType));
      if cfg.showupFee.None? then Failure(MissingConfig("showup_fee"))
      else if cfg.conversionRate.None? then Failure(MissingConfig("conversion_rate"))
      else if cfg.prize.None? then Failure(MissingConfig("binary_lotterie_prize"))
      else
        var fee := cfg.showupFee.value;
        var rate := cfg.conversionRate.value;
        var q := q.(showupFee := Some(fee), conversionRate := Some(rate));
        if payType == Consumption || !BeliefEnabled(cfg) then
          var points := chosen.data.u.GetOr(0.0);
          Success(q.(uPoints := Some(points), payoff := points * rate + fee))
        else
          var l := RunBinaryLottery(chosen.data.hHat, chosen.data.hTrue, cfg.prize.value, uDraw);
          Success(q.(beliefPoints := Some(l.points), threshold := Some(l.threshold),
                     payoff := l.points * rate + fee,
                     trueRedCount := chosen.data.redCount, beliefRaw := chosen.data.beliefInputRaw))
  }

  /** Final.vars_for_template: computes the payoff only while
      "final_payoff_set" is unset, then sets it; the page shows whether
      belief pay is on. */
  function Final(v: Vars, p: PayoffPlayer, cfg: Config, index: int, payType: PayoffType, uDraw: real)
    : (res: Result<(Vars, PayoffPlayer, bool), PayoffError>)
    requires |Ledger(v)| > 0 ==> 0 <= index < |Ledger(v)|
    ensures v.finalPayoffSet ==> res == Success((v, p, BeliefEnabled(cfg)))
    ensures !v.finalPayoffSet ==>
      match SetFinalPayoff(v, p, cfg, index, payType, uDraw)
      case Failure(e) => res == Failure(e)
      case Success(q) => res == Success((v.(finalPayoffSet := true), q, BeliefEnabled(cfg)))
    ensures res.Success? ==> res.value.0.finalPayoffSet && res.value.0 == v.(finalPayoffSet := true)
  {
    if !v.finalPayoffSet then
      match SetFinalPayoff(v, p, cfg, index, payType, uDraw)
      case Failure(e) => Failure(e)
      case Success(q) => Success((v.(finalPayoffSet := true), q, BeliefEnabled(cfg)))
    else Success((v, p, BeliefEnabled(cfg)))
  }

  /** Showing the Final page again, whatever is drawn that time, changes
      neither the store nor the player: the payment is made once. */
  lemma FinalIsOnce(v: Vars, p: PayoffPlayer, cfg: Config, index: int, payType: PayoffType, uDraw: real,
                    index2: int, payType2: PayoffType, uDraw2: real)
    requires |Ledger(v)| > 0 ==> 0 <= index < |Ledger(v)|
    requires Final(v, p, cfg, index, payType, uDraw).Success?
    requires |Ledger(v)| > 0 ==> 0 <= index2 < |Ledger(v)|
    ensures var (w, q, b) := Final(v, p, cfg, index, payType, uDraw).value;
      Final(w, q, cfg, index2, payType2, uDraw2) == Success((w, q, b))
  {
    var w := Final(v, p, cfg, index, payType, uDraw).value.0;
    assert Ledger(w) == Ledger(v);
  }

  /** With belief pay switched off the drawn payoff type makes no
      difference to the payment: drawing "belief" pays what drawing
      "consumption" pays, and no lottery is run. */
  lemma DisabledBeliefPaysConsumption(v: Vars, p: PayoffPlayer, cfg: Config, index: int, uDraw: real)
    requires |Ledger(v)| > 0 && 0 <= index < |Ledger(v)|
    requires cfg.beliefPayEnabled == Some(false)
    requires SetFinalPayoff(v, p, cfg, index, Consumption, uDraw).Success?
    ensures SetFinalPayoff(v, p, cfg, index, Belief, uDraw).Success?
    ensures SetFinalPayoff(v, p, cfg, index, Belief, uDraw).value
         == SetFinalPayoff(v, p, cfg, index, Consumption, uDraw).value.(payoffType := Some(Belief))
    ensures SetFinalPayoff(v, p, cfg, index, Belief, uDraw).value.threshold == p.threshold
  {
  }

  /** A belief payment is the show-up fee, or the fee plus the prize at the
      conversion rate; and it is the latter exactly when U falls at or below
      the lottery's threshold, which lies in [0, 1]. */
  lemma BeliefPaymentIsFeeOrPrize(v: Vars, p: PayoffPlayer, cfg: Config, index: int, uDraw: real)
    requires |Ledger(v)| > 0 && 0 <= index < |Ledger(v)|
    requires BeliefEnabled(cfg)
    requires SetFinalPayoff(v, p, cfg, index, Belief, uDraw).Success?
    ensures var q := SetFinalPayoff(v, p, cfg, index, Belief, uDraw).value;
      && q.threshold.Some? && 0.0 <= q.threshold.value <= 1.0
      && (uDraw <= q.threshold.value ==> q.payoff == cfg.prize.value * cfg.conversionRate.value + cfg.showupFee.value)
      && (uDraw > q.threshold.value ==> q.payoff == cfg.showupFee.value)
  {
    var chosen := Ledger(v)[index];
    var l := RunBinaryLottery(chosen.data.hHat, chosen.data.hTrue, cfg.prize.value, uDraw);
    assert uDraw > l.threshold ==> l.points == 0.0;
  }
}
