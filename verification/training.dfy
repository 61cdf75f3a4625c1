/** The training app: four practice rounds, one per combination of a price
    multiplier pi and an income factor x, in an order shuffled once per
    participant. The Choice page computes c2 and u for feedback but writes
    nothing to the ledger. */
module Training {
  import opened Base
  import opened Shuffling
  import opened Participant
  import opened Helpers
  import opened Forms

  const ScheduleKey: string := "training_schedule"
  const NumRounds: int := 4
  /** The price multipliers and the income factors the rounds combine. */
  const Pis: seq<real> := [0.5, 1.5]
  const Xs: seq<real> := [0.5, 1.5]
  const C: Consts := AppConsts

  /** itertools.product(PIS, XS): the (pi, x) combinations, pi-major. */
  function Combos(): (combos: seq<(real, real)>)
    ensures |combos| == NumRounds
  {
    Product(Pis, Xs)
  }

  /** Each (pi, x) combination appears in the list, exactly once. */
  lemma CombosAreAllPairs()
    ensures Distinct(Combos())
    ensures forall c :: c in Combos() <==> c.0 in Pis && c.1 in Xs
  {
    ProductDistinct(Pis, Xs);
    forall c: (real, real) ensures c in Combos() <==> c.0 in Pis && c.1 in Xs {
      ProductMember(Pis, Xs, c);
    }
  }

  /** Round 1: combos[:] shuffled and stored under "training_schedule". */
  function BuildTraining(v: Vars, draws: seq<nat>): (w: Vars)
    requires ValidDraws(draws, NumRounds)
    ensures w == v.(comboSchedules := w.comboSchedules)
    ensures ScheduleKey in w.comboSchedules && w.comboSchedules[ScheduleKey] == Shuffle(Combos(), draws)
    ensures forall k :: k in w.comboSchedules && k != ScheduleKey ==> k in v.comboSchedules && w.comboSchedules[k] == v.comboSchedules[k]
  {
    v.(comboSchedules := v.comboSchedules[ScheduleKey := Shuffle(Combos(), draws)])
  }

  /** The player: the round's pi, x and p2, c1_max, and the choice with its outcomes. */
  datatype TrainingPlayer = TrainingPlayer(
    roundNumber: int, pi: real, incomeFactor: real, p2: real, c1Max: real,
    c1: Option<real>, c2: Option<real>, u: Option<real>)

  /** creating_session: round 1 stores the shuffled combinations; every round
      reads position round_number - 1 (KeyError when never stored,
      IndexError past the end) and sets p2 = pi * P1. c1_max is an input
      (see the README). */
  function CreatingSession(v: Vars, roundNumber: int, draws: seq<nat>, c1Max: real)
    : (res: Result<(Vars, TrainingPlayer), SessionError>)
    requires roundNumber >= 1
    requires roundNumber == 1 ==> ValidDraws(draws, NumRounds)
    ensures roundNumber == 1 ==> res.Success? && res.value.0 == BuildTraining(v, draws)
    ensures roundNumber > 1 && res.Success? ==> res.value.0 == v
    ensures var w := if roundNumber == 1 then BuildTraining(v, draws) else v;
      res.Success? <==> ScheduleKey in w.comboSchedules && roundNumber - 1 < |w.comboSchedules[ScheduleKey]|
    ensures res.Success? ==>
      var w := res.value.0; var p := res.value.1;
      && (p.pi, p.incomeFactor) == w.comboSchedules[ScheduleKey][roundNumber - 1]
      && p.p2 == p.pi * C.p1
      && p.roundNumber == roundNumber && p.c1Max == c1Max
      && p.c1.None? && p.c2.None? && p.u.None?
    ensures !res.Success? ==> roundNumber > 1
    ensures !res.Success? && ScheduleKey !in v.comboSchedules ==> res == Failure(MissingKey(ScheduleKey))
    ensures !res.Success? && ScheduleKey in v.comboSchedules ==> res == Failure(IndexOutOfRange(ScheduleKey, roundNumber - 1))
  {
    var w := if roundNumber == 1 then BuildTraining(v, draws) else v;
    if ScheduleKey !in w.comboSchedules then Failure(MissingKey(ScheduleKey))
    else if roundNumber - 1 >= |w.comboSchedules[ScheduleKey]| then Failure(IndexOutOfRange(ScheduleKey, roundNumber - 1))
    else
      var (pi, x) := w.comboSchedules[ScheduleKey][roundNumber - 1];
      Success((w, TrainingPlayer(roundNumber, pi, x, pi * 1.0, c1Max, None, None, None)))
  }

  /** Choice.error_message: the form field is required, so c1 is always
      there; it must lie in [1, c1_max]. */
  function ChoiceError(c1: real, c1Max: real): (e: Option<FormError>)
    ensures e.None? <==> 1.0 <= c1 <= c1Max
    ensures e.Some? ==> e == Some(C1OutOfRange(c1Max))
  {
    if !(1.0 <= c1 <= c1Max) then Some(C1OutOfRange(c1Max)) else None
  }

  /** Choice.before_next_page: c2 by calc_c2 from the incomes y1, y2 (inputs
      here, see the README) and u = c1 * c2, on the player only; the
      participant store, ledger included, is not an argument and cannot
      change. */
  function ChoiceNext(p: TrainingPlayer, c1: real, y1: real, y2: real): (q: TrainingPlayer)
    requires p.p2 != 0.0
    ensures q == p.(c1 := Some(c1), c2 := q.c2, u := q.u)
    ensures q.c2.Some? && p.p2 * (q.c2.value - y2) == C.r * (y1 - C.p1 * c1)
    ensures q.u.Some? && q.u.value == c1 * q.c2.value
  {
    var c2 := CalcC2(y1, y2, C.p1, p.p2, c1, C.r);
    var u := UGiven(c1, c2);
    assert u == c1 * c2;
    p.(c1 := Some(c1), c2 := Some(c2), u := Some(u))
  }

  /** Whatever the draws, the stored schedule is a permutation of the
      combinations without repeats: every (pi, x) combination is played
      exactly once over the four rounds, and a fifth round would fail with
      an IndexError. */
  lemma ScheduleIsPermutation(v: Vars, draws: seq<nat>, c1Max: real)
    requires ValidDraws(draws, NumRounds)
    ensures var s := BuildTraining(v, draws).comboSchedules[ScheduleKey];
      && |s| == NumRounds
      && Distinct(s)
      && (forall c :: c in s <==> c.0 in Pis && c.1 in Xs)
    ensures CreatingSession(BuildTraining(v, draws), NumRounds + 1, draws, c1Max) == Failure(IndexOutOfRange(ScheduleKey, NumRounds))
  {
    var s := BuildTraining(v, draws).comboSchedules[ScheduleKey];
    CombosAreAllPairs();
    ShuffleDistinct(Combos(), draws);
    forall c: (real, real) ensures c in s <==> c.0 in Pis && c.1 in Xs {
      ShuffleMembers(Combos(), draws, c);
    }
  }

  /** Round n (1 to 4) plays the n-th entry of the schedule round 1 stored,
      with p2 = pi * P1 in {0.5, 1.5}. */
  lemma RoundPlaysScheduleEntry(v: Vars, draws: seq<nat>, n: int, c1Max: real)
    requires ValidDraws(draws, NumRounds) && 1 <= n <= NumRounds
    ensures var w := BuildTraining(v, draws);
      var res := CreatingSession(if n == 1 then v else w, n, draws, c1Max);
      && res.Success? && res.value.0 == w
      && (res.value.1.pi, res.value.1.incomeFactor) == w.comboSchedules[ScheduleKey][n - 1]
      && (res.value.1.p2 == 0.5 || res.value.1.p2 == 1.5)
  {
    ScheduleEntryIsCombo(v, draws, n);
  }

  /** Every schedule entry combines one of the multipliers with one of the factors. */
  lemma ScheduleEntryIsCombo(v: Vars, draws: seq<nat>, n: int)
    requires ValidDraws(draws, NumRounds) && 1 <= n <= NumRounds
    ensures var e := BuildTraining(v, draws).comboSchedules[ScheduleKey][n - 1];
      (e.0 == 0.5 || e.0 == 1.5) && (e.1 == 0.5 || e.1 == 1.5)
  {
    var s := BuildTraining(v, draws).comboSchedules[ScheduleKey];
    ShuffleMembers(Combos(), draws, s[n - 1]);
    ProductMember(Pis, Xs, s[n - 1]);
  }
}
