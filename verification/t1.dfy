/** Treatment t1: Signal, then Belief, then Choice. It builds its own
    schedule from ten red counts paired with the income factors 0.5 and 1.5,
    with the image list shuffled independently, and uses the income-multiplier
    consumption model: c2 = (pi x Y1 + R s) / p2 with s = Y1 - P1 c1, and the
    closed-form c1_max at which c2 is exactly 1. */
module T1 {
  import opened Base
  import opened Shuffling
  import opened Participant
  import opened Helpers
  import opened Forms
  import opened FactorRounds

  const Treatment: string := "t1"
  const AppLabel: string := "t1"
  /** C.RED_COUNTS of this app: ten compositions, each used with both factors. */
  const RedCounts10: seq<int> := [120, 185, 190, 195, 199, 201, 205, 210, 215, 280]
  /** The 20 (r, x) pairs and the 20 image names. */
  const ScheduleLength: nat := 2 * |RedCounts10|
  const C: Consts := AppConsts

  // ---- The income-multiplier consumption model -----------------------------

  /** Player.calc_c1_max: (pi x Y1 + R Y1 - p2) / (R P1). */
  function CalcC1Max(pi: real, x: real, p2: real, c: Consts): (m: real)
    requires c.r * c.p1 != 0.0
    ensures c.r * c.p1 * m == pi * x * c.y1 + c.r * c.y1 - p2
  {
    (pi * x * c.y1 + c.r * c.y1 - p2) / (c.r * c.p1)
  }

  /** Player.c2_given: (pi x Y1 + R s) / p2 with savings s = Y1 - P1 c1. */
  function C2Given(pi: real, x: real, p2: real, c: Consts, c1: real): (c2: real)
    requires p2 != 0.0
    ensures p2 * c2 == pi * x * c.y1 + c.r * (c.y1 - c.p1 * c1)
  {
    var s := c.y1 - c.p1 * c1;
    (pi * x * c.y1 + c.r * s) / p2
  }

  /** Player.u_given: c1 times the c2 it implies. */
  function UGiven(pi: real, x: real, p2: real, c: Consts, c1: real): (u: real)
    requires p2 != 0.0
    ensures p2 * u == c1 * (pi * x * c.y1 + c.r * (c.y1 - c.p1 * c1))
  {
    var c2 := C2Given(pi, x, p2, c, c1);
    assert p2 * (c1 * c2) == c1 * (p2 * c2);
    c1 * c2
  }

  /** At the closed-form c1_max, second-period consumption is exactly 1:
      c1_max is the largest c1 that keeps c2 >= 1. */
  lemma C2AtC1MaxIsOne(pi: real, x: real, p2: real, c: Consts)
    requires c.r != 0.0 && c.p1 != 0.0 && p2 != 0.0
    ensures C2Given(pi, x, p2, c, CalcC1Max(pi, x, p2, c)) == 1.0
  {
    var m := CalcC1Max(pi, x, p2, c);
    var c2 := C2Given(pi, x, p2, c, m);
    var a := pi * x * c.y1;
    var k := c.r * c.p1 * m;
    assert k == a + c.r * c.y1 - p2;
    assert c.r * (c.y1 - c.p1 * m) == c.r * c.y1 - k;
    assert p2 * c2 == a + (c.r * c.y1 - k);
    assert p2 * c2 == p2 * 1.0;
  }

  /** With R, P1 and p2 positive, each extra unit of c1 lowers c2 by R P1 / p2. */
  lemma C2StrictlyDecreasing(pi: real, x: real, p2: real, c: Consts, a: real, b: real)
    requires c.r > 0.0 && c.p1 > 0.0 && p2 > 0.0 && a < b
    ensures C2Given(pi, x, p2, c, b) < C2Given(pi, x, p2, c, a)
  {
    var ca := C2Given(pi, x, p2, c, a);
    var cb := C2Given(pi, x, p2, c, b);
    assert p2 * (ca - cb) == c.r * c.p1 * (b - a);
    assert c.r * c.p1 > 0.0;
    assert c.r * c.p1 * (b - a) > 0.0;
  }

  /** Every c1 the Choice validator accepts leaves c2 >= 1. */
  lemma AcceptedChoiceFeasible(pi: real, x: real, p2: real, c: Consts, c1: real)
    requires c.r > 0.0 && c.p1 > 0.0 && p2 > 0.0
    requires ChoiceError(Some(c1), CalcC1Max(pi, x, p2, c)).None?
    ensures C2Given(pi, x, p2, c, c1) >= 1.0
  {
    var m := CalcC1Max(pi, x, p2, c);
    C2AtC1MaxIsOne(pi, x, p2, c);
    if c1 < m {
      C2StrictlyDecreasing(pi, x, p2, c, c1, m);
    }
  }

  // ---- creating_session ----------------------------------------------------

  /** The player: the round's fields, its c1_max, and the answers. */
  datatype T1Player = T1Player(
    roundNumber: int, fr: FactorRound, c1Max: real,
    c1: Option<real>, beliefInputRaw: Option<real>, hHat: Option<real>, c2: Option<real>, u: Option<real>)

  /** The per-round part of creating_session: read position
      round_number - 1 of the schedule and the images and set c1_max by the
      closed form. */
  function ReadRound(w: Vars, roundNumber: int): (res: Result<T1Player, SessionError>)
    requires roundNumber >= 1
    ensures res.Success? <==> ReadFactor(w, Treatment, roundNumber, C.p1).Success?
    ensures res.Failure? ==> res.error == ReadFactor(w, Treatment, roundNumber, C.p1).error
    ensures res.Success? ==>
      var p := res.value;
      && ReadFactor(w, Treatment, roundNumber, C.p1) == Success(p.fr)
      && p.roundNumber == roundNumber
      && p.c1Max == CalcC1Max(p.fr.pi, p.fr.incomeFactor, p.fr.p2, C)
      && p.c1.None? && p.beliefInputRaw.None? && p.hHat.None? && p.c2.None? && p.u.None?
  {
    match ReadFactor(w, Treatment, roundNumber, C.p1)
    case Failure(e) => Failure(e)
    case Success(fr) =>
      Success(T1Player(roundNumber, fr, CalcC1Max(fr.pi, fr.incomeFactor, fr.p2, C), None, None, None, None, None))
  }

  /** creating_session: in round 1 the pairs and the images are shuffled
      with independent draws and stored under "t1_schedule" and "t1_images";
      every round then reads its own position. */
  function CreatingSession(v: Vars, roundNumber: int, scheduleDraws: seq<nat>, imageDraws: seq<nat>)
    : (res: Result<(Vars, T1Player), SessionError>)
    requires roundNumber >= 1
    requires roundNumber == 1 ==> ValidDraws(scheduleDraws, ScheduleLength) && ValidDraws(imageDraws, ScheduleLength)
    ensures roundNumber == 1 ==> res.Success? && res.value.0 == BuildFactor(v, Treatment, RedCounts10, scheduleDraws, imageDraws)
    ensures roundNumber > 1 && res.Success? ==> res.value.0 == v
    ensures var w := if roundNumber == 1 then BuildFactor(v, Treatment, RedCounts10, scheduleDraws, imageDraws) else v;
      && (res.Success? <==> ReadRound(w, roundNumber).Success?)
      && (res.Success? ==> res.value.1 == ReadRound(w, roundNumber).value)
  {
    var w := if roundNumber == 1 then BuildFactor(v, Treatment, RedCounts10, scheduleDraws, imageDraws) else v;
    match ReadRound(w, roundNumber)
    case Failure(e) => Failure(e)
    case Success(p) => Success((w, p))
  }

  /** For distinct red counts, the stored schedule is a permutation of the 20
      distinct (r, x) combinations and the image list a permutation of the 20
      synthesised names. */
  lemma ScheduleIsPermutation(v: Vars, scheduleDraws: seq<nat>, imageDraws: seq<nat>)
    requires ValidDraws(scheduleDraws, ScheduleLength) && ValidDraws(imageDraws, ScheduleLength)
    ensures var w := CreatingSession(v, 1, scheduleDraws, imageDraws).value.0;
      && "t1_schedule" in w.factorSchedules && "t1_images" in w.images
      && multiset(w.factorSchedules["t1_schedule"]) == multiset(FactorPairs(RedCounts10))
      && multiset(w.images["t1_images"]) == multiset(FactorImages(RedCounts10))
      && Distinct(w.factorSchedules["t1_schedule"])
      && forall p :: p in w.factorSchedules["t1_schedule"] <==> p.0 in RedCounts10 && p.1 in Factors
  {
    assert Treatment + "_schedule" == "t1_schedule" && Treatment + "_images" == "t1_images";
    IncreasingDistinct(RedCounts10);
    BuiltScheduleIsPermutation(v, Treatment, RedCounts10, scheduleDraws, imageDraws);
    assert CreatingSession(v, 1, scheduleDraws, imageDraws).value.0
        == BuildFactor(v, Treatment, RedCounts10, scheduleDraws, imageDraws);
  }

  lemma SynthNameDigit(red: int, variant: string)
    requires 100 <= red < 1000
    ensures SynthName(red, variant)[9] == DigitChar((red / 10) % 10)
  {
    assert NatStr(red) == NatStr(red / 10) + [DigitChar(red % 10)];
    assert NatStr(red / 10) == NatStr(red / 100) + [DigitChar((red / 10) % 10)];
    assert IntStr(red) == [DigitChar(red / 100), DigitChar((red / 10) % 10), DigitChar(red % 10)];
  }

  /** Red counts of three digits whose tens digits differ give different names. */
  lemma SynthNamesDiffer(a: int, va: string, b: int, vb: string)
    requires 100 <= a < 1000 && 100 <= b < 1000 && (a / 10) % 10 != (b / 10) % 10
    ensures SynthName(a, va) != SynthName(b, vb)
  {
    var da := (a / 10) % 10;
    var db := (b / 10) % 10;
    SynthNameDigit(a, va);
    SynthNameDigit(b, vb);
    assert DigitChar(da) != DigitChar(db);
  }

  /** Pairing is not preserved: with the draws that leave both lists in their
      original order, round 2 plays 120 red dots but shows the image
      synthesised for 185, which no variant of the 120 image equals. */
  lemma ImagesNotPaired(v: Vars)
    ensures var rd := ReadFactor(CreatingSession(v, 1, IdentityDraws(20), IdentityDraws(20)).value.0, Treatment, 2, C.p1);
      && rd.Success? && rd.value.r == 120 && rd.value.imageFile == SynthName(185, "x1")
    ensures forall variant :: SynthName(185, "x1") != SynthName(120, variant)
  {
    Name185IsNot120();
    UnshuffledSecondEntries();
    IdentityBuildReadsInOrder(v, Treatment, RedCounts10, 2, C.p1);
    var w := BuildFactor(v, Treatment, RedCounts10, IdentityDraws(20), IdentityDraws(20));
    assert CreatingSession(v, 1, IdentityDraws(20), IdentityDraws(20)).value.0 == w;
  }

  lemma Name185IsNot120()
    ensures forall variant :: SynthName(185, "x1") != SynthName(120, variant)
  {
    forall variant ensures SynthName(185, "x1") != SynthName(120, variant) {
      SynthNamesDiffer(185, "x1", 120, variant);
    }
  }

  /** Before shuffling, the second pair is (120, 1.5) and the second name is
      the "x1" image of 185. */
  lemma UnshuffledSecondEntries()
    ensures FactorPairs(RedCounts10)[1] == (120, 1.5)
    ensures FactorImages(RedCounts10)[1] == SynthName(185, "x1")
  {
    ProductAt(RedCounts10, Factors, 0, 1);
  }

  // ---- Pages ---------------------------------------------------------------

  /** The fields record_main_round reads from a t1 player. The app sets p.r
      but never red_count, so the entry carries the field's default 0, and
      a t1 player has no y1. */
  function T1Snapshot(p: T1Player): (s: Snapshot)
    ensures s.round == p.roundNumber && s.c1 == p.c1 && s.c2 == p.c2 && s.u == p.u
    ensures s.hTrue == Some(p.fr.hTrue) && s.hHat == p.hHat && s.beliefInputRaw == p.beliefInputRaw
    ensures s.y1.None? && s.pi == Some(p.fr.pi) && s.redCount == Some(0)
  {
    Snapshot(p.roundNumber, p.c1, p.c2, p.u, Some(p.fr.hTrue), p.hHat, p.beliefInputRaw, None, Some(p.fr.pi), Some(0))
  }

  /** Choice.before_next_page, the last page of the round: normalise the
      belief given on the Belief page, derive c2 and u from the chosen c1,
      and append one ledger entry labelled "t1". */
  function ChoiceNext(v: Vars, p: T1Player): (r: (Vars, T1Player))
    requires p.c1.Some? && p.beliefInputRaw.Some? && p.fr.p2 != 0.0
    ensures r.1 == p.(hHat := r.1.hHat, c2 := r.1.c2, u := r.1.u)
    ensures r.1.hHat.Some? && r.1.hHat.value * BeliefMax == p.beliefInputRaw.value
    ensures r.1.c2 == Some(C2Given(p.fr.pi, p.fr.incomeFactor, p.fr.p2, C, p.c1.value))
    ensures r.1.u.Some? && r.1.u.value == p.c1.value * r.1.c2.value
    ensures |Ledger(r.0)| == |Ledger(v)| + 1 && Ledger(r.0)[..|Ledger(v)|] == Ledger(v)
    ensures Ledger(r.0)[|Ledger(v)|] == Entry("t1", T1Snapshot(r.1))
    ensures r.0 == v.(mainRounds := r.0.mainRounds)
  {
    var c1 := p.c1.value;
    var hHat := Normalize(p.beliefInputRaw.value);
    var c2 := C2Given(p.fr.pi, p.fr.incomeFactor, p.fr.p2, C, c1);
    var u := UGiven(p.fr.pi, p.fr.incomeFactor, p.fr.p2, C, c1);
    var q := p.(hHat := Some(hHat), c2 := Some(c2), u := Some(u));
    assert q.u.value == c1 * c2;
    (RecordMainRound(v, T1Snapshot(q), AppLabel), q)
  }

  /** The four c1_max values this app can produce (12, 16, 17, 31) are all
      at least 12, so the Choice range [1, c1_max] is never empty. */
  lemma C1MaxAtLeastTwelve(fr: FactorRound)
    requires ValidFactorRound(fr, RedCounts10, C.p1)
    ensures CalcC1Max(fr.pi, fr.incomeFactor, fr.p2, C) >= 12.0
  {
    assert fr.pi == 0.5 || fr.pi == 1.5;
    assert fr.incomeFactor == 0.5 || fr.incomeFactor == 1.5;
  }

  /** A c1 of at least 1 that keeps c2 >= 1 and an accepted report give a
      new last ledger entry labelled "t1" with a belief in [0, 1], c2 >= 1
      and u >= c1. */
  lemma FeasibleChoiceRecordsFeasibleEntry(v: Vars, p: T1Player, c1: real, raw: real)
    requires p.fr.p2 != 0.0 && BeliefError(Some(raw)).None? && 1.0 <= c1
    requires C2Given(p.fr.pi, p.fr.incomeFactor, p.fr.p2, C, c1) >= 1.0
    ensures AppendsFeasibleEntry(v, ChoiceNext(v, p.(c1 := Some(c1), beliefInputRaw := Some(raw))).0, "t1", c1)
  {
    var (w, q) := ChoiceNext(v, p.(c1 := Some(c1), beliefInputRaw := Some(raw)));
    var c2 := q.c2.value;
    assert q.u.value == c1 * c2;
    assert c1 * c2 >= c1 * 1.0;
  }

  /** For a round drawn from the schedule, a report and a c1 that pass the
      Belief and Choice validators give a new last ledger entry labelled
      "t1" with a belief in [0, 1], c2 >= 1 and u >= c1. */
  lemma AcceptedAnswersRecordFeasibleEntry(v: Vars, p: T1Player, c1: real, raw: real)
    requires ValidFactorRound(p.fr, RedCounts10, C.p1)
    requires p.c1Max == CalcC1Max(p.fr.pi, p.fr.incomeFactor, p.fr.p2, C)
    requires BeliefError(Some(raw)).None? && ChoiceError(Some(c1), p.c1Max).None?
    ensures p.fr.p2 != 0.0
    ensures AppendsFeasibleEntry(v, ChoiceNext(v, p.(c1 := Some(c1), beliefInputRaw := Some(raw))).0, "t1", c1)
  {
    var fr := p.fr;
    assert fr.p2 == 0.5 || fr.p2 == 1.5;
    AcceptedChoiceFeasible(fr.pi, fr.incomeFactor, fr.p2, C, c1);
    FeasibleChoiceRecordsFeasibleEntry(v, p, c1, raw);
  }

  /** A round drawn from a built schedule (or round 1) is served: the
      schedule stays a permutation of the pairs, the player's fields come
      from one of them, and c1_max is at least 12. */
  lemma RoundIsServed(v: Vars, roundNumber: int, scheduleDraws: seq<nat>, imageDraws: seq<nat>)
    requires 1 <= roundNumber <= 20
    requires roundNumber == 1 ==> ValidDraws(scheduleDraws, ScheduleLength) && ValidDraws(imageDraws, ScheduleLength)
    requires roundNumber == 1 || FactorBuilt(v, Treatment, RedCounts10)
    ensures CreatingSession(v, roundNumber, scheduleDraws, imageDraws).Success?
    ensures var start := CreatingSession(v, roundNumber, scheduleDraws, imageDraws).value;
      && FactorBuilt(start.0, Treatment, RedCounts10)
      && ValidFactorRound(start.1.fr, RedCounts10, C.p1)
      && start.1.c1Max == CalcC1Max(start.1.fr.pi, start.1.fr.incomeFactor, start.1.fr.p2, C)
      && start.1.c1Max >= 12.0
  {
    var w := if roundNumber == 1 then BuildFactor(v, Treatment, RedCounts10, scheduleDraws, imageDraws) else v;
    BuiltFactorServesRound(w, Treatment, RedCounts10, roundNumber, C.p1);
    C1MaxAtLeastTwelve(ReadFactor(w, Treatment, roundNumber, C.p1).value);
  }

  /** One round of the app, from a built schedule: a report and a c1 that
      pass the Belief and Choice validators end in a ledger entry labelled
      "t1" with a belief in [0, 1], c2 >= 1 and u >= c1. */
  lemma RoundRecordsFeasibleEntry(v: Vars, roundNumber: int, scheduleDraws: seq<nat>, imageDraws: seq<nat>, c1: real, raw: real)
    requires 1 <= roundNumber <= 20
    requires roundNumber == 1 ==> ValidDraws(scheduleDraws, ScheduleLength) && ValidDraws(imageDraws, ScheduleLength)
    requires roundNumber == 1 || FactorBuilt(v, Treatment, RedCounts10)
    ensures CreatingSession(v, roundNumber, scheduleDraws, imageDraws).Success?
    ensures var start := CreatingSession(v, roundNumber, scheduleDraws, imageDraws).value;
      BeliefError(Some(raw)).None? && ChoiceError(Some(c1), start.1.c1Max).None? ==>
        && start.1.fr.p2 != 0.0
        && AppendsFeasibleEntry(start.0, ChoiceNext(start.0, start.1.(c1 := Some(c1), beliefInputRaw := Some(raw))).0, "t1", c1)
  {
    RoundIsServed(v, roundNumber, scheduleDraws, imageDraws);
    var start := CreatingSession(v, roundNumber, scheduleDraws, imageDraws).value;
    if BeliefError(Some(raw)).None? && ChoiceError(Some(c1), start.1.c1Max).None? {
      AcceptedAnswersRecordFeasibleEntry(start.0, start.1, c1, raw);
    }
  }
}
