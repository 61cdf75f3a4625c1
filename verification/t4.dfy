/** Treatment t4: the income information, the signal, then a Belief page.
    Each round is played in a role drawn from a shuffled list of 10 borrower
    and 10 saver slots, and the role fixes c1. The pairs, the images and the
    roles are three independent shuffles. */
module T4 {
  import opened Base
  import opened Shuffling
  import opened Participant
  import opened Helpers
  import opened Forms
  import opened FactorRounds

  const Treatment: string := "t4"
  const AppLabel: string := "t4"
  const C: Consts := AppConsts
  /** How far a role moves c1 away from Y1. */
  const RoleShift: real := 3.0

  /** ['borrower'] * 10 + ['saver'] * 10. */
  function RolesMaster(): (roles: seq<Role>)
    ensures |roles| == 20
    ensures forall i :: 0 <= i < 10 ==> roles[i] == Borrower
    ensures forall i :: 10 <= i < 20 ==> roles[i] == Saver
  {
    seq(10, _ => Borrower) + seq(10, _ => Saver)
  }

  /** The master list holds 10 of each role. */
  lemma RolesMasterBalanced()
    ensures multiset(RolesMaster())[Borrower] == 10 && multiset(RolesMaster())[Saver] == 10
  {
    var b: seq<Role> := seq(10, _ => Borrower);
    var s: seq<Role> := seq(10, _ => Saver);
    assert RolesMaster() == b + s;
    CountConstant(b, Borrower);
    CountConstant(s, Saver);
    CountAbsent(b, Saver);
    CountAbsent(s, Borrower);
  }

  lemma {:induction false} CountConstant<T>(s: seq<T>, x: T)
    requires forall i :: 0 <= i < |s| ==> s[i] == x
    ensures multiset(s)[x] == |s|
    decreases |s|
  {
    if s != [] {
      assert s == s[..|s| - 1] + [s[|s| - 1]];
      CountConstant(s[..|s| - 1], x);
    }
  }

  lemma CountAbsent<T>(s: seq<T>, x: T)
    requires forall i :: 0 <= i < |s| ==> s[i] != x
    ensures multiset(s)[x] == 0
  {
    assert x !in s;
  }

  /** Whatever the draws, the shuffled roles keep 10 borrower and 10 saver slots. */
  lemma ShuffledRolesBalanced(draws: seq<nat>)
    requires ValidDraws(draws, 20)
    ensures |Shuffle(RolesMaster(), draws)| == 20
    ensures multiset(Shuffle(RolesMaster(), draws))[Borrower] == 10
    ensures multiset(Shuffle(RolesMaster(), draws))[Saver] == 10
  {
    RolesMasterBalanced();
  }

  /** What round 1 leaves in the store, and what later rounds rely on. */
  ghost predicate T4Built(v: Vars) {
    && FactorBuilt(v, Treatment, RedCounts)
    && Treatment + "_roles" in v.roles
    && multiset(v.roles[Treatment + "_roles"]) == multiset(RolesMaster())
  }

  /** Round 1: the (r, x) pairs and the image names shuffled as in t1, and the
      role list shuffled with draws of its own, stored under "t4_roles". */
  function BuildT4(v: Vars, scheduleDraws: seq<nat>, imageDraws: seq<nat>, roleDraws: seq<nat>): (w: Vars)
    requires ValidDraws(scheduleDraws, 12) && ValidDraws(imageDraws, 12) && ValidDraws(roleDraws, 20)
    ensures w == BuildFactor(v, Treatment, RedCounts, scheduleDraws, imageDraws).(roles := w.roles)
    ensures w.roles == v.roles[Treatment + "_roles" := Shuffle(RolesMaster(), roleDraws)]
    ensures T4Built(w)
    ensures |w.roles[Treatment + "_roles"]| == 20
  {
    var u := BuildFactor(v, Treatment, RedCounts, scheduleDraws, imageDraws);
    u.(roles := u.roles[Treatment + "_roles" := Shuffle(RolesMaster(), roleDraws)])
  }

  /** The player: the round's fields, its role, c1_max and c1, and the answers. */
  datatype T4Player = T4Player(
    roundNumber: int, fr: FactorRound, role: Role, c1Max: real, c1: real,
    beliefInputRaw: Option<real>, hHat: Option<real>, c2: Option<real>, u: Option<real>)

  /** c1 fixed by the role: Y1 - 3 for a borrower, Y1 + 3 for a saver. */
  function C1ForRole(role: Role): (c1: real)
    ensures role == Borrower <==> c1 == 7.0
    ensures role.Saver? <==> c1 == 13.0
  {
    if role == Borrower then C.y1 - RoleShift else C.y1 + RoleShift
  }

  /** The per-round part of creating_session: read position
      round_number - 1 of the schedule, the images and the roles (failing on
      the first that is missing or too short) and fix c1 by the role. */
  function ReadRound(w: Vars, roundNumber: int, c1Max: real): (res: Result<T4Player, SessionError>)
    requires roundNumber >= 1
    ensures var rkey := Treatment + "_roles";
      res.Success? <==>
        && ReadFactor(w, Treatment, roundNumber, C.p1).Success?
        && rkey in w.roles && roundNumber - 1 < |w.roles[rkey]|
    ensures ReadFactor(w, Treatment, roundNumber, C.p1).Failure? ==> res == Failure(ReadFactor(w, Treatment, roundNumber, C.p1).error)
    ensures res.Success? ==>
      var p := res.value;
      && ReadFactor(w, Treatment, roundNumber, C.p1) == Success(p.fr)
      && p.role == w.roles[Treatment + "_roles"][roundNumber - 1]
      && (p.role == Borrower <==> p.c1 == 7.0)
      && (p.role.Saver? <==> p.c1 == 13.0)
      && p.roundNumber == roundNumber && p.c1Max == c1Max
      && p.beliefInputRaw.None? && p.hHat.None? && p.c2.None? && p.u.None?
  {
    var rkey := Treatment + "_roles";
    match ReadFactor(w, Treatment, roundNumber, C.p1)
    case Failure(e) => Failure(e)
    case Success(fr) =>
      if rkey !in w.roles then Failure(MissingKey(rkey))
      else if roundNumber - 1 >= |w.roles[rkey]| then Failure(IndexOutOfRange(rkey, roundNumber - 1))
      else
        var role := w.roles[rkey][roundNumber - 1];
        Success(T4Player(roundNumber, fr, role, c1Max, C1ForRole(role), None, None, None, None))
  }

  /** creating_session: round 1 builds the three lists; every round then
      reads its own position of each. c1_max is an input (see the README). */
  function CreatingSession(v: Vars, roundNumber: int, scheduleDraws: seq<nat>, imageDraws: seq<nat>, roleDraws: seq<nat>, c1Max: real)
    : (res: Result<(Vars, T4Player), SessionError>)
    requires roundNumber >= 1
    requires roundNumber == 1 ==> ValidDraws(scheduleDraws, 12) && ValidDraws(imageDraws, 12) && ValidDraws(roleDraws, 20)
    ensures roundNumber == 1 ==> res.Success? && res.value.0 == BuildT4(v, scheduleDraws, imageDraws, roleDraws)
    ensures roundNumber > 1 && res.Success? ==> res.value.0 == v
    ensures var w := if roundNumber == 1 then BuildT4(v, scheduleDraws, imageDraws, roleDraws) else v;
      && (res.Success? <==> ReadRound(w, roundNumber, c1Max).Success?)
      && (res.Success? ==> res.value.1 == ReadRound(w, roundNumber, c1Max).value)
  {
    var w := if roundNumber == 1 then BuildT4(v, scheduleDraws, imageDraws, roleDraws) else v;
    match ReadRound(w, roundNumber, c1Max)
    case Failure(e) => Failure(e)
    case Success(p) => Success((w, p))
  }

  /** The fields record_main_round reads from a t4 player: like t1, the app
      sets p.r but never red_count, and a t4 player has no y1. */
  function T4Snapshot(p: T4Player): (s: Snapshot)
    ensures s.round == p.roundNumber && s.c1 == Some(p.c1) && s.c2 == p.c2 && s.u == p.u
    ensures s.hTrue == Some(p.fr.hTrue) && s.hHat == p.hHat && s.beliefInputRaw == p.beliefInputRaw
    ensures s.y1.None? && s.pi == Some(p.fr.pi) && s.redCount == Some(0)
  {
    Snapshot(p.roundNumber, Some(p.c1), p.c2, p.u, Some(p.fr.hTrue), p.hHat, p.beliefInputRaw, None, Some(p.fr.pi), Some(0))
  }

  /** Belief.before_next_page: normalise the report, derive c2 by calc_c2 from
      the incomes y1, y2 (inputs here, see the README) and the role's c1,
      set u = c1 * c2 and append one ledger entry labelled "t4". */
  function BeliefNext(v: Vars, p: T4Player, y1: real, y2: real): (r: (Vars, T4Player))
    requires p.beliefInputRaw.Some? && p.fr.p2 != 0.0
    ensures r.1 == p.(hHat := r.1.hHat, c2 := r.1.c2, u := r.1.u)
    ensures r.1.hHat.Some? && r.1.hHat.value * BeliefMax == p.beliefInputRaw.value
    ensures r.1.c2.Some? && p.fr.p2 * (r.1.c2.value - y2) == C.r * (y1 - C.p1 * p.c1)
    ensures r.1.u.Some? && r.1.u.value == p.c1 * r.1.c2.value
    ensures |Ledger(r.0)| == |Ledger(v)| + 1 && Ledger(r.0)[..|Ledger(v)|] == Ledger(v)
    ensures Ledger(r.0)[|Ledger(v)|] == Entry("t4", T4Snapshot(r.1))
    ensures r.0 == v.(mainRounds := r.0.mainRounds)
  {
    var hHat := Normalize(p.beliefInputRaw.value);
    var c2 := CalcC2(y1, y2, C.p1, p.fr.p2, p.c1, C.r);
    var u := UGiven(p.c1, c2);
    var q := p.(hHat := Some(hHat), c2 := Some(c2), u := Some(u));
    assert q.u.value == p.c1 * c2;
    (RecordMainRound(v, T4Snapshot(q), AppLabel), q)
  }

  /** A report the Belief validator accepts ends in one more ledger entry,
      labelled "t4", with a belief in [0, 1] and the role's c1. */
  lemma AcceptedBeliefRecordsEntry(v: Vars, p: T4Player, raw: real, y1: real, y2: real)
    requires p.fr.p2 != 0.0 && BeliefError(Some(raw)).None?
    ensures var w2 := BeliefNext(v, p.(beliefInputRaw := Some(raw)), y1, y2).0;
      && |Ledger(w2)| == |Ledger(v)| + 1
      && Ledger(w2)[|Ledger(v)|].treatment == "t4"
      && 0.0 <= Ledger(w2)[|Ledger(v)|].data.hHat.GetOr(-1.0) <= 1.0
      && Ledger(w2)[|Ledger(v)|].data.c1 == Some(p.c1)
  {
    var q := p.(beliefInputRaw := Some(raw));
    var h := BeliefNext(v, q, y1, y2).1.hHat.value;
    assert h * BeliefMax == raw;
  }

  /** A built store serves rounds 1 to 12, with valid round fields, and
      keeps 20 role slots, 10 of each. */
  lemma BuiltStoreServesRound(w: Vars, roundNumber: int)
    requires 1 <= roundNumber <= 12
    requires T4Built(w)
    ensures ReadFactor(w, Treatment, roundNumber, C.p1).Success?
    ensures ValidFactorRound(ReadFactor(w, Treatment, roundNumber, C.p1).value, RedCounts, C.p1)
    ensures ReadFactor(w, Treatment, roundNumber, C.p1).value.p2 != 0.0
    ensures |w.roles[Treatment + "_roles"]| == 20
    ensures multiset(w.roles[Treatment + "_roles"])[Borrower] == 10
    ensures multiset(w.roles[Treatment + "_roles"])[Saver] == 10
  {
    RolesMasterBalanced();
    BuiltFactorServesRound(w, Treatment, RedCounts, roundNumber, C.p1);
    var roles := w.roles[Treatment + "_roles"];
    assert |roles| == 20 by {
      assert |multiset(roles)| == |multiset(RolesMaster())|;
    }
    var fr := ReadFactor(w, Treatment, roundNumber, C.p1).value;
    assert fr.p2 == 0.5 || fr.p2 == 1.5;
  }

  /** One round of the app, from a built store (or round 1): the round is
      served, the player gets valid round fields, and the store keeps 10
      borrower and 10 saver slots. */
  lemma RoundIsServed(v: Vars, roundNumber: int, scheduleDraws: seq<nat>, imageDraws: seq<nat>, roleDraws: seq<nat>, c1Max: real)
    requires 1 <= roundNumber <= 12
    requires roundNumber == 1 ==> ValidDraws(scheduleDraws, 12) && ValidDraws(imageDraws, 12) && ValidDraws(roleDraws, 20)
    requires roundNumber == 1 || T4Built(v)
    ensures CreatingSession(v, roundNumber, scheduleDraws, imageDraws, roleDraws, c1Max).Success?
    ensures var start := CreatingSession(v, roundNumber, scheduleDraws, imageDraws, roleDraws, c1Max).value;
      && T4Built(start.0)
      && multiset(start.0.roles[Treatment + "_roles"])[Borrower] == 10
      && multiset(start.0.roles[Treatment + "_roles"])[Saver] == 10
      && ValidFactorRound(start.1.fr, RedCounts, C.p1)
      && start.1.fr.p2 != 0.0
  {
    var w := if roundNumber == 1 then BuildT4(v, scheduleDraws, imageDraws, roleDraws) else v;
    BuiltStoreServesRound(w, roundNumber);
  }
}
