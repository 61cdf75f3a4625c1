/** The shared helpers of the signals experiment (helper_functions.py): the
    constants, the combined-shuffle round schedule used by t0 and t3, the
    exchange-endowment consumption model, the payoff table, the image names,
    the round ledger and the binary belief lottery. */
module Helpers {
  import opened Base
  import opened Shuffling
  import opened Participant

  // ---- Constants ----------------------------------------------------------

  /** get_red_counts() */
  const RedCounts: seq<int> := [120, 185, 195, 205, 215, 280]
  /** get_income_profile() */
  const IncomeProfile: seq<int> := [5, 15]
  /** get_round_count(): the product 12 is commented out in favour of 1. */
  const RoundCount: int := 1
  /** The Price enum. */
  const PriceLow: real := 0.5
  const PriceHigh: real := 2.0
  /** Red counts above this are the high price regime. */
  const RegimeThreshold: int := 200
  /** Red counts and belief reports are out of 400 dots. */
  const DotTotal: real := 400.0

  /** The constants an app passes as `C`: Y1, P1 and R. */
  datatype Consts = Consts(y1: real, p1: real, r: real)

  /** Y1 = 10, P1 = 1, R = 1 + 0 as every treatment app declares them. */
  const AppConsts: Consts := Consts(10.0, 1.0, 1.0)

  /** The price multiplier for a red count under the shared helper: 2 when above 200. */
  function HelperPi(red: int): (pi: real)
    ensures red > RegimeThreshold ==> pi == PriceHigh
    ensures red <= RegimeThreshold ==> pi == PriceLow
  {
    if red > 200 then 2.0 else 0.5
  }

  // ---- Image names ----------------------------------------------------------

  /** The synthesised image name for a red count and a variant tag ("x1" or "x2"). */
  function SynthName(red: int, variant: string): string {
    "dots_T0_" + IntStr(red) + "_" + variant + ".png"
  }

  predicate HasSuffix(s: string, suffix: string) {
    |suffix| <= |s| && s[|s| - |suffix|..] == suffix
  }

  /** Every synthesised name ends in "_<variant>.png". */
  lemma SynthNameSuffix(red: int, variant: string)
    ensures HasSuffix(SynthName(red, variant), "_" + variant + ".png")
  {
    var head := "dots_T0_" + IntStr(red);
    var tail := "_" + variant + ".png";
    assert SynthName(red, variant) == head + tail;
    assert (head + tail)[|head|..] == tail;
  }

  /** synthesize_filenames(red_count, file_names): an explicit list of exactly
      20 names is used as given; anything else, or no list, falls back to two
      synthesised names per red count, first all "x1" names, then all "x2"
      names, each in red-count order. */
  function SynthesizeFilenames(reds: seq<int>, fileNames: Option<seq<string>>): (names: seq<string>)
    ensures fileNames.Some? && |fileNames.value| == 20 ==> names == fileNames.value
    ensures fileNames.None? || |fileNames.value| != 20 ==>
      && |names| == 2 * |reds|
      && (forall i :: 0 <= i < |reds| ==> names[i] == SynthName(reds[i], "x1"))
      && (forall i :: 0 <= i < |reds| ==> names[|reds| + i] == SynthName(reds[i], "x2"))
  {
    match fileNames
    case None => Synthesized(reds)
    case Some(files) => if |files| != 20 then Synthesized(reds) else files
  }

  /** The fallback list: the "x1" names, then the "x2" names. */
  function Synthesized(reds: seq<int>): (names: seq<string>)
    ensures |names| == 2 * |reds|
    ensures forall i :: 0 <= i < |reds| ==> names[i] == SynthName(reds[i], "x1")
    ensures forall i :: 0 <= i < |reds| ==> names[|reds| + i] == SynthName(reds[i], "x2")
  {
    var first := Map((r: int) => SynthName(r, "x1"), reds);
    var second := Map((r: int) => SynthName(r, "x2"), reds);
    assert forall i :: 0 <= i < |reds| ==> (first + second)[|reds| + i] == second[i];
    first + second
  }

  // ---- The shared round schedule (create_session) -------------------------

  /** The (red count, y1) pairs: itertools.product(incomes, reds), each pair
      then swapped, so all y1 = 5 pairs come first. */
  function ExchangePairs(): (pairs: seq<(int, int)>)
    ensures |pairs| == |IncomeProfile| * |RedCounts|
  {
    Swapped(Product(IncomeProfile, RedCounts))
  }

  /** The image list create_session pairs with the schedule. */
  function ExchangeImages(): (names: seq<string>)
    ensures |names| == 2 * |RedCounts|
  {
    SynthesizeFilenames(RedCounts, None)
  }

  /** The pairs are exactly the 12 combinations of a red count with an income, each once. */
  lemma ExchangePairsAreCombinations()
    ensures |ExchangePairs()| == 12
    ensures Distinct(ExchangePairs())
    ensures forall p :: p in ExchangePairs() <==> p.0 in RedCounts && p.1 in IncomeProfile
  {
    ProductDistinct(IncomeProfile, RedCounts);
    forall p: (int, int)
      ensures p in ExchangePairs() <==> p.0 in RedCounts && p.1 in IncomeProfile
    {
      var prod := Product(IncomeProfile, RedCounts);
      ProductMember(IncomeProfile, RedCounts, (p.1, p.0));
      if p in ExchangePairs() {
        var i :| 0 <= i < |ExchangePairs()| && ExchangePairs()[i] == p;
        assert prod[i] == (p.1, p.0);
      }
      if (p.1, p.0) in prod {
        var i :| 0 <= i < |prod| && prod[i] == (p.1, p.0);
        assert ExchangePairs()[i] == p;
      }
    }
  }

  /** The variant tag that belongs with an income: "x1" with y1 = 5, "x2" otherwise. */
  function VariantOf(y1: int): string {
    if y1 == 5 then "x1" else "x2"
  }

  /** The image carries the pair's red count and its income variant. */
  predicate Carries(pair: (int, int), image: string) {
    image == SynthName(pair.0, VariantOf(pair.1))
  }

  /** Before shuffling, position i of the pair list and of the image list
      belong together. */
  lemma MasterPairing(i: nat)
    requires i < 12
    ensures Carries(ExchangePairs()[i], ExchangeImages()[i])
  {
    if i < 6 {
      ProductAt(IncomeProfile, RedCounts, 0, i);
    } else {
      ProductAt(IncomeProfile, RedCounts, 1, i - 6);
      assert ExchangeImages()[6 + (i - 6)] == SynthName(RedCounts[i - 6], "x2");
    }
  }

  /** Before shuffling, the two lists belong together position by position. */
  lemma MasterPairingAll()
    ensures |ExchangePairs()| == |ExchangeImages()|
    ensures forall j :: 0 <= j < |ExchangePairs()| ==> Carries(ExchangePairs()[j], ExchangeImages()[j])
  {
    forall j | 0 <= j < |ExchangePairs()| ensures Carries(ExchangePairs()[j], ExchangeImages()[j]) {
      MasterPairing(j);
    }
  }

  /** The schedule stored for a treatment is a shuffle of the 12 pairs, with
      an image list of the same length whose every entry carries its round's
      pair. This is what round 1 establishes and later rounds rely on. */
  ghost predicate ExchangeBuilt(v: Vars, treatment: string) {
    var key := treatment + "_schedule";
    var ikey := treatment + "_images";
    && key in v.exchangeSchedules && ikey in v.images
    && multiset(v.exchangeSchedules[key]) == multiset(ExchangePairs())
    && |v.images[ikey]| == |v.exchangeSchedules[key]|
    && forall i :: 0 <= i < |v.exchangeSchedules[key]| ==> Carries(v.exchangeSchedules[key][i], v.images[ikey][i])
  }

  /** Round 1 of create_session, the list part: zip pairs and images,
      shuffle the zipped list as one unit and unzip it again. */
  function CombinedShuffle(draws: seq<nat>): (r: (seq<(int, int)>, seq<string>))
    requires ValidDraws(draws, |ExchangePairs()|)
  {
    Unzip(Shuffle(Zip(ExchangePairs(), ExchangeImages()), draws))
  }

  /** Shuffling the zipped list moves both halves by one permutation: the
      schedule and the image list are the two lists shuffled with the same
      draws, so every round's image still carries that round's red count and
      income variant. */
  lemma CombinedShuffleKeepsPairing(draws: seq<nat>)
    requires ValidDraws(draws, |ExchangePairs()|)
    ensures CombinedShuffle(draws).0 == Shuffle(ExchangePairs(), draws)
    ensures CombinedShuffle(draws).1 == Shuffle(ExchangeImages(), draws)
    ensures forall i :: 0 <= i < |CombinedShuffle(draws).0| ==>
      Carries(CombinedShuffle(draws).0[i], CombinedShuffle(draws).1[i])
  {
    ZipShuffle(ExchangePairs(), ExchangeImages(), draws);
    MasterPairingAll();
    ShuffleKeepsRelation(ExchangePairs(), ExchangeImages(), draws, Carries);
  }

  /** Round 1 of create_session: store the shuffled lists under
      "<treatment>_schedule" and "<treatment>_images"; nothing else changes. */
  function BuildExchange(v: Vars, treatment: string, draws: seq<nat>): (w: Vars)
    requires ValidDraws(draws, |ExchangePairs()|)
    ensures w == v.(exchangeSchedules := w.exchangeSchedules, images := w.images)
    ensures treatment + "_schedule" in w.exchangeSchedules && treatment + "_images" in w.images
    ensures w.exchangeSchedules[treatment + "_schedule"] == Shuffle(ExchangePairs(), draws)
    ensures w.images[treatment + "_images"] == Shuffle(ExchangeImages(), draws)
    ensures ExchangeBuilt(w, treatment)
  {
    CombinedShuffleKeepsPairing(draws);
    var (schedule, images) := CombinedShuffle(draws);
    v.(exchangeSchedules := v.exchangeSchedules[treatment + "_schedule" := schedule],
       images := v.images[treatment + "_images" := images])
  }

  /** The round fields create_session stores on the player. */
  datatype ExchangeRound = ExchangeRound(
    y1: int, redCount: int, hTrue: real, pi: real, y2: int, p2: real,
    imageFile: string, c1Max: int)

  /** calc_c1_max(p): floor(y1 + y2 / 2). */
  function CalcC1Max(y1: int, y2: int): (m: int)
    ensures m as real <= y1 as real + y2 as real / 2.0 < m as real + 1.0
  {
    (y1 as real + y2 as real / 2.0).Floor
  }

  /** The per-round derivation: h_true = r/400, pi = 2 above 200 else 0.5,
      y2 = 15 when y1 = 5 else 5, p2 = pi * P1, c1_max = floor(y1 + y2/2). */
  function DeriveExchange(pair: (int, int), image: string, c: Consts): (rp: ExchangeRound)
    ensures rp.redCount == pair.0 && rp.y1 == pair.1 && rp.imageFile == image
    ensures rp.hTrue * DotTotal == pair.0 as real
    ensures rp.pi == HelperPi(pair.0) && rp.p2 == rp.pi * c.p1
    ensures pair.1 in IncomeProfile ==> rp.y1 + rp.y2 == 20
    ensures rp.c1Max == CalcC1Max(rp.y1, rp.y2)
  {
    var (r, y1) := pair;
    var pi := if r > 200 then 2.0 else 0.5;
    var y2 := if y1 == 5 then 15 else 5;
    ExchangeRound(y1, r, r as real / 400.0, pi, y2, pi * c.p1, image, CalcC1Max(y1, y2))
  }

  /** The fields of a round drawn from the shared schedule. */
  ghost predicate ValidExchangeRound(rp: ExchangeRound, c: Consts) {
    && rp.redCount in RedCounts && rp.y1 in IncomeProfile
    && rp.y1 + rp.y2 == 20
    && rp.hTrue * DotTotal == rp.redCount as real
    && rp.pi == HelperPi(rp.redCount) && rp.p2 == rp.pi * c.p1
    && rp.c1Max == CalcC1Max(rp.y1, rp.y2)
    && rp.imageFile == SynthName(rp.redCount, VariantOf(rp.y1))
  }

  datatype SessionError = MissingKey(key: string) | IndexOutOfRange(key: string, index: int)

  /** Reading the stored schedule and image for a round: KeyError when the
      key was never written, IndexError past the end. */
  function ReadExchange(v: Vars, treatment: string, roundNumber: int, c: Consts): (res: Result<ExchangeRound, SessionError>)
    requires roundNumber >= 1
    ensures var key := treatment + "_schedule"; var ikey := treatment + "_images";
      res.Success? <==>
        && key in v.exchangeSchedules && roundNumber - 1 < |v.exchangeSchedules[key]|
        && ikey in v.images && roundNumber - 1 < |v.images[ikey]|
    ensures res.Success? ==> res.value == DeriveExchange(
      v.exchangeSchedules[treatment + "_schedule"][roundNumber - 1], v.images[treatment + "_images"][roundNumber - 1], c)
    // the schedule is read before the images: its error, if any, is the one raised
    ensures var key := treatment + "_schedule"; var ikey := treatment + "_images";
      && (key !in v.exchangeSchedules ==> res == Failure(MissingKey(key)))
      && (key in v.exchangeSchedules && roundNumber - 1 >= |v.exchangeSchedules[key]| ==> res == Failure(IndexOutOfRange(key, roundNumber - 1)))
      && (key in v.exchangeSchedules && roundNumber - 1 < |v.exchangeSchedules[key]| && ikey !in v.images ==> res == Failure(MissingKey(ikey)))
      && (key in v.exchangeSchedules && roundNumber - 1 < |v.exchangeSchedules[key]| && ikey in v.images && roundNumber - 1 >= |v.images[ikey]| ==>
            res == Failure(IndexOutOfRange(ikey, roundNumber - 1)))
  {
    var key := treatment + "_schedule";
    var ikey := treatment + "_images";
    if key !in v.exchangeSchedules then Failure(MissingKey(key))
    else if roundNumber - 1 >= |v.exchangeSchedules[key]| then Failure(IndexOutOfRange(key, roundNumber - 1))
    else if ikey !in v.images then Failure(MissingKey(ikey))
    else if roundNumber - 1 >= |v.images[ikey]| then Failure(IndexOutOfRange(ikey, roundNumber - 1))
    else Success(DeriveExchange(v.exchangeSchedules[key][roundNumber - 1], v.images[ikey][roundNumber - 1], c))
  }

  /** create_session(subsession, C, treatment) for one participant. The
      schedule is built, from the draws, only in round 1; round n reads
      position n - 1 of what is stored. */
  function CreateSession(v: Vars, roundNumber: int, treatment: string, c: Consts, draws: seq<nat>)
    : (res: Result<(Vars, ExchangeRound), SessionError>)
    requires roundNumber >= 1
    requires roundNumber == 1 ==> ValidDraws(draws, |ExchangePairs()|)
    // round 1 builds the schedule from the draws; later rounds leave the store alone
    ensures roundNumber == 1 ==> res.Success? && res.value.0 == BuildExchange(v, treatment, draws)
    ensures roundNumber > 1 && res.Success? ==> res.value.0 == v
    // the round's fields come from position roundNumber - 1 of what is stored
    ensures res.Success? ==> ReadExchange(res.value.0, treatment, roundNumber, c) == Success(res.value.1)
    // a later round fails exactly when the stored lists lack the key or the position, with that error
    ensures roundNumber > 1 ==> (res.Success? <==> ReadExchange(v, treatment, roundNumber, c).Success?)
    ensures roundNumber > 1 && res.Failure? ==> res.error == ReadExchange(v, treatment, roundNumber, c).error
  {
    var w := if roundNumber == 1 then BuildExchange(v, treatment, draws) else v;
    if roundNumber == 1 then
      ExchangePairsAreCombinations();
      assert |w.exchangeSchedules[treatment + "_schedule"]| == 12;
      assert |w.images[treatment + "_images"]| == 12;
      Success((w, ReadExchange(w, treatment, roundNumber, c).value))
    else
      match ReadExchange(w, treatment, roundNumber, c)
      case Failure(e) => Failure(e)
      case Success(rp) => Success((w, rp))
  }

  /** A built schedule serves every round up to its 12 entries and stays
      built; each round's fields are then those of one of the 12 pairs, with
      the image that carries it. */
  lemma BuiltScheduleServesRound(v: Vars, roundNumber: int, treatment: string, c: Consts, draws: seq<nat>)
    requires 1 <= roundNumber <= 12
    requires roundNumber == 1 ==> ValidDraws(draws, |ExchangePairs()|)
    requires roundNumber == 1 || ExchangeBuilt(v, treatment)
    ensures CreateSession(v, roundNumber, treatment, c, draws).Success?
    ensures var (w, rp) := CreateSession(v, roundNumber, treatment, c, draws).value;
      && ExchangeBuilt(w, treatment)
      && ValidExchangeRound(rp, c)
  {
    var w := if roundNumber == 1 then BuildExchange(v, treatment, draws) else v;
    var key := treatment + "_schedule";
    var ikey := treatment + "_images";
    assert ExchangeBuilt(w, treatment);
    var sched := w.exchangeSchedules[key];
    assert |sched| == 12 by {
      ExchangePairsAreCombinations();
      assert |multiset(sched)| == |multiset(ExchangePairs())|;
    }
    var pair := sched[roundNumber - 1];
    var image := w.images[ikey][roundNumber - 1];
    var read := ReadExchange(w, treatment, roundNumber, c);
    assert read == Success(DeriveExchange(pair, image, c));
    var res := CreateSession(v, roundNumber, treatment, c, draws);
    assert res.Success? && res.value.0 == w;
    assert res.value.1 == DeriveExchange(pair, image, c);
    assert pair in ExchangePairs() by {
      assert pair in multiset(sched);
    }
    PairFieldsValid(pair, image, c);
  }

  lemma PairFieldsValid(pair: (int, int), image: string, c: Consts)
    requires pair in ExchangePairs() && Carries(pair, image)
    ensures ValidExchangeRound(DeriveExchange(pair, image, c), c)
  {
    ExchangePairsAreCombinations();
  }

  // ---- The exchange-endowment consumption model ---------------------------

  /** calc_c2: with savings s = y1 - p1*c1, c2 = y2 + R*s/p2. Stated as the
      budget identity: what period 2 buys beyond its endowment is paid for
      exactly by the grossed-up savings. */
  function CalcC2(y1: real, y2: real, p1: real, p2: real, c1: real, r: real): (c2: real)
    requires p2 != 0.0
    ensures p2 * (c2 - y2) == r * (y1 - p1 * c1)
  {
    var s := y1 - p1 * c1;
    y2 + (r * s) / p2
  }

  /** c2_given(p, C): calc_c2 on the player's stored y1, y2, p2 and chosen c1. */
  function C2Given(rp: ExchangeRound, c: Consts, c1: real): (c2: real)
    requires rp.p2 != 0.0
    ensures rp.p2 * (c2 - rp.y2 as real) == c.r * (rp.y1 as real - c.p1 * c1)
  {
    CalcC2(rp.y1 as real, rp.y2 as real, c.p1, rp.p2, c1, c.r)
  }

  /** u_given(p): utility is the product of the two consumptions. */
  function UGiven(c1: real, c2: real): (u: real)
    ensures c1 >= 1.0 && c2 >= 1.0 ==> u >= c1 && u >= c2
    ensures u == c1 * c2
  {
    c1 * c2
  }

  /** With P1 = R = 1, second-period consumption falls by R/p2 per unit of c1. */
  lemma CalcC2Decreasing(y1: real, y2: real, p2: real, a: real, b: real)
    requires p2 > 0.0 && a <= b
    ensures CalcC2(y1, y2, 1.0, p2, b, 1.0) <= CalcC2(y1, y2, 1.0, p2, a, 1.0)
  {
    var ca := CalcC2(y1, y2, 1.0, p2, a, 1.0);
    var cb := CalcC2(y1, y2, 1.0, p2, b, 1.0);
    assert p2 * (ca - cb) == b - a;
    if ca < cb {
      assert p2 * (ca - cb) < 0.0;
    }
  }

  /** For the helper's incomes (y1 = 5 or 15, y2 = 20 - y1, P1 = R = 1):
      under the low regime c2 >= 1 exactly up to c1_max = floor(y1 + y2/2),
      where c2 is exactly 1; under the high regime every such c1 also gives
      c2 >= 1. So c1_max is the binding choice under the low price. */
  lemma HelperC1MaxBinding(y1: int, c1: real)
    requires y1 in IncomeProfile
    ensures var y2 := 20 - y1;
      && (CalcC2(y1 as real, y2 as real, 1.0, PriceLow, c1, 1.0) >= 1.0 <==> c1 <= CalcC1Max(y1, y2) as real)
      && CalcC2(y1 as real, y2 as real, 1.0, PriceLow, CalcC1Max(y1, y2) as real, 1.0) == 1.0
      && (c1 <= CalcC1Max(y1, y2) as real ==> CalcC2(y1 as real, y2 as real, 1.0, PriceHigh, c1, 1.0) >= 1.0)
  {
    var y2 := 20 - y1;
    var m := CalcC1Max(y1, y2);
    if y1 == 5 {
      assert m == 12;
    } else {
      assert m == 17;
    }
    var low := CalcC2(y1 as real, y2 as real, 1.0, PriceLow, c1, 1.0);
    assert 0.5 * (low - y2 as real) == y1 as real - c1;
    assert low == y2 as real + 2.0 * (y1 as real - c1);
    var high := CalcC2(y1 as real, y2 as real, 1.0, PriceHigh, c1, 1.0);
    assert 2.0 * (high - y2 as real) == y1 as real - c1;
  }

  // ---- Payoff table -----------------------------------------------------------

  /** One row of build_payoff_table. The keys u15/infeasible15 hold the pi = 2
      column despite their names. Displayed utilities are kept exact here. */
  datatype TableRow = TableRow(c1: int, u05: Option<real>, infeasible05: bool, u15: Option<real>, infeasible15: bool)

  /** The row for c1 is infeasible under a regime exactly when that regime's
      c2 falls below 1, and its utility is then absent, otherwise c1 * c2. */
  ghost predicate RowAgrees(row: TableRow, y1: real, y2: real, p1: real, r: real)
    requires p1 != 0.0
  {
    var c := row.c1 as real;
    var lo := CalcC2(y1, y2, p1, PriceLow * p1, c, r);
    var hi := CalcC2(y1, y2, p1, PriceHigh * p1, c, r);
    && (row.infeasible05 <==> lo < 1.0)
    && (row.infeasible15 <==> hi < 1.0)
    && (row.u05.None? <==> row.infeasible05) && (row.u05.Some? ==> row.u05.value == c * lo)
    && (row.u15.None? <==> row.infeasible15) && (row.u15.Some? ==> row.u15.value == c * hi)
  }

  /** build_payoff_table(y1, y2, p1, R, c1_max): one row for each c1 in
      1..floor(c1_max), in increasing order, each evaluated under both price
      regimes whatever regime the participant faces. */
  method BuildPayoffTable(y1: real, y2: real, p1: real, r: real, c1Max: real) returns (rows: seq<TableRow>)
    // the division in calc_c2 only happens when there is at least one row
    requires c1Max.Floor >= 1 ==> p1 != 0.0
    ensures |rows| == if c1Max.Floor < 1 then 0 else c1Max.Floor
    ensures forall i :: 0 <= i < |rows| ==> rows[i].c1 == i + 1 && RowAgrees(rows[i], y1, y2, p1, r)
  {
    rows := [];
    var k := 1;
    var last := c1Max.Floor;
    while k <= last
      invariant 1 <= k && (last < 1 ==> k == 1) && (last >= 1 ==> k <= last + 1)
      invariant |rows| == k - 1
      invariant forall i :: 0 <= i < |rows| ==> rows[i].c1 == i + 1 && RowAgrees(rows[i], y1, y2, p1, r)
    {
      var c := k as real;
      var c2Low := CalcC2(y1, y2, p1, PriceLow * p1, c, r);
      var uLow := if c2Low >= 1.0 then Some(c * c2Low) else None;
      var c2High := CalcC2(y1, y2, p1, PriceHigh * p1, c, r);
      var uHigh := if c2High >= 1.0 then Some(c * c2High) else None;
      var row := TableRow(k, uLow, c2Low < 1.0, uHigh, c2High < 1.0);
      assert RowAgrees(row, y1, y2, p1, r);
      rows := rows + [row];
      k := k + 1;
    }
  }

  /** The table the helper builds for its own rounds has no infeasible row,
      under either regime, and its last row is the binding one (c2 = 1 under
      the low price, so u = c1_max). */
  lemma HelperTableFeasible(rows: seq<TableRow>, y1: int)
    requires y1 in IncomeProfile
    requires |rows| == CalcC1Max(y1, 20 - y1)
    requires forall i :: 0 <= i < |rows| ==> rows[i].c1 == i + 1 && RowAgrees(rows[i], y1 as real, (20 - y1) as real, 1.0, 1.0)
    ensures forall i :: 0 <= i < |rows| ==> !rows[i].infeasible05 && !rows[i].infeasible15
    ensures |rows| > 0 && rows[|rows| - 1].u05 == Some(|rows| as real)
  {
    forall i | 0 <= i < |rows|
      ensures !rows[i].infeasible05 && !rows[i].infeasible15
    {
      HelperC1MaxBinding(y1, rows[i].c1 as real);
    }
    HelperC1MaxBinding(y1, |rows| as real);
  }

  // ---- Round ledger ---------------------------------------------------------

  /** record_main_round(player, app_label): append one entry labelled with the
      app to 'main_rounds', creating the list when absent; nothing else changes. */
  function RecordMainRound(v: Vars, snap: Snapshot, appLabel: string): (w: Vars)
    ensures w.mainRounds.Some?
    ensures |Ledger(w)| == |Ledger(v)| + 1
    ensures Ledger(w)[..|Ledger(v)|] == Ledger(v)
    ensures Ledger(w)[|Ledger(v)|] == Entry(appLabel, snap)
    ensures w == v.(mainRounds := w.mainRounds)
  {
    v.(mainRounds := Some(Ledger(v) + [Entry(appLabel, snap)]))
  }

  /** The player of an app whose rounds come from create_session (t0_baseline, t3). */
  datatype ExchangePlayer = ExchangePlayer(
    roundNumber: int, rp: ExchangeRound,
    c1: Option<real>, beliefInputRaw: Option<real>, hHat: Option<real>, c2: Option<real>, u: Option<real>)

  /** A player who has just been given the round's fields and has not answered yet. */
  function NewExchangePlayer(roundNumber: int, rp: ExchangeRound): (p: ExchangePlayer)
    ensures p.rp == rp && p.roundNumber == roundNumber
    ensures p.c1.None? && p.beliefInputRaw.None? && p.hHat.None? && p.c2.None? && p.u.None?
  {
    ExchangePlayer(roundNumber, rp, None, None, None, None, None)
  }

  /** The fields record_main_round reads from such a player. */
  function ExchangeSnapshot(p: ExchangePlayer): (s: Snapshot)
    ensures s.round == p.roundNumber && s.c1 == p.c1 && s.c2 == p.c2 && s.u == p.u
    ensures s.hTrue == Some(p.rp.hTrue) && s.hHat == p.hHat && s.beliefInputRaw == p.beliefInputRaw
    ensures s.y1 == Some(p.rp.y1 as real) && s.pi == Some(p.rp.pi) && s.redCount == Some(p.rp.redCount)
  {
    Snapshot(p.roundNumber, p.c1, p.c2, p.u, Some(p.rp.hTrue), p.hHat, p.beliefInputRaw,
             Some(p.rp.y1 as real), Some(p.rp.pi), Some(p.rp.redCount))
  }

  // ---- Binary belief lottery ------------------------------------------------

  /** The lottery's outcome: the points won and the winning threshold. */
  datatype Lottery = Lottery(points: real, threshold: real)

  /** 1 when the true share of red dots exceeds one half, else 0. */
  function BinaryState(hTrue: real): (b: real)
    ensures b == 1.0 || b == 0.0
    ensures b == 1.0 <==> hTrue > 0.5
  {
    if hTrue > 0.5 then 1.0 else 0.0
  }

  /** run_binary_lottery(chosen, prize) with U the uniform draw: a missing
      h_hat or h_true counts as 0; the winning threshold is
      max(0, 1 - |h_hat - b|) for the binarised state b; the prize is won
      exactly when U <= threshold. For a report h_hat in [0, 1] the threshold
      is the probability the report gives to the realised binary state. */
  function RunBinaryLottery(hHat: Option<real>, hTrue: Option<real>, prize: real, u: real): (l: Lottery)
    ensures 0.0 <= l.threshold <= 1.0
    ensures l.threshold == Max(0.0, 1.0 - Abs(hHat.GetOr(0.0) - BinaryState(hTrue.GetOr(0.0))))
    ensures 0.0 <= hHat.GetOr(0.0) <= 1.0 ==>
      l.threshold == (if hTrue.GetOr(0.0) > 0.5 then hHat.GetOr(0.0) else 1.0 - hHat.GetOr(0.0))
    ensures l.points == (if u <= l.threshold then prize else 0.0)
  {
    var h := hHat.GetOr(0.0);
    var b := BinaryState(hTrue.GetOr(0.0));
    var threshold := Max(0.0, 1.0 - Abs(h - b));
    if u <= threshold then Lottery(prize, threshold) else Lottery(0.0, threshold)
  }

  /** The winning probability the payoff app's doc string describes, the
      quadratic rule 1 - (h_hat - h_true)^2: never above certainty, and
      certain for the truthful report. */
  function DescribedWinProbability(hHat: real, hTrue: real): (p: real)
    ensures p <= 1.0
    ensures hHat == hTrue ==> p == 1.0
  {
    var miss := hHat - hTrue;
    1.0 - miss * miss
  }

  /** The lottery is not the described rule: whenever the true share lies
      strictly between 0 and 1, a report equal to it wins for sure under the
      described rule but not under the implemented one, which gives it
      max(h_true, 1 - h_true). At a share of 0.3 the report wins with
      probability 0.7, and U = 0.8 loses. */
  lemma LotteryIsNotTheDescribedRule(hTrue: real, prize: real, u: real)
    requires 0.0 < hTrue < 1.0
    ensures DescribedWinProbability(hTrue, hTrue) == 1.0
    ensures RunBinaryLottery(Some(hTrue), Some(hTrue), prize, u).threshold == Max(hTrue, 1.0 - hTrue) < 1.0
    ensures RunBinaryLottery(Some(0.3), Some(0.3), 100.0, 0.8) == Lottery(0.0, 0.7)
  {
  }
}
