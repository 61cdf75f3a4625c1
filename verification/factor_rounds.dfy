/** The round schedule of the treatments that build their own (t1 and t4):
    the pairs (red count, income factor x) for x in {0.5, 1.5}, and an image
    list shuffled INDEPENDENTLY of them, so an image need not show its
    round's red count. Both apps derive h_true = r/400, pi = 1.5 above 200
    red dots else 0.5, and p2 = pi * P1. */
module FactorRounds {
  import opened Base
  import opened Shuffling
  import opened Participant
  import opened Helpers

  /** The income factors x every red count is paired with. */
  const Factors: seq<real> := [0.5, 1.5]
  /** The high price multiplier in these apps (the shared helper uses 2). */
  const FactorPiHigh: real := 1.5

  /** itertools.product(RED_COUNTS, [0.5, 1.5]). */
  function FactorPairs(reds: seq<int>): (pairs: seq<(int, real)>)
    ensures |pairs| == 2 * |reds|
  {
    Product(reds, Factors)
  }

  /** synthesize_filenames(RED_COUNTS, IMAGE_FILES) with IMAGE_FILES = None. */
  function FactorImages(reds: seq<int>): (names: seq<string>)
    ensures |names| == 2 * |reds|
  {
    SynthesizeFilenames(reds, None)
  }

  /** For distinct red counts the pairs are each combination of a red count
      with a factor, exactly once. */
  lemma FactorPairsAreCombinations(reds: seq<int>)
    requires Distinct(reds)
    ensures Distinct(FactorPairs(reds))
    ensures forall p :: p in FactorPairs(reds) <==> p.0 in reds && p.1 in Factors
  {
    ProductDistinct(reds, Factors);
    forall p: (int, real) ensures p in FactorPairs(reds) <==> p.0 in reds && p.1 in Factors {
      ProductMember(reds, Factors, p);
    }
  }

  /** The price multiplier of these apps: 1.5 above 200 red dots, else 0.5. */
  function FactorPi(r: int): (pi: real)
    ensures r > RegimeThreshold ==> pi == FactorPiHigh
    ensures r <= RegimeThreshold ==> pi == PriceLow
  {
    if r > 200 then 1.5 else 0.5
  }

  /** What round 1 leaves in the store: a permutation of the pairs and a
      permutation of the image names, each keyed by the treatment. */
  ghost predicate FactorBuilt(v: Vars, treatment: string, reds: seq<int>) {
    var key := treatment + "_schedule";
    var ikey := treatment + "_images";
    && key in v.factorSchedules && ikey in v.images
    && multiset(v.factorSchedules[key]) == multiset(FactorPairs(reds))
    && multiset(v.images[ikey]) == multiset(FactorImages(reds))
  }

  /** Round 1: schedule[:] shuffled with one set of draws, images[:] with
      another, stored under "<treatment>_schedule" and "<treatment>_images";
      nothing else in the store changes. */
  function BuildFactor(v: Vars, treatment: string, reds: seq<int>, scheduleDraws: seq<nat>, imageDraws: seq<nat>): (w: Vars)
    requires ValidDraws(scheduleDraws, 2 * |reds|) && ValidDraws(imageDraws, 2 * |reds|)
    ensures w == v.(factorSchedules := w.factorSchedules, images := w.images)
    ensures treatment + "_schedule" in w.factorSchedules && treatment + "_images" in w.images
    ensures w.factorSchedules[treatment + "_schedule"] == Shuffle(FactorPairs(reds), scheduleDraws)
    ensures w.images[treatment + "_images"] == Shuffle(FactorImages(reds), imageDraws)
    ensures |w.factorSchedules[treatment + "_schedule"]| == |w.images[treatment + "_images"]| == 2 * |reds|
    ensures forall k :: k in w.factorSchedules && k != treatment + "_schedule" ==> k in v.factorSchedules && w.factorSchedules[k] == v.factorSchedules[k]
    ensures forall k :: k in w.images && k != treatment + "_images" ==> k in v.images && w.images[k] == v.images[k]
    ensures FactorBuilt(w, treatment, reds)
  {
    v.(factorSchedules := v.factorSchedules[treatment + "_schedule" := Shuffle(FactorPairs(reds), scheduleDraws)],
       images := v.images[treatment + "_images" := Shuffle(FactorImages(reds), imageDraws)])
  }

  /** For distinct red counts, the stored schedule holds each (r, x)
      combination exactly once. */
  lemma BuiltScheduleIsPermutation(v: Vars, treatment: string, reds: seq<int>, scheduleDraws: seq<nat>, imageDraws: seq<nat>)
    requires Distinct(reds)
    requires ValidDraws(scheduleDraws, 2 * |reds|) && ValidDraws(imageDraws, 2 * |reds|)
    ensures var sched := BuildFactor(v, treatment, reds, scheduleDraws, imageDraws).factorSchedules[treatment + "_schedule"];
      && Distinct(sched)
      && forall p :: p in sched <==> p.0 in reds && p.1 in Factors
  {
    var pairs := FactorPairs(reds);
    FactorPairsAreCombinations(reds);
    ShuffleDistinct(pairs, scheduleDraws);
    forall p ensures p in Shuffle(pairs, scheduleDraws) <==> p in pairs {
      ShuffleMembers(pairs, scheduleDraws, p);
    }
  }

  /** The round fields t1 and t4 store on the player. */
  datatype FactorRound = FactorRound(incomeFactor: real, r: int, hTrue: real, pi: real, p2: real, imageFile: string)

  /** income_factor = x, r = int(r), h_true = r/400, pi, p2 = pi * P1 and the round's image. */
  function DeriveFactor(pair: (int, real), image: string, p1: real): (fr: FactorRound)
    ensures fr.incomeFactor == pair.1 && fr.r == pair.0 && fr.imageFile == image
    ensures fr.hTrue * DotTotal == pair.0 as real
    ensures fr.pi == FactorPi(pair.0) && fr.p2 == fr.pi * p1
  {
    var (r, x) := pair;
    var pi := if r > 200 then 1.5 else 0.5;
    FactorRound(x, r, r as real / 400.0, pi, pi * p1, image)
  }

  /** Reading round n: KeyError when a key was never written, IndexError past the end. */
  function ReadFactor(v: Vars, treatment: string, roundNumber: int, p1: real): (res: Result<FactorRound, SessionError>)
    requires roundNumber >= 1
    ensures var key := treatment + "_schedule"; var ikey := treatment + "_images";
      res.Success? <==>
        && key in v.factorSchedules && roundNumber - 1 < |v.factorSchedules[key]|
        && ikey in v.images && roundNumber - 1 < |v.images[ikey]|
    ensures res.Success? ==> res.value == DeriveFactor(
      v.factorSchedules[treatment + "_schedule"][roundNumber - 1], v.images[treatment + "_images"][roundNumber - 1], p1)
    // the schedule is read before the images: its error, if any, is the one raised
    ensures var key := treatment + "_schedule"; var ikey := treatment + "_images";
      && (key !in v.factorSchedules ==> res == Failure(MissingKey(key)))
      && (key in v.factorSchedules && roundNumber - 1 >= |v.factorSchedules[key]| ==> res == Failure(IndexOutOfRange(key, roundNumber - 1)))
      && (key in v.factorSchedules && roundNumber - 1 < |v.factorSchedules[key]| && ikey !in v.images ==> res == Failure(MissingKey(ikey)))
      && (key in v.factorSchedules && roundNumber - 1 < |v.factorSchedules[key]| && ikey in v.images && roundNumber - 1 >= |v.images[ikey]| ==>
            res == Failure(IndexOutOfRange(ikey, roundNumber - 1)))
  {
    var key := treatment + "_schedule";
    var ikey := treatment + "_images";
    if key !in v.factorSchedules then Failure(MissingKey(key))
    else if roundNumber - 1 >= |v.factorSchedules[key]| then Failure(IndexOutOfRange(key, roundNumber - 1))
    else if ikey !in v.images then Failure(MissingKey(ikey))
    else if roundNumber - 1 >= |v.images[ikey]| then Failure(IndexOutOfRange(ikey, roundNumber - 1))
    else Success(DeriveFactor(v.factorSchedules[key][roundNumber - 1], v.images[ikey][roundNumber - 1], p1))
  }

  /** The fields of a round drawn from a built schedule. */
  ghost predicate ValidFactorRound(fr: FactorRound, reds: seq<int>, p1: real) {
    && fr.r in reds && fr.incomeFactor in Factors
    && fr.hTrue * DotTotal == fr.r as real
    && fr.pi == FactorPi(fr.r) && fr.p2 == fr.pi * p1
    && fr.imageFile in FactorImages(reds)
  }

  /** A built schedule serves every round up to its 2 * |reds| entries, and
      each round's fields come from one of the pairs, with one of the names. */
  lemma BuiltFactorServesRound(v: Vars, treatment: string, reds: seq<int>, roundNumber: int, p1: real)
    requires 1 <= roundNumber <= 2 * |reds|
    requires FactorBuilt(v, treatment, reds)
    ensures ReadFactor(v, treatment, roundNumber, p1).Success?
    ensures ValidFactorRound(ReadFactor(v, treatment, roundNumber, p1).value, reds, p1)
  {
    var key := treatment + "_schedule";
    var ikey := treatment + "_images";
    var sched := v.factorSchedules[key];
    var imgs := v.images[ikey];
    assert |sched| == 2 * |reds| by {
      assert |multiset(sched)| == |multiset(FactorPairs(reds))|;
    }
    assert |imgs| == 2 * |reds| by {
      assert |multiset(imgs)| == |multiset(FactorImages(reds))|;
    }
    var pair := sched[roundNumber - 1];
    var image := imgs[roundNumber - 1];
    assert pair in FactorPairs(reds) by {
      assert pair in multiset(sched);
    }
    assert image in FactorImages(reds) by {
      assert image in multiset(imgs);
    }
    assert ReadFactor(v, treatment, roundNumber, p1).value == DeriveFactor(pair, image, p1);
    DerivedFactorValid(pair, image, reds, p1);
  }

  lemma DerivedFactorValid(pair: (int, real), image: string, reds: seq<int>, p1: real)
    requires pair in FactorPairs(reds) && image in FactorImages(reds)
    ensures ValidFactorRound(DeriveFactor(pair, image, p1), reds, p1)
  {
    ProductMember(reds, Factors, pair);
  }

  /** The draws that swap nothing leave both lists in their original order,
      so round n plays the n-th pair with the n-th name. */
  lemma IdentityBuildReadsInOrder(v: Vars, treatment: string, reds: seq<int>, roundNumber: int, p1: real)
    requires 1 <= roundNumber <= 2 * |reds|
    ensures var w := BuildFactor(v, treatment, reds, IdentityDraws(2 * |reds|), IdentityDraws(2 * |reds|));
      ReadFactor(w, treatment, roundNumber, p1)
        == Success(DeriveFactor(FactorPairs(reds)[roundNumber - 1], FactorImages(reds)[roundNumber - 1], p1))
  {
    ShuffleIdentity(FactorPairs(reds));
    ShuffleIdentity(FactorImages(reds));
  }
}
