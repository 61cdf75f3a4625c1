/** Python's random.shuffle with its randomness made explicit.

    CPython shuffles in place by the Fisher–Yates method: for i from n - 1
    down to 1 it draws j uniformly from 0..i and swaps positions i and j.
    Here the draws are an input: `draws[i]` is the j drawn for position i
    (`draws[0]` is never used). Every permutation arises from some draws; the
    distribution of the draws is not modelled. */
module Shuffling {
  import opened Base

  /** `draws` is a possible outcome of the draws random.shuffle makes on a list of length n. */
  predicate ValidDraws(draws: seq<nat>, n: nat) {
    |draws| == n && forall i :: 0 <= i < n ==> draws[i] <= i
  }

  /** Exchange positions i and j. */
  function Swap<T>(s: seq<T>, i: nat, j: nat): (r: seq<T>)
    requires i < |s| && j < |s|
    ensures |r| == |s| && r[i] == s[j] && r[j] == s[i]
    ensures forall k :: 0 <= k < |s| && k != i && k != j ==> r[k] == s[k]
    ensures multiset(r) == multiset(s)
  {
    s[i := s[j]][j := s[i]]
  }

  /** The swaps for positions i - 1 down to 1. */
  function Pass<T>(s: seq<T>, draws: seq<nat>, i: nat): (r: seq<T>)
    requires ValidDraws(draws, |s|) && i <= |s|
    ensures |r| == |s| && multiset(r) == multiset(s)
    decreases i
  {
    if i <= 1 then s else Pass(Swap(s, i - 1, draws[i - 1]), draws, i - 1)
  }

  /** random.shuffle(s) under the given draws. */
  function Shuffle<T>(s: seq<T>, draws: seq<nat>): (r: seq<T>)
    requires ValidDraws(draws, |s|)
    ensures |r| == |s| && multiset(r) == multiset(s)
  {
    Pass(s, draws, |s|)
  }

  /** Shuffling keeps exactly the elements that were there. */
  lemma ShuffleMembers<T>(s: seq<T>, draws: seq<nat>, x: T)
    requires ValidDraws(draws, |s|)
    ensures x in Shuffle(s, draws) <==> x in s
  {
    assert x in Shuffle(s, draws) <==> x in multiset(Shuffle(s, draws));
    assert x in s <==> x in multiset(s);
  }

  lemma MapSwap<T, U>(f: T -> U, s: seq<T>, i: nat, j: nat)
    requires i < |s| && j < |s|
    ensures Map(f, Swap(s, i, j)) == Swap(Map(f, s), i, j)
  {
  }

  lemma {:induction false} MapPass<T, U>(f: T -> U, s: seq<T>, draws: seq<nat>, i: nat)
    requires ValidDraws(draws, |s|) && i <= |s|
    ensures Map(f, Pass(s, draws, i)) == Pass(Map(f, s), draws, i)
    decreases i
  {
    if i > 1 {
      MapSwap(f, s, i - 1, draws[i - 1]);
      MapPass(f, Swap(s, i - 1, draws[i - 1]), draws, i - 1);
    }
  }

  /** Shuffling commutes with mapping: the draws move positions, not values.
      In particular shuffling a zipped list as one unit moves both halves by
      the same permutation. */
  lemma ShuffleMap<T, U>(f: T -> U, s: seq<T>, draws: seq<nat>)
    requires ValidDraws(draws, |s|)
    ensures Map(f, Shuffle(s, draws)) == Shuffle(Map(f, s), draws)
  {
    MapPass(f, s, draws, |s|);
  }

  lemma {:induction false} CountAtMostOne<T>(t: seq<T>, x: T)
    requires Distinct(t)
    ensures multiset(t)[x] <= 1
    decreases |t|
  {
    if t != [] {
      var init := t[..|t| - 1];
      assert t == init + [t[|t| - 1]];
      assert Distinct(init) by {
        forall i, j | 0 <= i < j < |init| ensures init[i] != init[j] {
          assert init[i] == t[i] && init[j] == t[j];
        }
      }
      CountAtMostOne(init, x);
      if x == t[|t| - 1] {
        assert x !in init by {
          forall k | 0 <= k < |init| ensures init[k] != x {
            assert init[k] == t[k];
          }
        }
      }
    }
  }

  lemma CountAtLeastTwo<T>(s: seq<T>, i: nat, j: nat)
    requires i < j < |s| && s[i] == s[j]
    ensures multiset(s)[s[i]] >= 2
  {
    assert s == s[..j] + s[j..];
    assert s[..j][i] == s[i];
    assert s[j..][0] == s[j];
    assert multiset(s[..j])[s[i]] >= 1;
    assert multiset(s[j..])[s[i]] >= 1;
  }

  /** A list with the same elements, counted with multiplicity, as a
      duplicate-free list is duplicate-free. */
  lemma DistinctByMultiset<T>(s: seq<T>, t: seq<T>)
    requires multiset(s) == multiset(t) && Distinct(t)
    ensures Distinct(s)
  {
    forall i, j | 0 <= i < j < |s|
      ensures s[i] != s[j]
    {
      if s[i] == s[j] {
        CountAtLeastTwo(s, i, j);
        CountAtMostOne(t, s[i]);
      }
    }
  }

  /** A shuffled duplicate-free list is duplicate-free. */
  lemma ShuffleDistinct<T>(s: seq<T>, draws: seq<nat>)
    requires ValidDraws(draws, |s|) && Distinct(s)
    ensures Distinct(Shuffle(s, draws))
  {
    DistinctByMultiset(Shuffle(s, draws), s);
  }

  /** The draws j = i swap nothing: the list is left in its order. */
  function IdentityDraws(n: nat): (d: seq<nat>)
    ensures ValidDraws(d, n)
  {
    seq(n, i => i)
  }

  lemma {:induction false} PassIdentity<T>(s: seq<T>, i: nat)
    requires i <= |s|
    ensures Pass(s, IdentityDraws(|s|), i) == s
    decreases i
  {
    if i > 1 {
      assert Swap(s, i - 1, i - 1) == s;
      PassIdentity(s, i - 1);
    }
  }

  lemma ShuffleIdentity<T>(s: seq<T>)
    ensures Shuffle(s, IdentityDraws(|s|)) == s
  {
    PassIdentity(s, |s|);
  }

  /** Shuffling a zipped list as one unit is shuffling both halves with the
      same draws; each position then holds a pair that stood together before. */
  lemma ZipShuffle<A, B>(a: seq<A>, b: seq<B>, draws: seq<nat>)
    requires |a| == |b| && ValidDraws(draws, |a|)
    ensures Unzip(Shuffle(Zip(a, b), draws)) == (Shuffle(a, draws), Shuffle(b, draws))
    ensures forall i :: 0 <= i < |a| ==>
      exists j :: 0 <= j < |a| && a[j] == Shuffle(a, draws)[i] && b[j] == Shuffle(b, draws)[i]
  {
    var z := Zip(a, b);
    var first := (p: (A, B)) => p.0;
    var second := (p: (A, B)) => p.1;
    ShuffleMap(first, z, draws);
    ShuffleMap(second, z, draws);
    assert Map(first, z) == a;
    assert Map(second, z) == b;
    assert Unzip(Shuffle(z, draws)).0 == Map(first, Shuffle(z, draws));
    assert Unzip(Shuffle(z, draws)).1 == Map(second, Shuffle(z, draws));
    forall i | 0 <= i < |a|
      ensures exists j :: 0 <= j < |a| && a[j] == Shuffle(a, draws)[i] && b[j] == Shuffle(b, draws)[i]
    {
      var x := Shuffle(z, draws)[i];
      ShuffleMembers(z, draws, x);
      var j :| 0 <= j < |z| && z[j] == x;
      assert Map(first, Shuffle(z, draws))[i] == x.0;
      assert Map(second, Shuffle(z, draws))[i] == x.1;
    }
  }

  /** A relation that holds position by position between two lists still
      holds after shuffling both with the same draws. */
  lemma ShuffleKeepsRelation<A, B>(a: seq<A>, b: seq<B>, draws: seq<nat>, rel: (A, B) -> bool)
    requires |a| == |b| && ValidDraws(draws, |a|)
    requires forall i :: 0 <= i < |a| ==> rel(a[i], b[i])
    ensures forall i :: 0 <= i < |a| ==> rel(Shuffle(a, draws)[i], Shuffle(b, draws)[i])
  {
    ZipShuffle(a, b, draws);
    forall i | 0 <= i < |a|
      ensures rel(Shuffle(a, draws)[i], Shuffle(b, draws)[i])
    {
      var j :| 0 <= j < |a| && a[j] == Shuffle(a, draws)[i] && b[j] == Shuffle(b, draws)[i];
    }
  }
}
