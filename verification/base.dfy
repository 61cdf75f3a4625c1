/** Small shared vocabulary: optional values, results, duplicate-freedom,
    element-wise mapping, Python's itertools.product, and the decimal
    rendering of integers that f-strings and str() perform. */
module Base {

  /** A value that may be absent: Python's None. */
  datatype Option<+T> = None | Some(value: T) {
    /** The value, or `default` when absent (Python's `x or default` / `dict.get(k, default)`). */
    function GetOr(default: T): T {
      match this
      case Some(v) => v
      case None => default
    }
  }

  /** Either a computed value or the error the source raises or returns. */
  datatype Result<+T, +E> = Success(value: T) | Failure(error: E)

  /** No element occurs twice. */
  predicate Distinct<T(==)>(s: seq<T>) {
    forall i, j :: 0 <= i < j < |s| ==> s[i] != s[j]
  }

  function Abs(x: real): (r: real)
    ensures r >= 0.0 && (r == x || r == -x)
  {
    if x < 0.0 then -x else x
  }

  function Max(a: real, b: real): (r: real)
    ensures r >= a && r >= b && (r == a || r == b)
  {
    if a < b then b else a
  }

  /** Apply `f` to every element. */
  function Map<T, U>(f: T -> U, s: seq<T>): (r: seq<U>)
    ensures |r| == |s|
    ensures forall i :: 0 <= i < |s| ==> r[i] == f(s[i])
  {
    seq(|s|, i requires 0 <= i < |s| => f(s[i]))
  }

  /** Python's zip: pairs up positions, truncated to the shorter list. */
  function Zip<A, B>(a: seq<A>, b: seq<B>): (r: seq<(A, B)>)
    ensures |r| == if |a| < |b| then |a| else |b|
    ensures forall i :: 0 <= i < |r| ==> r[i] == (a[i], b[i])
  {
    seq(if |a| < |b| then |a| else |b|, i requires 0 <= i < |a| && i < |b| => (a[i], b[i]))
  }

  /** zip(*z): the list of first components and the list of second components. */
  function Unzip<A, B>(z: seq<(A, B)>): (r: (seq<A>, seq<B>))
    ensures |r.0| == |r.1| == |z|
    ensures forall i :: 0 <= i < |z| ==> r.0[i] == z[i].0 && r.1[i] == z[i].1
  {
    (seq(|z|, i requires 0 <= i < |z| => z[i].0), seq(|z|, i requires 0 <= i < |z| => z[i].1))
  }

  /** itertools.product(a, b): all pairs, the first component varying slowest. */
  function Product<A, B>(a: seq<A>, b: seq<B>): (r: seq<(A, B)>)
    ensures |r| == |a| * |b|
    decreases |a|
  {
    if a == [] then []
    else
      var x := a[0];
      var rest := Product(a[1..], b);
      assert |rest| == (|a| - 1) * |b|;
      Map((y: B) => (x, y), b) + rest
  }

  /** A pair is in the product exactly when each component is in its list. */
  lemma {:induction false} ProductMember<A, B>(a: seq<A>, b: seq<B>, p: (A, B))
    ensures p in Product(a, b) <==> p.0 in a && p.1 in b
    decreases |a|
  {
    if a != [] {
      ProductMember(a[1..], b, p);
      var x := a[0];
      var head := Map((y: B) => (x, y), b);
      assert Product(a, b) == head + Product(a[1..], b);
      if p.0 == x && p.1 in b {
        var j :| 0 <= j < |b| && b[j] == p.1;
        assert head[j] == p;
      }
      assert a == [x] + a[1..];
    }
  }

  /** The pair (a[i], b[j]) sits at position i * |b| + j. */
  lemma {:induction false} ProductAt<A, B>(a: seq<A>, b: seq<B>, i: nat, j: nat)
    requires i < |a| && j < |b|
    ensures i * |b| + j < |a| * |b|
    ensures Product(a, b)[i * |b| + j] == (a[i], b[j])
    decreases i
  {
    var x := a[0];
    var head := Map((y: B) => (x, y), b);
    var rest := Product(a[1..], b);
    assert Product(a, b) == head + rest;
    if i == 0 {
      assert (|a| - 1) * |b| >= 0;
    } else {
      ProductAt(a[1..], b, i - 1, j);
      assert (i - 1) * |b| + j < (|a| - 1) * |b|;
      assert i * |b| + j == |b| + ((i - 1) * |b| + j);
      assert rest[(i - 1) * |b| + j] == (a[1..][i - 1], b[j]);
    }
  }

  /** Concatenating two duplicate-free lists with no common element keeps it so. */
  lemma DistinctConcat<T>(s: seq<T>, t: seq<T>)
    requires Distinct(s) && Distinct(t)
    requires forall x :: x in s ==> x !in t
    ensures Distinct(s + t)
  {
    var u := s + t;
    forall i, j | 0 <= i < j < |u|
      ensures u[i] != u[j]
    {
      if i < |s| && j >= |s| {
        assert u[i] in s;
        assert u[j] == t[j - |s|];
      }
    }
  }

  /** The product of two duplicate-free lists is duplicate-free. */
  lemma {:induction false} ProductDistinct<A, B>(a: seq<A>, b: seq<B>)
    requires Distinct(a) && Distinct(b)
    ensures Distinct(Product(a, b))
    decreases |a|
  {
    if a != [] {
      var x := a[0];
      var head := Map((y: B) => (x, y), b);
      var rest := Product(a[1..], b);
      assert Distinct(a[1..]) by {
        forall i, j | 0 <= i < j < |a[1..]| ensures a[1..][i] != a[1..][j] {
          assert a[1..][i] == a[i + 1] && a[1..][j] == a[j + 1];
        }
      }
      ProductDistinct(a[1..], b);
      forall p | p in head
        ensures p !in rest
      {
        ProductMember(a[1..], b, p);
      }
      DistinctConcat(head, rest);
      assert Product(a, b) == head + rest;
    }
  }

  /** A strictly increasing list is duplicate-free. */
  lemma IncreasingDistinct(s: seq<int>)
    requires forall i :: 0 <= i < |s| - 1 ==> s[i] < s[i + 1]
    ensures Distinct(s)
  {
    forall i, j | 0 <= i < j < |s|
      ensures s[i] < s[j]
    {
      var k := i;
      while k < j
        invariant i <= k <= j && s[i] <= s[k]
        invariant k > i ==> s[i] < s[k]
      {
        k := k + 1;
      }
    }
  }

  /** Swap the two components of every pair. */
  function Swapped<A, B>(s: seq<(A, B)>): (r: seq<(B, A)>)
    ensures |r| == |s|
    ensures forall i :: 0 <= i < |s| ==> r[i] == (s[i].1, s[i].0)
    ensures Distinct(s) ==> Distinct(r)
  {
    Map((p: (A, B)) => (p.1, p.0), s)
  }

  /** The decimal digit character for 0..9. */
  function DigitChar(d: int): (c: char)
    requires 0 <= d < 10
    ensures '0' <= c <= '9' && c as int - '0' as int == d
  {
    ('0' as int + d) as char
  }

  /** Decimal digits of a natural number, most significant first. */
  function NatStr(n: nat): (s: string)
    ensures |s| >= 1
    ensures forall i :: 0 <= i < |s| ==> '0' <= s[i] <= '9'
    decreases n
  {
    if n < 10 then [DigitChar(n)] else NatStr(n / 10) + [DigitChar(n % 10)]
  }

  /** Python's str() / f-string rendering of an int. */
  function IntStr(n: int): (s: string)
    ensures |s| >= 1
  {
    if n < 0 then "-" + NatStr(-n) else NatStr(n)
  }
}
