/**
 * Finite sums of real sequences, and the few algebraic laws of summation
 * that the projections and the reconstruction steps rely on.
 */
module Sums {

  /** Sum of the elements of `v`, accumulated from the front. */
  function Sum(v: seq<real>): real
  {
    if |v| == 0 then 0.0 else Sum(v[..|v| - 1]) + v[|v| - 1]
  }

  /** Element-wise sum of two sequences of the same length. */
  function Add(u: seq<real>, v: seq<real>): seq<real>
    requires |u| == |v|
  {
    seq(|u|, k requires 0 <= k < |u| => u[k] + v[k])
  }

  /** The sequence of `n` copies of `c`. */
  function Const(n: nat, c: real): seq<real>
  {
    seq(n, _ => c)
  }

  /** `v` with `d` added to every element. */
  function Shift(v: seq<real>, d: real): seq<real>
  {
    seq(|v|, k requires 0 <= k < |v| => v[k] + d)
  }

  /** `v` with every element multiplied by `c`. */
  function Scale(v: seq<real>, c: real): seq<real>
  {
    seq(|v|, k requires 0 <= k < |v| => c * v[k])
  }

  /** The equal share of `total` that each of `n` cells receives. */
  function Mean(total: real, n: nat): real
    requires n > 0
  {
    total / n as real
  }

  /** Every element of `v` replaced by its share over `n` cells. */
  function Shares(v: seq<real>, n: nat): seq<real>
    requires n > 0
  {
    seq(|v|, k requires 0 <= k < |v| => Mean(v[k], n))
  }

  lemma {:induction false} SumConcat(a: seq<real>, b: seq<real>)
    ensures Sum(a + b) == Sum(a) + Sum(b)
  {
    if |b| == 0 {
      assert a + b == a;
    } else {
      var b' := b[..|b| - 1];
      assert (a + b)[..|a + b| - 1] == a + b';
      SumConcat(a, b');
    }
  }

  lemma {:induction false} SumAdd(u: seq<real>, v: seq<real>)
    requires |u| == |v|
    ensures Sum(Add(u, v)) == Sum(u) + Sum(v)
  {
    var n := |u|;
    if n > 0 {
      assert Add(u, v)[..n - 1] == Add(u[..n - 1], v[..n - 1]);
      SumAdd(u[..n - 1], v[..n - 1]);
    }
  }

  lemma {:induction false} SumConst(n: nat, c: real)
    ensures Sum(Const(n, c)) == n as real * c
  {
    if n > 0 {
      assert Const(n, c)[..n - 1] == Const(n - 1, c);
      SumConst(n - 1, c);
    }
  }

  lemma {:induction false} SumShift(v: seq<real>, d: real, n: nat)
    requires n == |v|
    ensures Sum(Shift(v, d)) == Sum(v) + n as real * d
  {
    if n > 0 {
      assert Shift(v, d)[..n - 1] == Shift(v[..n - 1], d);
      SumShift(v[..n - 1], d, n - 1);
    }
  }

  lemma {:induction false} SumScale(v: seq<real>, c: real)
    ensures Sum(Scale(v, c)) == c * Sum(v)
  {
    var n := |v|;
    if n > 0 {
      forall k | 0 <= k < n - 1
        ensures Scale(v, c)[k] == Scale(v[..n - 1], c)[k]
      {
        assert Scale(v, c)[k] == c * v[k];
      }
      assert Scale(v, c)[..n - 1] == Scale(v[..n - 1], c);
      SumScale(v[..n - 1], c);
    }
  }

  lemma {:induction false} SumShares(v: seq<real>, n: nat)
    requires n > 0
    ensures Sum(Shares(v, n)) == Mean(Sum(v), n)
  {
    var k := |v|;
    if k > 0 {
      assert Shares(v, n)[..k - 1] == Shares(v[..k - 1], n);
      SumShares(v[..k - 1], n);
      MeanDistributes(Sum(v[..k - 1]), v[k - 1], n);
    }
  }

  lemma {:induction false} MeanDistributes(x: real, y: real, n: nat)
    requires n > 0
    ensures Mean(x, n) + Mean(y, n) == Mean(x + y, n)
  {
  }

  /** `n` shares make up the whole. */
  lemma {:induction false} MeanTimes(n: nat, total: real)
    requires n > 0
    ensures n as real * Mean(total, n) == total
  {
  }

  /** Total of `v`'s `n`-th shares, each scaled by `c` and raised by `d`. */
  lemma {:induction false} SumScaledShares(v: seq<real>, n: nat, c: real, d: real)
    requires n > 0
    ensures Sum(Shift(Scale(Shares(v, n), c), d)) == c * Mean(Sum(v), n) + |v| as real * d
  {
    SumShift(Scale(Shares(v, n), c), d, |v|);
    SumScale(Shares(v, n), c);
    SumShares(v, n);
  }
}
