/** Rounded-down products and quotients, and how sums of them compare. */
module FloorMath {

  /** `a * b / c`, rounded down. */
  function MulDiv(a: nat, b: nat, c: nat): nat
    requires c > 0
  {
    a * b / c
  }

  lemma MulDivIs(a: nat, b: nat, c: nat)
    requires c > 0
    ensures MulDiv(a, b, c) * c <= a * b < MulDiv(a, b, c) * c + c
  {
  }

  lemma FloorAtMost(q: nat, n: nat, c: nat)
    requires c > 0 && q * c <= n
    ensures q <= n / c
  {
    if q > n / c {
      Scale(n / c + 1, q, c);
    }
  }

  lemma Scale(x: int, y: int, c: nat)
    requires x <= y
    ensures x * c <= y * c
  {
  }

  lemma Cancel(x: int, y: int, c: nat)
    requires c > 0 && x * c <= y * c
    ensures x <= y
  {
    if x > y {
      Scale(y + 1, x, c);
    }
  }

  lemma Commute(x: int, y: int)
    ensures x * y == y * x
  {
  }

  lemma MulDivZero(b: nat, c: nat)
    requires c > 0
    ensures MulDiv(0, b, c) == 0
  {
    hide MulDiv;
    MulDivIs(0, b, c);
    ZeroTimes(b);
    ZeroTimes(c);
    Cancel(MulDiv(0, b, c), 0, c);
  }

  lemma ZeroTimes(b: int)
    ensures 0 * b == 0
  {
  }

  lemma MulDivMonotone(a: nat, a': nat, b: nat, c: nat)
    requires c > 0 && a <= a'
    ensures MulDiv(a, b, c) <= MulDiv(a', b, c)
  {
    Scale(a, a', b);
    MulDivIs(a, b, c);
    FloorAtMost(MulDiv(a, b, c), a' * b, c);
  }

  /** A quotient grows when the fraction does: `a / c <= a' / c'` by cross-multiplication. */
  lemma MulDivCross(a: nat, c: nat, a': nat, c': nat, m: nat)
    requires c > 0 && c' > 0 && a * c' <= a' * c
    ensures MulDiv(a, m, c) <= MulDiv(a', m, c')
  {
    var q := MulDiv(a, m, c);
    MulDivIs(a, m, c);
    Scale(q * c, a * m, c');
    Scale(a * c', a' * c, m);
    Regroup(a, m, c');
    Regroup(a', c, m);
    Regroup(q, c, c');
    assert (q * c') * c <= (a' * m) * c;
    Cancel(q * c', a' * m, c);
    FloorAtMost(q, a' * m, c');
  }

  lemma Regroup(x: int, y: int, z: int)
    ensures (x * y) * z == (x * z) * y == x * (y * z)
  {
  }

  function SumOf(xs: seq<nat>): nat {
    if xs == [] then 0 else SumOf(xs[..|xs| - 1]) + xs[|xs| - 1]
  }

  /** The sum of the rounded-down parts. */
  function SumMulDiv(xs: seq<nat>, b: nat, c: nat): nat
    requires c > 0
  {
    if xs == [] then 0 else SumMulDiv(xs[..|xs| - 1], b, c) + MulDiv(xs[|xs| - 1], b, c)
  }

  lemma SumMulDivOfOne(x: nat, b: nat, c: nat)
    requires c > 0
    ensures SumMulDiv([x], b, c) == MulDiv(x, b, c)
  {
    hide MulDiv;
    var xs := [x];
    assert xs[..|xs| - 1] == [];
  }

  /** Rounding each part down never gives more than the whole. */
  lemma {:induction false} PartsWithinWhole(xs: seq<nat>, b: nat, c: nat)
    requires c > 0
    ensures SumMulDiv(xs, b, c) * c <= SumOf(xs) * b
  {
    if xs != [] {
      var init, last := xs[..|xs| - 1], xs[|xs| - 1];
      PartsWithinWhole(init, b, c);
      MulDivIs(last, b, c);
      Distribute(SumMulDiv(init, b, c), MulDiv(last, b, c), c);
      Distribute(SumOf(init), last, b);
    }
  }

  lemma Distribute(x: int, y: int, c: int)
    ensures (x + y) * c == x * c + y * c
  {
  }

  lemma {:induction false} SumAppends(xs: seq<nat>, ys: seq<nat>)
    ensures SumOf(xs + ys) == SumOf(xs) + SumOf(ys)
  {
    if ys == [] {
      assert xs + ys == xs;
    } else {
      SumAppends(xs, ys[..|ys| - 1]);
      assert (xs + ys)[..|xs + ys| - 1] == xs + ys[..|ys| - 1];
    }
  }

  lemma {:induction false} SumMulDivAppends(xs: seq<nat>, ys: seq<nat>, b: nat, c: nat)
    requires c > 0
    ensures SumMulDiv(xs + ys, b, c) == SumMulDiv(xs, b, c) + SumMulDiv(ys, b, c)
  {
    if ys == [] {
      assert xs + ys == xs;
    } else {
      SumMulDivAppends(xs, ys[..|ys| - 1], b, c);
      assert (xs + ys)[..|xs + ys| - 1] == xs + ys[..|ys| - 1];
    }
  }

  lemma {:induction false} SumBounds(xs: seq<nat>, k: nat)
    requires k < |xs|
    ensures xs[k] <= SumOf(xs)
  {
    if k < |xs| - 1 {
      SumBounds(xs[..|xs| - 1], k);
    }
  }

  lemma {:induction false} SumDominated(xs: seq<nat>, ys: seq<nat>)
    requires |xs| == |ys| && forall k :: 0 <= k < |xs| ==> xs[k] <= ys[k]
    ensures SumOf(xs) <= SumOf(ys)
  {
    if xs != [] {
      SumDominated(xs[..|xs| - 1], ys[..|ys| - 1]);
    }
  }

  lemma {:induction false} SumOfUpdate(xs: seq<nat>, k: nat, v: nat)
    requires k < |xs|
    ensures SumOf(xs[k := v]) == SumOf(xs) - xs[k] + v
  {
    var ys := xs[k := v];
    if k < |xs| - 1 {
      SumOfUpdate(xs[..|xs| - 1], k, v);
      assert ys[..|ys| - 1] == xs[..|xs| - 1][k := v];
    } else {
      assert ys[..|ys| - 1] == xs[..|xs| - 1];
    }
  }
}
