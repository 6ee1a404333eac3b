/** What a score is worth: the sum over blocks of balance times rate, in whole units of the token,
    rounded down once. */
module ScoreUnits {
  import opened ScoreCore
  import opened ScoreLedger
  import opened ScoreSources
  import opened FloorMath

  const E18: nat := 1_000_000_000_000_000_000

  // ---- Powers of ten and the scaling ----

  lemma {:induction false} Pow10Adds(k: nat, m: nat)
    ensures Pow10(k + m) == Pow10(k) * Pow10(m)
  {
    if k > 0 {
      Pow10Adds(k - 1, m);
      Regroup(10, Pow10(k - 1), Pow10(m));
    }
  }

  lemma Pow10Is()
    ensures Pow10(18) == E18 && Pow10(1) == 10 && Pow10(0) == 1
  {
    assert Pow10(3) == 1000;
    Pow10Adds(3, 3);
    Pow10Adds(6, 6);
    Pow10Adds(12, 6);
  }

  /** An integral in base units is brought to 18 decimals, rounded down when there are more. */
  lemma ScaledIs(x: nat, d: nat)
    ensures Scaled(x, d) * Pow10(d) <= x * 1_000_000_000_000_000_000 < (Scaled(x, d) + 1) * Pow10(d)
    ensures d <= 18 ==> Scaled(x, d) * Pow10(d) == x * 1_000_000_000_000_000_000
  {
    Pow10Is();
    if d <= 18 {
      ScaledUp(x, d);
    } else {
      ScaledDown(x, d);
    }
  }

  lemma ScaledUp(x: nat, d: nat)
    requires d <= 18
    ensures Scaled(x, d) == x * Pow10(18 - d)
    ensures Scaled(x, d) * Pow10(d) == x * Pow10(18) && x * Pow10(18) < (Scaled(x, d) + 1) * Pow10(d)
  {
    TimesIsProduct(x, Pow10(18 - d));
    Pow10Adds(18 - d, d);
    hide Pow10, Times;
    Regroup(x, Pow10(18 - d), Pow10(d));
    Distribute(Scaled(x, d), 1, Pow10(d));
  }

  lemma ScaledDown(x: nat, d: nat)
    requires d > 18
    ensures Scaled(x, d) * Pow10(d) <= x * Pow10(18) < (Scaled(x, d) + 1) * Pow10(d)
  {
    hide Pow10, Over;
    Pow10Adds(d - 18, 18);
    QuotientIs(x, Pow10(d - 18));
    Stretch(x, Scaled(x, d), Pow10(d - 18), Pow10(18), Pow10(d));
  }

  lemma Stretch(x: nat, q: nat, extra: nat, unit: nat, whole: nat)
    requires q * extra <= x < (q + 1) * extra && whole == extra * unit && unit > 0
    ensures q * whole <= x * unit < (q + 1) * whole
  {
    Scale(q * extra, x, unit);
    Scale(x + 1, (q + 1) * extra, unit);
    Regroup(q, extra, unit);
    Regroup(q + 1, extra, unit);
    Distribute(x, 1, unit);
  }

  lemma QuotientIs(x: nat, c: nat)
    requires c > 0
    ensures Over(x, c) * c <= x < (Over(x, c) + 1) * c
  {
  }

  // ---- The sum over blocks ----

  /** The rate in force at a block: that of the last point not after it. */
  function RateAt(rates: seq<RatePoint>, block: nat): nat {
    if rates == [] then 0
    else if rates[|rates| - 1].fromBlock <= block then rates[|rates| - 1].rate
    else RateAt(rates[..|rates| - 1], block)
  }

  lemma {:induction false} RateAtIs(rates: seq<RatePoint>, block: nat, k: nat)
    requires Ascending(rates) && k < |rates| && rates[k].fromBlock <= block
    requires k + 1 < |rates| ==> block < rates[k + 1].fromBlock
    ensures RateAt(rates, block) == rates[k].rate
  {
    if k + 1 < |rates| {
      RateAtIs(rates[..|rates| - 1], block, k);
    }
  }

  /** Balance times rate, summed over the blocks before `end`. */
  function Earned(f: nat -> nat, rates: seq<RatePoint>, end: nat): nat {
    if end == 0 then 0 else Earned(f, rates, end - 1) + f(end - 1) * RateAt(rates, end - 1)
  }

  /** Before the last point its rate plays no part. */
  lemma {:induction false} EarnedBefore(f: nat -> nat, rates: seq<RatePoint>, end: nat)
    requires rates != [] && end <= rates[|rates| - 1].fromBlock
    ensures Earned(f, rates, end) == Earned(f, rates[..|rates| - 1], end)
  {
    if end > 0 {
      EarnedBefore(f, rates, end - 1);
    }
  }

  /** From the last point on every balance earns its rate. */
  lemma {:induction false} EarnedAfter(f: nat -> nat, rates: seq<RatePoint>, end: nat)
    requires rates != [] && rates[|rates| - 1].fromBlock <= end
    ensures var last := rates[|rates| - 1];
            Earned(f, rates, end) ==
              Earned(f, rates[..|rates| - 1], last.fromBlock) + Sum(f, last.fromBlock, end) * last.rate
    decreases end
  {
    var last := rates[|rates| - 1];
    if end == last.fromBlock {
      EarnedBefore(f, rates, end);
    } else {
      EarnedAfter(f, rates, end - 1);
      Distribute(Sum(f, last.fromBlock, end - 1), f(end - 1), last.rate);
    }
  }

  /** The segments' integrals, each with its rate. */
  function BySegment(f: nat -> nat, rates: seq<RatePoint>, t: nat, n: nat): nat
    requires n <= |rates|
  {
    if n == 0 then 0
    else BySegment(f, rates, t, n - 1) + Integral(f, rates, 0, t, n - 1) * rates[n - 1].rate
  }

  /** Where the first `n` segments end. */
  function Limit(rates: seq<RatePoint>, t: nat, n: nat): nat
    requires n <= |rates|
  {
    if n < |rates| && rates[n].fromBlock < t then rates[n].fromBlock else t
  }

  lemma {:induction false} SegmentsAreBlocks(f: nat -> nat, rates: seq<RatePoint>, t: nat, n: nat)
    requires Ascending(rates) && n <= |rates|
    ensures BySegment(f, rates, t, n) == Earned(f, rates[..n], Limit(rates, t, n))
  {
    if n == 0 {
      NoRates(f, Limit(rates, t, 0));
    } else {
      SegmentsAreBlocks(f, rates, t, n - 1);
      var first := rates[..n];
      assert first[..n - 1] == rates[..n - 1];
      if first[n - 1].fromBlock <= Limit(rates, t, n) {
        EarnedAfter(f, first, Limit(rates, t, n));
      } else {
        EarnedBefore(f, first, Limit(rates, t, n));
        assert Integral(f, rates, 0, t, n - 1) == 0;
      }
    }
  }

  lemma {:induction false} NoRates(f: nat -> nat, end: nat)
    ensures Earned(f, [], end) == 0
  {
    if end > 0 {
      NoRates(f, end - 1);
    }
  }

  // ---- The numerator is that sum in 18 decimals ----

  function RateSum(rates: seq<RatePoint>, n: nat): nat
    requires n <= |rates|
  {
    if n == 0 then 0 else RateSum(rates, n - 1) + rates[n - 1].rate
  }

  /** One segment's weighted part. */
  lemma PartIs(x: nat, d: nat, rate: nat)
    ensures var part := Times(Scaled(x, d), rate);
            && part * Pow10(d) <= (x * rate) * E18 <= (part + rate) * Pow10(d)
            && (d <= 18 ==> part * Pow10(d) == (x * rate) * E18)
  {
    var q, p := Scaled(x, d), Pow10(d);
    ScaledIs(x, d);
    TimesIsProduct(q, rate);
    hide Scaled, Pow10, Times;
    Scale(q * p, x * E18, rate);
    Scale(x * E18, (q + 1) * p, rate);
    Regroup(q, p, rate);
    Regroup(q + 1, p, rate);
    Regroup(x, E18, rate);
    Regroup(q, rate, p);
    Regroup(q + 1, rate, p);
    Distribute(q, 1, rate);
  }

  lemma {:induction false} NumeratorBySegment(f: nat -> nat, rates: seq<RatePoint>, d: nat, t: nat, n: nat)
    requires n <= |rates|
    ensures var part, sum := Numerator(f, rates, d, 0, t, n), BySegment(f, rates, t, n);
            && part * Pow10(d) <= sum * E18 <= (part + RateSum(rates, n)) * Pow10(d)
            && (d <= 18 ==> part * Pow10(d) == sum * E18)
  {
    hide Integral, Scaled, Pow10, Times;
    if n > 0 {
      NumeratorBySegment(f, rates, d, t, n - 1);
      var x, rate, p := Integral(f, rates, 0, t, n - 1), rates[n - 1].rate, Pow10(d);
      PartIs(x, d, rate);
      var before, part := Numerator(f, rates, d, 0, t, n - 1), Times(Scaled(x, d), rate);
      Distribute(before, part, p);
      Distribute(before + RateSum(rates, n - 1), part + rate, p);
      Distribute(BySegment(f, rates, t, n - 1), x * rate, E18);
      assert before + part + RateSum(rates, n) == (before + RateSum(rates, n - 1)) + (part + rate);
    }
  }

  /** The numerator that all routes compute: the sum over blocks of balance times rate, moved from the
      token's decimals to 18. It is exact up to 18 decimals; beyond, each segment loses less than its
      rate. */
  lemma NumeratorIs(f: nat -> nat, rates: seq<RatePoint>, d: nat, asOf: nat)
    requires Ascending(rates)
    ensures var part, sum := Numerator(f, rates, d, 0, asOf, |rates|), Earned(f, rates, asOf);
            && part * Pow10(d) <= sum * 1_000_000_000_000_000_000 <= (part + RateSum(rates, |rates|)) * Pow10(d)
            && (d <= 18 ==> part == sum * Pow10(18 - d))
  {
    hide Numerator, BySegment, Earned, Pow10, RateSum;
    AllSegments(f, rates, asOf);
    NumeratorBySegment(f, rates, d, asOf, |rates|);
    if d <= 18 {
      Unscale(Numerator(f, rates, d, 0, asOf, |rates|), Earned(f, rates, asOf), d);
    }
  }

  lemma AllSegments(f: nat -> nat, rates: seq<RatePoint>, t: nat)
    requires Ascending(rates)
    ensures BySegment(f, rates, t, |rates|) == Earned(f, rates, t)
  {
    hide BySegment, Earned;
    SegmentsAreBlocks(f, rates, t, |rates|);
    assert rates[..|rates|] == rates;
  }

  lemma Unscale(part: nat, sum: nat, d: nat)
    requires d <= 18 && part * Pow10(d) == sum * E18
    ensures part == sum * Pow10(18 - d)
  {
    Pow10Is();
    Pow10Adds(18 - d, d);
    hide Pow10;
    Regroup(sum, Pow10(18 - d), Pow10(d));
    Same(part, sum * Pow10(18 - d), Pow10(d));
  }

  lemma Same(x: nat, y: nat, c: nat)
    requires c > 0 && x * c == y * c
    ensures x == y
  {
    Cancel(x, y, c);
    Cancel(y, x, c);
  }

  // ---- The gross score ----

  /** A token's share, in 18 decimals. */
  function Units(t: Scored, user: Address, asOf: nat): nat
    requires t.decimals <= 18
  {
    Earned(Balances(t.ledger, user), t.rates, asOf) * Pow10(18 - t.decimals)
  }

  function UnitsOfAll(tokens: seq<Scored>, user: Address, asOf: nat, n: nat): nat
    requires n <= |tokens| && forall k :: 0 <= k < n ==> tokens[k].decimals <= 18
  {
    if n == 0 then 0 else UnitsOfAll(tokens, user, asOf, n - 1) + Units(tokens[n - 1], user, asOf)
  }

  lemma {:induction false} TotalIsUnits(tokens: seq<Scored>, user: Address, asOf: nat, n: nat)
    requires n <= |tokens| && Scorable(tokens) && forall k :: 0 <= k < n ==> tokens[k].decimals <= 18
    ensures ScoreSources.Total(tokens, user, asOf, n) == UnitsOfAll(tokens, user, asOf, n)
  {
    hide Numerator, Earned, Balances, Pow10;
    if n > 0 {
      TotalIsUnits(tokens, user, asOf, n - 1);
      TotalStep(tokens, user, asOf, n - 1);
      var t := tokens[n - 1];
      NumeratorIs(Balances(t.ledger, user), t.rates, t.decimals, asOf);
    }
  }

  /** The gross score is the sum over tokens and blocks of balance times rate, in whole units of each
      token, rounded down once. */
  lemma GrossScoreIs(tokens: seq<Scored>, user: Address, asOf: nat)
    requires Scorable(tokens) && forall k :: 0 <= k < |tokens| ==> tokens[k].decimals <= 18
    ensures GrossScore(ScoreSources.Total(tokens, user, asOf, |tokens|))
         == UnitsOfAll(tokens, user, asOf, |tokens|) / 1_000_000_000_000_000_000
  {
    TotalIsUnits(tokens, user, asOf, |tokens|);
  }

  /** For one token: balance times rate over blocks, divided by the token's unit. */
  lemma GrossScoreOfOne(t: Scored, user: Address, asOf: nat)
    requires ValidLedger(t.ledger) && Ascending(t.rates) && t.decimals <= 18
    ensures GrossScore(ScoreSources.Total([t], user, asOf, 1))
         == Earned(Balances(t.ledger, user), t.rates, asOf) / Pow10(t.decimals)
  {
    var d, sum := t.decimals, Earned(Balances(t.ledger, user), t.rates, asOf);
    GrossScoreIs([t], user, asOf);
    assert UnitsOfAll([t], user, asOf, 1) == UnitsOfAll([t], user, asOf, 0) + Units(t, user, asOf);
    Pow10Is();
    Pow10Adds(d, 18 - d);
    hide Pow10, Earned;
    DivideOut(sum, Pow10(d), Pow10(18 - d));
  }

  lemma DivideOut(x: nat, b: nat, c: nat)
    requires b > 0 && c > 0 && b * c > 0
    ensures (x * c) / (b * c) == x / b
  {
    var q := x / b;
    FloorAtMost(q, x, b);
    Scale(q * b, x, c);
    Regroup(q, b, c);
    FloorAtMost(q, x * c, b * c);
    var r := (x * c) / (b * c);
    Regroup(r, b, c);
    Cancel(r * b, x, c);
    FloorAtMost(r, x, b);
  }

  /** Holdings that agree in whole units earn the same, whatever the decimals. */
  lemma {:induction false} SameUnitsEarnTheSame(f: nat -> nat, g: nat -> nat, rates: seq<RatePoint>, d: nat, e: nat,
                                                end: nat)
    requires forall b: nat :: f(b) * Pow10(e) == g(b) * Pow10(d)
    ensures Earned(f, rates, end) * Pow10(e) == Earned(g, rates, end) * Pow10(d)
  {
    hide Pow10;
    if end > 0 {
      SameUnitsEarnTheSame(f, g, rates, d, e, end - 1);
      var b, r := end - 1, RateAt(rates, end - 1);
      Distribute(Earned(f, rates, b), f(b) * r, Pow10(e));
      Distribute(Earned(g, rates, b), g(b) * r, Pow10(d));
      Regroup(f(b), r, Pow10(e));
      Regroup(g(b), r, Pow10(d));
    }
  }

  lemma SameUnitsSameScore(f: nat -> nat, g: nat -> nat, rates: seq<RatePoint>, d: nat, e: nat, asOf: nat)
    requires Ascending(rates) && d <= 18 && e <= 18 && forall b: nat :: f(b) * Pow10(e) == g(b) * Pow10(d)
    ensures Numerator(f, rates, d, 0, asOf, |rates|) == Numerator(g, rates, e, 0, asOf, |rates|)
  {
    SameUnitsEarnTheSame(f, g, rates, d, e, asOf);
    NumeratorIs(f, rates, d, asOf);
    NumeratorIs(g, rates, e, asOf);
    Pow10Adds(18 - d, d);
    Pow10Adds(18 - e, e);
    hide Pow10, Earned, Numerator;
    var x, y := Earned(f, rates, asOf), Earned(g, rates, asOf);
    SameByUnits(x, y, Pow10(d), Pow10(e), Pow10(18 - d), Pow10(18 - e));
  }

  lemma SameByUnits(x: nat, y: nat, p: nat, q: nat, p': nat, q': nat)
    requires p > 0 && q > 0 && p' * p == q' * q && x * q == y * p
    ensures x * p' == y * q'
  {
    Regroup(x, q, q');
    Regroup(y, p, q');
    Regroup(x, p', p);
    Regroup(y, q', p);
    Commute(q', q);
    assert (x * p') * p == (y * q') * p;
    Same(x * p', y * q', p);
  }
}
