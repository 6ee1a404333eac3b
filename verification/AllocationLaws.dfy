/** What the allocation promises through all its floors: pool ceilings, and what a row's amounts are
    worth when they are priced again. */
module AllocationLaws {
  import opened ScoreCore
  import opened FloorMath
  import opened Allocation

  // ---- The pool ceiling ----

  function Payouts(rows: seq<Row>): (s: seq<nat>)
    ensures |s| == |rows|
  {
    if rows == [] then [] else Payouts(rows[..|rows| - 1]) + [rows[|rows| - 1].payoutUsd]
  }

  lemma {:induction false} PayoutsWithinShares(policy: Policy, pools: seq<Pool>, claims: seq<Claim>, budget: nat,
                                               total: nat)
    requires total > 0
    ensures SumOf(Payouts(RowsOf(policy, pools, claims, budget, total)))
              <= SumMulDiv(Boosts(policy, claims), budget, total)
  {
    hide MulDiv, RowOf;
    if claims != [] {
      var init, last := claims[..|claims| - 1], claims[|claims| - 1];
      PayoutsWithinShares(policy, pools, init, budget, total);
      var rows, before := RowsOf(policy, pools, claims, budget, total), RowsOf(policy, pools, init, budget, total);
      assert rows[..|rows| - 1] == before;
      PayoutWithinShare(policy, pools, last, budget, total);
      var boosts := Boosts(policy, claims);
      assert boosts[..|boosts| - 1] == Boosts(policy, init);
      assert Payouts(rows)[..|rows| - 1] == Payouts(before);
    }
  }

  lemma PayoutWithinShare(policy: Policy, pools: seq<Pool>, claim: Claim, budget: nat, total: nat)
    requires total > 0
    ensures RowOf(policy, pools, claim, budget, total).payoutUsd <= MulDiv(Boosted(policy, claim), budget, total)
  {
  }

  /** Together the payouts stay within the users' budget. */
  lemma PayoutsWithinBudget(policy: Policy, pools: seq<Pool>, claims: seq<Claim>)
    requires policy.feeBps <= MAX_PROTOCOL_FEE_BPS
    ensures SumOf(Payouts(Rows(policy, pools, claims))) <= MaxTotal(policy, pools)
  {
    hide MulDiv, SumMulDiv, Boosts, MaxTotal;
    var budget, total := MaxTotal(policy, pools), SumOf(Boosts(policy, claims));
    if total == 0 {
      NoScoreNoPayout(policy, pools, claims, budget);
    } else {
      PayoutsWithinShares(policy, pools, claims, budget, total);
      PartsWithinWhole(Boosts(policy, claims), budget, total);
      Commute(total, budget);
      Cancel(SumMulDiv(Boosts(policy, claims), budget, total), budget, total);
    }
  }

  lemma {:induction false} NoScoreNoPayout(policy: Policy, pools: seq<Pool>, claims: seq<Claim>, budget: nat)
    ensures SumOf(Payouts(RowsOf(policy, pools, claims, budget, 0))) == 0
  {
    hide MulDiv;
    if claims != [] {
      var init := claims[..|claims| - 1];
      NoScoreNoPayout(policy, pools, init, budget);
      var rows := RowsOf(policy, pools, claims, budget, 0);
      assert rows[..|rows| - 1] == RowsOf(policy, pools, init, budget, 0);
      assert Payouts(rows)[..|rows| - 1] == Payouts(rows[..|rows| - 1]);
    }
  }

  /** A pool's column is the payouts' split. */
  lemma {:induction false} ColumnIsSplit(policy: Policy, pools: seq<Pool>, claims: seq<Claim>, budget: nat, total: nat,
                                         p: nat)
    requires p < |pools|
    ensures var rows := RowsOf(policy, pools, claims, budget, total);
            SumOf(Column(rows, p)) == if PoolUsd(pools) == 0 then 0
              else SumMulDiv(Payouts(rows), pools[p].balance, PoolUsd(pools))
  {
    hide MulDiv, RowOf, PoolUsd;
    if claims != [] {
      var init, last := claims[..|claims| - 1], claims[|claims| - 1];
      ColumnIsSplit(policy, pools, init, budget, total, p);
      var rows, before := RowsOf(policy, pools, claims, budget, total), RowsOf(policy, pools, init, budget, total);
      assert rows[..|rows| - 1] == before;
      assert Column(rows, p)[..|rows| - 1] == Column(before, p);
      assert Payouts(rows)[..|rows| - 1] == Payouts(before);
      AmountOfRow(policy, pools, last, budget, total, p);
    }
  }

  lemma AmountOfRow(policy: Policy, pools: seq<Pool>, claim: Claim, budget: nat, total: nat, p: nat)
    requires p < |pools|
    ensures var row := RowOf(policy, pools, claim, budget, total);
            |row.amounts| == |pools| && row.amounts[p] == Amount(row.payoutUsd, pools[p], PoolUsd(pools))
  {
  }

  /** The arithmetic of the ceiling: `paid` of the pool's `balance` against six rounded steps. */
  lemma CeilingChain(paid: nat, userShare: nat, column: nat, balance: nat, payouts: nat, poolUsd: nat, gross: nat,
                     maxBps: nat)
    requires userShare > 0 && poolUsd > 0
    requires paid * userShare <= column * BPS
    requires column * poolUsd <= payouts * balance
    requires payouts * BPS <= gross * userShare
    requires gross * BPS <= poolUsd * maxBps
    ensures paid * BPS <= balance * maxBps
  {
    Scale(paid * userShare, column * BPS, poolUsd);
    Scale(column * poolUsd, payouts * balance, BPS);
    Scale(payouts * BPS, gross * userShare, balance);
    calc <= {
      (paid * poolUsd) * userShare;
      { Regroup(paid, userShare, poolUsd); Regroup(column, BPS, poolUsd); }
      (column * poolUsd) * BPS;
      { Regroup(payouts, balance, BPS); }
      (payouts * BPS) * balance;
      { Regroup(gross, userShare, balance); }
      (gross * balance) * userShare;
    }
    Cancel(paid * poolUsd, gross * balance, userShare);
    Scale(paid * poolUsd, gross * balance, BPS);
    Scale(gross * BPS, poolUsd * maxBps, balance);
    calc <= {
      (paid * BPS) * poolUsd;
      { Regroup(paid, BPS, poolUsd); Regroup(gross, balance, BPS); }
      (gross * BPS) * balance;
      { Regroup(poolUsd, maxBps, balance); Commute(poolUsd, balance); Regroup(balance, poolUsd, maxBps); }
      (balance * maxBps) * poolUsd;
    }
    Cancel(paid * BPS, balance * maxBps, poolUsd);
  }

  /** For every accepted input and every pool, what the pool pays is at most its permitted part of
      the balance, whatever the number of claims. */
  lemma PoolCeiling(policy: Policy, pools: seq<Pool>, claims: seq<Claim>, p: nat)
    requires ValidPolicy(policy, pools) && p < |pools|
    ensures PoolPayout(Rows(policy, pools, claims), p, UserShare(policy)) * BPS
              <= pools[p].balance * policy.maxPayoutBps
  {
    hide MulDiv, SumMulDiv, Boosts, PoolUsd, RowsOf, Column, Payouts, SumOf;
    var budget, total := MaxTotal(policy, pools), SumOf(Boosts(policy, claims));
    var rows, poolUsd, userShare := Rows(policy, pools, claims), PoolUsd(pools), UserShare(policy);
    ColumnIsSplit(policy, pools, claims, budget, total, p);
    PartsWithinWhole(Column(rows, p), BPS, userShare);
    if poolUsd == 0 {
      NonNegative(PoolPayout(rows, p, userShare), userShare);
    } else {
      var gross := MulDiv(poolUsd, policy.maxPayoutBps, BPS);
      PartsWithinWhole(Payouts(rows), pools[p].balance, poolUsd);
      PayoutsWithinBudget(policy, pools, claims);
      MulDivIs(gross, userShare, BPS);
      MulDivIs(poolUsd, policy.maxPayoutBps, BPS);
      Scale(SumOf(Payouts(rows)), budget, BPS);
      CeilingChain(PoolPayout(rows, p, userShare), userShare, SumOf(Column(rows, p)), pools[p].balance,
                   SumOf(Payouts(rows)), poolUsd, gross, policy.maxPayoutBps);
    }
  }

  lemma NonNegative(x: nat, c: nat)
    requires c > 0 && x * c <= 0
    ensures x == 0
  {
    Cancel(x, 0, c);
  }

  // ---- Re-pricing a row ----

  ghost function Prod(x: real, y: real): real { x * y }

  lemma ProdAdds(x: real, y: real, u: real)
    ensures Prod(x + y, u) == Prod(x, u) + Prod(y, u)
    ensures Prod(u, x + y) == Prod(u, x) + Prod(u, y)
  {
  }

  lemma ProdCommutes(x: real, y: real)
    ensures Prod(x, y) == Prod(y, x)
  {
  }

  lemma ProdAssociates(x: real, y: real, z: real)
    ensures Prod(Prod(x, y), z) == Prod(x, Prod(y, z))
    ensures Prod(Prod(x, y), z) == Prod(Prod(x, z), y)
  {
  }

  lemma ProdGrows(x: real, y: real, u: real)
    requires x <= y && u >= 0.0
    ensures Prod(x, u) <= Prod(y, u)
    ensures x < y && u > 0.0 ==> Prod(x, u) < Prod(y, u)
  {
  }

  lemma ProdCancels(x: real, y: real, u: real)
    requires u > 0.0
    ensures x <= y <==> Prod(x, u) <= Prod(y, u)
    ensures x < y <==> Prod(x, u) < Prod(y, u)
  {
    if x <= y {
      ProdGrows(x, y, u);
    } else {
      ProdGrows(y, x, u);
    }
  }

  lemma ProdOfNats(x: nat, y: nat)
    ensures (x * y) as real == Prod(x as real, y as real)
  {
  }

  /** The exact price of one base unit. */
  ghost function UnitPrice(pool: Pool): (r: real) {
    pool.assetUsd as real / Pow10(pool.decimals) as real
  }

  lemma UnitPriceIs(pool: Pool)
    ensures UnitPrice(pool) >= 0.0
    ensures Prod(UnitPrice(pool), Pow10(pool.decimals) as real) == pool.assetUsd as real
  {
  }

  ghost function UnitPrices(pools: seq<Pool>): real {
    if pools == [] then 0.0 else UnitPrices(pools[..|pools| - 1]) + UnitPrice(pools[|pools| - 1])
  }

  /** The exact value of the pools' balances. */
  ghost function Worth(pools: seq<Pool>): real {
    if pools == [] then 0.0
    else Worth(pools[..|pools| - 1]) + Prod(pools[|pools| - 1].balance as real, UnitPrice(pools[|pools| - 1]))
  }

  /** The exact value of the amounts that a payout is split into. */
  ghost function Repriced(payout: nat, pools: seq<Pool>, poolUsd: nat): real {
    if pools == [] then 0.0
    else Repriced(payout, pools[..|pools| - 1], poolUsd)
         + Prod(Amount(payout, pools[|pools| - 1], poolUsd) as real, UnitPrice(pools[|pools| - 1]))
  }

  /** The same, each pool's part rounded down as pool USD is. */
  function RepricedFloor(payout: nat, pools: seq<Pool>, poolUsd: nat): nat {
    if pools == [] then 0
    else
      var pool := pools[|pools| - 1];
      RepricedFloor(payout, pools[..|pools| - 1], poolUsd)
      + MulDiv(Amount(payout, pool, poolUsd), pool.assetUsd, Pow10(pool.decimals))
  }

  lemma RealFloor(amount: nat, pool: Pool)
    ensures var floor := MulDiv(amount, pool.assetUsd, Pow10(pool.decimals)) as real;
            floor <= Prod(amount as real, UnitPrice(pool)) < floor + 1.0
  {
    hide Prod, UnitPrice, MulDiv, Pow10;
    var unit, floor := Pow10(pool.decimals), MulDiv(amount, pool.assetUsd, Pow10(pool.decimals));
    var value := Prod(amount as real, UnitPrice(pool));
    MulDivIs(amount, pool.assetUsd, unit);
    ProdOfNats(floor, unit);
    ProdOfNats(amount, pool.assetUsd);
    UnitPriceIs(pool);
    ProdAssociates(amount as real, UnitPrice(pool), unit as real);
    assert Prod(value, unit as real) == Prod(amount as real, pool.assetUsd as real);
    ProdCancels(floor as real, value, unit as real);
    ProdAdds(floor as real, 1.0, unit as real);
    ProdOfOne(unit as real);
    ProdCancels(value, floor as real + 1.0, unit as real);
  }

  lemma ProdOfOne(u: real)
    ensures Prod(1.0, u) == u
  {
  }

  /** Pool USD undercounts the balances by less than one per pool. */
  lemma {:induction false} PoolUsdIsWorth(pools: seq<Pool>)
    ensures PoolUsd(pools) as real <= Worth(pools) <= PoolUsd(pools) as real + |pools| as real
    ensures pools != [] ==> Worth(pools) < PoolUsd(pools) as real + |pools| as real
  {
    hide UnitPrice, MulDiv, Prod, Pow10;
    if pools != [] {
      var init, last := pools[..|pools| - 1], pools[|pools| - 1];
      PoolUsdIsWorth(init);
      RealFloor(last.balance, last);
    }
  }

  lemma {:induction false} FloorIsRepriced(payout: nat, pools: seq<Pool>, poolUsd: nat)
    ensures RepricedFloor(payout, pools, poolUsd) as real <= Repriced(payout, pools, poolUsd)
    ensures Repriced(payout, pools, poolUsd) <= RepricedFloor(payout, pools, poolUsd) as real + |pools| as real
    ensures pools != [] ==>
              Repriced(payout, pools, poolUsd) < RepricedFloor(payout, pools, poolUsd) as real + |pools| as real
  {
    hide UnitPrice, MulDiv, Prod, Amount, Pow10;
    if pools != [] {
      var init, last := pools[..|pools| - 1], pools[|pools| - 1];
      FloorIsRepriced(payout, init, poolUsd);
      RealFloor(Amount(payout, last, poolUsd), last);
    }
  }

  /** One pool's part, over the common denominator. */
  lemma PartRepriced(payout: nat, pool: Pool, poolUsd: nat)
    requires poolUsd > 0
    ensures var amount, price := Amount(payout, pool, poolUsd) as real, UnitPrice(pool);
            var whole := Prod(payout as real, Prod(pool.balance as real, price));
            && Prod(Prod(amount, price), poolUsd as real) <= whole
            && Prod(Prod(amount, price) + price, poolUsd as real) >= whole
  {
    hide Prod, UnitPrice, MulDiv, Pow10;
    var amount, price, u := Amount(payout, pool, poolUsd), UnitPrice(pool), poolUsd as real;
    MulDivIs(payout, pool.balance, poolUsd);
    ProdOfNats(amount, poolUsd);
    ProdOfNats(payout, pool.balance);
    UnitPriceIs(pool);
    var share := Prod(payout as real, pool.balance as real);
    ProdGrows(Prod(amount as real, u), share, price);
    ProdGrows(share, Prod(amount as real, u) + u, price);
    ProdAdds(Prod(amount as real, u), u, price);
    ProdAdds(Prod(amount as real, price), price, u);
    ProdAssociates(amount as real, u, price);
    ProdAssociates(payout as real, pool.balance as real, price);
    ProdCommutes(u, price);
  }

  lemma {:induction false} SplitRepriced(payout: nat, pools: seq<Pool>, poolUsd: nat)
    requires poolUsd > 0
    ensures Prod(Repriced(payout, pools, poolUsd), poolUsd as real) <= Prod(payout as real, Worth(pools))
    ensures Prod(Repriced(payout, pools, poolUsd) + UnitPrices(pools), poolUsd as real)
              >= Prod(payout as real, Worth(pools))
  {
    if pools != [] {
      hide UnitPrice, Amount, Prod;
      var init, last := pools[..|pools| - 1], pools[|pools| - 1];
      var part, price := Prod(Amount(payout, last, poolUsd) as real, UnitPrice(last)), UnitPrice(last);
      SplitRepriced(payout, init, poolUsd);
      PartRepriced(payout, last, poolUsd);
      var before := Repriced(payout, init, poolUsd);
      ProdAdds(before, part, poolUsd as real);
      ProdAdds(before + UnitPrices(init), part + price, poolUsd as real);
      ProdAdds(Worth(init), Prod(last.balance as real, price), payout as real);
      assert before + part + (UnitPrices(init) + price) == before + UnitPrices(init) + (part + price);
    }
  }

  /** Re-pricing the split of any payout within pool USD: less than one per pool above it, and at
      most one base unit per pool below it; rounded down, less than one more per pool. */
  lemma RepricingBounds(payout: nat, pools: seq<Pool>)
    requires PoolUsd(pools) > 0 && payout <= PoolUsd(pools)
    ensures var value := Repriced(payout, pools, PoolUsd(pools));
            payout as real - UnitPrices(pools) <= value < (payout + |pools|) as real
    ensures var floored := RepricedFloor(payout, pools, PoolUsd(pools)) as real;
            payout as real - UnitPrices(pools) - |pools| as real < floored < (payout + |pools|) as real
  {
    var u, value := PoolUsd(pools), Repriced(payout, pools, PoolUsd(pools));
    assert pools != [];
    hide PoolUsd, Repriced, Worth, UnitPrices, RepricedFloor, Prod;
    SplitRepriced(payout, pools, u);
    PoolUsdIsWorth(pools);
    FloorIsRepriced(payout, pools, u);
    RepricedFromBelow(value + UnitPrices(pools), u as real, payout as real, Worth(pools));
    RepricedFromAbove(value, u as real, payout as real, Worth(pools), |pools| as real);
  }

  // ---- When a split is worth more than its payout ----

  /** The balance is worth a whole number. */
  predicate WholeValue(pool: Pool) {
    pool.balance * pool.assetUsd % Pow10(pool.decimals) == 0
  }

  lemma ValueIsWhole(pool: Pool)
    ensures PoolValue(pool) as real <= Prod(pool.balance as real, UnitPrice(pool))
    ensures PoolValue(pool) as real == Prod(pool.balance as real, UnitPrice(pool)) <==> WholeValue(pool)
  {
    hide Prod, UnitPrice, Pow10;
    var unit, value := Pow10(pool.decimals), Prod(pool.balance as real, UnitPrice(pool));
    RealFloor(pool.balance, pool);
    ProdOfNats(PoolValue(pool), unit);
    ProdOfNats(pool.balance, pool.assetUsd);
    UnitPriceIs(pool);
    ProdAssociates(pool.balance as real, UnitPrice(pool), unit as real);
    ProdCancels(value, PoolValue(pool) as real, unit as real);
    DivisionIsExact(pool.balance * pool.assetUsd, unit);
  }

  lemma DivisionIsExact(x: nat, unit: nat)
    requires unit > 0
    ensures x / unit * unit == x <==> x % unit == 0
  {
  }

  lemma {:induction false} WorthIsWhole(pools: seq<Pool>)
    ensures PoolUsd(pools) as real <= Worth(pools)
    ensures PoolUsd(pools) as real == Worth(pools) <==> forall p :: 0 <= p < |pools| ==> WholeValue(pools[p])
  {
    hide UnitPrice, Prod, PoolValue, WholeValue;
    if pools != [] {
      var init, last := pools[..|pools| - 1], pools[|pools| - 1];
      WorthIsWhole(init);
      ValueIsWhole(last);
      assert pools == init + [last];
    }
  }

  /** A split of the whole of pool USD takes the pools' balances. */
  lemma {:induction false} WholeSplit(pools: seq<Pool>, poolUsd: nat)
    requires poolUsd > 0
    ensures Repriced(poolUsd, pools, poolUsd) == Worth(pools)
  {
    hide UnitPrice, Prod;
    if pools != [] {
      WholeSplit(pools[..|pools| - 1], poolUsd);
      TimesOver(pools[|pools| - 1].balance, poolUsd);
    }
  }

  lemma TimesOver(x: nat, c: nat)
    requires c > 0
    ensures MulDiv(c, x, c) == x
  {
    hide MulDiv;
    MulDivIs(c, x, c);
    Commute(c, x);
    Cancel(MulDiv(c, x, c), x, c);
    FloorAtMost(x, c * x, c);
    Quotient(c, x);
  }

  lemma Quotient(c: nat, x: nat)
    requires c > 0
    ensures MulDiv(c, x, c) == c * x / c
  {
  }

  /** No payout's split is worth more than the payout, exactly when every pool's balance is worth a
      whole number: what a split gains is what pool USD lost to rounding. */
  lemma SplitsAreCovered(pools: seq<Pool>)
    requires PoolUsd(pools) > 0
    ensures (forall payout: nat :: payout <= PoolUsd(pools) ==>
               Repriced(payout, pools, PoolUsd(pools)) <= payout as real)
            <==> forall p :: 0 <= p < |pools| ==> WholeValue(pools[p])
  {
    var u := PoolUsd(pools);
    hide PoolUsd, Repriced, Worth, WholeValue, Prod;
    WorthIsWhole(pools);
    WholeSplit(pools, u);
    if Worth(pools) == u as real {
      forall payout: nat | payout <= u ensures Repriced(payout, pools, u) <= payout as real {
        SplitRepriced(payout, pools, u);
        ProdCancels(Repriced(payout, pools, u), payout as real, u as real);
      }
    } else {
      assert Repriced(u, pools, u) > u as real;
    }
  }

  /** One claim takes a pool of 15 units worth 0.1 each, whose value of 1.5 counts as 1. */
  const POOL: Pool := Pool(15, 1, 1)
  const CLAIM: Claim := Claim(0, 0, 1, 1, 1, 0, 1, 0, 0)
  const POLICY: Policy := Policy(8000, 1, 0, WAD, 10, 10000, 0)

  lemma PoolCounts()
    ensures PoolUsd([POOL]) == 1 && Prod(15.0, UnitPrice(POOL)) == 1.5
  {
    var pools := [POOL];
    assert pools[..0] == [];
    assert Pow10(1) == 10;
  }

  lemma ClaimCounts()
    ensures Boosted(POLICY, CLAIM) == 1 && SumOf(Boosts(POLICY, [CLAIM])) == 1
    ensures BaseRow(POLICY, CLAIM).lossUsd == 10
  {
    var claims, boosts := [CLAIM], [1 as nat];
    assert claims[..0] == [] && boosts[..0] == [] && Pow10(0) == 1;
    assert Boosts(POLICY, claims) == boosts;
  }

  lemma PayoutCounts()
    ensures Rows(POLICY, [POOL], [CLAIM])[0].payoutUsd == 1
  {
    PoolCounts();
    ClaimCounts();
    hide PoolUsd, Boosted, Boosts, BaseRow, SumOf;
    assert MaxTotal(POLICY, [POOL]) == 1;
    assert PayoutUsd(POLICY, CLAIM, 1, 1) == 1;
    RowPays(POLICY, [POOL], [CLAIM], 1, 1, 0);
  }

  lemma RowPays(policy: Policy, pools: seq<Pool>, claims: seq<Claim>, budget: nat, total: nat, k: nat)
    requires k < |claims|
    ensures RowsOf(policy, pools, claims, budget, total)[k].payoutUsd == PayoutUsd(policy, claims[k], budget, total)
  {
    hide PayoutUsd, BaseRow, Amounts, PoolUsd;
    assert RowsOf(policy, pools, claims, budget, total)[k] == RowOf(policy, pools, claims[k], budget, total);
  }

  /** An allocation that exceeds its payout. */
  lemma RowMayExceedPayout()
    ensures exists policy: Policy, pools: seq<Pool>, claims: seq<Claim> ::
              && ValidPolicy(policy, pools) && |claims| == 1 && PoolUsd(pools) > 0
              && Repriced(Rows(policy, pools, claims)[0].payoutUsd, pools, PoolUsd(pools))
                   > Rows(policy, pools, claims)[0].payoutUsd as real
  {
    PoolCounts();
    PayoutCounts();
    hide Rows, PoolUsd, UnitPrice, Prod;
    var pools := [POOL];
    assert pools[..0] == [];
    assert Amount(1, POOL, 1) == 15;
    assert Repriced(1, pools, 1) == 1.5;
    assert ValidPolicy(POLICY, pools);
  }

  lemma RepricedFromBelow(v: real, u: real, x: real, worth: real)
    requires u > 0.0 && x >= 0.0 && Prod(v, u) >= Prod(x, worth) && worth >= u
    ensures v >= x
  {
    hide Prod;
    ProdGrows(u, worth, x);
    ProdCommutes(x, worth);
    ProdCommutes(u, x);
    ProdCancels(x, v, u);
  }

  lemma RepricedFromAbove(v: real, u: real, x: real, worth: real, n: real)
    requires 0.0 <= x <= u && u > 0.0 && n > 0.0 && Prod(v, u) <= Prod(x, worth) && worth < u + n
    ensures v < x + n
  {
    hide Prod;
    ProdGrows(worth, u + n, x);
    ProdGrows(x, u, n);
    ProdGrows(0.0, n, u);
    ProdOfZero(u);
    ProdOfZero(worth);
    ProdAdds(u, n, x);
    ProdAdds(x, n, u);
    ProdCommutes(x, worth);
    ProdCommutes(u, x);
    ProdCommutes(n, x);
    ProdCommutes(n, u);
    ProdCancels(v, x + n, u);
    if x == 0.0 {
      assert Prod(v, u) <= 0.0 < Prod(x + n, u);
    }
  }

  lemma ProdOfZero(u: real)
    ensures Prod(0.0, u) == 0.0
  {
  }

  /** No payout exceeds pool USD. */
  lemma PayoutWithinPoolUsd(policy: Policy, pools: seq<Pool>, claims: seq<Claim>, k: nat)
    requires ValidPolicy(policy, pools) && k < |claims|
    ensures Rows(policy, pools, claims)[k].payoutUsd <= PoolUsd(pools)
  {
    hide SumMulDiv, Boosts, PoolUsd, RowsOf, MulDiv;
    var rows := Rows(policy, pools, claims);
    PayoutsWithinBudget(policy, pools, claims);
    PayoutsAre(rows, k);
    SumBounds(Payouts(rows), k);
    var gross := MulDiv(PoolUsd(pools), policy.maxPayoutBps, BPS);
    FractionShrinks(PoolUsd(pools), policy.maxPayoutBps, BPS);
    FractionShrinks(gross, UserShare(policy), BPS);
  }

  lemma FractionShrinks(x: nat, part: nat, whole: nat)
    requires whole > 0 && part <= whole
    ensures MulDiv(x, part, whole) <= x
  {
    MulDivIs(x, part, whole);
    Scale(part, whole, x);
    Commute(x, part);
    Commute(whole, x);
    Cancel(MulDiv(x, part, whole), x, whole);
  }

  lemma {:induction false} PayoutsAre(rows: seq<Row>, k: nat)
    requires k < |rows|
    ensures Payouts(rows)[k] == rows[k].payoutUsd
  {
    if k < |rows| - 1 {
      PayoutsAre(rows[..|rows| - 1], k);
    }
  }

  /** Every row the allocator returns, re-priced at the pool prices. */
  lemma RowRepricing(policy: Policy, pools: seq<Pool>, claims: seq<Claim>, k: nat)
    requires ValidPolicy(policy, pools) && k < |claims| && PoolUsd(pools) > 0
    ensures var row := Rows(policy, pools, claims)[k];
            && row.amounts == Amounts(row.payoutUsd, pools, PoolUsd(pools))
            && row.payoutUsd as real - UnitPrices(pools)
                 <= Repriced(row.payoutUsd, pools, PoolUsd(pools)) < (row.payoutUsd + |pools|) as real
            && row.payoutUsd as real - UnitPrices(pools) - |pools| as real
                 < RepricedFloor(row.payoutUsd, pools, PoolUsd(pools)) as real < (row.payoutUsd + |pools|) as real
  {
    PayoutWithinPoolUsd(policy, pools, claims, k);
    RepricingBounds(Rows(policy, pools, claims)[k].payoutUsd, pools);
  }
}
