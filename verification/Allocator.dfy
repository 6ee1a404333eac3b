/** The settlement kernel's loops, and the independent recheck of their output. */
module Allocator {
  import opened FloorMath
  import opened Allocation
  import opened AllocationMeaning
  import opened U64

  /** One row's amounts added to the running totals. */
  method AddAmounts(totals: array<nat>, amounts: seq<nat>, userShare: nat)
    requires |amounts| == totals.Length && userShare > 0
    modifies totals
    ensures forall p :: 0 <= p < totals.Length ==> totals[p] == old(totals[p]) + MulDiv(amounts[p], BPS, userShare)
  {
    for p := 0 to totals.Length
      invariant forall i :: 0 <= i < p ==> totals[i] == old(totals[i]) + MulDiv(amounts[i], BPS, userShare)
      invariant forall i :: p <= i < totals.Length ==> totals[i] == old(totals[i])
    {
      totals[p] := totals[p] + MulDiv(amounts[p], BPS, userShare);
    }
  }

  lemma PoolPayoutStep(rows: seq<Row>, k: nat, p: nat, userShare: nat)
    requires k < |rows| && userShare > 0 && p < |rows[k].amounts|
    ensures PoolPayout(rows[..k + 1], p, userShare) ==
              PoolPayout(rows[..k], p, userShare) + MulDiv(rows[k].amounts[p], BPS, userShare)
  {
    assert rows[..k + 1][..k] == rows[..k];
    var c := Column(rows[..k + 1], p);
    assert c[..k] == Column(rows[..k], p);
  }

  lemma NothingPaid(userShare: nat)
    requires userShare > 0
    ensures forall p: nat :: PoolPayout([], p, userShare) == 0
  {
  }

  /** The first loop: everything but payouts. */
  method BaseRows(policy: Policy, claims: seq<Claim>) returns (rows: seq<Row>)
    ensures |rows| == |claims| && forall k :: 0 <= k < |rows| ==> rows[k] == BaseRow(policy, claims[k])
  {
    rows := [];
    for k := 0 to |claims|
      invariant |rows| == k && forall i :: 0 <= i < k ==> rows[i] == BaseRow(policy, claims[i])
    {
      rows := rows + [BaseRow(policy, claims[k])];
    }
  }

  method TotalBoosted(policy: Policy, claims: seq<Claim>, rows: seq<Row>) returns (total: nat)
    requires |rows| == |claims| && forall k :: 0 <= k < |rows| ==> rows[k] == BaseRow(policy, claims[k])
    ensures total == SumOf(Boosts(policy, claims))
  {
    total := 0;
    for k := 0 to |rows|
      invariant total == SumOf(Boosts(policy, claims[..k]))
    {
      assert claims[..k + 1][..k] == claims[..k];
      total := total + rows[k].boosted;
    }
    assert claims[..|claims|] == claims;
  }

  /** A row with its payout, before the split over pools. */
  function PaidRow(policy: Policy, claim: Claim, budget: nat, totalBoosted: nat): Row {
    BaseRow(policy, claim).(payoutUsd := PayoutUsd(policy, claim, budget, totalBoosted))
  }

  /** The second loop: payouts by relative score, in place. */
  method SetPayouts(policy: Policy, claims: seq<Claim>, base: seq<Row>, budget: nat, total: nat)
    returns (rows: seq<Row>)
    requires |base| == |claims| && forall k :: 0 <= k < |base| ==> base[k] == BaseRow(policy, claims[k])
    ensures |rows| == |claims| && forall k :: 0 <= k < |rows| ==> rows[k] == PaidRow(policy, claims[k], budget, total)
  {
    rows := base;
    if total == 0 {
      return;
    }
    for k := 0 to |rows|
      invariant |rows| == |claims|
      invariant forall i :: 0 <= i < k ==> rows[i] == PaidRow(policy, claims[i], budget, total)
      invariant forall i :: k <= i < |rows| ==> rows[i] == BaseRow(policy, claims[i])
    {
      var cap := MulDiv(rows[k].lossUsd, policy.coverageBps, BPS);
      var entitlement := MulDiv(rows[k].boosted, budget, total);
      rows := rows[k := rows[k].(payoutUsd := Min(entitlement, cap))];
    }
  }

  /** The third loop: each row is split over the pools, and the pools' totals grow. */
  method SplitOverPools(policy: Policy, pools: seq<Pool>, claims: seq<Claim>, paid: seq<Row>, poolUsd: nat, budget: nat,
                        total: nat, totals: array<nat>)
    returns (rows: seq<Row>)
    requires policy.feeBps <= MAX_PROTOCOL_FEE_BPS && poolUsd == PoolUsd(pools)
    requires |paid| == |claims| && forall k :: 0 <= k < |paid| ==> paid[k] == PaidRow(policy, claims[k], budget, total)
    requires totals.Length == |pools| && forall p :: 0 <= p < |pools| ==> totals[p] == 0
    modifies totals
    ensures rows == RowsOf(policy, pools, claims, budget, total)
    ensures forall p :: 0 <= p < |pools| ==> totals[p] == PoolPayout(rows, p, UserShare(policy))
  {
    hide MulDiv, PoolPayout, BaseRow, PayoutUsd, PoolUsd, Amounts;
    var userShare := UserShare(policy);
    rows := [];
    NothingPaid(userShare);
    while |rows| < |paid|
      invariant |rows| <= |paid|
      invariant forall i :: 0 <= i < |rows| ==> rows[i] == RowOf(policy, pools, claims[i], budget, total)
      invariant forall p :: 0 <= p < |pools| ==> totals[p] == PoolPayout(rows, p, userShare)
    {
      var k := |rows|;
      ghost var before := rows;
      rows := rows + [paid[k].(amounts := Amounts(paid[k].payoutUsd, pools, poolUsd))];
      assert rows[..k] == before && rows[..k + 1] == rows;
      forall p | 0 <= p < |pools|
        ensures PoolPayout(rows, p, userShare) ==
                  PoolPayout(before, p, userShare) + MulDiv(rows[k].amounts[p], BPS, userShare)
      {
        PoolPayoutStep(rows, k, p, userShare);
      }
      AddAmounts(totals, rows[k].amounts, userShare);
    }
  }

  method PolicyIsValid(policy: Policy, pools: seq<Pool>) returns (valid: bool)
    ensures valid <==> ValidPolicy(policy, pools)
  {
    if policy.coverageBps > MAX_COVERAGE_BPS || policy.maxPayoutBps > 10_000 || policy.feeBps > MAX_PROTOCOL_FEE_BPS {
      return false;
    }
    if policy.boosterBoostBps == 0 || policy.boosterBoostBps > 65535 || policy.insuredDecimals > 255 {
      return false;
    }
    valid := forall p :: 0 <= p < |pools| ==> pools[p].decimals <= 255;
  }

  /** `allocate`, up to the commitments: the specified rows and totals, which are what the claims are
      entitled to. */
  method Allocate(policy: Policy, pools: seq<Pool>, claims: seq<Claim>) returns (r: Allocated)
    ensures r.InvalidPolicy? <==> !ValidPolicy(policy, pools)
    ensures r.Allocated? ==> r.rows == Rows(policy, pools, claims) && |r.poolPayouts| == |pools|
    ensures r.Allocated? ==> forall p :: 0 <= p < |pools| ==>
              r.poolPayouts[p] == PoolPayout(r.rows, p, UserShare(policy))
    ensures r.Allocated? ==> Fair(policy, pools, claims, r.rows) && PaidInFull(policy, pools, r.rows, r.poolPayouts)
  {
    var valid := PolicyIsValid(policy, pools);
    if !valid {
      return InvalidPolicy;
    }
    var rows := BaseRows(policy, claims);
    var poolUsd := PoolUsd(pools);
    var budget := MulDiv(MulDiv(poolUsd, policy.maxPayoutBps, BPS), BPS - policy.feeBps, BPS);
    var total := TotalBoosted(policy, claims, rows);
    rows := SetPayouts(policy, claims, rows, budget, total);
    var totals := new nat[|pools|](_ => 0);
    rows := SplitOverPools(policy, pools, claims, rows, poolUsd, budget, total, totals);
    r := Allocated(rows, totals[..]);
    RowsAreFair(policy, pools, claims);
    TotalsArePaid(policy, pools, claims, totals[..]);
  }

  /** `verify_run`'s independent recheck: every row as wide as the pool list, and every pool total
      the sum of the grossed-up amounts. */
  method RecheckTotals(rows: seq<Row>, poolPayouts: seq<nat>, poolCount: nat, feeBps: nat) returns (ok: bool)
    ensures ok <==>
              && |poolPayouts| == poolCount && feeBps <= MAX_PROTOCOL_FEE_BPS
              && (forall k :: 0 <= k < |rows| ==> |rows[k].amounts| == poolCount)
              && (forall p :: 0 <= p < poolCount ==> poolPayouts[p] == PoolPayout(rows, p, BPS - feeBps))
  {
    if poolCount != |poolPayouts| || feeBps > MAX_PROTOCOL_FEE_BPS {
      return false;
    }
    var totals := new nat[poolCount](_ => 0);
    var k := 0;
    while k < |rows|
      invariant 0 <= k <= |rows| && forall i :: 0 <= i < k ==> |rows[i].amounts| == poolCount
      invariant forall p :: 0 <= p < poolCount ==> totals[p] == PoolPayout(rows[..k], p, BPS - feeBps)
    {
      if |rows[k].amounts| != poolCount {
        return false;
      }
      forall p | 0 <= p < poolCount
        ensures PoolPayout(rows[..k + 1], p, BPS - feeBps) ==
                  PoolPayout(rows[..k], p, BPS - feeBps) + MulDiv(rows[k].amounts[p], BPS, BPS - feeBps)
      {
        PoolPayoutStep(rows, k, p, BPS - feeBps);
      }
      AddAmounts(totals, rows[k].amounts, BPS - feeBps);
      k := k + 1;
    }
    assert rows[..k] == rows;
    ok := totals[..] == poolPayouts;
    assert ok <==> forall p :: 0 <= p < poolCount ==> totals[p] == poolPayouts[p];
  }

  /** Whatever the allocator returns passes the recheck. */
  method AllocateAndRecheck(policy: Policy, pools: seq<Pool>, claims: seq<Claim>) returns (r: Allocated, ok: bool)
    ensures r.InvalidPolicy? <==> !ValidPolicy(policy, pools)
    ensures r.Allocated? ==> ok
  {
    r := Allocate(policy, pools, claims);
    ok := false;
    if r.Allocated? {
      ok := RecheckTotals(r.rows, r.poolPayouts, |pools|, policy.feeBps);
    }
  }
}
