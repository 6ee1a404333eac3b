/** The settlement kernel's arithmetic, as functions of its input: rows, payouts and pool totals. */
module Allocation {
  import opened ScoreCore
  import opened FloorMath
  import opened U64

  const BPS: nat := 10_000
  const MAX_COVERAGE_BPS: nat := 8_000
  const MAX_PROTOCOL_FEE_BPS: nat := 2_000
  const WAD: nat := 1_000_000_000_000_000_000

  datatype Pool = Pool(balance: nat, assetUsd: nat, decimals: nat)

  datatype Claim = Claim(
    id: nat, user: nat, escrow: nat, minHeld: nat, grossEarned: nat, spent: nat,
    scoreToSpend: nat, boosterAmount: nat, boosterHeld: nat)

  datatype Policy = Policy(
    coverageBps: nat, boosterBoostBps: nat, insuredDecimals: nat, twapRatio: nat,
    underlyingUsd: nat, maxPayoutBps: nat, feeBps: nat)

  datatype Row = Row(
    claimId: nat, user: nat, escrow: nat, eligible: nat, lossUsd: nat, grossEarned: nat, earned: nat,
    scoreSpent: nat, boosted: nat, boosterAmount: nat, eligibleBooster: nat, payoutUsd: nat, amounts: seq<nat>)

  datatype Allocated = Allocated(rows: seq<Row>, poolPayouts: seq<nat>) | InvalidPolicy

  predicate ValidPolicy(policy: Policy, pools: seq<Pool>) {
    && policy.coverageBps <= MAX_COVERAGE_BPS && policy.maxPayoutBps <= BPS && policy.feeBps <= MAX_PROTOCOL_FEE_BPS
    && 0 < policy.boosterBoostBps <= 65535 && policy.insuredDecimals <= 255
    && forall p :: 0 <= p < |pools| ==> pools[p].decimals <= 255
  }

  // ---- The parts of the result ----

  function ScoreSpent(claim: Claim): nat {
    if Min(claim.minHeld, claim.escrow) == 0 then 0
    else Min(claim.scoreToSpend, if claim.grossEarned > claim.spent then claim.grossEarned - claim.spent else 0)
  }

  function Boosted(policy: Policy, claim: Claim): nat {
    MulDiv(ScoreSpent(claim), BPS + Min(claim.boosterAmount, claim.boosterHeld) * policy.boosterBoostBps, BPS)
  }

  function BaseRow(policy: Policy, claim: Claim): Row {
    var eligible := Min(claim.minHeld, claim.escrow);
    Row(claim.id, claim.user, claim.escrow, eligible,
        MulDiv(MulDiv(eligible, policy.twapRatio, WAD), policy.underlyingUsd, Pow10(policy.insuredDecimals)),
        claim.grossEarned, if claim.grossEarned > claim.spent then claim.grossEarned - claim.spent else 0,
        ScoreSpent(claim), Boosted(policy, claim),
        claim.boosterAmount, Min(claim.boosterAmount, claim.boosterHeld), 0, [])
  }

  function PoolValue(pool: Pool): nat {
    MulDiv(pool.balance, pool.assetUsd, Pow10(pool.decimals))
  }

  function PoolUsd(pools: seq<Pool>): nat {
    if pools == [] then 0 else PoolUsd(pools[..|pools| - 1]) + PoolValue(pools[|pools| - 1])
  }

  function UserShare(policy: Policy): (share: nat)
    requires policy.feeBps <= MAX_PROTOCOL_FEE_BPS
    ensures share > 0
  {
    BPS - policy.feeBps
  }

  /** The users' part of the gross budget. */
  function MaxTotal(policy: Policy, pools: seq<Pool>): nat
    requires policy.feeBps <= MAX_PROTOCOL_FEE_BPS
  {
    MulDiv(MulDiv(PoolUsd(pools), policy.maxPayoutBps, BPS), UserShare(policy), BPS)
  }

  function Boosts(policy: Policy, claims: seq<Claim>): (s: seq<nat>)
    ensures |s| == |claims|
    ensures forall k :: 0 <= k < |claims| ==> s[k] == Boosted(policy, claims[k])
  {
    if claims == [] then []
    else Boosts(policy, claims[..|claims| - 1]) + [Boosted(policy, claims[|claims| - 1])]
  }

  /** A claim's share of the budget by relative score, capped by its covered loss. */
  function PayoutUsd(policy: Policy, claim: Claim, budget: nat, totalBoosted: nat): nat {
    if totalBoosted == 0 then 0
    else Min(MulDiv(Boosted(policy, claim), budget, totalBoosted),
             MulDiv(BaseRow(policy, claim).lossUsd, policy.coverageBps, BPS))
  }

  function Amount(payout: nat, pool: Pool, poolUsd: nat): nat {
    if poolUsd == 0 then 0 else MulDiv(payout, pool.balance, poolUsd)
  }

  function Amounts(payout: nat, pools: seq<Pool>, poolUsd: nat): (s: seq<nat>)
    ensures |s| == |pools|
    ensures forall p :: 0 <= p < |pools| ==> s[p] == Amount(payout, pools[p], poolUsd)
  {
    if pools == [] then []
    else Amounts(payout, pools[..|pools| - 1], poolUsd) + [Amount(payout, pools[|pools| - 1], poolUsd)]
  }

  /** A finished row, given the budget and the score total. */
  function RowOf(policy: Policy, pools: seq<Pool>, claim: Claim, budget: nat, totalBoosted: nat): Row {
    var payout := PayoutUsd(policy, claim, budget, totalBoosted);
    BaseRow(policy, claim).(payoutUsd := payout, amounts := Amounts(payout, pools, PoolUsd(pools)))
  }

  function RowsOf(policy: Policy, pools: seq<Pool>, claims: seq<Claim>, budget: nat, totalBoosted: nat): (s: seq<Row>)
    ensures |s| == |claims|
    ensures forall k :: 0 <= k < |claims| ==> s[k] == RowOf(policy, pools, claims[k], budget, totalBoosted)
  {
    if claims == [] then []
    else RowsOf(policy, pools, claims[..|claims| - 1], budget, totalBoosted)
         + [RowOf(policy, pools, claims[|claims| - 1], budget, totalBoosted)]
  }

  function Rows(policy: Policy, pools: seq<Pool>, claims: seq<Claim>): (s: seq<Row>)
    requires policy.feeBps <= MAX_PROTOCOL_FEE_BPS
    ensures |s| == |claims|
  {
    RowsOf(policy, pools, claims, MaxTotal(policy, pools), SumOf(Boosts(policy, claims)))
  }

  /** What the rows take from pool `p`, before the protocol's share. */
  function Column(rows: seq<Row>, p: nat): (s: seq<nat>)
    ensures |s| == |rows|
  {
    if rows == [] then []
    else
      var last := rows[|rows| - 1];
      Column(rows[..|rows| - 1], p) + [if p < |last.amounts| then last.amounts[p] else 0]
  }

  /** A pool pays each row's amount grossed up by the protocol's share. */
  function PoolPayout(rows: seq<Row>, p: nat, userShare: nat): nat
    requires userShare > 0
  {
    SumMulDiv(Column(rows, p), BPS, userShare)
  }
}
