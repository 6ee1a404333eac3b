/** What the fields of an allocated row mean, in terms of the claim, the policy and the pools. */
module AllocationMeaning {
  import opened ScoreCore
  import opened FloorMath
  import opened Allocation
  import opened U64

  /** The row is the claim's; what is eligible is what is both escrowed and held; the score spent is
      the requested one, unless less of the earned score is left. */
  predicate SpendsOwnScore(claim: Claim, row: Row) {
    && row.claimId == claim.id && row.user == claim.user && row.escrow == claim.escrow
    && row.grossEarned == claim.grossEarned && row.boosterAmount == claim.boosterAmount
    && row.eligible <= claim.minHeld && row.eligible <= claim.escrow
    && (row.eligible == claim.minHeld || row.eligible == claim.escrow)
    && claim.grossEarned <= row.earned + claim.spent
    && (row.earned > 0 ==> row.earned + claim.spent == claim.grossEarned)
    && row.scoreSpent <= claim.scoreToSpend
    && (row.scoreSpent > 0 ==> row.scoreSpent + claim.spent <= claim.grossEarned)
    && (row.eligible == 0 ==> row.scoreSpent == 0)
    && (row.eligible > 0 ==> row.scoreSpent == claim.scoreToSpend || claim.grossEarned <= row.scoreSpent + claim.spent)
  }

  /** The booster that counts is both offered and held; each unit adds its part of the score spent. */
  predicate BoostsByHeld(policy: Policy, claim: Claim, row: Row) {
    && row.eligibleBooster <= claim.boosterAmount && row.eligibleBooster <= claim.boosterHeld
    && (row.eligibleBooster == claim.boosterAmount || row.eligibleBooster == claim.boosterHeld)
    && row.scoreSpent <= row.boosted
    && row.boosted * 10_000 <= row.scoreSpent * (10_000 + row.eligibleBooster * policy.boosterBoostBps)
         < (row.boosted + 1) * 10_000
  }

  /** The loss is the value of what is eligible, less than one price and one unit short of exact. */
  predicate LossIsValue(policy: Policy, row: Row) {
    var exact, unit := row.eligible * policy.twapRatio * policy.underlyingUsd, Pow10(policy.insuredDecimals);
    && row.lossUsd * unit * 1_000_000_000_000_000_000 <= exact
    && exact < ((row.lossUsd + 1) * unit + policy.underlyingUsd) * 1_000_000_000_000_000_000
  }

  /** The payout is within the covered loss and within the claim's share of the budget, and less than
      one short of one of them. */
  predicate PaysShare(policy: Policy, row: Row, budget: nat, total: nat) {
    && row.payoutUsd * 10_000 <= row.lossUsd * policy.coverageBps
    && row.payoutUsd * total <= row.boosted * budget
    && (total == 0 ==> row.payoutUsd == 0)
    && (total > 0 ==>
          || row.lossUsd * policy.coverageBps < (row.payoutUsd + 1) * 10_000
          || row.boosted * budget < (row.payoutUsd + 1) * total)
  }

  /** Each pool gives its part of the payout by value, less than one base unit short. */
  predicate SplitsByValue(pools: seq<Pool>, row: Row) {
    && |row.amounts| == |pools|
    && forall p :: 0 <= p < |pools| ==> PartByValue(pools, row, p)
  }

  predicate PartByValue(pools: seq<Pool>, row: Row, p: nat)
    requires p < |pools| == |row.amounts|
  {
    var part, poolUsd := row.amounts[p], PoolUsd(pools);
    if poolUsd == 0 then part == 0
    else part * poolUsd <= row.payoutUsd * pools[p].balance < (part + 1) * poolUsd
  }

  /** The users' budget: pool USD times the payout limit less the protocol's share, less than two
      short of exact. */
  predicate IsBudget(policy: Policy, pools: seq<Pool>, budget: nat)
    requires policy.feeBps <= MAX_PROTOCOL_FEE_BPS
  {
    var exact := PoolUsd(pools) * policy.maxPayoutBps * (10_000 - policy.feeBps);
    budget * 100_000_000 <= exact < (budget + 2) * 100_000_000
  }

  function BoostTotal(rows: seq<Row>): nat {
    if rows == [] then 0 else BoostTotal(rows[..|rows| - 1]) + rows[|rows| - 1].boosted
  }

  predicate Entitled(policy: Policy, pools: seq<Pool>, claim: Claim, row: Row, budget: nat, total: nat) {
    && SpendsOwnScore(claim, row) && BoostsByHeld(policy, claim, row) && LossIsValue(policy, row)
    && PaysShare(policy, row, budget, total) && SplitsByValue(pools, row)
  }

  /** Every row is what its claim is entitled to, under one budget. */
  ghost predicate Fair(policy: Policy, pools: seq<Pool>, claims: seq<Claim>, rows: seq<Row>)
    requires policy.feeBps <= MAX_PROTOCOL_FEE_BPS
  {
    && |rows| == |claims|
    && exists budget: nat ::
         && IsBudget(policy, pools, budget)
         && forall k :: 0 <= k < |rows| ==> Entitled(policy, pools, claims[k], rows[k], budget, BoostTotal(rows))
  }

  /** What the rows take from pool `p`. */
  function Taken(rows: seq<Row>, p: nat): nat
    requires forall k :: 0 <= k < |rows| ==> p < |rows[k].amounts|
  {
    if rows == [] then 0 else Taken(rows[..|rows| - 1], p) + rows[|rows| - 1].amounts[p]
  }

  /** A pool pays what its rows take and, of what it pays, the protocol's share on top: less than one
      base unit per row short. */
  predicate GrossesUp(policy: Policy, rows: seq<Row>, p: nat, payout: nat)
    requires policy.feeBps <= MAX_PROTOCOL_FEE_BPS && forall k :: 0 <= k < |rows| ==> p < |rows[k].amounts|
  {
    payout * (10_000 - policy.feeBps) <= Taken(rows, p) * 10_000 <= (payout + |rows|) * (10_000 - policy.feeBps)
  }

  ghost predicate PaidInFull(policy: Policy, pools: seq<Pool>, rows: seq<Row>, payouts: seq<nat>)
    requires policy.feeBps <= MAX_PROTOCOL_FEE_BPS
  {
    && |payouts| == |pools| && (forall k :: 0 <= k < |rows| ==> |rows[k].amounts| == |pools|)
    && forall p :: 0 <= p < |pools| ==> GrossesUp(policy, rows, p, payouts[p])
  }

  // ---- The kernel's rows meet this ----

  lemma RowSpends(policy: Policy, claim: Claim)
    ensures SpendsOwnScore(claim, BaseRow(policy, claim))
  {
  }

  lemma RowBoosts(policy: Policy, claim: Claim)
    ensures BoostsByHeld(policy, claim, BaseRow(policy, claim))
  {
    var spent, bonus := ScoreSpent(claim), Min(claim.boosterAmount, claim.boosterHeld) * policy.boosterBoostBps;
    MulDivIs(spent, BPS + bonus, BPS);
    MulDivMonotone(spent, spent, BPS + bonus, BPS);
    AtLeastOnce(spent, bonus, BPS);
    hide MulDiv, ScoreSpent;
    Distribute(Boosted(policy, claim), 1, BPS);
  }

  lemma AtLeastOnce(x: nat, bonus: nat, c: nat)
    requires c > 0
    ensures x <= MulDiv(x, c + bonus, c)
  {
    Scale(c, c + bonus, x);
    Commute(x, c);
    Commute(x, c + bonus);
    FloorAtMost(x, x * (c + bonus), c);
  }

  /** Two floors one after the other. */
  lemma TwoFloors(x: nat, y: nat, c: nat, z: nat, d: nat)
    requires c > 0 && d > 0
    ensures var q := MulDiv(MulDiv(x, y, c), z, d);
            q * d * c <= x * y * z < ((q + 1) * d + z) * c
  {
    var a, q := MulDiv(x, y, c), MulDiv(MulDiv(x, y, c), z, d);
    MulDivIs(x, y, c);
    MulDivIs(a, z, d);
    hide MulDiv;
    Distribute(q, 1, d);
    Distribute(a, 1, c);
    FloorsBelow(a, q, x * y, c, z, d);
    FloorsAbove(a, q, x * y, c, z, d);
  }

  lemma FloorsBelow(a: nat, q: nat, w: nat, c: nat, z: nat, d: nat)
    requires a * c <= w && q * d <= a * z
    ensures q * d * c <= w * z
  {
    Scale(q * d, a * z, c);
    Scale(a * c, w, z);
    Regroup(a, z, c);
  }

  lemma FloorsAbove(a: nat, q: nat, w: nat, c: nat, z: nat, d: nat)
    requires c > 0 && w + 1 <= (a + 1) * c && a * z + 1 <= (q + 1) * d
    ensures w * z < ((q + 1) * d + z) * c
  {
    var e := (q + 1) * d;
    Scale(w + 1, (a + 1) * c, z);
    Regroup(a + 1, c, z);
    Distribute(a, 1, z);
    Distribute(w, 1, z);
    Scale(a * z + z + 1, e + z, c);
    Distribute(a * z + z, 1, c);
  }

  lemma RowLoses(policy: Policy, claim: Claim)
    ensures LossIsValue(policy, BaseRow(policy, claim))
  {
    var eligible, unit := Min(claim.minHeld, claim.escrow), Pow10(policy.insuredDecimals);
    TwoFloors(eligible, policy.twapRatio, WAD, policy.underlyingUsd, unit);
  }

  lemma RowPays(policy: Policy, claim: Claim, budget: nat, total: nat)
    ensures PaysShare(policy, BaseRow(policy, claim).(payoutUsd := PayoutUsd(policy, claim, budget, total)),
                      budget, total)
  {
    hide Boosted, ScoreSpent;
    var loss, boosted := BaseRow(policy, claim).lossUsd, Boosted(policy, claim);
    MulDivIs(loss, policy.coverageBps, BPS);
    var cap := MulDiv(loss, policy.coverageBps, BPS);
    if total == 0 {
      ZeroTimes(budget);
    } else {
      var share := MulDiv(boosted, budget, total);
      MulDivIs(boosted, budget, total);
      hide MulDiv, BaseRow;
      Distribute(share, 1, total);
      Distribute(cap, 1, BPS);
      Scale(Min(share, cap), share, total);
      Scale(Min(share, cap), cap, BPS);
    }
  }

  lemma RowSplits(pools: seq<Pool>, row: Row)
    requires row.amounts == Amounts(row.payoutUsd, pools, PoolUsd(pools))
    ensures SplitsByValue(pools, row)
  {
    forall p | 0 <= p < |pools| ensures PartByValue(pools, row, p) {
      var poolUsd := PoolUsd(pools);
      if poolUsd > 0 {
        MulDivIs(row.payoutUsd, pools[p].balance, poolUsd);
        Distribute(row.amounts[p], 1, poolUsd);
      }
    }
  }

  lemma BudgetIs(policy: Policy, pools: seq<Pool>)
    requires policy.feeBps <= MAX_PROTOCOL_FEE_BPS && policy.maxPayoutBps <= BPS
    ensures IsBudget(policy, pools, MaxTotal(policy, pools))
  {
    hide PoolUsd;
    TwoFloors(PoolUsd(pools), policy.maxPayoutBps, BPS, UserShare(policy), BPS);
    var q := MaxTotal(policy, pools);
    Regroup(q, BPS, BPS);
  }

  lemma {:induction false} BoostTotalIs(policy: Policy, pools: seq<Pool>, claims: seq<Claim>, budget: nat, total: nat)
    ensures BoostTotal(RowsOf(policy, pools, claims, budget, total)) == SumOf(Boosts(policy, claims))
  {
    hide Boosted, PayoutUsd, PoolUsd;
    if claims != [] {
      var init, last := claims[..|claims| - 1], claims[|claims| - 1];
      BoostTotalIs(policy, pools, init, budget, total);
      var rows, boosts := RowsOf(policy, pools, claims, budget, total), Boosts(policy, claims);
      assert rows[..|rows| - 1] == RowsOf(policy, pools, init, budget, total);
      assert boosts[..|boosts| - 1] == Boosts(policy, init);
    }
  }

  lemma RowIsEntitled(policy: Policy, pools: seq<Pool>, claim: Claim, budget: nat, total: nat)
    ensures Entitled(policy, pools, claim, RowOf(policy, pools, claim, budget, total), budget, total)
  {
    RowSpends(policy, claim);
    RowBoosts(policy, claim);
    RowLoses(policy, claim);
    RowPays(policy, claim, budget, total);
    RowSplits(pools, RowOf(policy, pools, claim, budget, total));
    SameFields(policy, pools, claim, RowOf(policy, pools, claim, budget, total), budget, total);
  }

  /** The payout and the amounts play no part in what precedes them. */
  lemma SameFields(policy: Policy, pools: seq<Pool>, claim: Claim, row: Row, budget: nat, total: nat)
    requires row == RowOf(policy, pools, claim, budget, total)
    ensures SpendsOwnScore(claim, BaseRow(policy, claim)) ==> SpendsOwnScore(claim, row)
    ensures BoostsByHeld(policy, claim, BaseRow(policy, claim)) ==> BoostsByHeld(policy, claim, row)
    ensures LossIsValue(policy, BaseRow(policy, claim)) ==> LossIsValue(policy, row)
    ensures PaysShare(policy, BaseRow(policy, claim).(payoutUsd := row.payoutUsd), budget, total) ==>
              PaysShare(policy, row, budget, total)
    ensures row.payoutUsd == PayoutUsd(policy, claim, budget, total)
  {
    hide BaseRow, PayoutUsd, Amounts, PoolUsd;
  }

  /** The kernel's rows are what the claims are entitled to. */
  lemma RowsAreFair(policy: Policy, pools: seq<Pool>, claims: seq<Claim>)
    requires ValidPolicy(policy, pools)
    ensures Fair(policy, pools, claims, Rows(policy, pools, claims))
  {
    hide RowOf, Boosts, IsBudget, Entitled;
    var budget, total := MaxTotal(policy, pools), SumOf(Boosts(policy, claims));
    BudgetIs(policy, pools);
    BoostTotalIs(policy, pools, claims, budget, total);
    var rows := Rows(policy, pools, claims);
    forall k | 0 <= k < |rows| ensures Entitled(policy, pools, claims[k], rows[k], budget, BoostTotal(rows)) {
      RowIsEntitled(policy, pools, claims[k], budget, total);
    }
  }

  lemma {:induction false} GrossedColumn(policy: Policy, rows: seq<Row>, p: nat)
    requires policy.feeBps <= MAX_PROTOCOL_FEE_BPS && forall k :: 0 <= k < |rows| ==> p < |rows[k].amounts|
    ensures GrossesUp(policy, rows, p, PoolPayout(rows, p, UserShare(policy)))
  {
    var share := UserShare(policy);
    if rows != [] {
      var init, last := rows[..|rows| - 1], rows[|rows| - 1];
      GrossedColumn(policy, init, p);
      var column := Column(rows, p);
      assert column[..|column| - 1] == Column(init, p);
      MulDivIs(last.amounts[p], BPS, share);
      hide MulDiv;
      var before, part := PoolPayout(init, p, share), MulDiv(last.amounts[p], BPS, share);
      Distribute(before, part, share);
      Distribute(before + |init|, part + 1, share);
      Distribute(part, 1, share);
      Distribute(Taken(init, p), last.amounts[p], BPS);
    }
  }

  lemma TotalsArePaid(policy: Policy, pools: seq<Pool>, claims: seq<Claim>, payouts: seq<nat>)
    requires ValidPolicy(policy, pools) && |payouts| == |pools|
    requires forall p :: 0 <= p < |pools| ==>
               payouts[p] == PoolPayout(Rows(policy, pools, claims), p, UserShare(policy))
    ensures PaidInFull(policy, pools, Rows(policy, pools, claims), payouts)
  {
    hide PoolPayout, GrossesUp, PoolUsd, BaseRow, PayoutUsd, MaxTotal;
    var rows := Rows(policy, pools, claims);
    forall p | 0 <= p < |pools| ensures GrossesUp(policy, rows, p, payouts[p]) {
      GrossedColumn(policy, rows, p);
    }
  }
}
