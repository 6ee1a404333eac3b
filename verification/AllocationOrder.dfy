/** How one claim affects the others' payouts: spending more score never hurts oneself or helps
    another, and a claim with nothing eligible changes nothing. */
module AllocationOrder {
  import opened FloorMath
  import opened Allocation
  import opened U64

  // ---- Spending more score ----

  function Raised(claims: seq<Claim>, k: nat, score: nat): seq<Claim>
    requires k < |claims|
  {
    claims[k := claims[k].(scoreToSpend := score)]
  }

  lemma BoostGrows(policy: Policy, claim: Claim, score: nat)
    requires claim.scoreToSpend <= score
    ensures Boosted(policy, claim) <= Boosted(policy, claim.(scoreToSpend := score))
  {
    hide MulDiv;
    MulDivMonotone(ScoreSpent(claim), ScoreSpent(claim.(scoreToSpend := score)),
                   BPS + Min(claim.boosterAmount, claim.boosterHeld) * policy.boosterBoostBps, BPS);
  }

  /** A part keeps growing relative to a total that grows with it. */
  lemma ShareGrows(part: nat, part': nat, total: nat, total': nat, budget: nat)
    requires 0 < total && part <= part' && part <= total && total' == total + (part' - part)
    ensures MulDiv(part, budget, total) <= MulDiv(part', budget, total')
  {
    hide MulDiv;
    CrossGrows(part, total, part' - part);
    MulDivCross(part, total, part', total', budget);
  }

  lemma CrossGrows(part: nat, total: nat, d: nat)
    requires part <= total
    ensures part * (total + d) <= (part + d) * total
  {
    Scale(part, total, d);
    Distribute(part, d, total);
    Distribute(total, d, part);
    Commute(part, total + d);
    Commute(total, part);
    Commute(d, part);
    Commute(total, d);
  }

  lemma ShareShrinks(part: nat, total: nat, total': nat, budget: nat)
    requires 0 < total <= total'
    ensures MulDiv(part, budget, total') <= MulDiv(part, budget, total)
  {
    hide MulDiv;
    Scale(total, total', part);
    Commute(total, part);
    Commute(total', part);
    MulDivCross(part, total', part, total, budget);
  }

  lemma TotalGrows(policy: Policy, claims: seq<Claim>, k: nat, score: nat)
    requires k < |claims| && claims[k].scoreToSpend <= score
    ensures var b, b' := Boosted(policy, claims[k]), Boosted(policy, Raised(claims, k, score)[k]);
            && b <= b' && b <= SumOf(Boosts(policy, claims))
            && SumOf(Boosts(policy, Raised(claims, k, score))) == SumOf(Boosts(policy, claims)) - b + b'
  {
    hide Boosted, Boosts;
    BoostGrows(policy, claims[k], score);
    var boosts := Boosts(policy, claims);
    var b' := Boosted(policy, Raised(claims, k, score)[k]);
    assert Boosts(policy, Raised(claims, k, score)) == boosts[k := b'];
    SumOfUpdate(boosts, k, b');
    SumBounds(boosts, k);
  }

  lemma AmountGrows(payout: nat, payout': nat, pool: Pool, poolUsd: nat)
    requires payout <= payout'
    ensures Amount(payout, pool, poolUsd) <= Amount(payout', pool, poolUsd)
  {
    hide MulDiv;
    if poolUsd > 0 {
      MulDivMonotone(payout, payout', pool.balance, poolUsd);
    }
  }

  /** Raising one claim's spent score: its payout and its amount from every pool do not fall,
      and nobody else's rises. */
  lemma SpendingMoreScore(policy: Policy, pools: seq<Pool>, claims: seq<Claim>, k: nat, score: nat, j: nat)
    requires ValidPolicy(policy, pools) && k < |claims| && j < |claims| && claims[k].scoreToSpend <= score
    ensures var was, now := Rows(policy, pools, claims)[j], Rows(policy, pools, Raised(claims, k, score))[j];
            if j == k
            then was.payoutUsd <= now.payoutUsd && forall p :: 0 <= p < |pools| ==> was.amounts[p] <= now.amounts[p]
            else now.payoutUsd <= was.payoutUsd && forall p :: 0 <= p < |pools| ==> now.amounts[p] <= was.amounts[p]
  {
    var claims' := Raised(claims, k, score);
    var before, after := Rows(policy, pools, claims)[j].payoutUsd, Rows(policy, pools, claims')[j].payoutUsd;
    PayoutMoves(policy, pools, claims, k, score, j);
    forall p | 0 <= p < |pools|
      ensures before <= after ==> Amount(before, pools[p], PoolUsd(pools)) <= Amount(after, pools[p], PoolUsd(pools))
      ensures after <= before ==> Amount(after, pools[p], PoolUsd(pools)) <= Amount(before, pools[p], PoolUsd(pools))
    {
      if before <= after {
        AmountGrows(before, after, pools[p], PoolUsd(pools));
      }
      if after <= before {
        AmountGrows(after, before, pools[p], PoolUsd(pools));
      }
    }
  }

  lemma PayoutIs(policy: Policy, pools: seq<Pool>, claims: seq<Claim>, j: nat)
    requires policy.feeBps <= MAX_PROTOCOL_FEE_BPS && j < |claims|
    ensures Rows(policy, pools, claims)[j].payoutUsd ==
              PayoutUsd(policy, claims[j], MaxTotal(policy, pools), SumOf(Boosts(policy, claims)))
  {
  }

  lemma PayoutMoves(policy: Policy, pools: seq<Pool>, claims: seq<Claim>, k: nat, score: nat, j: nat)
    requires ValidPolicy(policy, pools) && k < |claims| && j < |claims| && claims[k].scoreToSpend <= score
    ensures var before, after :=
              Rows(policy, pools, claims)[j].payoutUsd, Rows(policy, pools, Raised(claims, k, score))[j].payoutUsd;
            if j == k then before <= after else after <= before
  {
    hide Boosts, MulDiv, Boosted, PoolUsd, MaxTotal, SumOf, Rows;
    var claims' := Raised(claims, k, score);
    PayoutIs(policy, pools, claims, j);
    PayoutIs(policy, pools, claims', j);
    var budget := MaxTotal(policy, pools);
    var total, total' := SumOf(Boosts(policy, claims)), SumOf(Boosts(policy, claims'));
    TotalGrows(policy, claims, k, score);
    SumBounds(Boosts(policy, claims), j);
    var b, b' := Boosted(policy, claims[j]), Boosted(policy, claims'[j]);
    if total == 0 {
      if total' > 0 {
        MulDivZero(budget, total');
      }
    } else if j == k {
      ShareGrows(b, b', total, total', budget);
    } else {
      ShareShrinks(b, total, total', budget);
    }
  }

  // ---- Claims with nothing eligible ----

  function Joined(claims: seq<Claim>, i: nat, z: Claim): seq<Claim>
    requires i <= |claims|
  {
    claims[..i] + [z] + claims[i..]
  }

  lemma IneligibleScores(policy: Policy, z: Claim)
    requires Min(z.minHeld, z.escrow) == 0
    ensures Boosted(policy, z) == 0
  {
    hide MulDiv;
    MulDivZero(BPS + Min(z.boosterAmount, z.boosterHeld) * policy.boosterBoostBps, BPS);
  }

  lemma TotalUnchanged(policy: Policy, claims: seq<Claim>, i: nat, z: Claim)
    requires i <= |claims| && Min(z.minHeld, z.escrow) == 0
    ensures SumOf(Boosts(policy, Joined(claims, i, z))) == SumOf(Boosts(policy, claims))
  {
    hide Boosted, Boosts;
    IneligibleScores(policy, z);
    var boosts := Boosts(policy, claims);
    assert Boosts(policy, Joined(claims, i, z)) == boosts[..i] + [0] + boosts[i..];
    SumAppends(boosts[..i], [0]);
    SumAppends(boosts[..i] + [0], boosts[i..]);
    SumAppends(boosts[..i], boosts[i..]);
    assert boosts[..i] + boosts[i..] == boosts;
    assert SumOf([0]) == 0;
  }

  lemma {:induction false} ColumnAppends(x: seq<Row>, y: seq<Row>, p: nat)
    ensures Column(x + y, p) == Column(x, p) + Column(y, p)
  {
    if y == [] {
      assert x + y == x;
    } else {
      ColumnAppends(x, y[..|y| - 1], p);
      assert (x + y)[..|x + y| - 1] == x + y[..|y| - 1];
    }
  }

  lemma PayoutAppends(x: seq<Row>, y: seq<Row>, p: nat, userShare: nat)
    requires userShare > 0
    ensures PoolPayout(x + y, p, userShare) == PoolPayout(x, p, userShare) + PoolPayout(y, p, userShare)
  {
    ColumnAppends(x, y, p);
    SumMulDivAppends(Column(x, p), Column(y, p), BPS, userShare);
  }

  lemma PoorRow(policy: Policy, pools: seq<Pool>, z: Claim, budget: nat, total: nat)
    requires Min(z.minHeld, z.escrow) == 0
    ensures var row := RowOf(policy, pools, z, budget, total);
            row.payoutUsd == 0 && forall p :: 0 <= p < |pools| ==> row.amounts[p] == 0
  {
    hide MulDiv, Boosted;
    IneligibleScores(policy, z);
    if total > 0 {
      MulDivZero(budget, total);
    }
    if PoolUsd(pools) > 0 {
      forall p | 0 <= p < |pools| ensures MulDiv(0, pools[p].balance, PoolUsd(pools)) == 0 {
        MulDivZero(pools[p].balance, PoolUsd(pools));
      }
    }
  }

  lemma ColumnOfOne(row: Row, p: nat)
    requires p < |row.amounts|
    ensures Column([row], p) == [row.amounts[p]]
  {
    var rows := [row];
    assert rows[..|rows| - 1] == [];
  }

  lemma ZeroRowPaysNothing(row: Row, p: nat, userShare: nat)
    requires userShare > 0 && p < |row.amounts| && row.amounts[p] == 0
    ensures PoolPayout([row], p, userShare) == 0
  {
    hide Column, SumMulDiv, MulDiv;
    ColumnOfOne(row, p);
    SumMulDivOfOne(row.amounts[p], BPS, userShare);
    MulDivZero(BPS, userShare);
  }

  /** A claim with nothing eligible, put anywhere: every other row and every pool total stays the
      same, and its own row pays nothing. */
  lemma IneligibleIsNeutral(policy: Policy, pools: seq<Pool>, claims: seq<Claim>, i: nat, z: Claim)
    requires ValidPolicy(policy, pools) && i <= |claims| && Min(z.minHeld, z.escrow) == 0
    ensures var rows, rows' := Rows(policy, pools, claims), Rows(policy, pools, Joined(claims, i, z));
            && rows'[..i] + rows'[i + 1..] == rows
            && rows'[i].payoutUsd == 0
            && forall p: nat :: p < |pools| ==>
                 rows'[i].amounts[p] == 0
                   && PoolPayout(rows', p, UserShare(policy)) == PoolPayout(rows, p, UserShare(policy))
  {
    hide Boosts, MulDiv, Boosted, PoolUsd, RowOf, PoolPayout, MaxTotal, SumOf;
    var rows, rows' := Rows(policy, pools, claims), Rows(policy, pools, Joined(claims, i, z));
    TotalUnchanged(policy, claims, i, z);
    PoorRow(policy, pools, z, MaxTotal(policy, pools), SumOf(Boosts(policy, claims)));
    assert rows' == rows[..i] + [rows'[i]] + rows[i..];
    assert rows[..i] + rows[i..] == rows;
    var share := UserShare(policy);
    WidthOfRow(policy, pools, z, MaxTotal(policy, pools), SumOf(Boosts(policy, claims)));
    forall p: nat | p < |pools| ensures PoolPayout(rows', p, share) == PoolPayout(rows, p, share) {
      PayoutAppends(rows[..i], [rows'[i]], p, share);
      PayoutAppends(rows[..i] + [rows'[i]], rows[i..], p, share);
      PayoutAppends(rows[..i], rows[i..], p, share);
      ZeroRowPaysNothing(rows'[i], p, share);
    }
  }

  lemma WidthOfRow(policy: Policy, pools: seq<Pool>, z: Claim, budget: nat, total: nat)
    ensures |RowOf(policy, pools, z, budget, total).amounts| == |pools|
  {
  }
}
