/** The chain's transfers of one token, the balances they give, and the account states that follow
    them. */
module ScoreLedger {
  import opened ScoreCore
  import opened ScoreMeaning

  type Address = nat

  const ZERO_ADDRESS: Address := 0

  datatype Transfer = Transfer(block: nat, index: nat, from: Address, to: Address, value: nat)

  predicate InOrder(ts: seq<Transfer>) {
    forall i, j :: 0 <= i < j < |ts| ==>
      ts[i].block < ts[j].block || (ts[i].block == ts[j].block && ts[i].index < ts[j].index)
  }

  predicate Before(x: Transfer, y: Transfer) {
    x.block < y.block || (x.block == y.block && x.index < y.index)
  }

  const BY_PLACE: (Transfer, Transfer) -> bool := (x: Transfer, y: Transfer) => Before(x, y)

  /** Net holdings of `a` after all of `ts`. */
  function Net(ts: seq<Transfer>, a: Address): int {
    if ts == [] then 0
    else
      var last := ts[|ts| - 1];
      Net(ts[..|ts| - 1], a) - (if last.from == a then last.value else 0) + (if last.to == a then last.value else 0)
  }

  /** A transfer between two accounts moves its value from one to the other and touches no third. */
  lemma TransferMoves(ts: seq<Transfer>, t: Transfer, a: Address)
    requires t.from != t.to
    ensures Net(ts + [t], t.from) == Net(ts, t.from) - t.value && Net(ts + [t], t.to) == Net(ts, t.to) + t.value
    ensures a != t.from && a != t.to ==> Net(ts + [t], a) == Net(ts, a)
  {
    assert (ts + [t])[..|ts|] == ts;
  }

  /** Transfers in log order, from block 1 on, that never overdraw: every sender but the zero
      address holds what it sends. */
  predicate ValidLedger(ts: seq<Transfer>) {
    && InOrder(ts)
    && (forall i :: 0 <= i < |ts| ==> ts[i].block >= 1)
    && (forall i :: 0 <= i < |ts| && ts[i].from != ZERO_ADDRESS ==> Net(ts[..i], ts[i].from) >= ts[i].value)
  }

  lemma {:induction false} NetIsNatural(ts: seq<Transfer>, a: Address, n: nat)
    requires ValidLedger(ts) && a != ZERO_ADDRESS && n <= |ts|
    ensures Net(ts[..n], a) >= 0
  {
    if n > 0 {
      NetIsNatural(ts, a, n - 1);
      assert ts[..n][..n - 1] == ts[..n - 1];
    }
  }

  /** How many of the first `n` transfers are in blocks up to `block`. */
  function CountUpTo(ts: seq<Transfer>, block: nat, n: nat): (c: nat)
    requires n <= |ts|
    ensures c <= n
  {
    if n == 0 then 0 else if ts[n - 1].block <= block then n else CountUpTo(ts, block, n - 1)
  }

  /** `balanceOf(a)` at a block: the holdings after all its transfers. */
  function BalanceAt(ts: seq<Transfer>, a: Address, block: nat): nat {
    var net := Net(ts[..CountUpTo(ts, block, |ts|)], a);
    if net < 0 then 0 else net
  }

  function Balances(ts: seq<Transfer>, a: Address): nat -> nat {
    (block: nat) => BalanceAt(ts, a, block)
  }

  lemma {:induction false} CountIs(ts: seq<Transfer>, block: nat, n: nat, m: nat)
    requires InOrder(ts) && n <= m <= |ts|
    requires n > 0 ==> ts[n - 1].block <= block
    requires n < m ==> ts[n].block > block
    ensures CountUpTo(ts, block, m) == n
    decreases m
  {
    if n < m {
      CountIs(ts, block, n, m - 1);
    }
  }

  /** Between the blocks of transfers `n - 1` and `n` the balance is that after `n` transfers. */
  lemma BalanceBetween(ts: seq<Transfer>, a: Address, n: nat, block: nat)
    requires ValidLedger(ts) && a != ZERO_ADDRESS && n <= |ts|
    requires n > 0 ==> ts[n - 1].block <= block
    requires n < |ts| ==> ts[n].block > block
    ensures BalanceAt(ts, a, block) == Net(ts[..n], a)
  {
    CountIs(ts, block, n, |ts|);
    NetIsNatural(ts, a, n);
  }

  // ---- The state after a prefix of the ledger ----

  function Next(ts: seq<Transfer>, n: nat, cap: nat): nat {
    if n < |ts| && ts[n].block <= cap then ts[n].block else cap + 1
  }

  /** `st` replays `a` up to transfer `n`: it is the snapshot at its own last block, and the
      balance it holds lasts until the next transfer (or the end `cap`). */
  ghost predicate Follows(ts: seq<Transfer>, a: Address, n: nat, cap: nat, st: AccountState, rates: seq<RatePoint>,
                          decimals: nat, start: nat) {
    && n <= |ts|
    && st == Snapshot(Balances(ts, a), rates, decimals, start, st.lastBlock, st.balance)
    && start <= st.lastBlock <= Next(ts, n, cap)
    && st.balance == Net(ts[..n], a)
    && (forall x: nat :: st.lastBlock <= x < Next(ts, n, cap) ==> BalanceAt(ts, a, x) == st.balance)
  }

  /** A transfer that moves nothing of the account only lengthens the constant stretch. */
  lemma FollowsSkips(ts: seq<Transfer>, a: Address, n: nat, cap: nat, st: AccountState, rates: seq<RatePoint>,
                     decimals: nat, start: nat)
    requires ValidLedger(ts) && a != ZERO_ADDRESS && n < |ts| && ts[n].block <= cap
    requires Follows(ts, a, n, cap, st, rates, decimals, start)
    requires (ts[n].from != a && ts[n].to != a) || ts[n].value == 0
    ensures Follows(ts, a, n + 1, cap, st, rates, decimals, start)
  {
    assert ts[..n + 1][..n] == ts[..n];
    forall x: nat | st.lastBlock <= x < Next(ts, n + 1, cap) ensures BalanceAt(ts, a, x) == st.balance {
      if x >= ts[n].block {
        BalanceBetween(ts, a, n + 1, x);
      }
    }
  }

  /** The sender's leg of a transfer, then the receiver's, as the replay applies them. */
  function BothLegs(st: AccountState, t: Transfer, a: Address, rates: seq<RatePoint>,
                    decimals: nat): (Outcome, AccountState) {
    var (sent, st1) := if t.from == a then ApplyTransfer(st, t.block, 0, t.value, rates, decimals) else (Done, st);
    if sent.Failed? then (sent, st1)
    else if t.to == a then ApplyTransfer(st1, t.block, t.value, 0, rates, decimals) else (Done, st1)
  }

  /** Both legs at once, as the single-account checkpoint applies them. */
  function NetLeg(st: AccountState, t: Transfer, a: Address, rates: seq<RatePoint>,
                  decimals: nat): (Outcome, AccountState) {
    ApplyTransfer(st, t.block, if t.to == a then t.value else 0, if t.from == a then t.value else 0, rates, decimals)
  }

  lemma AdvanceToTransfer(ts: seq<Transfer>, a: Address, n: nat, cap: nat, st: AccountState, rates: seq<RatePoint>,
                          decimals: nat, start: nat)
    requires Ascending(rates) && n < |ts| && ts[n].block <= cap
    requires Follows(ts, a, n, cap, st, rates, decimals, start)
    ensures Advance(st, ts[n].block, rates, decimals) ==
              (Done, Snapshot(Balances(ts, a), rates, decimals, start, ts[n].block, st.balance))
    ensures st.lastBlock <= ts[n].block
  {
    AdvanceKeepsSnapshot(Balances(ts, a), rates, decimals, start, st.lastBlock, ts[n].block, st.balance);
  }

  /** Applying transfer `n`, in one leg or in two, moves on to the state after it. */
  lemma FollowsTransfer(ts: seq<Transfer>, a: Address, n: nat, cap: nat, st: AccountState, rates: seq<RatePoint>,
                        decimals: nat, start: nat)
    requires ValidLedger(ts) && Ascending(rates) && a != ZERO_ADDRESS && n < |ts| && ts[n].block <= cap
    requires Follows(ts, a, n, cap, st, rates, decimals, start)
    requires ts[n].from == a || ts[n].to == a
    ensures BothLegs(st, ts[n], a, rates, decimals) == NetLeg(st, ts[n], a, rates, decimals)
    ensures var (done, st') := NetLeg(st, ts[n], a, rates, decimals);
            done.Done? && Follows(ts, a, n + 1, cap, st', rates, decimals, start) && st'.lastBlock == ts[n].block
  {
    var t := ts[n];
    var f := Balances(ts, a);
    AdvanceToTransfer(ts, a, n, cap, st, rates, decimals, start);
    var there := Snapshot(f, rates, decimals, start, t.block, st.balance);
    assert ts[..n + 1][..n] == ts[..n];
    var st' := NetLeg(st, t, a, rates, decimals).1;
    assert st' == there.(balance := Net(ts[..n + 1], a));
    forall x: nat | t.block <= x < Next(ts, n + 1, cap) ensures BalanceAt(ts, a, x) == st'.balance {
      BalanceBetween(ts, a, n + 1, x);
    }
    LegsAgree(st, t, a, rates, decimals, there);
  }

  /** A second transfer in the same block does not advance the account again. */
  lemma LegsAgree(st: AccountState, t: Transfer, a: Address, rates: seq<RatePoint>, decimals: nat, there: AccountState)
    requires Ascending(rates) && Advance(st, t.block, rates, decimals) == (Done, there) && there.lastBlock == t.block
    requires t.from == a ==> there.balance >= t.value
    requires t.from == a || t.to == a
    ensures BothLegs(st, t, a, rates, decimals) == NetLeg(st, t, a, rates, decimals)
  {
    forall b: nat ensures Advance(there.(balance := b), t.block, rates, decimals) == (Done, there.(balance := b)) {
    }
  }
}
