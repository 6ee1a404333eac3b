/** The lazy incremental route over many accounts: `advance_token` with its slices and tracked
    accounts, driven from genesis (checkpoint) or from the first contributing block (bulk). */
module ScoreReplay {
  import opened Wrappers
  import opened ScoreCore
  import opened ScoreLedger
  import opened ScoreRaw
  import opened U64

  /** Block hashes are values here; this one marks a cursor at genesis. */
  const ZERO_HASH: nat := 0

  type Accounts = map<Address, AccountState>

  function AccountOf(m: Accounts, a: Address): AccountState {
    if a in m then m[a] else DEFAULT_STATE
  }

  predicate Tracks(tracked: Option<set<Address>>, a: Address) {
    a != ZERO_ADDRESS && (tracked.None? || a in tracked.value)
  }

  // ---- One leg, one transfer, one list of transfers ----

  function LegStep(m: Accounts, a: Address, block: nat, value: nat, inflow: bool,
                   rates: seq<RatePoint>, decimals: nat, tracked: Option<set<Address>>): (Outcome, Accounts) {
    if !Tracks(tracked, a) then (Done, m)
    else
      var received, sent := if inflow then value else 0, if inflow then 0 else value;
      var (done, st) := ApplyTransfer(AccountOf(m, a), block, received, sent, rates, decimals);
      (done, m[a := st])
  }

  function TransferStep(m: Accounts, t: Transfer, rates: seq<RatePoint>, decimals: nat,
                        tracked: Option<set<Address>>): (Outcome, Accounts) {
    var (sent, m1) := LegStep(m, t.from, t.block, t.value, false, rates, decimals, tracked);
    if sent.Failed? then (sent, m1) else LegStep(m1, t.to, t.block, t.value, true, rates, decimals, tracked)
  }

  function ReplayTransfers(m: Accounts, w: seq<Transfer>, rates: seq<RatePoint>, decimals: nat,
                           tracked: Option<set<Address>>): (Outcome, Accounts) {
    if w == [] then (Done, m)
    else
      var (done, m1) := ReplayTransfers(m, w[..|w| - 1], rates, decimals, tracked);
      if done.Failed? then (done, m1) else TransferStep(m1, w[|w| - 1], rates, decimals, tracked)
  }

  /** The transfers the reader is asked for: all, or those of tracked accounts. */
  function Relevant(w: seq<Transfer>, tracked: Option<set<Address>>): seq<Transfer> {
    if tracked.None? || w == [] then w
    else
      var rest, last := Relevant(w[..|w| - 1], tracked), w[|w| - 1];
      if last.from in tracked.value || last.to in tracked.value then rest + [last] else rest
  }

  lemma {:induction false} FilterChangesNothing(m: Accounts, w: seq<Transfer>, rates: seq<RatePoint>, decimals: nat,
                                                tracked: Option<set<Address>>)
    ensures ReplayTransfers(m, Relevant(w, tracked), rates, decimals, tracked) ==
              ReplayTransfers(m, w, rates, decimals, tracked)
  {
    if tracked.Some? && w != [] {
      FilterChangesNothing(m, w[..|w| - 1], rates, decimals, tracked);
      var rest, last := Relevant(w[..|w| - 1], tracked), w[|w| - 1];
      if last.from in tracked.value || last.to in tracked.value {
        assert (rest + [last])[..|rest|] == rest;
      }
    }
  }

  lemma {:induction false} ReplayAppends(m: Accounts, x: seq<Transfer>, y: seq<Transfer>, rates: seq<RatePoint>,
                                         decimals: nat, tracked: Option<set<Address>>)
    ensures var (done, m1) := ReplayTransfers(m, x, rates, decimals, tracked);
            ReplayTransfers(m, x + y, rates, decimals, tracked) ==
              if done.Failed? then (done, m1) else ReplayTransfers(m1, y, rates, decimals, tracked)
  {
    if y == [] {
      assert x + y == x;
    } else {
      ReplayAppends(m, x, y[..|y| - 1], rates, decimals, tracked);
      assert (x + y)[..|x + y| - 1] == x + y[..|y| - 1];
    }
  }

  lemma ReplayExtends(m: Accounts, w: seq<Transfer>, k: nat, rates: seq<RatePoint>, decimals: nat,
                      tracked: Option<set<Address>>)
    requires k < |w| && ReplayTransfers(m, w[..k], rates, decimals, tracked).0.Done?
    ensures var step := TransferStep(ReplayTransfers(m, w[..k], rates, decimals, tracked).1, w[k], rates, decimals,
                                     tracked);
            && ReplayTransfers(m, w[..k + 1], rates, decimals, tracked) == step
            && (step.0.Failed? ==> ReplayTransfers(m, w, rates, decimals, tracked) == step)
  {
    assert w[..k + 1][..k] == w[..k];
    ReplayAppends(m, w[..k + 1], w[k + 1..], rates, decimals, tracked);
    assert w[..k + 1] + w[k + 1..] == w;
  }

  /** The replay of the blocks `from < b <= end`. */
  function ReplayBlocks(m: Accounts, ts: seq<Transfer>, from: nat, end: nat, rates: seq<RatePoint>, decimals: nat,
                        tracked: Option<set<Address>>): (Outcome, Accounts) {
    ReplayTransfers(m, Window(ts, from, end), rates, decimals, tracked)
  }

  lemma ReplayNothing(m: Accounts, ts: seq<Transfer>, from: nat, rates: seq<RatePoint>, decimals: nat,
                      tracked: Option<set<Address>>)
    ensures ReplayBlocks(m, ts, from, from, rates, decimals, tracked) == (Done, m)
  {
    assert Window(ts, from, from) == [];
  }

  /** Any slicing of a range replays the same transfers in the same order. */
  lemma ReplaySlices(m: Accounts, ts: seq<Transfer>, from: nat, mid: nat, end: nat, rates: seq<RatePoint>,
                     decimals: nat, tracked: Option<set<Address>>)
    requires InOrder(ts) && from <= mid <= end
    ensures var (done, m1) := ReplayBlocks(m, ts, from, mid, rates, decimals, tracked);
            ReplayBlocks(m, ts, from, end, rates, decimals, tracked) ==
              if done.Failed? then (done, m1) else ReplayBlocks(m1, ts, mid, end, rates, decimals, tracked)
  {
    WindowSplits(ts, from, mid, end);
    ReplayAppends(m, Window(ts, from, mid), Window(ts, mid, end), rates, decimals, tracked);
  }

  // ---- In place ----

  datatype TokenResult = Advanced | AheadOfTarget | ZeroRange | CoreError(error: ScoreError)

  class TokenState {
    const decimals: nat
    var cursorBlock: nat
    var cursorHash: nat
    var rates: seq<RatePoint>
    var accounts: Accounts

    constructor (decimals: nat, cursor: nat, hash: nat, rates: seq<RatePoint>, accounts: Accounts)
      ensures this.decimals == decimals && cursorBlock == cursor && cursorHash == hash
      ensures this.rates == rates && this.accounts == accounts
    {
      this.decimals, cursorBlock, cursorHash, this.rates, this.accounts := decimals, cursor, hash, rates, accounts;
    }

    method ApplyTransferDelta(current: seq<RatePoint>, a: Address, block: nat, value: nat, inflow: bool,
                              tracked: Option<set<Address>>)
      returns (done: Outcome)
      modifies this`accounts
      ensures (done, accounts) == LegStep(old(accounts), a, block, value, inflow, current, decimals, tracked)
    {
      if !Tracks(tracked, a) {
        return Done;
      }
      var account := new AccountScore(AccountOf(accounts, a));
      if inflow {
        done := account.Transfer(block, value, 0, current, decimals);
      } else {
        done := account.Transfer(block, 0, value, current, decimals);
      }
      accounts := accounts[a := account.View()];
    }

    /** The sender's leg, then the receiver's. */
    method ApplyBothLegs(t: Transfer, current: seq<RatePoint>, tracked: Option<set<Address>>) returns (done: Outcome)
      modifies this`accounts
      ensures (done, accounts) == TransferStep(old(accounts), t, current, decimals, tracked)
    {
      done := ApplyTransferDelta(current, t.from, t.block, t.value, false, tracked);
      if done.Done? {
        done := ApplyTransferDelta(current, t.to, t.block, t.value, true, tracked);
      }
    }

    method ApplyTransfers(w: seq<Transfer>, current: seq<RatePoint>, tracked: Option<set<Address>>)
      returns (done: Outcome)
      modifies this`accounts
      ensures (done, accounts) == ReplayTransfers(old(accounts), w, current, decimals, tracked)
    {
      ghost var before := accounts;
      done := Done;
      var k := 0;
      while k < |w|
        invariant 0 <= k <= |w| && done.Done?
        invariant (done, accounts) == ReplayTransfers(before, w[..k], current, decimals, tracked)
      {
        ReplayExtends(before, w, k, current, decimals, tracked);
        done := ApplyBothLegs(w[k], current, tracked);
        if done.Failed? {
          return;
        }
        k := k + 1;
      }
      assert w[..k] == w;
    }

    /** One read of the logs, unfiltered or narrowed to tracked accounts, and its replay. */
    method AdvanceSlice(ts: seq<Transfer>, current: seq<RatePoint>, after: nat, last: nat,
                        tracked: Option<set<Address>>)
      returns (done: Outcome)
      modifies this`accounts
      ensures (done, accounts) == ReplayBlocks(old(accounts), ts, after, last, current, decimals, tracked)
    {
      FilterChangesNothing(accounts, Window(ts, after, last), current, decimals, tracked);
      done := ApplyTransfers(Relevant(Window(ts, after, last), tracked), current, tracked);
    }

    /** The loop over slices, from the block after `after`. */
    method AdvanceSlices(ts: seq<Transfer>, current: seq<RatePoint>, after: nat, target: nat, maxRange: nat,
                         tracked: Option<set<Address>>)
      returns (done: Outcome)
      requires InOrder(ts) && after <= target && maxRange > 0
      modifies this`accounts
      ensures (done, accounts) == ReplayBlocks(old(accounts), ts, after, target, current, decimals, tracked)
    {
      hide ReplayBlocks;
      ghost var whole := ReplayBlocks(accounts, ts, after, target, current, decimals, tracked);
      var sliceFrom := after + 1;
      while sliceFrom <= target
        invariant after < sliceFrom <= target + 1
        invariant whole == ReplayBlocks(accounts, ts, sliceFrom - 1, target, current, decimals, tracked)
      {
        var sliceTo := Min(sliceFrom + (maxRange - 1), target);
        ReplaySlices(accounts, ts, sliceFrom - 1, sliceTo, target, current, decimals, tracked);
        done := AdvanceSlice(ts, current, sliceFrom - 1, sliceTo, tracked);
        if done.Failed? {
          return;
        }
        sliceFrom := sliceTo + 1;
      }
      ReplayNothing(accounts, ts, target, current, decimals, tracked);
      done := Done;
    }

    predicate SameCursor(block: nat, hash: nat, stored: seq<RatePoint>)
      reads this
    {
      cursorBlock == block && cursorHash == hash && rates == stored
    }

    /** `ts` is the chain: each slice reads the transfers of its blocks. `hashOf` gives its block
        hashes. */
    method AdvanceToken(ts: seq<Transfer>, current: seq<RatePoint>, target: nat, maxRange: nat,
                        tracked: Option<set<Address>>, hashOf: nat -> nat)
      returns (r: TokenResult)
      requires InOrder(ts)
      modifies this
      ensures target < old(cursorBlock) ==> r == AheadOfTarget
      ensures target == old(cursorBlock) ==> r == Advanced
      ensures target > old(cursorBlock) && maxRange == 0 ==> r == ZeroRange
      ensures target <= old(cursorBlock) || maxRange == 0 ==>
                SameCursor(old(cursorBlock), old(cursorHash), old(rates)) && accounts == old(accounts)
      ensures target > old(cursorBlock) && maxRange > 0 ==>
                var (done, m) := ReplayBlocks(old(accounts), ts, old(cursorBlock), target, current, decimals, tracked);
                && accounts == m
                && (done.Done? ==> r == Advanced && SameCursor(target, hashOf(target), current))
                && (done.Failed? ==>
                      r == CoreError(done.error) && SameCursor(old(cursorBlock), old(cursorHash), old(rates)))
    {
      if target < cursorBlock {
        return AheadOfTarget;
      }
      if target == cursorBlock {
        return Advanced;
      }
      if maxRange == 0 {
        return ZeroRange;
      }
      var done := AdvanceSlices(ts, current, cursorBlock, target, maxRange, tracked);
      if done.Failed? {
        return CoreError(done.error);
      }
      cursorBlock := target;
      cursorHash := hashOf(target);
      rates := current;
      r := Advanced;
    }
  }
}
