/** The incremental score state of one account under one token's rate history, and what it
    means: a per-block balance sum, scaled and rounded down once per rate segment. */
module ScoreCore {
  import opened Wrappers
  import opened U64

  const SCORE_SCALE: nat := 1_000_000_000_000_000_000

  datatype RatePoint = RatePoint(fromBlock: nat, rate: nat)

  datatype AccountState = AccountState(
    balance: nat,
    lastBlock: nat,
    completedNumerator: nat,
    activeSegmentFrom: Option<nat>,
    activeIntegral: nat)

  const DEFAULT_STATE := AccountState(0, 0, 0, None, 0)

  datatype ScoreError =
    | RatesNotAscending
    | Backward(from: nat, to: nat)
    | MissingRate(from: nat)
    | BalanceUnderflow(block: nat)

  datatype Outcome = Done | Failed(error: ScoreError)

  predicate Ascending(rates: seq<RatePoint>) {
    forall i, j :: 0 <= i < j < |rates| ==> rates[i].fromBlock < rates[j].fromBlock
  }

  function Pow10(n: nat): (p: nat)
    ensures p > 0
  {
    if n == 0 then 1 else 10 * Pow10(n - 1)
  }

  /** The product as repeated addition, which keeps the proofs about it linear. */
  function Times(a: nat, b: nat): nat {
    if b == 0 then 0 else Times(a, b - 1) + a
  }

  lemma {:induction false} TimesIsProduct(a: nat, b: nat)
    ensures Times(a, b) == a * b
  {
    if b > 0 {
      TimesIsProduct(a, b - 1);
      assert a * b == a * (b - 1) + a;
    }
  }

  function Over(a: nat, b: nat): nat
    requires b > 0
  {
    a / b
  }

  function Scaled(integral: nat, decimals: nat): nat {
    if decimals <= 18 then Times(integral, Pow10(18 - decimals)) else Over(integral, Pow10(decimals - 18))
  }

  /** The first rate whose segment starts at `from`. */
  function RateFor(rates: seq<RatePoint>, from: nat): Option<nat> {
    if rates == [] then None
    else if rates[0].fromBlock == from then Some(rates[0].rate)
    else RateFor(rates[1..], from)
  }

  /** Where segment `k` ends within a replay up to `t`. */
  function SegmentEnd(rates: seq<RatePoint>, k: nat, t: nat): nat
    requires k < |rates|
  {
    if k + 1 < |rates| then Min(rates[k + 1].fromBlock, t) else t
  }

  // ---- The operations, as functions of the state ----

  function Finalize(st: AccountState, rates: seq<RatePoint>, decimals: nat): (Outcome, AccountState) {
    if st.activeSegmentFrom.None? then (Done, st)
    else
      match RateFor(rates, st.activeSegmentFrom.value)
      case None => (Failed(MissingRate(st.activeSegmentFrom.value)), st)
      case Some(rate) =>
        (Done, st.(completedNumerator := st.completedNumerator + Times(Scaled(st.activeIntegral, decimals), rate),
                   activeSegmentFrom := None, activeIntegral := 0))
  }

  /** One segment of an advance to block `to`. */
  function AddSegment(st: AccountState, to: nat, rates: seq<RatePoint>, decimals: nat, k: nat): (Outcome, AccountState)
    requires k < |rates|
  {
    var from, end := Max(st.lastBlock, rates[k].fromBlock), SegmentEnd(rates, k, to);
    if from >= end then (Done, st)
    else
      var here := Some(rates[k].fromBlock);
      var (closing, st1) := if st.activeSegmentFrom != here then Finalize(st, rates, decimals) else (Done, st);
      if closing.Failed? then (closing, st1)
      else
        var st2 := if st.activeSegmentFrom != here then st1.(activeSegmentFrom := here, activeIntegral := 0) else st1;
        var st3 := st2.(activeIntegral := st2.activeIntegral + Times(st2.balance, end - from));
        if k + 1 < |rates| && end == rates[k + 1].fromBlock && rates[k + 1].fromBlock <= to
        then Finalize(st3, rates, decimals) else (Done, st3)
  }

  function AddSegments(st: AccountState, to: nat, rates: seq<RatePoint>, decimals: nat, k: nat): (Outcome, AccountState)
    requires k <= |rates|
  {
    if k == 0 then (Done, st)
    else
      var (before, st') := AddSegments(st, to, rates, decimals, k - 1);
      if before.Failed? then (before, st') else AddSegment(st', to, rates, decimals, k - 1)
  }

  function Advance(st: AccountState, to: nat, rates: seq<RatePoint>, decimals: nat): (Outcome, AccountState) {
    if !Ascending(rates) then (Failed(RatesNotAscending), st)
    else if to < st.lastBlock then (Failed(Backward(st.lastBlock, to)), st)
    else if to == st.lastBlock then (Done, st)
    else
      var (done, st') := AddSegments(st, to, rates, decimals, |rates|);
      if done.Failed? then (done, st') else (Done, st'.(lastBlock := to))
  }

  function ApplyTransfer(st: AccountState, block: nat, inflow: nat, outflow: nat, rates: seq<RatePoint>,
                         decimals: nat): (Outcome, AccountState) {
    var (done, st') := Advance(st, block, rates, decimals);
    if done.Failed? then (done, st')
    else if inflow >= outflow then (Done, st'.(balance := st'.balance + (inflow - outflow)))
    else if outflow - inflow > st'.balance then (Failed(BalanceUnderflow(block)), st')
    else (Done, st'.(balance := st'.balance - (outflow - inflow)))
  }

  function Projected(st: AccountState, to: nat, rates: seq<RatePoint>, decimals: nat): Option<nat> {
    var (done, st') := Advance(st, to, rates, decimals);
    if done.Failed? then None
    else if st'.activeSegmentFrom.None? then Some(st'.completedNumerator)
    else
      match RateFor(rates, st'.activeSegmentFrom.value)
      case None => None
      case Some(rate) => Some(st'.completedNumerator + Times(Scaled(st'.activeIntegral, decimals), rate))
  }

  // ---- The operations, in place ----

  class AccountScore {
    var balance: nat
    var lastBlock: nat
    var completedNumerator: nat
    var activeSegmentFrom: Option<nat>
    var activeIntegral: nat

    constructor (st: AccountState)
      ensures View() == st
    {
      balance, lastBlock, completedNumerator := st.balance, st.lastBlock, st.completedNumerator;
      activeSegmentFrom, activeIntegral := st.activeSegmentFrom, st.activeIntegral;
    }

    function View(): AccountState
      reads this
    {
      AccountState(balance, lastBlock, completedNumerator, activeSegmentFrom, activeIntegral)
    }

    method FinalizeActive(rates: seq<RatePoint>, decimals: nat) returns (done: Outcome)
      modifies this
      ensures (done, View()) == Finalize(old(View()), rates, decimals)
    {
      if activeSegmentFrom.None? {
        return Done;
      }
      var rate := RateFor(rates, activeSegmentFrom.value);
      if rate.None? {
        return Failed(MissingRate(activeSegmentFrom.value));
      }
      completedNumerator := completedNumerator + Times(Scaled(activeIntegral, decimals), rate.value);
      activeSegmentFrom := None;
      activeIntegral := 0;
      done := Done;
    }

    method AdvanceAccount(toBlock: nat, rates: seq<RatePoint>, decimals: nat) returns (done: Outcome)
      modifies this
      ensures (done, View()) == Advance(old(View()), toBlock, rates, decimals)
    {
      if !Ascending(rates) {
        return Failed(RatesNotAscending);
      }
      if toBlock < lastBlock {
        return Failed(Backward(lastBlock, toBlock));
      }
      if toBlock == lastBlock {
        return Done;
      }
      ghost var start := View();
      var k := 0;
      while k < |rates|
        invariant 0 <= k <= |rates|
        invariant (Done, View()) == AddSegments(start, toBlock, rates, decimals, k)
      {
        done := AdvanceSegment(k, toBlock, rates, decimals);
        if done.Failed? {
          AddSegmentsFail(start, toBlock, rates, decimals, k + 1, |rates|);
          return done;
        }
        k := k + 1;
      }
      lastBlock := toBlock;
      done := Done;
    }

    /** The body of the loop over rate points. */
    method AdvanceSegment(k: nat, toBlock: nat, rates: seq<RatePoint>, decimals: nat) returns (done: Outcome)
      requires k < |rates|
      modifies this
      ensures (done, View()) == AddSegment(old(View()), toBlock, rates, decimals, k)
    {
      var overlapFrom, overlapTo := Max(lastBlock, rates[k].fromBlock), SegmentEnd(rates, k, toBlock);
      if overlapFrom >= overlapTo {
        return Done;
      }
      if activeSegmentFrom != Some(rates[k].fromBlock) {
        done := FinalizeActive(rates, decimals);
        if done.Failed? {
          return;
        }
        activeSegmentFrom := Some(rates[k].fromBlock);
        activeIntegral := 0;
      }
      activeIntegral := activeIntegral + Times(balance, overlapTo - overlapFrom);
      done := Done;
      if k + 1 < |rates| && overlapTo == rates[k + 1].fromBlock && rates[k + 1].fromBlock <= toBlock {
        done := FinalizeActive(rates, decimals);
      }
    }

    method Transfer(block: nat, inflow: nat, outflow: nat, rates: seq<RatePoint>, decimals: nat) returns (done: Outcome)
      modifies this
      ensures (done, View()) == ApplyTransfer(old(View()), block, inflow, outflow, rates, decimals)
    {
      done := AdvanceAccount(block, rates, decimals);
      if done.Failed? {
        return;
      }
      if inflow >= outflow {
        balance := balance + (inflow - outflow);
      } else {
        var decrease := outflow - inflow;
        if decrease > balance {
          return Failed(BalanceUnderflow(block));
        }
        balance := balance - decrease;
      }
    }
  }

  lemma {:induction false} AddSegmentsFail(st: AccountState, to: nat, rates: seq<RatePoint>, decimals: nat, j: nat,
                                           k: nat)
    requires j <= k <= |rates| && AddSegments(st, to, rates, decimals, j).0.Failed?
    ensures AddSegments(st, to, rates, decimals, k) == AddSegments(st, to, rates, decimals, j)
    decreases k
  {
    if j < k {
      AddSegmentsFail(st, to, rates, decimals, j, k - 1);
    }
  }

  // ---- Per-block sums ----

  /** The sum of `f(b)` over the blocks `from <= b < end`. */
  function Sum(f: nat -> nat, from: nat, end: nat): nat
    decreases end
  {
    if from >= end then 0 else Sum(f, from, end - 1) + f(end - 1)
  }

  lemma {:induction false} SumSplits(f: nat -> nat, a: nat, b: nat, c: nat)
    requires a <= b <= c
    ensures Sum(f, a, c) == Sum(f, a, b) + Sum(f, b, c)
    decreases c
  {
    if b < c {
      SumSplits(f, a, b, c - 1);
    }
  }

  lemma {:induction false} SumOfConstant(f: nat -> nat, a: nat, b: nat, v: nat)
    requires a <= b && forall x: nat :: a <= x < b ==> f(x) == v
    ensures Sum(f, a, b) == Times(v, b - a)
    decreases b
  {
    if a < b {
      SumOfConstant(f, a, b - 1, v);
    }
  }

  /** The integral of segment `k`, clipped to the replayed blocks `start <= b < t`. */
  function Integral(f: nat -> nat, rates: seq<RatePoint>, start: nat, t: nat, k: nat): nat
    requires k < |rates|
  {
    Sum(f, Max(rates[k].fromBlock, start), SegmentEnd(rates, k, t))
  }

  /** The specification: each of the first `n` segments is summed block by block, scaled (and
      so rounded) once, and weighted with its rate. */
  function Numerator(f: nat -> nat, rates: seq<RatePoint>, decimals: nat, start: nat, t: nat, n: nat): nat
    requires n <= |rates|
  {
    if n == 0 then 0
    else Numerator(f, rates, decimals, start, t, n - 1)
         + Times(Scaled(Integral(f, rates, start, t, n - 1), decimals), rates[n - 1].rate)
  }

  predicate Finished(rates: seq<RatePoint>, k: nat, t: nat) {
    k + 1 < |rates| && rates[k + 1].fromBlock <= t
  }

  /** The part of the numerator that comes from segments over at `t`. */
  function Completed(f: nat -> nat, rates: seq<RatePoint>, decimals: nat, start: nat, t: nat, n: nat): nat
    requires n <= |rates|
  {
    if n == 0 then 0
    else Completed(f, rates, decimals, start, t, n - 1)
         + if Finished(rates, n - 1, t)
           then Times(Scaled(Integral(f, rates, start, t, n - 1), decimals), rates[n - 1].rate) else 0
  }

  /** The last of the first `n` segments that began before `t`, unless it is over. */
  function OpenSegment(rates: seq<RatePoint>, t: nat, n: nat): (k: Option<nat>)
    requires n <= |rates|
    ensures k.Some? ==> k.value < n && rates[k.value].fromBlock < t && !Finished(rates, k.value, t)
  {
    if n == 0 then None
    else if rates[n - 1].fromBlock < t then if Finished(rates, n - 1, t) then None else Some(n - 1)
    else OpenSegment(rates, t, n - 1)
  }

  /** The state of a replay of balances `f` over `start <= b < t`, holding `balance` since. */
  function Snapshot(f: nat -> nat, rates: seq<RatePoint>, decimals: nat, start: nat, t: nat,
                    balance: nat): AccountState {
    var open := if start < t then OpenSegment(rates, t, |rates|) else None;
    AccountState(balance, t, Completed(f, rates, decimals, start, t, |rates|),
                 if open.Some? then Some(rates[open.value].fromBlock) else None,
                 if open.Some? then Integral(f, rates, start, t, open.value) else 0)
  }
}
