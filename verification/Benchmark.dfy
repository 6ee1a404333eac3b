/** The benchmark's own route: logs in any order and any number of times, deduplicated by
    transaction, and a closed form of the integral. */
module Benchmark {
  import opened ScoreCore
  import opened ScoreLedger
  import opened FlowMerge
  import opened ScoreRaw
  import opened Sorting

  // ---- Unique logs, in order ----

  /** A log with its transaction; `transfer.index` is the log's index in its block. */
  datatype Logged = Logged(tx: nat, transfer: Transfer)

  const KEY: Logged -> (nat, nat) := (l: Logged) => (l.tx, l.transfer.index)

  const BY_LOG: (Logged, Logged) -> bool := (x: Logged, y: Logged) => Before(x.transfer, y.transfer)

  const TRANSFER: Logged -> Transfer := (l: Logged) => l.transfer

  /** Writing an entry of the dictionary: a known key keeps its place and takes the new log. */
  function Put(u: seq<Logged>, l: Logged): seq<Logged> {
    if u == [] then [l]
    else if KEY(u[|u| - 1]) == KEY(l) then u[..|u| - 1] + [l]
    else Put(u[..|u| - 1], l) + [u[|u| - 1]]
  }

  function Unique(logs: seq<Logged>): seq<Logged> {
    if logs == [] then [] else Put(Unique(logs[..|logs| - 1]), logs[|logs| - 1])
  }

  /** The transfers that are applied, in order. */
  function Once(logs: seq<Logged>): seq<Transfer> {
    Map(TRANSFER, Sort(BY_LOG, Unique(logs)))
  }

  lemma {:induction false} PutHolds(u: seq<Logged>, l: Logged)
    ensures l in Put(u, l)
    ensures forall x :: x in Put(u, l) ==> x in u || x == l
    ensures forall x :: x in u && KEY(x) != KEY(l) ==> x in Put(u, l)
  {
    if u != [] {
      PutHolds(u[..|u| - 1], l);
      assert u == u[..|u| - 1] + [u[|u| - 1]];
    }
  }

  lemma {:induction false} PutKeys(u: seq<Logged>, l: Logged)
    requires KeysDiffer(KEY, u)
    ensures KeysDiffer(KEY, Put(u, l))
  {
    if u != [] {
      var init, last := u[..|u| - 1], u[|u| - 1];
      if KEY(last) != KEY(l) {
        PutKeys(init, l);
        PutHolds(init, l);
        var p := Put(init, l);
        forall i | 0 <= i < |p| ensures KEY(p[i]) != KEY(last) {
          assert p[i] in p;
        }
      }
    }
  }

  lemma {:induction false} UniqueKeys(logs: seq<Logged>)
    ensures KeysDiffer(KEY, Unique(logs))
  {
    if logs != [] {
      UniqueKeys(logs[..|logs| - 1]);
      PutKeys(Unique(logs[..|logs| - 1]), logs[|logs| - 1]);
    }
  }

  /** The logs are logs of the chain's window: transactions lie in one block, and a log has one
      transaction. */
  ghost predicate OfWindow(logs: seq<Logged>, w: seq<Transfer>) {
    && (forall l :: l in logs ==> l.transfer in w)
    && (forall x, y :: x in logs && y in logs && x.tx == y.tx ==> x.transfer.block == y.transfer.block)
    && (forall x, y :: x in logs && y in logs && x.transfer == y.transfer ==> x == y)
  }

  ghost predicate Reports(logs: seq<Logged>, w: seq<Transfer>) {
    OfWindow(logs, w) && forall t :: t in w ==> exists l :: l in logs && l.transfer == t
  }

  lemma SameKeySameLog(logs: seq<Logged>, w: seq<Transfer>, x: Logged, y: Logged)
    requires InOrder(w) && OfWindow(logs, w) && x in logs && y in logs && KEY(x) == KEY(y)
    ensures x == y
  {
    SamePosition(w, x.transfer, y.transfer);
  }

  lemma {:induction false} UniqueHolds(logs: seq<Logged>, w: seq<Transfer>)
    requires InOrder(w) && OfWindow(logs, w)
    ensures forall l :: l in Unique(logs) <==> l in logs
  {
    if logs != [] {
      var init, last := logs[..|logs| - 1], logs[|logs| - 1];
      assert logs == init + [last];
      UniqueHolds(init, w);
      PutHolds(Unique(init), last);
      forall l | l in init && KEY(l) == KEY(last) ensures l == last {
        SameKeySameLog(logs, w, l, last);
      }
    }
  }

  lemma LogOrders()
    ensures Orders(BY_LOG) && Orders(BY_PLACE)
  {
  }

  lemma OnceRises(logs: seq<Logged>, s: seq<Logged>, w: seq<Transfer>)
    requires InOrder(w) && OfWindow(logs, w) && (forall l :: l in s ==> l in logs)
    requires InPlace(BY_LOG, s) && KeysDiffer(KEY, s)
    ensures Rises(BY_PLACE, Map(TRANSFER, s))
  {
    forall i, j | 0 <= i < j < |s| ensures BY_PLACE(s[i].transfer, s[j].transfer) {
      assert !BY_LOG(s[j], s[i]) && s[i] in logs && s[j] in logs && KEY(s[i]) != KEY(s[j]);
      if !BY_PLACE(s[i].transfer, s[j].transfer) {
        SamePosition(w, s[i].transfer, s[j].transfer);
      }
    }
  }

  /** Whatever the order and the repetitions of a complete report, what is applied is the window. */
  lemma OnceIsWindow(logs: seq<Logged>, w: seq<Transfer>)
    requires InOrder(w) && Reports(logs, w)
    ensures Once(logs) == w
  {
    hide Unique, Sort, Map, Orders, KeysDiffer, InPlace, InOrder, Rises, OfWindow, TRANSFER;
    var s := Sort(BY_LOG, Unique(logs));
    SortedUnique(logs, s, w);
    OnceRises(logs, s, w);
    SameTransfers(logs, s, w);
    LogOrders();
    WindowRises(w);
    RiseIsUnique(BY_PLACE, Map(TRANSFER, s), w);
  }

  lemma WindowRises(w: seq<Transfer>)
    requires InOrder(w)
    ensures Rises(BY_PLACE, w)
  {
  }

  lemma SortedUnique(logs: seq<Logged>, s: seq<Logged>, w: seq<Transfer>)
    requires InOrder(w) && OfWindow(logs, w) && s == Sort(BY_LOG, Unique(logs))
    ensures InPlace(BY_LOG, s) && KeysDiffer(KEY, s) && forall l :: l in s <==> l in logs
  {
    hide Unique, Sort, Orders, KeysDiffer, InPlace, InOrder, OfWindow;
    UniqueHolds(logs, w);
    UniqueKeys(logs);
    LogOrders();
    SortKeeps(BY_LOG, Unique(logs));
    SameLength(s, Unique(logs));
    KeysStayDistinct(KEY, Unique(logs), s);
  }

  lemma SameTransfers(logs: seq<Logged>, s: seq<Logged>, w: seq<Transfer>)
    requires Reports(logs, w) && forall l :: l in s <==> l in logs
    ensures forall t :: t in Map(TRANSFER, s) <==> t in w
  {
    var m := Map(TRANSFER, s);
    hide Map;
    forall t ensures t in m <==> t in w {
      if t in m {
        var k :| 0 <= k < |m| && m[k] == t;
        assert s[k] in logs && TRANSFER(s[k]) == t;
      }
      if t in w {
        var l :| l in logs && l.transfer == t;
        var k :| 0 <= k < |s| && s[k] == l;
        assert m[k] == TRANSFER(s[k]);
      }
    }
  }

  // ---- Applying them to one account ----

  function Received(w: seq<Transfer>, a: Address): nat {
    if w == [] then 0
    else
      var last := w[|w| - 1];
      Received(w[..|w| - 1], a) + if last.to == a then last.value else 0
  }

  function Sent(w: seq<Transfer>, a: Address): nat {
    if w == [] then 0
    else
      var last := w[|w| - 1];
      Sent(w[..|w| - 1], a) + if last.from == a then last.value else 0
  }

  lemma {:induction false} FlowsAreNet(w: seq<Transfer>, a: Address)
    ensures Received(w, a) - Sent(w, a) == Net(w, a)
  {
    if w != [] {
      FlowsAreNet(w[..|w| - 1], a);
    }
  }

  /** What one more transfer adds to each sum. */
  lemma SumsStep(w: seq<Transfer>, n: nat, a: Address, to: nat)
    requires n < |w| && w[n].block <= to
    ensures var u, u', x := w[..n], w[..n + 1], w[n];
            var inflow, outflow := if x.to == a then x.value else 0, if x.from == a then x.value else 0;
            && Net(u', a) == Net(u, a) - outflow + inflow
            && Weighted(u', a, to) ==
                 Weighted(u, a, to) - Times(outflow, to - x.block) + Times(inflow, to - x.block)
            && |Deltas(u', a)| == |Deltas(u, a)| + (if Touches(x, a) then 1 else 0)
            && Received(u', a) == Received(u, a) + inflow && Sent(u', a) == Sent(u, a) + outflow
            && Times(0, to - x.block) == 0
  {
    var u' := w[..n + 1];
    assert u'[..n] == w[..n];
    TimesOfZero(to - w[n].block);
  }

  lemma EmptySums(a: Address, to: nat)
    ensures Net([], a) == 0 && Weighted([], a, to) == 0 && Deltas([], a) == []
    ensures Received([], a) == 0 && Sent([], a) == 0 && Unique([]) == []
  {
  }

  lemma UniqueStep(logs: seq<Logged>, n: nat)
    requires n < |logs|
    ensures Unique(logs[..n + 1]) == Put(Unique(logs[..n]), logs[n])
  {
    assert logs[..n + 1][..n] == logs[..n];
  }

  lemma {:induction false} TimesOfZero(b: nat)
    ensures Times(0, b) == 0
  {
    if b > 0 {
      TimesOfZero(b - 1);
    }
  }

  method Deduplicate(logs: seq<Logged>) returns (unique: seq<Logged>)
    ensures unique == Unique(logs)
  {
    hide Unique, Put;
    EmptySums(0, 0);
    unique := [];
    for n := 0 to |logs|
      invariant unique == Unique(logs[..n])
    {
      UniqueStep(logs, n);
      unique := Put(unique, logs[n]);
    }
    assert logs[..|logs|] == logs;
  }

  class TokenHistory {
    var startBalance: nat
    var netDelta: int
    var weightedDelta: int
    var transferCount: nat
    var inflow: nat
    var outflow: nat

    constructor (balance: nat)
      ensures startBalance == balance && netDelta == 0 && weightedDelta == 0
      ensures transferCount == 0 && inflow == 0 && outflow == 0
    {
      startBalance := balance;
      netDelta, weightedDelta, transferCount, inflow, outflow := 0, 0, 0, 0, 0;
    }

    function EndBalance(): int
      reads this
    {
      startBalance + netDelta
    }

    function Integral(from: nat, to: nat): int
      requires from <= to
      reads this
    {
      Times(startBalance, to - from) + weightedDelta
    }

    /** One account's share of `apply_transfer_logs`. The first applied log outside the blocks
        `from < b <= to` ends it, after `k` logs; without one all are applied. */
    method ApplyLogs(logs: seq<Logged>, a: Address, from: nat, to: nat) returns (ok: bool, ghost k: nat)
      requires a != ZERO_ADDRESS
      modifies this
      ensures startBalance == old(startBalance)
      ensures k <= |Once(logs)| && (ok <==> k == |Once(logs)|)
      ensures forall i :: 0 <= i < k ==> from < Once(logs)[i].block <= to
      ensures !ok ==> !(from < Once(logs)[k].block <= to)
      ensures var u := Once(logs)[..k];
              && netDelta == old(netDelta) + Net(u, a)
              && weightedDelta == old(weightedDelta) + Weighted(u, a, to)
              && transferCount == old(transferCount) + |Deltas(u, a)|
              && inflow == old(inflow) + Received(u, a) && outflow == old(outflow) + Sent(u, a)
    {
      hide Net, Weighted, Deltas, Received, Sent, Map, Sort, Unique, Put;
      EmptySums(a, to);
      var unique := Deduplicate(logs);
      var applied := Map(TRANSFER, Sort(BY_LOG, unique));
      k := 0;
      for n := 0 to |applied|
        invariant k == n && startBalance == old(startBalance)
        invariant forall i :: 0 <= i < n ==> from < applied[i].block <= to
        invariant netDelta == old(netDelta) + Net(applied[..n], a)
        invariant weightedDelta == old(weightedDelta) + Weighted(applied[..n], a, to)
        invariant transferCount == old(transferCount) + |Deltas(applied[..n], a)|
        invariant inflow == old(inflow) + Received(applied[..n], a)
        invariant outflow == old(outflow) + Sent(applied[..n], a)
      {
        var log := applied[n];
        if log.block <= from || log.block > to {
          ok := false;
          return;
        }
        SumsStep(applied, n, a, to);
        if log.from == a || log.to == a {
          transferCount := transferCount + 1;
        }
        if log.from == a {
          netDelta := netDelta - log.value;
          weightedDelta := weightedDelta - Times(log.value, to - log.block);
          outflow := outflow + log.value;
        }
        if log.to == a {
          netDelta := netDelta + log.value;
          weightedDelta := weightedDelta + Times(log.value, to - log.block);
          inflow := inflow + log.value;
        }
        k := n + 1;
      }
      ok := true;
    }
  }

  // ---- The closed form ----

  function Weighted(logs: seq<Transfer>, a: Address, to: nat): int {
    if logs == [] then 0
    else
      var last := logs[|logs| - 1];
      Weighted(logs[..|logs| - 1], a, to)
      - (if last.from == a then Times(last.value, Gap(last.block, to)) else 0)
      + (if last.to == a then Times(last.value, Gap(last.block, to)) else 0)
  }

  /** Lengthening the window by one block adds each transfer's net value once. */
  lemma {:induction false} WeightedShifts(logs: seq<Transfer>, a: Address, to: nat)
    requires forall i :: 0 <= i < |logs| ==> logs[i].block <= to
    ensures Weighted(logs, a, to + 1) == Weighted(logs, a, to) + Net(logs, a)
  {
    if logs != [] {
      var last := logs[|logs| - 1];
      WeightedShifts(logs[..|logs| - 1], a, to);
      TimesStep(last.value, to - last.block);
    }
  }

  /** Transfers of the window's last block have no weight in it. */
  lemma {:induction false} LastBlockWeighsNothing(x: seq<Transfer>, y: seq<Transfer>, a: Address, to: nat)
    requires forall i :: 0 <= i < |x| ==> x[i].block <= to
    requires forall i :: 0 <= i < |y| ==> y[i].block == to
    ensures Weighted(x + y, a, to) == Weighted(x, a, to)
  {
    if y == [] {
      assert x + y == x;
    } else {
      LastBlockWeighsNothing(x, y[..|y| - 1], a, to);
      assert (x + y)[..|x + y| - 1] == x + y[..|y| - 1];
      assert Times(y[|y| - 1].value, 0) == 0;
    }
  }

  lemma NetOfWindow(ts: seq<Transfer>, a: Address, from: nat, to: nat)
    requires ValidLedger(ts) && a != ZERO_ADDRESS && from <= to
    ensures BalanceAt(ts, a, from) + Net(Window(ts, from, to), a) == BalanceAt(ts, a, to)
  {
    var lo, hi := CountUpTo(ts, from, |ts|), CountUpTo(ts, to, |ts|);
    CountIsMonotone(ts, from, to, |ts|);
    NetIsNatural(ts, a, lo);
    NetIsNatural(ts, a, hi);
    NetAppends(ts[..lo], ts[lo..hi], a);
    assert ts[..lo] + ts[lo..hi] == ts[..hi];
  }

  /** One block more: every earlier transfer weighs its net value once more. */
  lemma WindowWeight(ts: seq<Transfer>, a: Address, from: nat, last: nat)
    requires InOrder(ts) && from <= last
    ensures Weighted(Window(ts, from, last + 1), a, last + 1) ==
              Weighted(Window(ts, from, last), a, last) + Net(Window(ts, from, last), a)
  {
    WindowSplits(ts, from, last, last + 1);
    BlocksWithin(ts, from, last);
    BlocksWithin(ts, last, last + 1);
    WeightedShifts(Window(ts, from, last), a, last);
    LastBlockWeighsNothing(Window(ts, from, last), Window(ts, last, last + 1), a, last + 1);
  }

  lemma TimesStep(a: nat, b: nat)
    ensures Times(a, b + 1) == Times(a, b) + a
  {
  }

  /** The closed form, as a function of the ledger. */
  function ClosedForm(ts: seq<Transfer>, a: Address, from: nat, end: nat): int
    requires from <= end
  {
    Times(BalanceAt(ts, a, from), end - from) + Weighted(Window(ts, from, end), a, end)
  }

  lemma ClosedFormStep(ts: seq<Transfer>, a: Address, from: nat, last: nat)
    requires ValidLedger(ts) && a != ZERO_ADDRESS && from <= last
    ensures ClosedForm(ts, a, from, last + 1) == ClosedForm(ts, a, from, last) + BalanceAt(ts, a, last)
  {
    WindowWeight(ts, a, from, last);
    NetOfWindow(ts, a, from, last);
    TimesStep(BalanceAt(ts, a, from), last - from);
  }

  lemma ClosedFormStarts(ts: seq<Transfer>, a: Address, from: nat)
    ensures ClosedForm(ts, a, from, from) == 0
  {
    assert Window(ts, from, from) == [];
  }

  lemma {:induction false} SumTelescopes(f: nat -> nat, g: nat -> int, from: nat, end: nat)
    requires from <= end && g(from) == 0
    requires forall x: nat :: from <= x < end ==> g(x + 1) == g(x) + f(x)
    ensures g(end) == Sum(f, from, end)
    decreases end
  {
    if from < end {
      SumTelescopes(f, g, from, end - 1);
      var x := end - 1;
      assert g(x + 1) == g(x) + f(x);
    }
  }

  lemma ClosedFormSteps(ts: seq<Transfer>, a: Address, from: nat, end: nat)
    requires ValidLedger(ts) && a != ZERO_ADDRESS && from <= end
    ensures var g, f := ClosedForms(ts, a, from), Balances(ts, a);
            g(from) == 0 && forall x: nat :: from <= x < end ==> g(x + 1) == g(x) + f(x)
  {
    ClosedFormStarts(ts, a, from);
    forall x: nat | from <= x < end
      ensures ClosedForms(ts, a, from)(x + 1) == ClosedForms(ts, a, from)(x) + Balances(ts, a)(x)
    {
      ClosedFormStep(ts, a, from, x);
    }
  }

  function ClosedForms(ts: seq<Transfer>, a: Address, from: nat): nat -> int {
    (x: nat) => if from <= x then ClosedForm(ts, a, from, x) else 0
  }

  /** The closed form is the same per-block sum. */
  lemma ClosedFormIsPerBlockSum(ts: seq<Transfer>, a: Address, from: nat, end: nat)
    requires ValidLedger(ts) && a != ZERO_ADDRESS && from <= end
    ensures ClosedForm(ts, a, from, end) == Sum(Balances(ts, a), from, end)
  {
    ClosedFormSteps(ts, a, from, end);
    SumTelescopes(Balances(ts, a), ClosedForms(ts, a, from), from, end);
  }

  /** The benchmark on one account: from any complete report of the window's logs, in any order and
      with any repetitions, the history's integral, closing balance and flows are the chain's. */
  method BenchmarkIntegral(ts: seq<Transfer>, a: Address, from: nat, end: nat, logs: seq<Logged>)
    returns (ok: bool, history: TokenHistory, integral: int)
    requires ValidLedger(ts) && a != ZERO_ADDRESS && from <= end
    requires Reports(logs, Window(ts, from, end))
    ensures ok && integral == Sum(Balances(ts, a), from, end)
    ensures history.EndBalance() == BalanceAt(ts, a, end)
    ensures history.transferCount == |Deltas(Window(ts, from, end), a)|
    ensures history.startBalance + history.inflow == BalanceAt(ts, a, end) + history.outflow
  {
    history := new TokenHistory(BalanceAt(ts, a, from));
    var w := Window(ts, from, end);
    BlocksWithin(ts, from, end);
    OnceIsWindow(logs, w);
    ghost var k;
    ok, k := history.ApplyLogs(logs, a, from, end);
    if ok {
      assert w[..k] == w;
    }
    ClosedFormIsPerBlockSum(ts, a, from, end);
    NetOfWindow(ts, a, from, end);
    FlowsAreNet(w, a);
    integral := history.Integral(from, end);
  }
}
