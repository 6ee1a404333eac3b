/** Smaller reads of the chain: the block at a timestamp, the least balance held over a window, and
    the merged transfers of a set of accounts. */
module ChainReads {
  import opened Wrappers
  import opened ScoreLedger
  import opened ScoreRaw
  import opened FlowMerge
  import opened ScoreReplay
  import opened Sorting
  import opened U64

  // ---- The block at or before a timestamp ----

  datatype BlockSearch = Block(number: nat) | WindowNotFinalized

  predicate Climbs(timestamps: nat -> nat, upper: nat) {
    forall i: nat, j: nat :: 1 <= i <= j <= upper ==> timestamps(i) <= timestamps(j)
  }

  /** Bisection: the last block up to `upper` whose timestamp is not after the given one, or block 1
      when every block is after it. */
  method BlockAtOrBefore(timestamps: nat -> nat, timestamp: nat, upper: nat) returns (r: BlockSearch)
    requires Climbs(timestamps, upper)
    ensures r.WindowNotFinalized? <==> timestamps(upper) < timestamp
    ensures r.Block? ==> r.number >= 1 && (upper == 0 ==> r.number == 1) && (upper > 0 ==> r.number <= upper)
    ensures r.Block? ==> forall b: nat :: r.number < b <= upper ==> timestamps(b) > timestamp
    ensures r.Block? && upper > 0 ==>
              if timestamps(1) <= timestamp then timestamps(r.number) <= timestamp else r.number == 1
  {
    if timestamps(upper) < timestamp {
      return WindowNotFinalized;
    }
    var low, high := 1, upper;
    while low < high
      invariant 1 <= low && (upper > 0 ==> low <= high <= upper) && (upper == 0 ==> low == 1 && high == 0)
      invariant low > 1 ==> timestamps(low) <= timestamp
      invariant forall b: nat :: high < b <= upper ==> timestamps(b) > timestamp
    {
      var middle := low + (high - low + 1) / 2;
      if timestamps(middle) <= timestamp {
        low := middle;
      } else {
        high := middle - 1;
      }
    }
    r := Block(low);
  }

  // ---- The least balance over a window ----

  datatype Least = Least(minimum: nat, balance: nat)

  function LeastStep(l: Least, d: Delta): Option<Least> {
    if d.inflow >= d.outflow then Some(l.(balance := l.balance + (d.inflow - d.outflow)))
    else if d.outflow - d.inflow > l.balance then None
    else
      var balance := l.balance - (d.outflow - d.inflow);
      Some(Least(Min(l.minimum, balance), balance))
  }

  function LeastOf(opening: nat, deltas: seq<Delta>): Option<Least> {
    if deltas == [] then Some(Least(opening, opening))
    else
      var before := LeastOf(opening, deltas[..|deltas| - 1]);
      if before.None? then None else LeastStep(before.value, deltas[|deltas| - 1])
  }

  lemma {:induction false} LeastFails(opening: nat, deltas: seq<Delta>, j: nat)
    requires j <= |deltas| && LeastOf(opening, deltas[..j]).None?
    ensures LeastOf(opening, deltas).None?
  {
    if j < |deltas| {
      assert deltas[..|deltas| - 1][..j] == deltas[..j];
      LeastFails(opening, deltas[..|deltas| - 1], j);
    } else {
      assert deltas[..j] == deltas;
    }
  }

  /** `apply_deltas`. */
  method ApplyDeltas(opening: nat, deltas: seq<Delta>) returns (r: Option<Least>)
    ensures r == LeastOf(opening, deltas)
  {
    var balance: nat, minimum: nat := opening, opening;
    for k := 0 to |deltas|
      invariant LeastOf(opening, deltas[..k]) == Some(Least(minimum, balance))
    {
      var d := deltas[k];
      assert deltas[..k + 1][..k] == deltas[..k];
      if d.inflow >= d.outflow {
        balance := balance + (d.inflow - d.outflow);
      } else {
        var decrease := d.outflow - d.inflow;
        if decrease > balance {
          LeastFails(opening, deltas, k + 1);
          return None;
        }
        balance := balance - decrease;
        if balance < minimum {
          minimum := balance;
        }
      }
    }
    assert deltas[..|deltas|] == deltas;
    r := Some(Least(minimum, balance));
  }

  /** The least holdings after any of the transfers `lo` to `n`, the opening ones included. */
  function LeastNet(ts: seq<Transfer>, a: Address, lo: nat, n: nat): int
    requires lo <= n <= |ts|
  {
    if n == lo then Net(ts[..lo], a)
    else
      var before, now := LeastNet(ts, a, lo, n - 1), Net(ts[..n], a);
      if now < before then now else before
  }

  lemma {:induction false} LeastNetBounds(ts: seq<Transfer>, a: Address, lo: nat, n: nat, k: nat)
    requires lo <= k <= n <= |ts|
    ensures LeastNet(ts, a, lo, n) <= Net(ts[..k], a)
    decreases n
  {
    if k < n {
      LeastNetBounds(ts, a, lo, n - 1, k);
    }
  }

  lemma {:induction false} LeastNetHeld(ts: seq<Transfer>, a: Address, lo: nat, n: nat) returns (k: nat)
    requires lo <= n <= |ts|
    ensures lo <= k <= n && LeastNet(ts, a, lo, n) == Net(ts[..k], a)
  {
    if n == lo {
      k := lo;
    } else {
      k := LeastNetHeld(ts, a, lo, n - 1);
      if Net(ts[..n], a) < LeastNet(ts, a, lo, n - 1) {
        k := n;
      }
    }
  }

  lemma DeltasOfNext(ts: seq<Transfer>, a: Address, lo: nat, n: nat)
    requires lo < n <= |ts|
    ensures var before, after := Deltas(ts[lo..n - 1], a), Deltas(ts[lo..n], a);
            after == if Touches(ts[n - 1], a) then before + [DeltaOf(ts[n - 1], a)] else before
  {
    var w := ts[lo..n];
    assert w[..|w| - 1] == ts[lo..n - 1] && w[|w| - 1] == ts[n - 1];
  }

  lemma LeastExtends(opening: nat, deltas: seq<Delta>, d: Delta)
    ensures var r := LeastOf(opening, deltas);
            LeastOf(opening, deltas + [d]) == if r.None? then None else LeastStep(r.value, d)
  {
    assert (deltas + [d])[..|deltas|] == deltas;
  }

  lemma NetStep(ts: seq<Transfer>, a: Address, n: nat)
    requires 0 < n <= |ts|
    ensures var x := ts[n - 1];
            Net(ts[..n], a) ==
              Net(ts[..n - 1], a) - (if x.from == a then x.value else 0) + (if x.to == a then x.value else 0)
  {
    assert ts[..n][..n - 1] == ts[..n - 1];
  }

  /** One more transfer, by balance and minimum. */
  lemma LeastNetStep(ts: seq<Transfer>, a: Address, lo: nat, n: nat)
    requires ValidLedger(ts) && a != ZERO_ADDRESS && lo < n <= |ts| && LeastNet(ts, a, lo, n - 1) >= 0
    requires Net(ts[..n - 1], a) >= 0
    ensures Net(ts[..n], a) >= 0 && LeastNet(ts, a, lo, n) >= 0 && LeastNet(ts, a, lo, n - 1) <= Net(ts[..n - 1], a)
    ensures var before, after :=
              Least(LeastNet(ts, a, lo, n - 1), Net(ts[..n - 1], a)), Least(LeastNet(ts, a, lo, n), Net(ts[..n], a));
            if Touches(ts[n - 1], a) then LeastStep(before, DeltaOf(ts[n - 1], a)) == Some(after) else after == before
  {
    NetIsNatural(ts, a, n);
    NetStep(ts, a, n);
    LeastNetBounds(ts, a, lo, n - 1, n - 1);
  }

  lemma {:induction false} LeastIsNet(ts: seq<Transfer>, a: Address, lo: nat, n: nat, opening: nat)
    requires ValidLedger(ts) && a != ZERO_ADDRESS && lo <= n <= |ts| && opening == Net(ts[..lo], a)
    ensures Net(ts[..n], a) >= 0 && LeastNet(ts, a, lo, n) >= 0
    ensures LeastOf(opening, Deltas(ts[lo..n], a)) == Some(Least(LeastNet(ts, a, lo, n), Net(ts[..n], a)))
    decreases n
  {
    hide ValidLedger, LeastStep, Net;
    if n == lo {
      assert ts[lo..n] == [];
    } else {
      LeastIsNet(ts, a, lo, n - 1, opening);
      LeastNetStep(ts, a, lo, n);
      DeltasOfNext(ts, a, lo, n);
      LeastExtends(opening, Deltas(ts[lo..n - 1], a), DeltaOf(ts[n - 1], a));
    }
  }

  /** Every block's balance is the holdings after some transfer of the window. */
  lemma LeastBelowBalances(ts: seq<Transfer>, a: Address, from: nat, to: nat, x: nat)
    requires ValidLedger(ts) && a != ZERO_ADDRESS && from <= x <= to
    ensures CountUpTo(ts, from, |ts|) <= CountUpTo(ts, to, |ts|)
    ensures LeastNet(ts, a, CountUpTo(ts, from, |ts|), CountUpTo(ts, to, |ts|)) <= BalanceAt(ts, a, x)
  {
    CountIsMonotone(ts, from, x, |ts|);
    CountIsMonotone(ts, x, to, |ts|);
    LeastNetBounds(ts, a, CountUpTo(ts, from, |ts|), CountUpTo(ts, to, |ts|), CountUpTo(ts, x, |ts|));
  }

  datatype MinResult = Minimum(value: nat) | Disagrees

  /** `min_balances_over`, for one account on the chain's answers: the replay agrees with the closing
      balance, and the result is the least the account held after any transfer of the window, so no
      block's balance is below it. */
  method MinBalanceOver(ts: seq<Transfer>, a: Address, from: nat, to: nat) returns (r: MinResult)
    requires ValidLedger(ts) && a != ZERO_ADDRESS
    ensures r.Minimum?
    ensures to <= from ==> r.value == BalanceAt(ts, a, from)
    ensures from < to ==> forall x: nat :: from <= x <= to ==> r.value <= BalanceAt(ts, a, x)
    ensures from < to ==>
              exists k: nat :: CountUpTo(ts, from, |ts|) <= k <= CountUpTo(ts, to, |ts|) && r.value == Net(ts[..k], a)
  {
    var opening := BalanceAt(ts, a, from);
    if to <= from {
      return Minimum(opening);
    }
    var lo, hi := CountUpTo(ts, from, |ts|), CountUpTo(ts, to, |ts|);
    CountIsMonotone(ts, from, to, |ts|);
    NetIsNatural(ts, a, lo);
    assert Window(ts, from, to) == ts[lo..hi];
    LeastIsNet(ts, a, lo, hi, opening);
    var least := ApplyDeltas(opening, Deltas(Window(ts, from, to), a));
    ghost var k := LeastNetHeld(ts, a, lo, hi);
    forall x: nat | from <= x <= to ensures LeastNet(ts, a, lo, hi) <= BalanceAt(ts, a, x) {
      LeastBelowBalances(ts, a, from, to, x);
    }
    if least.value.balance != BalanceAt(ts, a, to) {
      return Disagrees;
    }
    r := Minimum(least.value.minimum);
  }

  // ---- The transfers of a set of accounts ----

  /** A sorted map from positions to logs, as its list of entries. */
  predicate Entries(m: seq<Transfer>) {
    InOrder(m)
  }

  predicate Conflicts(x: Transfer, y: Transfer) {
    x.block == y.block && x.index == y.index && x != y
  }

  lemma SamePlace(m: seq<Transfer>, k: nat, x: Transfer)
    requires Entries(m) && k < |m| && m[k].block == x.block && m[k].index == x.index
    ensures m[k] == x <==> forall y :: y in m ==> !Conflicts(x, y)
    ensures m[k] == x ==> x in m
  {
    if m[k] == x {
      forall y | y in m ensures !Conflicts(x, y) {
        var i :| 0 <= i < |m| && m[i] == y;
      }
    } else {
      assert m[k] in m && Conflicts(x, m[k]);
    }
  }

  method InsertEntry(m: seq<Transfer>, x: Transfer) returns (ok: bool, m': seq<Transfer>)
    requires Entries(m)
    ensures ok <==> forall y :: y in m ==> !Conflicts(x, y)
    ensures ok ==> Entries(m') && forall y :: y in m' <==> y in m || y == x
  {
    for k := 0 to |m|
      invariant forall i :: 0 <= i < k ==> !(m[i].block == x.block && m[i].index == x.index)
    {
      if m[k].block == x.block && m[k].index == x.index {
        SamePlace(m, k, x);
        ok := m[k] == x;
        m' := m;
        return;
      }
    }
    ok, m' := true, Insert(BY_PLACE, m, x);
    InsertsInOrder(m, x);
  }

  lemma InsertsInOrder(m: seq<Transfer>, x: Transfer)
    requires Entries(m) && forall i :: 0 <= i < |m| ==> !(m[i].block == x.block && m[i].index == x.index)
    ensures Entries(Insert(BY_PLACE, m, x)) && forall y :: y in Insert(BY_PLACE, m, x) <==> y in m || y == x
  {
    hide Insert;
    assert Rises(BY_PLACE, m);
    InsertRises(BY_PLACE, m, x);
    InsertHolds(BY_PLACE, m, x);
  }

  lemma {:induction false} RelevantHolds(w: seq<Transfer>, accounts: set<Address>)
    ensures forall t :: t in Relevant(w, Some(accounts)) <==> t in w && (t.from in accounts || t.to in accounts)
  {
    if w != [] {
      RelevantHolds(w[..|w| - 1], accounts);
      assert w == w[..|w| - 1] + [w[|w| - 1]];
    }
  }

  lemma {:induction false} RelevantIs(w: seq<Transfer>, accounts: set<Address>)
    requires InOrder(w)
    ensures InOrder(Relevant(w, Some(accounts)))
    ensures forall t :: t in Relevant(w, Some(accounts)) <==> t in w && (t.from in accounts || t.to in accounts)
  {
    RelevantHolds(w, accounts);
    if w != [] {
      RelevantIs(w[..|w| - 1], accounts);
      RelevantHolds(w[..|w| - 1], accounts);
      var rest, last := Relevant(w[..|w| - 1], Some(accounts)), w[|w| - 1];
      forall i | 0 <= i < |rest| ensures Before(rest[i], last) {
        assert rest[i] in rest;
        var k :| 0 <= k < |w| - 1 && w[k] == rest[i];
      }
    }
  }

  /** Adds one query's answer to the map. */
  method InsertAll(m: seq<Transfer>, logs: seq<Transfer>, ghost w: seq<Transfer>) returns (ok: bool, m': seq<Transfer>)
    requires Entries(m) && InOrder(w)
    requires forall t :: t in m || t in logs ==> t in w
    ensures ok && Entries(m') && forall t :: t in m' <==> t in m || t in logs
  {
    ok, m' := true, m;
    for k := 0 to |logs|
      invariant ok && Entries(m') && forall t :: t in m' <==> t in m || t in logs[..k]
    {
      NoConflict(m', logs[k], w);
      ok, m' := InsertEntry(m', logs[k]);
      if !ok {
        return;
      }
    }
    assert logs[..|logs|] == logs;
  }

  lemma NoConflict(m: seq<Transfer>, x: Transfer, w: seq<Transfer>)
    requires InOrder(w) && x in w && forall t :: t in m ==> t in w
    ensures forall y :: y in m ==> !Conflicts(x, y)
  {
    forall y | y in m ensures !Conflicts(x, y) {
      var i, j :| 0 <= i < |w| && 0 <= j < |w| && w[i] == x && w[j] == y;
    }
  }

  function Union(batches: seq<set<Address>>): set<Address> {
    if batches == [] then {} else Union(batches[..|batches| - 1]) + batches[|batches| - 1]
  }

  /** `erc20_transfers_for_accounts`: two queries per batch of accounts, merged by position. A
      transfer seen by several queries is kept once, and the result is exactly the window's
      transfers that touch an account, in order. */
  method TransfersForAccounts(w: seq<Transfer>, batches: seq<set<Address>>) returns (ok: bool, transfers: seq<Transfer>)
    requires InOrder(w)
    ensures ok && transfers == Relevant(w, Some(Union(batches)))
  {
    var unique: seq<Transfer> := [];
    for k := 0 to |batches|
      invariant Entries(unique)
      invariant forall t :: t in unique <==> t in w && (t.from in Union(batches[..k]) || t.to in Union(batches[..k]))
    {
      assert batches[..k + 1][..k] == batches[..k];
      QueryIs(w, batches[k], true);
      QueryIs(w, batches[k], false);
      ok, unique := InsertAll(unique, Query(w, batches[k], true), w);
      ok, unique := InsertAll(unique, Query(w, batches[k], false), w);
    }
    assert batches[..|batches|] == batches;
    RelevantIs(w, Union(batches));
    RiseIsUnique(BY_PLACE, unique, Relevant(w, Some(Union(batches))));
    ok, transfers := true, unique;
  }
}
