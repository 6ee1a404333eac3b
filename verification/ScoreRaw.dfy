/** The raw route: one replay of an account's transfers per rate segment. */
module ScoreRaw {
  import opened Wrappers
  import opened ScoreCore
  import opened ScoreMeaning
  import opened ScoreLedger
  import opened FlowMerge

  /** The transfers in blocks `from < b <= to`, which is what the log reader returns. */
  function Window(ts: seq<Transfer>, from: nat, to: nat): seq<Transfer> {
    var lo, hi := CountUpTo(ts, from, |ts|), CountUpTo(ts, to, |ts|);
    if lo <= hi then ts[lo..hi] else []
  }

  lemma {:induction false} CountSplits(ts: seq<Transfer>, block: nat, n: nat)
    requires InOrder(ts) && n <= |ts|
    ensures var c := CountUpTo(ts, block, n);
            && (forall i :: 0 <= i < c ==> ts[i].block <= block)
            && (forall i :: c <= i < n ==> ts[i].block > block)
  {
    if n > 0 && ts[n - 1].block > block {
      CountSplits(ts, block, n - 1);
    }
  }

  lemma {:induction false} CountIsMonotone(ts: seq<Transfer>, from: nat, to: nat, n: nat)
    requires from <= to && n <= |ts|
    ensures CountUpTo(ts, from, n) <= CountUpTo(ts, to, n)
  {
    if n > 0 {
      CountIsMonotone(ts, from, to, n - 1);
    }
  }

  lemma WindowIsExact(ts: seq<Transfer>, from: nat, to: nat)
    requires InOrder(ts) && from <= to
    ensures CountUpTo(ts, from, |ts|) <= CountUpTo(ts, to, |ts|)
    ensures forall t :: t in Window(ts, from, to) <==> t in ts && from < t.block <= to
  {
    CountSplits(ts, from, |ts|);
    CountSplits(ts, to, |ts|);
    CountIsMonotone(ts, from, to, |ts|);
    var lo, hi := CountUpTo(ts, from, |ts|), CountUpTo(ts, to, |ts|);
    forall t | t in ts && from < t.block <= to ensures t in Window(ts, from, to) {
      var i :| 0 <= i < |ts| && ts[i] == t;
      assert lo <= i < hi;
      assert ts[lo..hi][i - lo] == t;
    }
  }

  lemma BlocksWithin(ts: seq<Transfer>, from: nat, end: nat)
    requires InOrder(ts) && from <= end
    ensures forall i :: 0 <= i < |Window(ts, from, end)| ==> from < Window(ts, from, end)[i].block <= end
  {
    WindowIsExact(ts, from, end);
    forall i | 0 <= i < |Window(ts, from, end)| ensures from < Window(ts, from, end)[i].block <= end {
      assert Window(ts, from, end)[i] in Window(ts, from, end);
    }
  }

  lemma {:induction false} NetAppends(x: seq<Transfer>, y: seq<Transfer>, a: Address)
    ensures Net(x + y, a) == Net(x, a) + Net(y, a)
  {
    if y == [] {
      assert x + y == x;
    } else {
      NetAppends(x, y[..|y| - 1], a);
      assert (x + y)[..|x + y| - 1] == x + y[..|y| - 1];
    }
  }

  lemma WindowSplits(ts: seq<Transfer>, from: nat, mid: nat, to: nat)
    requires InOrder(ts) && from <= mid <= to
    ensures Window(ts, from, to) == Window(ts, from, mid) + Window(ts, mid, to)
  {
    CountIsMonotone(ts, from, mid, |ts|);
    CountIsMonotone(ts, mid, to, |ts|);
  }

  // ---- `token_block_integral` ----

  predicate DeltasWithin(deltas: seq<Delta>, from: nat, to: nat) {
    && (forall i :: 0 <= i < |deltas| ==> from < deltas[i].block <= to)
    && (forall i, j :: 0 <= i < j < |deltas| ==> deltas[i].block <= deltas[j].block)
  }

  function Gap(block: nat, to: nat): nat {
    if block <= to then to - block else 0
  }

  datatype Replay = Replay(balance: nat, area: nat, cursor: nat)

  function ReplayStep(r: Replay, d: Delta): Option<Replay> {
    var area := r.area + Times(r.balance, Gap(r.cursor, d.block));
    if d.inflow >= d.outflow then Some(Replay(r.balance + (d.inflow - d.outflow), area, d.block))
    else if d.outflow - d.inflow > r.balance then None
    else Some(Replay(r.balance - (d.outflow - d.inflow), area, d.block))
  }

  function ReplayDeltas(opening: nat, from: nat, deltas: seq<Delta>): Option<Replay> {
    if deltas == [] then Some(Replay(opening, 0, from))
    else
      var before := ReplayDeltas(opening, from, deltas[..|deltas| - 1]);
      if before.None? then None else ReplayStep(before.value, deltas[|deltas| - 1])
  }

  lemma CursorWithin(opening: nat, from: nat, to: nat, deltas: seq<Delta>)
    requires DeltasWithin(deltas, from, to) && ReplayDeltas(opening, from, deltas).Some?
    ensures ReplayDeltas(opening, from, deltas).value.cursor == if deltas == [] then from
              else deltas[|deltas| - 1].block
  {
  }

  datatype RawResult = Integrated(value: nat) | Underflow | Mismatch(replayed: nat)

  /** The loop over the entries, and the closing check. */
  method ReplayEntries(opening: nat, deltas: seq<Delta>, closing: nat, from: nat, to: nat) returns (r: RawResult)
    requires DeltasWithin(deltas, from, to) && from < to
    ensures match ReplayDeltas(opening, from, deltas)
            case None => r == Underflow
            case Some(end) =>
              r == if end.balance == closing then Integrated(end.area + Times(end.balance, Gap(end.cursor, to)))
                   else Mismatch(end.balance)
  {
    var balance: nat, accumulator: nat, cursor: nat := opening, 0, from;
    var k := 0;
    while k < |deltas|
      invariant 0 <= k <= |deltas|
      invariant from <= cursor && (k < |deltas| ==> cursor <= deltas[k].block) && cursor <= to
      invariant ReplayDeltas(opening, from, deltas[..k]) == Some(Replay(balance, accumulator, cursor))
    {
      var d := deltas[k];
      assert deltas[..k + 1][..k] == deltas[..k];
      accumulator := accumulator + Times(balance, d.block - cursor);
      cursor := d.block;
      if d.inflow >= d.outflow {
        balance := balance + (d.inflow - d.outflow);
      } else {
        var decrease := d.outflow - d.inflow;
        if decrease > balance {
          ReplayFails(opening, from, deltas, k + 1, |deltas|);
          assert deltas[..|deltas|] == deltas;
          return Underflow;
        }
        balance := balance - decrease;
      }
      k := k + 1;
    }
    assert deltas[..k] == deltas;
    accumulator := accumulator + Times(balance, to - cursor);
    r := if balance != closing then Mismatch(balance) else Integrated(accumulator);
  }

  /** `opening` and `closing` are the balances that the chain answers, `outgoing` and `incoming` the
      reader's answers to the two queries, on the logs `w` of the blocks `from < b <= to`. */
  method TokenBlockIntegral(opening: nat, outgoing: seq<Transfer>, incoming: seq<Transfer>, closing: nat,
                            from: nat, to: nat, ghost w: seq<Transfer>, ghost a: Address)
    returns (r: RawResult)
    requires InOrder(w) && forall i :: 0 <= i < |w| ==> from < w[i].block <= to
    requires outgoing == Query(w, {a}, true) && incoming == Query(w, {a}, false)
    ensures to <= from ==> r == Integrated(0)
    ensures from < to ==>
              match ReplayDeltas(opening, from, Deltas(w, a))
              case None => r == Underflow
              case Some(end) =>
                r == if end.balance == closing then Integrated(end.area + Times(end.balance, Gap(end.cursor, to)))
                     else Mismatch(end.balance)
  {
    if to <= from {
      return Integrated(0);
    }
    DeltasStayWithin(w, a, from, to);
    var deltas := MergeFlows(outgoing, incoming, w, a);
    r := ReplayEntries(opening, deltas, closing, from, to);
  }

  lemma {:induction false} ReplayFails(opening: nat, from: nat, deltas: seq<Delta>, j: nat, k: nat)
    requires j <= k <= |deltas|
    requires ReplayDeltas(opening, from, deltas[..j]).None?
    ensures ReplayDeltas(opening, from, deltas[..k]).None?
    decreases k
  {
    if j < k {
      ReplayFails(opening, from, deltas, j, k - 1);
      assert deltas[..k][..k - 1] == deltas[..k - 1];
    }
  }

  // ---- On a valid ledger the raw replay is the per-block sum ----

  lemma {:induction false} DeltasStayWithin(w: seq<Transfer>, a: Address, from: nat, to: nat)
    requires InOrder(w) && forall i :: 0 <= i < |w| ==> from < w[i].block <= to
    ensures DeltasWithin(Deltas(w, a), from, to)
    ensures forall i :: 0 <= i < |Deltas(w, a)| ==> Deltas(w, a)[i].block <= w[|w| - 1].block
  {
    if w != [] {
      var init, last := w[..|w| - 1], w[|w| - 1];
      assert forall i :: 0 <= i < |init| ==> init[i] == w[i];
      DeltasStayWithin(init, a, from, to);
      assert init != [] ==> init[|init| - 1].block <= last.block;
    }
  }

  /** The replay after the window's transfers up to `n`. */
  ghost predicate RawFollows(ts: seq<Transfer>, a: Address, from: nat, to: nat, n: nat, r: Replay)
    requires n <= |ts|
  {
    && from <= r.cursor <= Next(ts, n, to)
    && r.balance == Net(ts[..n], a)
    && r.area == Sum(Balances(ts, a), from, r.cursor)
    && (forall x: nat :: r.cursor <= x < Next(ts, n, to) ==> BalanceAt(ts, a, x) == r.balance)
  }

  lemma RawStart(ts: seq<Transfer>, a: Address, from: nat, to: nat)
    requires ValidLedger(ts) && a != ZERO_ADDRESS && from <= to
    ensures RawFollows(ts, a, from, to, CountUpTo(ts, from, |ts|), Replay(BalanceAt(ts, a, from), 0, from))
  {
    var lo := CountUpTo(ts, from, |ts|);
    CountSplits(ts, from, |ts|);
    NetIsNatural(ts, a, lo);
    forall x: nat | from <= x < Next(ts, lo, to) ensures BalanceAt(ts, a, x) == BalanceAt(ts, a, from) {
      BalanceBetween(ts, a, lo, x);
    }
  }

  /** The balance between transfers `n` and `n + 1` of the window. */
  lemma BalanceAfterTransfer(ts: seq<Transfer>, a: Address, to: nat, n: nat)
    requires ValidLedger(ts) && a != ZERO_ADDRESS && n < |ts| && ts[n].block <= to
    ensures forall x: nat :: ts[n].block <= x < Next(ts, n + 1, to) ==> BalanceAt(ts, a, x) == Net(ts[..n + 1], a)
    ensures Net(ts[..n + 1], a) >= 0
    ensures Net(ts[..n + 1], a) ==
              Net(ts[..n], a) - (if ts[n].from == a then ts[n].value else 0)
                + (if ts[n].to == a then ts[n].value else 0)
  {
    assert ts[..n + 1][..n] == ts[..n];
    NetIsNatural(ts, a, n + 1);
    forall x: nat | ts[n].block <= x < Next(ts, n + 1, to) ensures BalanceAt(ts, a, x) == Net(ts[..n + 1], a) {
      BalanceBetween(ts, a, n + 1, x);
    }
  }

  lemma RawAdvances(ts: seq<Transfer>, a: Address, from: nat, to: nat, n: nat, r: Replay)
    requires ValidLedger(ts) && a != ZERO_ADDRESS && n < |ts| && ts[n].block <= to
    requires RawFollows(ts, a, from, to, n, r)
    ensures Touches(ts[n], a) ==>
              && ReplayStep(r, DeltaOf(ts[n], a)).Some?
              && RawFollows(ts, a, from, to, n + 1, ReplayStep(r, DeltaOf(ts[n], a)).value)
    ensures !Touches(ts[n], a) ==> RawFollows(ts, a, from, to, n + 1, r)
  {
    BalanceAfterTransfer(ts, a, to, n);
    SumSplits(Balances(ts, a), from, r.cursor, ts[n].block);
    SumOfConstant(Balances(ts, a), r.cursor, ts[n].block, r.balance);
  }

  /** One more transfer of the window is one more delta, or none. */
  lemma DeltasExtend(opening: nat, w: seq<Transfer>, a: Address, from: nat)
    requires w != []
    ensures var init, last := w[..|w| - 1], w[|w| - 1];
            var r, r' := ReplayDeltas(opening, from, Deltas(init, a)), ReplayDeltas(opening, from, Deltas(w, a));
            if !Touches(last, a) then r' == r
            else if r.None? then r' == None
            else r' == ReplayStep(r.value, DeltaOf(last, a))
  {
    var d, d' := Deltas(w[..|w| - 1], a), Deltas(w, a);
    if Touches(w[|w| - 1], a) {
      assert d'[..|d'| - 1] == d;
    }
  }

  function WindowReplay(ts: seq<Transfer>, a: Address, from: nat, opening: nat, lo: nat, n: nat): Option<Replay>
    requires lo <= n <= |ts|
  {
    ReplayDeltas(opening, from, Deltas(ts[lo..n], a))
  }

  lemma WindowReplayStep(ts: seq<Transfer>, a: Address, from: nat, opening: nat, lo: nat, n: nat)
    requires lo < n <= |ts|
    ensures var r, r' := WindowReplay(ts, a, from, opening, lo, n - 1), WindowReplay(ts, a, from, opening, lo, n);
            if !Touches(ts[n - 1], a) then r' == r
            else if r.None? then r' == None
            else r' == ReplayStep(r.value, DeltaOf(ts[n - 1], a))
  {
    var w := ts[lo..n];
    assert w[..|w| - 1] == ts[lo..n - 1] && w[|w| - 1] == ts[n - 1];
    DeltasExtend(opening, w, a, from);
  }

  ghost predicate ReplayFollows(ts: seq<Transfer>, a: Address, from: nat, to: nat, n: nat, r: Option<Replay>)
    requires n <= |ts|
  {
    r.Some? && RawFollows(ts, a, from, to, n, r.value)
  }

  lemma {:induction false} RawReplays(ts: seq<Transfer>, a: Address, from: nat, to: nat, opening: nat, lo: nat, n: nat)
    requires ValidLedger(ts) && a != ZERO_ADDRESS && lo <= n <= |ts|
    requires ReplayFollows(ts, a, from, to, lo, Some(Replay(opening, 0, from)))
    requires forall k :: lo <= k < n ==> ts[k].block <= to
    ensures ReplayFollows(ts, a, from, to, n, WindowReplay(ts, a, from, opening, lo, n))
    decreases n
  {
    if lo == n {
      assert ts[lo..n] == [];
    } else {
      RawReplays(ts, a, from, to, opening, lo, n - 1);
      RawAdvances(ts, a, from, to, n - 1, WindowReplay(ts, a, from, opening, lo, n - 1).value);
      WindowReplayStep(ts, a, from, opening, lo, n);
    }
  }

  /** What the last stretch of constant balance adds. */
  lemma RawEnds(ts: seq<Transfer>, a: Address, from: nat, to: nat, n: nat, r: Replay)
    requires n == CountUpTo(ts, to, |ts|) && r.cursor <= to && Next(ts, n, to) == to + 1
    requires RawFollows(ts, a, from, to, n, r)
    ensures r.balance == BalanceAt(ts, a, to)
    ensures r.area + Times(r.balance, Gap(r.cursor, to)) == Sum(Balances(ts, a), from, to)
  {
    SumSplits(Balances(ts, a), from, r.cursor, to);
    SumOfConstant(Balances(ts, a), r.cursor, to, r.balance);
  }

  /** Fed with the chain's answers, the raw route integrates the balance block by block and its
      closing check passes. */
  lemma RawIsPerBlockSum(ts: seq<Transfer>, a: Address, from: nat, to: nat)
    requires ValidLedger(ts) && a != ZERO_ADDRESS && from < to
    ensures DeltasWithin(Deltas(Window(ts, from, to), a), from, to)
    ensures var end := ReplayDeltas(BalanceAt(ts, a, from), from, Deltas(Window(ts, from, to), a));
            && end.Some? && end.value.balance == BalanceAt(ts, a, to) && end.value.cursor <= to
            && end.value.area + Times(end.value.balance, Gap(end.value.cursor, to)) == Sum(Balances(ts, a), from, to)
  {
    var lo, hi := CountUpTo(ts, from, |ts|), CountUpTo(ts, to, |ts|);
    CountIsMonotone(ts, from, to, |ts|);
    BlocksWithin(ts, from, to);
    assert Window(ts, from, to) == ts[lo..hi];
    DeltasStayWithin(ts[lo..hi], a, from, to);
    RawStart(ts, a, from, to);
    CountSplits(ts, to, |ts|);
    RawReplays(ts, a, from, to, BalanceAt(ts, a, from), lo, hi);
    CursorWithin(BalanceAt(ts, a, from), from, to, Deltas(ts[lo..hi], a));
    RawEnds(ts, a, from, to, hi, WindowReplay(ts, a, from, BalanceAt(ts, a, from), lo, hi).value);
  }

  /** One segment of `earned_score_of`: a balance read, the logs, and the closing check. */
  method SegmentIntegral(ts: seq<Transfer>, a: Address, from: nat, to: nat) returns (integral: nat)
    requires ValidLedger(ts) && a != ZERO_ADDRESS && from < to
    ensures integral == Sum(Balances(ts, a), from, to)
  {
    RawIsPerBlockSum(ts, a, from, to);
    var w := Window(ts, from, to);
    BlocksWithin(ts, from, to);
    var r := TokenBlockIntegral(BalanceAt(ts, a, from), Query(w, {a}, true), Query(w, {a}, false),
                                BalanceAt(ts, a, to), from, to, w, a);
    integral := r.value;
  }

  /** A segment without a rate or without blocks contributes nothing. */
  lemma SkippedSegment(f: nat -> nat, rates: seq<RatePoint>, decimals: nat, asOf: nat, k: nat)
    requires k < |rates| && (rates[k].rate == 0 || rates[k].fromBlock >= SegmentEnd(rates, k, asOf))
    ensures Times(Scaled(Integral(f, rates, 0, asOf, k), decimals), rates[k].rate) == 0
  {
    if rates[k].rate != 0 {
      ScaledZero(decimals, rates[k].rate);
    }
  }

  function Contribution(f: nat -> nat, rates: seq<RatePoint>, decimals: nat, asOf: nat, k: nat): nat
    requires k < |rates|
  {
    Times(Scaled(Integral(f, rates, 0, asOf, k), decimals), rates[k].rate)
  }

  /** The body of the loop over rate points: only segments with a rate and blocks are read. */
  method SegmentScore(ts: seq<Transfer>, a: Address, rates: seq<RatePoint>, decimals: nat, asOf: nat, k: nat)
    returns (part: nat)
    requires ValidLedger(ts) && a != ZERO_ADDRESS && k < |rates|
    ensures part == Contribution(Balances(ts, a), rates, decimals, asOf, k)
  {
    var from, to := rates[k].fromBlock, SegmentEnd(rates, k, asOf);
    if rates[k].rate == 0 || from >= to {
      SkippedSegment(Balances(ts, a), rates, decimals, asOf, k);
      return 0;
    }
    var integral := SegmentIntegral(ts, a, from, to);
    part := Times(Scaled(integral, decimals), rates[k].rate);
  }

  lemma ContributionsSum(f: nat -> nat, rates: seq<RatePoint>, decimals: nat, asOf: nat, k: nat)
    requires k < |rates|
    ensures Numerator(f, rates, decimals, 0, asOf, k + 1) ==
              Numerator(f, rates, decimals, 0, asOf, k) + Contribution(f, rates, decimals, asOf, k)
  {
  }

  /** `earned_score_of`, for one token. */
  method EarnedNumerator(ts: seq<Transfer>, a: Address, rates: seq<RatePoint>, decimals: nat, asOf: nat)
    returns (numerator: nat)
    requires ValidLedger(ts) && a != ZERO_ADDRESS
    ensures numerator == Numerator(Balances(ts, a), rates, decimals, 0, asOf, |rates|)
  {
    ghost var f := Balances(ts, a);
    numerator := 0;
    var k := 0;
    while k < |rates|
      invariant 0 <= k <= |rates|
      invariant numerator == Numerator(f, rates, decimals, 0, asOf, k)
    {
      var part := SegmentScore(ts, a, rates, decimals, asOf, k);
      ContributionsSum(f, rates, decimals, asOf, k);
      numerator := numerator + part;
      k := k + 1;
    }
  }
}
