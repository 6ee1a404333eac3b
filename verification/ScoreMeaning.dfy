/** The incremental state always is the snapshot of the per-block specification: splitting a
    replay at any block never rounds a segment early. */
module ScoreMeaning {
  import opened Wrappers
  import opened ScoreCore
  import opened U64

  lemma {:induction false} RateForIsIndexed(rates: seq<RatePoint>, k: nat)
    requires Ascending(rates) && k < |rates|
    ensures RateFor(rates, rates[k].fromBlock) == Some(rates[k].rate)
  {
    if k > 0 {
      assert rates[0].fromBlock < rates[k].fromBlock;
      assert Ascending(rates[1..]);
      RateForIsIndexed(rates[1..], k - 1);
    }
  }

  lemma {:induction false} OpenIs(rates: seq<RatePoint>, t: nat, n: nat, k: nat)
    requires Ascending(rates) && k < n <= |rates|
    requires rates[k].fromBlock < t && !Finished(rates, k, t)
    ensures OpenSegment(rates, t, n) == Some(k)
  {
    if k < n - 1 {
      OpenIs(rates, t, n - 1, k);
    }
  }

  /** Nothing is open when every segment that began is over. */
  lemma NothingOpen(rates: seq<RatePoint>, t: nat)
    requires forall k :: 0 <= k < |rates| && rates[k].fromBlock < t ==> Finished(rates, k, t)
    ensures OpenSegment(rates, t, |rates|) == None
  {
  }

  /** From `t` to `t'` only segment `j` may have ended. */
  lemma {:induction false} CompletedGains(f: nat -> nat, rates: seq<RatePoint>, decimals: nat, start: nat, t: nat,
                                          t': nat, j: nat, n: nat)
    requires n <= |rates| && t <= t' && j < |rates|
    requires forall k :: 0 <= k < |rates| && k != j ==> Finished(rates, k, t) == Finished(rates, k, t')
    ensures Completed(f, rates, decimals, start, t', n) ==
              Completed(f, rates, decimals, start, t, n) +
              if j < n && Finished(rates, j, t') && !Finished(rates, j, t)
              then Times(Scaled(Integral(f, rates, start, t', j), decimals), rates[j].rate) else 0
  {
    if n > 0 {
      CompletedGains(f, rates, decimals, start, t, t', j, n - 1);
    }
  }

  /** How far a replay from `t` to `t'` has come before it processes segment `k`. */
  function Reached(rates: seq<RatePoint>, t: nat, t': nat, k: nat): nat
    requires k <= |rates|
  {
    if k == |rates| then t' else Max(t, Min(rates[k].fromBlock, t'))
  }

  function Midway(f: nat -> nat, rates: seq<RatePoint>, decimals: nat, start: nat, t: nat, t': nat, balance: nat,
                  k: nat): AccountState
    requires k <= |rates|
  {
    Snapshot(f, rates, decimals, start, Reached(rates, t, t', k), balance).(lastBlock := t)
  }

  /** Before the first rate nothing is scored. */
  lemma MidwayBegins(f: nat -> nat, rates: seq<RatePoint>, decimals: nat, start: nat, t: nat, t': nat, balance: nat)
    requires Ascending(rates) && start <= t < t' && |rates| > 0
    ensures Midway(f, rates, decimals, start, t, t', balance, 0) == Snapshot(f, rates, decimals, start, t, balance)
  {
    var reached := Reached(rates, t, t', 0);
    if reached != t {
      assert forall k :: 0 <= k < |rates| ==> !Finished(rates, k, t) && !Finished(rates, k, reached);
      CompletedGains(f, rates, decimals, start, t, reached, 0, |rates|);
    }
  }

  /** The part of segment `j` between `s` and `s'`, replayed at a constant balance. */
  lemma IntegralGrows(f: nat -> nat, rates: seq<RatePoint>, start: nat, s: nat, s': nat, balance: nat, j: nat)
    requires j < |rates| && start <= s <= s' && rates[j].fromBlock <= s
    requires j + 1 < |rates| ==> s' <= rates[j + 1].fromBlock
    requires forall x: nat :: s <= x < s' ==> f(x) == balance
    ensures Integral(f, rates, start, s', j) == Integral(f, rates, start, s, j) + Times(balance, s' - s)
  {
    SumSplits(f, Max(rates[j].fromBlock, start), s, s');
    SumOfConstant(f, s, s', balance);
  }

  /** While in segment `j`, the snapshot's active part is that segment's integral so far. */
  lemma ActivePart(f: nat -> nat, rates: seq<RatePoint>, decimals: nat, start: nat, s: nat, balance: nat, j: nat)
    requires Ascending(rates) && j < |rates| && start <= s && rates[j].fromBlock <= s && !Finished(rates, j, s)
    ensures var st := Snapshot(f, rates, decimals, start, s, balance);
            && st.activeIntegral == Integral(f, rates, start, s, j)
            && st.activeSegmentFrom == if start < s && rates[j].fromBlock < s then Some(rates[j].fromBlock) else None
  {
    if start < s {
      if rates[j].fromBlock < s {
        OpenIs(rates, s, |rates|, j);
      } else {
        NothingOpen(rates, s);
      }
    }
  }

  /** At the end of segment `j` nothing is active. */
  lemma NoActivePart(f: nat -> nat, rates: seq<RatePoint>, decimals: nat, start: nat, s: nat, balance: nat, j: nat)
    requires Ascending(rates) && j + 1 < |rates| && s == rates[j + 1].fromBlock
    ensures var st := Snapshot(f, rates, decimals, start, s, balance);
            st.activeIntegral == 0 && st.activeSegmentFrom == None
  {
    NothingOpen(rates, s);
  }

  /** What one segment does to a state that is inside it or has nothing active. */
  lemma AddSegmentIs(st: AccountState, to: nat, rates: seq<RatePoint>, decimals: nat, k: nat)
    requires Ascending(rates) && k < |rates|
    requires Max(st.lastBlock, rates[k].fromBlock) < SegmentEnd(rates, k, to)
    requires st.activeSegmentFrom == Some(rates[k].fromBlock)
               || (st.activeSegmentFrom == None && st.activeIntegral == 0)
    ensures var end := SegmentEnd(rates, k, to);
            var integral := st.activeIntegral + Times(st.balance, end - Max(st.lastBlock, rates[k].fromBlock));
            AddSegment(st, to, rates, decimals, k) ==
              (Done, if k + 1 < |rates| && end == rates[k + 1].fromBlock
                     then st.(
                       completedNumerator := st.completedNumerator + Times(Scaled(integral, decimals), rates[k].rate),
                       activeSegmentFrom := None, activeIntegral := 0)
                     else st.(activeSegmentFrom := Some(rates[k].fromBlock), activeIntegral := integral))
  {
    RateForIsIndexed(rates, k);
  }

  /** The snapshots at both ends of a stretch inside segment `j`. */
  lemma SegmentSnapshots(f: nat -> nat, rates: seq<RatePoint>, decimals: nat, start: nat, s: nat, s': nat, balance: nat,
                         j: nat)
    requires Ascending(rates) && j < |rates| && start <= s < s' && rates[j].fromBlock <= s
    requires j + 1 < |rates| ==> s' <= rates[j + 1].fromBlock
    requires forall x: nat :: s <= x < s' ==> f(x) == balance
    ensures var st, st' :=
              Snapshot(f, rates, decimals, start, s, balance), Snapshot(f, rates, decimals, start, s', balance);
            var integral := st.activeIntegral + Times(balance, s' - s);
            && (st.activeSegmentFrom == Some(rates[j].fromBlock)
              || (st.activeSegmentFrom == None && st.activeIntegral == 0))
            && (if j + 1 < |rates| && s' == rates[j + 1].fromBlock
                then st' == AccountState(
                       balance, s', st.completedNumerator + Times(Scaled(integral, decimals), rates[j].rate), None, 0)
                else st' == AccountState(balance, s', st.completedNumerator, Some(rates[j].fromBlock), integral))
  {
    ActivePart(f, rates, decimals, start, s, balance, j);
    IntegralGrows(f, rates, start, s, s', balance, j);
    FinishedOthers(rates, s, s', j);
    CompletedGains(f, rates, decimals, start, s, s', j, |rates|);
    if j + 1 < |rates| && s' == rates[j + 1].fromBlock {
      NoActivePart(f, rates, decimals, start, s', balance, j);
    } else {
      ActivePart(f, rates, decimals, start, s', balance, j);
    }
  }

  lemma SegmentStep(f: nat -> nat, rates: seq<RatePoint>, decimals: nat, start: nat, t: nat, t': nat, balance: nat,
                    j: nat)
    requires Ascending(rates) && start <= t < t' && j < |rates|
    requires forall x: nat :: t <= x < t' ==> f(x) == balance
    ensures AddSegment(Midway(f, rates, decimals, start, t, t', balance, j), t', rates, decimals, j)
         == (Done, Midway(f, rates, decimals, start, t, t', balance, j + 1))
  {
    var s, s' := Reached(rates, t, t', j), Reached(rates, t, t', j + 1);
    var from, end := Max(t, rates[j].fromBlock), SegmentEnd(rates, j, t');
    if from < end {
      assert s == from && s' == end;
      SegmentSnapshots(f, rates, decimals, start, s, s', balance, j);
      AddSegmentIs(Midway(f, rates, decimals, start, t, t', balance, j), t', rates, decimals, j);
    } else {
      assert s == s';
    }
  }

  lemma FinishedOthers(rates: seq<RatePoint>, s: nat, s': nat, j: nat)
    requires Ascending(rates) && j < |rates| && rates[j].fromBlock <= s <= s'
    requires j + 1 < |rates| ==> s' <= rates[j + 1].fromBlock
    ensures forall k :: 0 <= k < |rates| && k != j ==> Finished(rates, k, s) == Finished(rates, k, s')
  {
  }

  lemma {:induction false} SegmentSteps(f: nat -> nat, rates: seq<RatePoint>, decimals: nat, start: nat, t: nat,
                                        t': nat, balance: nat, n: nat)
    requires Ascending(rates) && start <= t < t' && n <= |rates| && |rates| > 0
    requires forall x: nat :: t <= x < t' ==> f(x) == balance
    ensures AddSegments(Snapshot(f, rates, decimals, start, t, balance), t', rates, decimals, n)
         == (Done, Midway(f, rates, decimals, start, t, t', balance, n))
  {
    if n == 0 {
      MidwayBegins(f, rates, decimals, start, t, t', balance);
    } else {
      SegmentSteps(f, rates, decimals, start, t, t', balance, n - 1);
      SegmentStep(f, rates, decimals, start, t, t', balance, n - 1);
    }
  }

  /** Advancing a snapshot over blocks of constant balance gives the later snapshot. */
  lemma AdvanceKeepsSnapshot(f: nat -> nat, rates: seq<RatePoint>, decimals: nat, start: nat, t: nat, t': nat,
                             balance: nat)
    requires Ascending(rates) && start <= t <= t'
    requires forall x: nat :: t <= x < t' ==> f(x) == balance
    ensures Advance(Snapshot(f, rates, decimals, start, t, balance), t', rates, decimals)
         == (Done, Snapshot(f, rates, decimals, start, t', balance))
  {
    if t < t' && |rates| > 0 {
      SegmentSteps(f, rates, decimals, start, t, t', balance, |rates|);
    }
  }

  // ---- From snapshots to the specification ----

  /** The active part is exactly what the finished segments leave out of the numerator. */
  lemma {:induction false} NumeratorSplits(f: nat -> nat, rates: seq<RatePoint>, decimals: nat, start: nat, t: nat,
                                           n: nat)
    requires Ascending(rates) && n <= |rates| && start <= t
    ensures var open := OpenSegment(rates, t, |rates|);
            Numerator(f, rates, decimals, start, t, n) ==
              Completed(f, rates, decimals, start, t, n) +
              if open.Some? && open.value < n
              then Times(Scaled(Integral(f, rates, start, t, open.value), decimals), rates[open.value].rate) else 0
  {
    if n > 0 {
      NumeratorSplits(f, rates, decimals, start, t, n - 1);
      var k := n - 1;
      if !Finished(rates, k, t) {
        if rates[k].fromBlock < t {
          OpenIs(rates, t, |rates|, k);
        } else {
          ScaledZero(decimals, rates[k].rate);
        }
      }
    }
  }

  lemma ScaledZero(decimals: nat, rate: nat)
    ensures Times(Scaled(0, decimals), rate) == 0
  {
    if decimals <= 18 {
      TimesIsProduct(0, Pow10(18 - decimals));
    } else {
      OverZero(Pow10(decimals - 18));
    }
    TimesIsProduct(0, rate);
  }

  lemma OverZero(b: nat)
    requires b > 0
    ensures Over(0, b) == 0
  {
  }

  /** Projecting a snapshot to any later block gives the specified numerator. */
  lemma ProjectionIsNumerator(f: nat -> nat, rates: seq<RatePoint>, decimals: nat, start: nat, t: nat, t': nat,
                              balance: nat)
    requires Ascending(rates) && start <= t <= t'
    requires forall x: nat :: t <= x < t' ==> f(x) == balance
    ensures Projected(Snapshot(f, rates, decimals, start, t, balance), t', rates, decimals)
         == Some(Numerator(f, rates, decimals, start, t', |rates|))
  {
    AdvanceKeepsSnapshot(f, rates, decimals, start, t, t', balance);
    NumeratorSplits(f, rates, decimals, start, t', |rates|);
    var open := OpenSegment(rates, t', |rates|);
    if open.Some? {
      RateForIsIndexed(rates, open.value);
      if start == t' {
        ScaledZero(decimals, rates[open.value].rate);
      }
    }
  }

  // ---- What a replay may ignore ----

  lemma {:induction false} SumCongruent(f: nat -> nat, g: nat -> nat, a: nat, b: nat)
    requires forall x: nat :: a <= x < b ==> f(x) == g(x)
    ensures Sum(f, a, b) == Sum(g, a, b)
    decreases b
  {
    if a < b {
      SumCongruent(f, g, a, b - 1);
    }
  }

  /** Segments before the first contributing one carry no rate or no blocks, so starting the
      replay there loses nothing. */
  lemma {:induction false} StartMayBeLate(f: nat -> nat, rates: seq<RatePoint>, decimals: nat, t: nat, first: nat,
                                          n: nat)
    requires Ascending(rates) && first < |rates| && n <= |rates| && rates[first].fromBlock < t
    requires forall k :: 0 <= k < first ==> rates[k].rate == 0
    ensures Numerator(f, rates, decimals, rates[first].fromBlock, t, n) == Numerator(f, rates, decimals, 0, t, n)
  {
    if n > 0 {
      StartMayBeLate(f, rates, decimals, t, first, n - 1);
      if n - 1 < first {
        assert Times(Scaled(Integral(f, rates, 0, t, n - 1), decimals), 0) == 0;
        assert Times(Scaled(Integral(f, rates, rates[first].fromBlock, t, n - 1), decimals), 0) == 0;
      }
    }
  }

  /** Rates that start after the cursor do not disturb the state reached there. */
  lemma AppendedRatesAreInvisible(f: nat -> nat, earlier: seq<RatePoint>, rates: seq<RatePoint>, decimals: nat,
                                  start: nat, t: nat, balance: nat)
    requires Ascending(rates) && earlier <= rates
    requires forall k :: |earlier| <= k < |rates| ==> rates[k].fromBlock > t
    ensures Snapshot(f, earlier, decimals, start, t, balance) == Snapshot(f, rates, decimals, start, t, balance)
  {
    CompletedPrefix(f, earlier, rates, decimals, start, t, |rates|);
    OpenPrefix(earlier, rates, t, |rates|);
  }

  lemma {:induction false} CompletedPrefix(f: nat -> nat, earlier: seq<RatePoint>, rates: seq<RatePoint>, decimals: nat,
                                           start: nat, t: nat, n: nat)
    requires earlier <= rates && n <= |rates|
    requires forall k :: |earlier| <= k < |rates| ==> rates[k].fromBlock > t
    requires Ascending(rates)
    ensures Completed(f, rates, decimals, start, t, n) ==
              Completed(f, earlier, decimals, start, t, if n < |earlier| then n else |earlier|)
  {
    if n > 0 {
      CompletedPrefix(f, earlier, rates, decimals, start, t, n - 1);
    }
  }

  lemma {:induction false} OpenPrefix(earlier: seq<RatePoint>, rates: seq<RatePoint>, t: nat, n: nat)
    requires earlier <= rates && n <= |rates|
    requires forall k :: |earlier| <= k < |rates| ==> rates[k].fromBlock > t
    ensures OpenSegment(rates, t, n) == OpenSegment(earlier, t, if n < |earlier| then n else |earlier|)
  {
    if n > 0 {
      OpenPrefix(earlier, rates, t, n - 1);
    }
  }
}
