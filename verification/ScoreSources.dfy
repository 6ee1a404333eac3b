/** Every route to a score gives the specified one: the raw per-segment replay, the bulk replay
    from the first contributing block, and the checkpointed replay from genesis with any number
    of stops and rate changes between. */
module ScoreSources {
  import opened Wrappers
  import opened ScoreCore
  import opened ScoreMeaning
  import opened ScoreLedger
  import opened FlowMerge
  import opened ScoreRaw
  import opened ScoreReplay
  import opened U64

  // ---- All tracked accounts at once ----

  ghost predicate AllFollow(m: Accounts, ts: seq<Transfer>, n: nat, cap: nat, rates: seq<RatePoint>, decimals: nat,
                            start: nat, tracked: Option<set<Address>>) {
    forall a: Address :: Tracks(tracked, a) ==>
      Follows(ts, a, n, cap, AccountOf(m, a), rates, decimals, start) && AccountOf(m, a).lastBlock <= cap
  }

  /** A transfer gives each of its two accounts its own legs and leaves the others alone. */
  lemma LegsOf(m: Accounts, t: Transfer, rates: seq<RatePoint>, decimals: nat, tracked: Option<set<Address>>,
               a: Address)
    requires Tracks(tracked, a) && TransferStep(m, t, rates, decimals, tracked).0.Done?
    ensures var m' := TransferStep(m, t, rates, decimals, tracked).1;
            BothLegs(AccountOf(m, a), t, a, rates, decimals) == (Done, AccountOf(m', a))
  {
  }

  lemma NoLegFails(m: Accounts, t: Transfer, rates: seq<RatePoint>, decimals: nat, tracked: Option<set<Address>>)
    requires Tracks(tracked, t.from) ==> BothLegs(AccountOf(m, t.from), t, t.from, rates, decimals).0.Done?
    requires Tracks(tracked, t.to) ==> BothLegs(AccountOf(m, t.to), t, t.to, rates, decimals).0.Done?
    ensures TransferStep(m, t, rates, decimals, tracked).0.Done?
  {
  }

  /** One account, one transfer of the ledger. */
  lemma LegsKeep(ts: seq<Transfer>, a: Address, n: nat, cap: nat, st: AccountState, rates: seq<RatePoint>,
                 decimals: nat, start: nat)
    requires ValidLedger(ts) && Ascending(rates) && a != ZERO_ADDRESS && n < |ts| && ts[n].block <= cap
    requires Follows(ts, a, n, cap, st, rates, decimals, start) && st.lastBlock <= cap
    ensures var (done, st') := BothLegs(st, ts[n], a, rates, decimals);
            done.Done? && Follows(ts, a, n + 1, cap, st', rates, decimals, start) && st'.lastBlock <= cap
  {
    if Touches(ts[n], a) {
      FollowsTransfer(ts, a, n, cap, st, rates, decimals, start);
    } else {
      FollowsSkips(ts, a, n, cap, st, rates, decimals, start);
    }
  }

  lemma TransferKeeps(m: Accounts, ts: seq<Transfer>, n: nat, cap: nat, rates: seq<RatePoint>, decimals: nat,
                      start: nat, tracked: Option<set<Address>>)
    requires ValidLedger(ts) && Ascending(rates) && n < |ts| && ts[n].block <= cap
    requires AllFollow(m, ts, n, cap, rates, decimals, start, tracked)
    ensures var (done, m') := TransferStep(m, ts[n], rates, decimals, tracked);
            done.Done? && AllFollow(m', ts, n + 1, cap, rates, decimals, start, tracked)
  {
    forall a: Address | Tracks(tracked, a)
      ensures var (done, st') := BothLegs(AccountOf(m, a), ts[n], a, rates, decimals);
              done.Done? && Follows(ts, a, n + 1, cap, st', rates, decimals, start) && st'.lastBlock <= cap
    {
      LegsKeep(ts, a, n, cap, AccountOf(m, a), rates, decimals, start);
    }
    NoLegFails(m, ts[n], rates, decimals, tracked);
    forall a: Address | Tracks(tracked, a)
      ensures BothLegs(AccountOf(m, a), ts[n], a, rates, decimals) ==
                (Done, AccountOf(TransferStep(m, ts[n], rates, decimals, tracked).1, a))
    {
      LegsOf(m, ts[n], rates, decimals, tracked, a);
    }
  }

  lemma ReplayLast(m: Accounts, ts: seq<Transfer>, lo: nat, n: nat, rates: seq<RatePoint>, decimals: nat,
                   tracked: Option<set<Address>>)
    requires lo < n <= |ts| && ReplayTransfers(m, ts[lo..n - 1], rates, decimals, tracked).0.Done?
    ensures ReplayTransfers(m, ts[lo..n], rates, decimals, tracked) ==
              TransferStep(ReplayTransfers(m, ts[lo..n - 1], rates, decimals, tracked).1, ts[n - 1], rates, decimals,
                           tracked)
  {
    assert ts[lo..n][..n - lo - 1] == ts[lo..n - 1];
  }

  ghost predicate Succeeds(r: (Outcome, Accounts), ts: seq<Transfer>, n: nat, cap: nat, rates: seq<RatePoint>,
                           decimals: nat, start: nat, tracked: Option<set<Address>>) {
    r.0.Done? && AllFollow(r.1, ts, n, cap, rates, decimals, start, tracked)
  }

  lemma ReplayNone(m: Accounts, ts: seq<Transfer>, n: nat, rates: seq<RatePoint>, decimals: nat,
                   tracked: Option<set<Address>>)
    requires n <= |ts|
    ensures ReplayTransfers(m, ts[n..n], rates, decimals, tracked) == (Done, m)
  {
    assert ts[n..n] == [];
  }

  lemma {:induction false} TransfersKeep(m: Accounts, ts: seq<Transfer>, lo: nat, n: nat, cap: nat,
                                         rates: seq<RatePoint>, decimals: nat, start: nat,
                                         tracked: Option<set<Address>>)
    requires ValidLedger(ts) && Ascending(rates) && lo <= n <= |ts|
    requires forall k :: lo <= k < n ==> ts[k].block <= cap
    requires AllFollow(m, ts, lo, cap, rates, decimals, start, tracked)
    ensures Succeeds(ReplayTransfers(m, ts[lo..n], rates, decimals, tracked), ts, n, cap, rates, decimals, start,
                     tracked)
    decreases n
  {
    hide AllFollow, TransferStep, ValidLedger, ReplayTransfers;
    if lo == n {
      ReplayNone(m, ts, lo, rates, decimals, tracked);
    } else {
      TransfersKeep(m, ts, lo, n - 1, cap, rates, decimals, start, tracked);
      var before := ReplayTransfers(m, ts[lo..n - 1], rates, decimals, tracked);
      ReplayLast(m, ts, lo, n, rates, decimals, tracked);
      TransferKeeps(before.1, ts, n - 1, cap, rates, decimals, start, tracked);
    }
  }

  /** A replay may be continued to any later block. */
  lemma CapExtends(m: Accounts, ts: seq<Transfer>, c: nat, cap: nat, rates: seq<RatePoint>, decimals: nat, start: nat,
                   tracked: Option<set<Address>>)
    requires ValidLedger(ts) && c <= cap
    requires AllFollow(m, ts, CountUpTo(ts, c, |ts|), c, rates, decimals, start, tracked)
    ensures AllFollow(m, ts, CountUpTo(ts, c, |ts|), cap, rates, decimals, start, tracked)
  {
    var n := CountUpTo(ts, c, |ts|);
    CountSplits(ts, c, |ts|);
    forall a: Address | Tracks(tracked, a) ensures Follows(ts, a, n, cap, AccountOf(m, a), rates, decimals, start) {
      var st := AccountOf(m, a);
      forall x: nat | st.lastBlock <= x < Next(ts, n, cap) ensures BalanceAt(ts, a, x) == st.balance {
        if x >= c {
          BalanceBetween(ts, a, n, x);
        }
      }
    }
  }

  /** A range of blocks replayed on any state that follows the ledger: no leg fails, and the
      result follows the ledger to the end of the range. */
  lemma BlocksKeep(m: Accounts, ts: seq<Transfer>, c: nat, end: nat, rates: seq<RatePoint>, decimals: nat, start: nat,
                   tracked: Option<set<Address>>)
    requires ValidLedger(ts) && Ascending(rates) && c <= end
    requires AllFollow(m, ts, CountUpTo(ts, c, |ts|), c, rates, decimals, start, tracked)
    ensures var (done, m') := ReplayBlocks(m, ts, c, end, rates, decimals, tracked);
            done.Done? && AllFollow(m', ts, CountUpTo(ts, end, |ts|), end, rates, decimals, start, tracked)
  {
    var lo, hi := CountUpTo(ts, c, |ts|), CountUpTo(ts, end, |ts|);
    CountIsMonotone(ts, c, end, |ts|);
    CountSplits(ts, end, |ts|);
    CapExtends(m, ts, c, end, rates, decimals, start, tracked);
    TransfersKeep(m, ts, lo, hi, end, rates, decimals, start, tracked);
    assert Window(ts, c, end) == ts[lo..hi];
  }

  /** Rates that start after the cursor leave every account as it is. */
  lemma RatesMayGrow(m: Accounts, ts: seq<Transfer>, c: nat, earlier: seq<RatePoint>, rates: seq<RatePoint>,
                     decimals: nat, start: nat, tracked: Option<set<Address>>)
    requires Ascending(rates) && earlier <= rates
    requires forall k :: |earlier| <= k < |rates| ==> rates[k].fromBlock > c
    requires AllFollow(m, ts, CountUpTo(ts, c, |ts|), c, earlier, decimals, start, tracked)
    ensures AllFollow(m, ts, CountUpTo(ts, c, |ts|), c, rates, decimals, start, tracked)
  {
    var n := CountUpTo(ts, c, |ts|);
    forall a: Address | Tracks(tracked, a) ensures Follows(ts, a, n, c, AccountOf(m, a), rates, decimals, start) {
      var st := AccountOf(m, a);
      AppendedRatesAreInvisible(Balances(ts, a), earlier, rates, decimals, start, st.lastBlock, st.balance);
    }
  }

  // ---- A stop under an earlier history ----

  /** A transfer changes the accounts of its two ends, to what both of its legs make of them. */
  function Touched(m: Accounts, t: Transfer, rates: seq<RatePoint>, decimals: nat,
                   tracked: Option<set<Address>>): Accounts {
    var m1 := if Tracks(tracked, t.from) then m[t.from := BothLegs(AccountOf(m, t.from), t, t.from, rates, decimals).1]
      else m;
    if Tracks(tracked, t.to) then m1[t.to := BothLegs(AccountOf(m, t.to), t, t.to, rates, decimals).1] else m1
  }

  lemma TransferTouches(m: Accounts, t: Transfer, rates: seq<RatePoint>, decimals: nat, tracked: Option<set<Address>>)
    requires TransferStep(m, t, rates, decimals, tracked).0.Done?
    ensures TransferStep(m, t, rates, decimals, tracked).1 == Touched(m, t, rates, decimals, tracked)
  {
    hide ApplyTransfer;
  }

  /** Both legs of a transfer at or before `c` do not see rates that start after `c`. */
  lemma LegsIgnoreLaterRates(ts: seq<Transfer>, a: Address, n: nat, c: nat, st: AccountState, earlier: seq<RatePoint>,
                             rates: seq<RatePoint>, decimals: nat, start: nat)
    requires ValidLedger(ts) && Ascending(earlier) && Ascending(rates) && a != ZERO_ADDRESS && n < |ts|
    requires ts[n].block <= c
    requires earlier <= rates && forall k :: |earlier| <= k < |rates| ==> rates[k].fromBlock > c
    requires Follows(ts, a, n, c, st, earlier, decimals, start) && st.lastBlock <= c && Touches(ts[n], a)
    ensures BothLegs(st, ts[n], a, earlier, decimals) == BothLegs(st, ts[n], a, rates, decimals)
  {
    hide BothLegs, NetLeg, Snapshot;
    var f := Balances(ts, a);
    AppendedRatesAreInvisible(f, earlier, rates, decimals, start, st.lastBlock, st.balance);
    assert Follows(ts, a, n, c, st, rates, decimals, start);
    FollowsTransfer(ts, a, n, c, st, earlier, decimals, start);
    FollowsTransfer(ts, a, n, c, st, rates, decimals, start);
    var st' := BothLegs(st, ts[n], a, earlier, decimals).1;
    AppendedRatesAreInvisible(f, earlier, rates, decimals, start, st'.lastBlock, st'.balance);
  }

  lemma TransferIgnoresLaterRates(m: Accounts, ts: seq<Transfer>, n: nat, c: nat, earlier: seq<RatePoint>,
                                  rates: seq<RatePoint>, decimals: nat, start: nat, tracked: Option<set<Address>>)
    requires ValidLedger(ts) && Ascending(earlier) && Ascending(rates) && n < |ts| && ts[n].block <= c
    requires earlier <= rates && forall k :: |earlier| <= k < |rates| ==> rates[k].fromBlock > c
    requires AllFollow(m, ts, n, c, earlier, decimals, start, tracked)
    requires AllFollow(m, ts, n, c, rates, decimals, start, tracked)
    ensures TransferStep(m, ts[n], earlier, decimals, tracked) == TransferStep(m, ts[n], rates, decimals, tracked)
  {
    hide BothLegs, Follows, TransferStep, ValidLedger;
    TransferKeeps(m, ts, n, c, earlier, decimals, start, tracked);
    TransferKeeps(m, ts, n, c, rates, decimals, start, tracked);
    TransferTouches(m, ts[n], earlier, decimals, tracked);
    TransferTouches(m, ts[n], rates, decimals, tracked);
    forall a: Address | Tracks(tracked, a) && Touches(ts[n], a)
      ensures BothLegs(AccountOf(m, a), ts[n], a, earlier, decimals) ==
                BothLegs(AccountOf(m, a), ts[n], a, rates, decimals)
    {
      LegsIgnoreLaterRates(ts, a, n, c, AccountOf(m, a), earlier, rates, decimals, start);
    }
  }

  lemma {:induction false} ReplayIgnoresLaterRates(m: Accounts, ts: seq<Transfer>, lo: nat, n: nat, c: nat,
                                                   earlier: seq<RatePoint>, rates: seq<RatePoint>, decimals: nat,
                                                   start: nat, tracked: Option<set<Address>>)
    requires ValidLedger(ts) && Ascending(earlier) && Ascending(rates) && lo <= n <= |ts|
    requires forall k :: lo <= k < n ==> ts[k].block <= c
    requires earlier <= rates && forall k :: |earlier| <= k < |rates| ==> rates[k].fromBlock > c
    requires AllFollow(m, ts, lo, c, earlier, decimals, start, tracked)
    requires AllFollow(m, ts, lo, c, rates, decimals, start, tracked)
    ensures ReplayTransfers(m, ts[lo..n], earlier, decimals, tracked) ==
              ReplayTransfers(m, ts[lo..n], rates, decimals, tracked)
    decreases n
  {
    hide AllFollow, TransferStep, ValidLedger, ReplayTransfers;
    if lo == n {
      ReplayNone(m, ts, lo, earlier, decimals, tracked);
      ReplayNone(m, ts, lo, rates, decimals, tracked);
    } else {
      ReplayIgnoresLaterRates(m, ts, lo, n - 1, c, earlier, rates, decimals, start, tracked);
      TransfersKeep(m, ts, lo, n - 1, c, earlier, decimals, start, tracked);
      TransfersKeep(m, ts, lo, n - 1, c, rates, decimals, start, tracked);
      TransferIgnoresLaterRates(ReplayTransfers(m, ts[lo..n - 1], rates, decimals, tracked).1, ts, n - 1, c, earlier,
                                rates, decimals, start, tracked);
      ReplayLast(m, ts, lo, n, earlier, decimals, tracked);
      ReplayLast(m, ts, lo, n, rates, decimals, tracked);
    }
  }

  /** Stopping the genesis replay at `c` under the history known there and continuing under a
      history that grew after `c` gives exactly the accounts of one uninterrupted replay under the
      longer history. */
  lemma StopsAreInvisible(ts: seq<Transfer>, c: nat, end: nat, earlier: seq<RatePoint>, rates: seq<RatePoint>,
                          decimals: nat)
    requires ValidLedger(ts) && Ascending(rates) && c <= end && earlier <= rates
    requires forall k :: |earlier| <= k < |rates| ==> rates[k].fromBlock > c
    ensures var (stopped, m) := ReplayBlocks(map[], ts, 0, c, earlier, decimals, None);
            && stopped.Done?
              && ReplayBlocks(m, ts, c, end, rates, decimals, None) ==
                ReplayBlocks(map[], ts, 0, end, rates, decimals, None)
  {
    PrefixAscends(earlier, rates);
    GenesisFollows(ts, earlier, decimals);
    GenesisFollows(ts, rates, decimals);
    BlocksKeep(map[], ts, 0, c, earlier, decimals, 0, None);
    ReplaySlices(map[], ts, 0, c, end, rates, decimals, None);
    BlocksIgnoreLaterRates(ts, c, earlier, rates, decimals);
  }

  lemma PrefixAscends(earlier: seq<RatePoint>, rates: seq<RatePoint>)
    requires Ascending(rates) && earlier <= rates
    ensures Ascending(earlier)
  {
    assert forall i :: 0 <= i < |earlier| ==> earlier[i] == rates[i];
  }

  lemma BlocksIgnoreLaterRates(ts: seq<Transfer>, c: nat, earlier: seq<RatePoint>, rates: seq<RatePoint>, decimals: nat)
    requires ValidLedger(ts) && Ascending(earlier) && Ascending(rates) && earlier <= rates
    requires forall k :: |earlier| <= k < |rates| ==> rates[k].fromBlock > c
    ensures ReplayBlocks(map[], ts, 0, c, earlier, decimals, None) ==
              ReplayBlocks(map[], ts, 0, c, rates, decimals, None)
  {
    hide ReplayTransfers, AllFollow;
    var lo, hi := CountUpTo(ts, 0, |ts|), CountUpTo(ts, c, |ts|);
    CountIsMonotone(ts, 0, c, |ts|);
    CountSplits(ts, c, |ts|);
    GenesisFollows(ts, earlier, decimals);
    GenesisFollows(ts, rates, decimals);
    CapExtends(map[], ts, 0, c, earlier, decimals, 0, None);
    CapExtends(map[], ts, 0, c, rates, decimals, 0, None);
    ReplayIgnoresLaterRates(map[], ts, lo, hi, c, earlier, rates, decimals, 0, None);
    assert Window(ts, 0, c) == ts[lo..hi];
  }

  /** What an account that follows the ledger to `t` holds and scores there. */
  lemma FollowedScore(ts: seq<Transfer>, a: Address, t: nat, st: AccountState, rates: seq<RatePoint>, decimals: nat,
                      start: nat)
    requires Ascending(rates) && st.lastBlock <= t && InOrder(ts)
    requires Follows(ts, a, CountUpTo(ts, t, |ts|), t, st, rates, decimals, start)
    ensures st.balance == BalanceAt(ts, a, t)
    ensures Projected(st, t, rates, decimals) == Some(Numerator(Balances(ts, a), rates, decimals, start, t, |rates|))
    ensures Advance(st, t, rates, decimals) ==
              (Done, Snapshot(Balances(ts, a), rates, decimals, start, t, BalanceAt(ts, a, t)))
  {
    CountSplits(ts, t, |ts|);
    ProjectionIsNumerator(Balances(ts, a), rates, decimals, start, st.lastBlock, t, st.balance);
    AdvanceKeepsSnapshot(Balances(ts, a), rates, decimals, start, st.lastBlock, t, st.balance);
  }

  // ---- Where a replay may start ----

  lemma {:induction false} NothingCompleted(f: nat -> nat, rates: seq<RatePoint>, decimals: nat, start: nat, n: nat)
    requires Ascending(rates) && n <= |rates|
    ensures Completed(f, rates, decimals, start, start, n) == 0
  {
    if n > 0 {
      NothingCompleted(f, rates, decimals, start, n - 1);
      ScaledZero(decimals, rates[n - 1].rate);
    }
  }

  lemma FreshSnapshot(f: nat -> nat, rates: seq<RatePoint>, decimals: nat, start: nat, balance: nat)
    requires Ascending(rates)
    ensures Snapshot(f, rates, decimals, start, start, balance) == AccountState(balance, start, 0, None, 0)
  {
    NothingCompleted(f, rates, decimals, start, |rates|);
  }

  /** An account freshly read from the chain at `start`. */
  lemma FreshFollows(ts: seq<Transfer>, a: Address, rates: seq<RatePoint>, decimals: nat, start: nat)
    requires ValidLedger(ts) && Ascending(rates) && a != ZERO_ADDRESS
    ensures Follows(ts, a, CountUpTo(ts, start, |ts|), start, AccountState(BalanceAt(ts, a, start), start, 0, None, 0),
                    rates, decimals, start)
  {
    var n := CountUpTo(ts, start, |ts|);
    CountSplits(ts, start, |ts|);
    NetIsNatural(ts, a, n);
    FreshSnapshot(Balances(ts, a), rates, decimals, start, BalanceAt(ts, a, start));
  }

  lemma GenesisFollows(ts: seq<Transfer>, rates: seq<RatePoint>, decimals: nat)
    requires ValidLedger(ts) && Ascending(rates)
    ensures AllFollow(map[], ts, CountUpTo(ts, 0, |ts|), 0, rates, decimals, 0, None)
  {
    CountSplits(ts, 0, |ts|);
    forall a: Address | a != ZERO_ADDRESS
      ensures BalanceAt(ts, a, 0) == 0
      ensures Follows(ts, a, CountUpTo(ts, 0, |ts|), 0, DEFAULT_STATE, rates, decimals, 0)
    {
      FreshFollows(ts, a, rates, decimals, 0);
    }
  }

  /** The first segment with a rate and blocks before `asOf`. */
  function FirstContributing(rates: seq<RatePoint>, asOf: nat, k: nat): (first: Option<nat>)
    requires k <= |rates|
    ensures first.Some? ==> first.value < |rates|
    decreases |rates| - k
  {
    if k == |rates| then None
    else if rates[k].rate != 0 && rates[k].fromBlock < Min(SegmentEnd(rates, k, asOf), asOf) then Some(k)
    else FirstContributing(rates, asOf, k + 1)
  }

  /** The score service looks for the first rate before the target instead. */
  function FirstRated(rates: seq<RatePoint>, target: nat, k: nat): (first: Option<nat>)
    requires k <= |rates|
    ensures first.Some? ==> first.value < |rates|
    decreases |rates| - k
  {
    if k == |rates| then None
    else if rates[k].rate != 0 && rates[k].fromBlock < target then Some(k)
    else FirstRated(rates, target, k + 1)
  }

  lemma {:induction false} FirstsAgree(rates: seq<RatePoint>, t: nat, k: nat)
    requires Ascending(rates) && k <= |rates|
    ensures FirstContributing(rates, t, k) == FirstRated(rates, t, k)
    decreases |rates| - k
  {
    if k < |rates| {
      FirstsAgree(rates, t, k + 1);
    }
  }

  lemma {:induction false} FirstIs(rates: seq<RatePoint>, t: nat, k: nat)
    requires Ascending(rates) && k <= |rates|
    ensures var first := FirstRated(rates, t, k);
            && (first.Some? ==> rates[first.value].fromBlock < t && k <= first.value
                                && forall i :: k <= i < first.value ==> rates[i].rate == 0)
            && (first.None? ==> forall i :: k <= i < |rates| ==> rates[i].rate == 0 || rates[i].fromBlock >= t)
    decreases |rates| - k
  {
    if k < |rates| {
      FirstIs(rates, t, k + 1);
      var first := FirstRated(rates, t, k);
      assert first.Some? && first.value > k ==> rates[k].fromBlock < rates[first.value].fromBlock;
    }
  }

  lemma {:induction false} NothingContributes(f: nat -> nat, rates: seq<RatePoint>, decimals: nat, t: nat, n: nat)
    requires n <= |rates| && forall i :: 0 <= i < |rates| ==> rates[i].rate == 0 || rates[i].fromBlock >= t
    ensures Numerator(f, rates, decimals, 0, t, n) == 0
  {
    if n > 0 {
      NothingContributes(f, rates, decimals, t, n - 1);
      SkippedSegment(f, rates, decimals, t, n - 1);
    }
  }

  /** A replay from the first contributing block, or none at all, loses nothing. */
  lemma FirstContributingSuffices(f: nat -> nat, rates: seq<RatePoint>, decimals: nat, t: nat)
    requires Ascending(rates)
    ensures var first := FirstContributing(rates, t, 0);
            Numerator(f, rates, decimals, 0, t, |rates|) ==
              if first.None? then 0
              else Numerator(f, rates, decimals, rates[first.value].fromBlock, t, |rates|)
    ensures var first := FirstContributing(rates, t, 0); first.Some? ==> rates[first.value].fromBlock < t
  {
    FirstsAgree(rates, t, 0);
    FirstIs(rates, t, 0);
    var first := FirstRated(rates, t, 0);
    if first.None? {
      NothingContributes(f, rates, decimals, t, |rates|);
    } else {
      StartMayBeLate(f, rates, decimals, t, first.value, |rates|);
    }
  }

  // ---- The checkpoint from genesis ----

  datatype StoredToken = StoredToken(
    decimals: nat, cursor: nat, cursorHash: nat, rates: seq<RatePoint>, accounts: Accounts)

  datatype Refusal =
    | ZeroClaimant | UntrackedClaimant | BadRates | DecimalsMismatch | HistoryShrank | HistoryMismatch
    | RetroactiveRate | BlockHashChanged | NotAdvanced(r: TokenResult) | BalanceDiffers

  datatype Result<T> = Ok(value: T) | Err(refusal: Refusal)

  /** What a stored token claims: it is the replay of the ledger up to its cursor. */
  ghost predicate Indexed(token: StoredToken, ts: seq<Transfer>) {
    && Ascending(token.rates)
    && AllFollow(token.accounts, ts, CountUpTo(ts, token.cursor, |ts|), token.cursor, token.rates, token.decimals, 0,
                 None)
  }

  /** The current history extends the stored one, after the cursor. */
  predicate Extends(rates: seq<RatePoint>, stored: seq<RatePoint>, cursor: nat) {
    stored <= rates && forall k :: |stored| <= k < |rates| ==> rates[k].fromBlock > cursor
  }

  method ValidateStored(stored: StoredToken, rates: seq<RatePoint>, decimals: nat) returns (r: Result<()>)
    ensures r.Ok? <==> stored.decimals == decimals && Extends(rates, stored.rates, stored.cursor)
  {
    if stored.decimals != decimals {
      return Err(DecimalsMismatch);
    }
    if |rates| < |stored.rates| {
      return Err(HistoryShrank);
    }
    var k := 0;
    while k < |stored.rates|
      invariant 0 <= k <= |stored.rates| && stored.rates[..k] == rates[..k]
    {
      if stored.rates[k] != rates[k] {
        return Err(HistoryMismatch);
      }
      k := k + 1;
    }
    while k < |rates|
      invariant |stored.rates| <= k <= |rates|
      invariant forall i :: |stored.rates| <= i < k ==> rates[i].fromBlock > stored.cursor
    {
      if rates[k].fromBlock <= stored.cursor {
        return Err(RetroactiveRate);
      }
      k := k + 1;
    }
    r := Ok(());
  }

  /** The chain still has the block at which the token was stored. */
  predicate OnChain(stored: StoredToken, hashOf: nat -> nat) {
    stored.cursor != 0 ==> stored.cursorHash == hashOf(stored.cursor)
  }

  /** Whether a stored token (or a fresh one) can be brought to `asOf`. */
  predicate Resumable(stored: Option<StoredToken>, rates: seq<RatePoint>, decimals: nat, asOf: nat, maxRange: nat,
                      hashOf: nat -> nat) {
    && Ascending(rates)
    && (stored.Some? ==>
          && stored.value.decimals == decimals && Extends(rates, stored.value.rates, stored.value.cursor)
          && OnChain(stored.value, hashOf))
    && var cursor := if stored.Some? then stored.value.cursor else 0;
       cursor == asOf || (cursor < asOf && maxRange > 0)
  }

  /** Opening a token of the checkpoint succeeds exactly when it is resumable, and gives a token
      that again is the replay of the ledger, now to `asOf`, under the current rates. */
  method OpenToken(ts: seq<Transfer>, stored: Option<StoredToken>, rates: seq<RatePoint>, decimals: nat, asOf: nat,
                   maxRange: nat, hashOf: nat -> nat)
    returns (r: Result<StoredToken>)
    requires ValidLedger(ts) && (stored.Some? ==> Indexed(stored.value, ts))
    ensures r.Ok? <==> Resumable(stored, rates, decimals, asOf, maxRange, hashOf)
    ensures r.Ok? ==> OnChain(r.value, hashOf)
    ensures r.Ok? ==> r.value.decimals == decimals && r.value.cursor == asOf && Extends(rates, r.value.rates, asOf)
    ensures r.Ok? ==> Indexed(r.value, ts) && Indexed(r.value.(rates := rates), ts)
  {
    if !Ascending(rates) {
      return Err(BadRates);
    }
    var from := StoredToken(decimals, 0, ZERO_HASH, rates, map[]);
    if stored.Some? {
      var valid := ValidateStored(stored.value, rates, decimals);
      if valid.Err? {
        return Err(valid.refusal);
      }
      if stored.value.cursor != 0 && hashOf(stored.value.cursor) != stored.value.cursorHash {
        return Err(BlockHashChanged);
      }
      from := stored.value;
    } else {
      GenesisFollows(ts, rates, decimals);
    }
    var token := new TokenState(decimals, from.cursor, from.cursorHash, from.rates, from.accounts);
    var advanced := token.AdvanceToken(ts, rates, asOf, maxRange, None, hashOf);
    RatesMayGrow(from.accounts, ts, from.cursor, from.rates, rates, decimals, 0, None);
    if from.cursor <= asOf {
      BlocksKeep(from.accounts, ts, from.cursor, asOf, rates, decimals, 0, None);
    }
    if advanced != Advanced {
      return Err(NotAdvanced(advanced));
    }
    r := Ok(StoredToken(decimals, token.cursorBlock, token.cursorHash, token.rates, token.accounts));
  }

  /** The balance check and the projection of one user. */
  method CheckpointNumerator(ts: seq<Transfer>, token: StoredToken, rates: seq<RatePoint>, user: Address)
    returns (r: Result<nat>)
    requires ValidLedger(ts) && Indexed(token.(rates := rates), ts) && user != ZERO_ADDRESS
    ensures r == Ok(Numerator(Balances(ts, user), rates, token.decimals, 0, token.cursor, |rates|))
  {
    var account := AccountOf(token.accounts, user);
    assert Tracks(None, user);
    FollowedScore(ts, user, token.cursor, account, rates, token.decimals, 0);
    if BalanceAt(ts, user, token.cursor) != account.balance {
      return Err(BalanceDiffers);
    }
    var projected := Projected(account, token.cursor, rates, token.decimals);
    r := Ok(projected.value);
  }

  // ---- The bulk replay from the first contributing block ----

  function FreshAccounts(ts: seq<Transfer>, tracked: set<Address>, start: nat): Accounts {
    map a | a in tracked :: AccountState(BalanceAt(ts, a, start), start, 0, None, 0)
  }

  /** One token of the bulk source, and one claimant's numerator from it. */
  method BulkNumerator(ts: seq<Transfer>, rates: seq<RatePoint>, decimals: nat, asOf: nat, maxRange: nat,
                       tracked: set<Address>, user: Address, hashOf: nat -> nat)
    returns (r: Result<nat>)
    requires ValidLedger(ts) && FirstContributing(rates, asOf, 0).Some?
    ensures r.Ok? <==> ZERO_ADDRESS !in tracked && user in tracked && Ascending(rates) && maxRange > 0
    ensures r.Ok? ==> r.value == Numerator(Balances(ts, user), rates, decimals, 0, asOf, |rates|)
  {
    if ZERO_ADDRESS in tracked {
      return Err(ZeroClaimant);
    }
    if user !in tracked {
      return Err(UntrackedClaimant);
    }
    if !Ascending(rates) {
      return Err(BadRates);
    }
    var start := rates[FirstContributing(rates, asOf, 0).value].fromBlock;
    FirstContributingSuffices(Balances(ts, user), rates, decimals, asOf);
    var token := new TokenState(decimals, start, ZERO_HASH, rates, FreshAccounts(ts, tracked, start));
    BulkStarts(ts, rates, decimals, tracked, start);
    BlocksKeep(token.accounts, ts, start, asOf, rates, decimals, start, Some(tracked));
    var advanced := token.AdvanceToken(ts, rates, asOf, maxRange, Some(tracked), hashOf);
    if advanced != Advanced {
      return Err(NotAdvanced(advanced));
    }
    var account := AccountOf(token.accounts, user);
    assert Tracks(Some(tracked), user);
    FollowedScore(ts, user, asOf, account, rates, decimals, start);
    if BalanceAt(ts, user, asOf) != account.balance {
      return Err(BalanceDiffers);
    }
    var projected := Projected(account, asOf, rates, decimals);
    r := Ok(projected.value);
  }

  lemma BulkStarts(ts: seq<Transfer>, rates: seq<RatePoint>, decimals: nat, tracked: set<Address>, start: nat)
    requires ValidLedger(ts) && Ascending(rates)
    ensures AllFollow(FreshAccounts(ts, tracked, start), ts, CountUpTo(ts, start, |ts|), start, rates, decimals, start,
                      Some(tracked))
  {
    forall a: Address | Tracks(Some(tracked), a)
      ensures Follows(ts, a, CountUpTo(ts, start, |ts|), start, AccountOf(FreshAccounts(ts, tracked, start), a), rates,
                      decimals, start)
    {
      FreshFollows(ts, a, rates, decimals, start);
    }
  }

  // ---- The gross score over all scored tokens ----

  /** A scored token and, for the specification, its chain. */
  datatype Scored = Scored(decimals: nat, rates: seq<RatePoint>, ledger: seq<Transfer>)

  function Total(tokens: seq<Scored>, user: Address, asOf: nat, n: nat): nat
    requires n <= |tokens|
  {
    if n == 0 then 0
    else
      var t := tokens[n - 1];
      Total(tokens, user, asOf, n - 1) + Numerator(Balances(t.ledger, user), t.rates, t.decimals, 0, asOf, |t.rates|)
  }

  lemma TotalStep(tokens: seq<Scored>, user: Address, asOf: nat, k: nat)
    requires k < |tokens|
    ensures var t := tokens[k];
            Total(tokens, user, asOf, k + 1) ==
              Total(tokens, user, asOf, k)
                + Numerator(Balances(t.ledger, user), t.rates, t.decimals, 0, asOf, |t.rates|)
  {
  }

  function GrossScore(numerator: nat): nat {
    numerator / SCORE_SCALE
  }

  predicate Scorable(tokens: seq<Scored>) {
    forall k :: 0 <= k < |tokens| ==> ValidLedger(tokens[k].ledger) && Ascending(tokens[k].rates)
  }

  method RawScore(tokens: seq<Scored>, user: Address, asOf: nat) returns (score: nat)
    requires user != ZERO_ADDRESS && forall k :: 0 <= k < |tokens| ==> ValidLedger(tokens[k].ledger)
    ensures score == GrossScore(Total(tokens, user, asOf, |tokens|))
  {
    var numerator := 0;
    for k := 0 to |tokens|
      invariant numerator == Total(tokens, user, asOf, k)
    {
      TotalStep(tokens, user, asOf, k);
      var part := EarnedNumerator(tokens[k].ledger, user, tokens[k].rates, tokens[k].decimals, asOf);
      numerator := numerator + part;
    }
    score := GrossScore(numerator);
  }

  /** One scored token's part of the bulk score. */
  method BulkPart(t: Scored, tracked: set<Address>, user: Address, asOf: nat, maxRange: nat, hashOf: nat -> nat)
    returns (r: Result<nat>)
    requires ValidLedger(t.ledger) && Ascending(t.rates) && ZERO_ADDRESS !in tracked && user in tracked
    ensures r.Ok? <==> FirstContributing(t.rates, asOf, 0).None? || maxRange > 0
    ensures r.Ok? ==> r.value == Numerator(Balances(t.ledger, user), t.rates, t.decimals, 0, asOf, |t.rates|)
  {
    FirstContributingSuffices(Balances(t.ledger, user), t.rates, t.decimals, asOf);
    if FirstContributing(t.rates, asOf, 0).None? {
      return Ok(0);
    }
    r := BulkNumerator(t.ledger, t.rates, t.decimals, asOf, maxRange, tracked, user, hashOf);
  }

  /** The bulk replay gives the same score, for tracked claimants. */
  method BulkScore(tokens: seq<Scored>, tracked: set<Address>, user: Address, asOf: nat, maxRange: nat,
                   hashOf: nat -> nat)
    returns (r: Result<nat>)
    requires Scorable(tokens)
    ensures r.Ok? <==>
              && ZERO_ADDRESS !in tracked && user in tracked
              && forall k :: 0 <= k < |tokens| ==> FirstContributing(tokens[k].rates, asOf, 0).None? || maxRange > 0
    ensures r.Ok? ==> r.value == GrossScore(Total(tokens, user, asOf, |tokens|))
  {
    hide ValidLedger, FirstContributing, Numerator, Balances;
    if ZERO_ADDRESS in tracked {
      return Err(ZeroClaimant);
    }
    if user !in tracked {
      return Err(UntrackedClaimant);
    }
    var numerator := 0;
    for k := 0 to |tokens|
      invariant numerator == Total(tokens, user, asOf, k)
      invariant forall i :: 0 <= i < k ==> FirstContributing(tokens[i].rates, asOf, 0).None? || maxRange > 0
    {
      TotalStep(tokens, user, asOf, k);
      var part := BulkPart(tokens[k], tracked, user, asOf, maxRange, hashOf);
      if part.Err? {
        return part;
      }
      numerator := numerator + part.value;
    }
    r := Ok(GrossScore(numerator));
  }

  /** One scored token's part of the checkpointed score. */
  method CheckpointPart(t: Scored, stored: Option<StoredToken>, user: Address, asOf: nat, maxRange: nat,
                        hashOf: nat -> nat)
    returns (r: Result<nat>)
    requires ValidLedger(t.ledger) && Ascending(t.rates) && user != ZERO_ADDRESS
    requires stored.Some? ==> Indexed(stored.value, t.ledger)
    ensures r.Ok? <==> (FirstContributing(t.rates, asOf, 0).Some? ==>
                          Resumable(stored, t.rates, t.decimals, asOf, maxRange, hashOf))
    ensures r.Ok? ==> r.value == Numerator(Balances(t.ledger, user), t.rates, t.decimals, 0, asOf, |t.rates|)
  {
    FirstContributingSuffices(Balances(t.ledger, user), t.rates, t.decimals, asOf);
    if FirstContributing(t.rates, asOf, 0).None? {
      return Ok(0);
    }
    var token := OpenToken(t.ledger, stored, t.rates, t.decimals, asOf, maxRange, hashOf);
    if token.Err? {
      return Err(token.refusal);
    }
    r := CheckpointNumerator(t.ledger, token.value, t.rates, user);
  }

  /** Checkpoints stored at any earlier time, under any earlier rates, give the same score. */
  method CheckpointScore(tokens: seq<Scored>, stored: seq<Option<StoredToken>>, user: Address, asOf: nat,
                         maxRange: nat, hashOf: nat -> nat)
    returns (r: Result<nat>)
    requires Scorable(tokens) && user != ZERO_ADDRESS && |stored| == |tokens|
    requires forall k :: 0 <= k < |tokens| && stored[k].Some? ==> Indexed(stored[k].value, tokens[k].ledger)
    ensures r.Ok? <==> forall k :: 0 <= k < |tokens| && FirstContributing(tokens[k].rates, asOf, 0).Some? ==>
                         Resumable(stored[k], tokens[k].rates, tokens[k].decimals, asOf, maxRange, hashOf)
    ensures r.Ok? ==> r.value == GrossScore(Total(tokens, user, asOf, |tokens|))
  {
    hide Indexed, ValidLedger, Resumable, FirstContributing, Numerator, Balances;
    var numerator := 0;
    for k := 0 to |tokens|
      invariant numerator == Total(tokens, user, asOf, k)
      invariant forall i :: 0 <= i < k && FirstContributing(tokens[i].rates, asOf, 0).Some? ==>
                  Resumable(stored[i], tokens[i].rates, tokens[i].decimals, asOf, maxRange, hashOf)
    {
      TotalStep(tokens, user, asOf, k);
      var part := CheckpointPart(tokens[k], stored[k], user, asOf, maxRange, hashOf);
      if part.Err? {
        return Err(part.refusal);
      }
      numerator := numerator + part.value;
    }
    r := Ok(GrossScore(numerator));
  }
}
