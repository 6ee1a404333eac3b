/** The score service: one user's text checkpoint per token, advanced from block to block under
    growing rate histories, always is the text of the uninterrupted replay. */
module ScoreResume {
  import opened Wrappers
  import opened ScoreCore
  import opened ScoreMeaning
  import opened ScoreLedger
  import opened ScoreRaw
  import opened ScoreReplay
  import opened ScoreSources
  import opened ScorePersist
  import opened Decimals
  import opened Sorting

  /** A scored token: `token` stands for its address. */
  datatype Token = Token(token: Address, decimals: nat, rates: seq<RatePoint>)

  datatype Checkpoint = Checkpoint(
    token: Address,
    decimals: nat,
    cursorBlock: string,
    cursorHash: nat,
    rates: seq<RateText>,
    account: AccountText)

  datatype ResumeError =
    | TokenMismatch | WrongDecimals | Malformed | RatesUnordered | RateHistoryMismatch | Retroactive
    | CursorRollback | InvalidTransferOrder | Core(error: ScoreError) | StaleBlockHash | ReplayedBalance

  datatype Answer<T> = Good(value: T) | Bad(error: ResumeError)

  function PrintCheckpoint(t: Token, cursor: nat, hash: nat, st: AccountState): Checkpoint {
    Checkpoint(t.token, t.decimals, Print(cursor), hash, PrintRates(t.rates), PrintAccount(st))
  }

  /** `validate_checkpoint`: the cursor and the state, or the first check that fails. */
  function ValidateCheckpoint(c: Checkpoint, t: Token): Answer<(nat, AccountState)> {
    var cursor, points, st := ParseU64(c.cursorBlock), ParsePoints(c.rates), ParseAccount(c.account);
    if c.token != t.token then Bad(TokenMismatch)
    else if c.decimals != t.decimals then Bad(WrongDecimals)
    else if cursor.None? || points.None? then Bad(Malformed)
    else if !Ascending(points.value) then Bad(RatesUnordered)
    else if !(points.value <= t.rates) then Bad(RateHistoryMismatch)
    else if exists k :: |points.value| <= k < |t.rates| && t.rates[k].fromBlock <= cursor.value then Bad(Retroactive)
    else if st.None? || st.value.lastBlock != cursor.value then Bad(Malformed)
    else Good((cursor.value, st.value))
  }

  /** A checkpoint is accepted exactly when it is the text of a state at its own cursor under a
      history that the current one extends after that cursor. */
  lemma AcceptedExactly(c: Checkpoint, t: Token, cursor: nat, st: AccountState)
    ensures ValidateCheckpoint(c, t) == Good((cursor, st)) <==>
              && c.token == t.token && c.decimals == t.decimals
              && c.cursorBlock == Print(cursor) && Fits(cursor)
              && c.account == PrintAccount(st) && AccountFits(st) && st.lastBlock == cursor
              && ParseRates(c.rates).Some? && Extends(t.rates, ParseRates(c.rates).value, cursor)
  {
    hide Print, ParseU64, PrintAccount, ParseAccount, ParsePoints;
    ParsePrints(cursor, c.cursorBlock);
    AccountRoundTrip(st, c.account);
  }

  // ---- Replaying one account's transfers ----

  function Inflow(x: Transfer, a: Address): nat { if x.to == a then x.value else 0 }

  function Outflow(x: Transfer, a: Address): nat { if x.from == a then x.value else 0 }

  predicate InInterval(x: Transfer, cursor: nat, target: nat, previous: Option<Transfer>) {
    && cursor < x.block <= target
    && (previous.Some? ==>
        previous.value.block < x.block || (previous.value.block == x.block && previous.value.index < x.index))
  }

  function Last(w: seq<Transfer>): Option<Transfer> {
    if w == [] then None else Some(w[|w| - 1])
  }

  /** Transfers must be ordered and within the interval; those that move nothing are skipped. */
  function ReplayOwn(st: AccountState, cursor: nat, target: nat, w: seq<Transfer>, a: Address,
                     t: Token): Answer<AccountState> {
    if w == [] then Good(st)
    else
      var init, x := w[..|w| - 1], w[|w| - 1];
      var before := ReplayOwn(st, cursor, target, init, a, t);
      if before.Bad? then before
      else if !InInterval(x, cursor, target, Last(init)) then Bad(InvalidTransferOrder)
      else if Inflow(x, a) == 0 && Outflow(x, a) == 0 then before
      else
        var (done, st') := ApplyTransfer(before.value, x.block, Inflow(x, a), Outflow(x, a), t.rates, t.decimals);
        if done.Failed? then Bad(Core(done.error)) else Good(st')
  }

  lemma {:induction false} OwnFails(st: AccountState, cursor: nat, target: nat, w: seq<Transfer>, k: nat, a: Address,
                                    t: Token)
    requires k <= |w| && ReplayOwn(st, cursor, target, w[..k], a, t).Bad?
    ensures ReplayOwn(st, cursor, target, w, a, t) == ReplayOwn(st, cursor, target, w[..k], a, t)
  {
    if k < |w| {
      assert w[..|w| - 1][..k] == w[..k];
      OwnFails(st, cursor, target, w[..|w| - 1], k, a, t);
    } else {
      assert w[..k] == w;
    }
  }

  /** A stored checkpoint, advanced in place. */
  class CheckpointCell {
    const token: Address
    const decimals: nat
    var cursorBlock: string
    var cursorHash: nat
    var rates: seq<RateText>
    var account: AccountText

    constructor (c: Checkpoint)
      ensures View() == c
    {
      token, decimals, cursorBlock, cursorHash, rates, account :=
        c.token, c.decimals, c.cursorBlock, c.cursorHash, c.rates, c.account;
    }

    function View(): Checkpoint
      reads this
    {
      Checkpoint(token, decimals, cursorBlock, cursorHash, rates, account)
    }

    /** The loop over transfers, which does not touch the cell. */
    method ReplayTransfersOf(st: AccountState, cursor: nat, target: nat, w: seq<Transfer>, a: Address, t: Token)
      returns (r: Answer<AccountState>)
      ensures r == ReplayOwn(st, cursor, target, w, a, t)
    {
      var account := new AccountScore(st);
      var previous: Option<Transfer> := None;
      var k := 0;
      while k < |w|
        invariant 0 <= k <= |w| && previous == Last(w[..k]) && fresh(account)
        invariant ReplayOwn(st, cursor, target, w[..k], a, t) == Good(account.View())
      {
        var x := w[k];
        assert w[..k + 1][..k] == w[..k];
        var late := previous.Some? &&
        (x.block < previous.value.block || (x.block == previous.value.block && x.index <= previous.value.index));
        if x.block <= cursor || x.block > target || late {
          OwnFails(st, cursor, target, w, k + 1, a, t);
          return Bad(InvalidTransferOrder);
        }
        previous := Some(x);
        if Inflow(x, a) != 0 || Outflow(x, a) != 0 {
          var done := account.Transfer(x.block, Inflow(x, a), Outflow(x, a), t.rates, t.decimals);
          if done.Failed? {
            OwnFails(st, cursor, target, w, k + 1, a, t);
            return Bad(Core(done.error));
          }
        }
        k := k + 1;
      }
      assert w[..k] == w;
      r := Good(account.View());
    }

    method AdvanceTokenCheckpoint(t: Token, a: Address, w: seq<Transfer>, target: nat, hash: nat)
      returns (r: Answer<()>)
      modifies this
      ensures View() == old(AdvancedTo(View(), t, a, w, target, hash)).0
      ensures r == old(AdvancedTo(View(), t, a, w, target, hash)).1
    {
      if !Ascending(t.rates) {
        return Bad(Core(RatesNotAscending));
      }
      var valid := ValidateCheckpoint(View(), t);
      if valid.Bad? {
        return Bad(valid.error);
      }
      var (cursor, st) := valid.value;
      if target < cursor {
        return Bad(CursorRollback);
      }
      var replayed := ReplayTransfersOf(st, cursor, target, w, a, t);
      if replayed.Bad? {
        return Bad(replayed.error);
      }
      var state := new AccountScore(replayed.value);
      var done := state.AdvanceAccount(target, t.rates, t.decimals);
      if done.Failed? {
        return Bad(Core(done.error));
      }
      cursorBlock := Print(target);
      cursorHash := hash;
      rates := PrintRates(t.rates);
      account := PrintAccount(state.View());
      r := Good(());
    }
  }

  /** `advance_token_checkpoint`, as a function of the stored record. */
  function AdvancedTo(c: Checkpoint, t: Token, a: Address, w: seq<Transfer>, target: nat,
                      hash: nat): (Checkpoint, Answer<()>) {
    var valid := ValidateCheckpoint(c, t);
    if !Ascending(t.rates) then (c, Bad(Core(RatesNotAscending)))
    else if valid.Bad? then (c, Bad(valid.error))
    else
      var (cursor, st) := valid.value;
      if target < cursor then (c, Bad(CursorRollback))
      else
        var replayed := ReplayOwn(st, cursor, target, w, a, t);
        if replayed.Bad? then (c, Bad(replayed.error))
        else
          var (done, end) := Advance(replayed.value, target, t.rates, t.decimals);
          if done.Failed? then (c, Bad(Core(done.error)))
          else (PrintCheckpoint(t, target, hash, end), Good(()))
  }

  // ---- On the chain's own transfers ----

  /** The state of the uninterrupted replay of `a` from `start` to `t`. */
  function Replayed(ts: seq<Transfer>, a: Address, t: Token, start: nat, end: nat): AccountState {
    Snapshot(Balances(ts, a), t.rates, t.decimals, start, end, BalanceAt(ts, a, end))
  }

  /** The reader's answer: the window's transfers that touch the account. */
  function OwnTransfers(w: seq<Transfer>, a: Address): seq<Transfer> {
    Relevant(w, Some({a}))
  }

  lemma {:induction false} OwnWindowOrder(w: seq<Transfer>, a: Address)
    requires InOrder(w)
    ensures var own := OwnTransfers(w, a);
            && (w == [] ==> own == [])
            && (own != [] ==> Last(own).value in w)
  {
    if w != [] {
      assert InOrder(w[..|w| - 1]);
      OwnWindowOrder(w[..|w| - 1], a);
      if OwnTransfers(w[..|w| - 1], a) != [] {
        assert Last(OwnTransfers(w[..|w| - 1], a)).value in w;
      }
    }
  }

  ghost predicate OwnFollows(r: Answer<AccountState>, ts: seq<Transfer>, a: Address, n: nat, cap: nat, t: Token,
                             start: nat) {
    r.Good? && Follows(ts, a, n, cap, r.value, t.rates, t.decimals, start) && r.value.lastBlock <= cap
  }

  /** What one more transfer of the window does to the replay of the account's own. */
  lemma OwnExtends(st: AccountState, cursor: nat, target: nat, ts: seq<Transfer>, lo: nat, n: nat, a: Address, t: Token)
    requires InOrder(ts) && lo < n <= |ts|
    requires cursor < ts[n - 1].block <= target
    ensures var before := ReplayOwn(st, cursor, target, OwnTransfers(ts[lo..n - 1], a), a, t);
            var after := ReplayOwn(st, cursor, target, OwnTransfers(ts[lo..n], a), a, t);
            var x := ts[n - 1];
            if before.Bad? || (Inflow(x, a) == 0 && Outflow(x, a) == 0) then after == before
            else
              var (done, st') := ApplyTransfer(before.value, x.block, Inflow(x, a), Outflow(x, a), t.rates, t.decimals);
              after == if done.Failed? then Bad(Core(done.error)) else Good(st')
  {
    hide ApplyTransfer;
    var w, init := ts[lo..n], ts[lo..n - 1];
    assert w[..|w| - 1] == init && w[|w| - 1] == ts[n - 1];
    var own, own' := OwnTransfers(init, a), OwnTransfers(w, a);
    OwnWindowOrder(init, a);
    if own' != own {
      assert own' == own + [ts[n - 1]] && own'[..|own'| - 1] == own;
      if own != [] {
        var k :| 0 <= k < |init| && init[k] == Last(own).value;
        assert ts[lo + k] == init[k] && lo + k < n - 1;
      }
      assert InInterval(ts[n - 1], cursor, target, Last(own));
    }
  }

  lemma {:induction false} OwnReplayKeeps(st: AccountState, cursor: nat, target: nat, ts: seq<Transfer>, lo: nat,
                                          n: nat, a: Address, t: Token, start: nat)
    requires ValidLedger(ts) && Ascending(t.rates) && a != ZERO_ADDRESS && lo <= n <= |ts|
    requires forall k :: lo <= k < n ==> cursor < ts[k].block <= target
    requires OwnFollows(Good(st), ts, a, lo, target, t, start)
    ensures OwnFollows(ReplayOwn(st, cursor, target, OwnTransfers(ts[lo..n], a), a, t), ts, a, n, target, t, start)
    decreases n
  {
    hide Follows, ApplyTransfer;
    if lo == n {
      assert ts[lo..n] == [];
    } else {
      OwnReplayKeeps(st, cursor, target, ts, lo, n - 1, a, t, start);
      OwnExtends(st, cursor, target, ts, lo, n, a, t);
      var before := ReplayOwn(st, cursor, target, OwnTransfers(ts[lo..n - 1], a), a, t);
      OwnTransferKeeps(ts, a, n - 1, target, before.value, t, start);
    }
  }

  lemma OwnTransferKeeps(ts: seq<Transfer>, a: Address, n: nat, cap: nat, st: AccountState, t: Token, start: nat)
    requires ValidLedger(ts) && Ascending(t.rates) && a != ZERO_ADDRESS && n < |ts| && ts[n].block <= cap
    requires OwnFollows(Good(st), ts, a, n, cap, t, start)
    ensures var x := ts[n];
            if Inflow(x, a) == 0 && Outflow(x, a) == 0 then OwnFollows(Good(st), ts, a, n + 1, cap, t, start)
            else
              var (done, st') := ApplyTransfer(st, x.block, Inflow(x, a), Outflow(x, a), t.rates, t.decimals);
              done.Done? && OwnFollows(Good(st'), ts, a, n + 1, cap, t, start)
  {
    hide ApplyTransfer, Follows;
    if Inflow(ts[n], a) == 0 && Outflow(ts[n], a) == 0 {
      FollowsSkips(ts, a, n, cap, st, t.rates, t.decimals, start);
    } else {
      FollowsTransfer(ts, a, n, cap, st, t.rates, t.decimals, start);
    }
  }

  /** The state of an uninterrupted replay follows the ledger. */
  lemma ReplayedFollows(ts: seq<Transfer>, a: Address, t: Token, start: nat, cursor: nat, cap: nat)
    requires ValidLedger(ts) && a != ZERO_ADDRESS && start <= cursor <= cap
    ensures Follows(ts, a, CountUpTo(ts, cursor, |ts|), cap, Replayed(ts, a, t, start, cursor), t.rates, t.decimals,
                    start)
  {
    var n := CountUpTo(ts, cursor, |ts|);
    CountSplits(ts, cursor, |ts|);
    NetIsNatural(ts, a, n);
    forall x: nat | cursor <= x < Next(ts, n, cap) ensures BalanceAt(ts, a, x) == BalanceAt(ts, a, cursor) {
      BalanceBetween(ts, a, n, x);
    }
  }

  /** Replaying the chain's transfers from one block to another moves from one uninterrupted
      replay to the other. */
  lemma OwnReplayIs(ts: seq<Transfer>, a: Address, t: Token, start: nat, cursor: nat, target: nat)
    requires ValidLedger(ts) && Ascending(t.rates) && a != ZERO_ADDRESS && start <= cursor <= target
    ensures var r := ReplayOwn(Replayed(ts, a, t, start, cursor), cursor, target,
                               OwnTransfers(Window(ts, cursor, target), a), a, t);
            r.Good? && Advance(r.value, target, t.rates, t.decimals) == (Done, Replayed(ts, a, t, start, target))
  {
    var lo, hi := CountUpTo(ts, cursor, |ts|), CountUpTo(ts, target, |ts|);
    CountIsMonotone(ts, cursor, target, |ts|);
    CountSplits(ts, cursor, |ts|);
    CountSplits(ts, target, |ts|);
    ReplayedFollows(ts, a, t, start, cursor, target);
    hide Follows, Advance, Snapshot, CountUpTo;
    var st := Replayed(ts, a, t, start, cursor);
    ReplayedAt(ts, a, t, start, cursor);
    OwnReplayKeeps(st, cursor, target, ts, lo, hi, a, t, start);
    assert Window(ts, cursor, target) == ts[lo..hi];
    var r := ReplayOwn(st, cursor, target, OwnTransfers(ts[lo..hi], a), a, t);
    FollowedScore(ts, a, target, r.value, t.rates, t.decimals, start);
  }

  lemma ReplayedAt(ts: seq<Transfer>, a: Address, t: Token, start: nat, cursor: nat)
    ensures Replayed(ts, a, t, start, cursor).lastBlock == cursor
    ensures Replayed(ts, a, t, start, cursor).balance == BalanceAt(ts, a, cursor)
  {
  }

  /** The record of an uninterrupted replay from `start` to `cursor`. */
  function Record(ts: seq<Transfer>, a: Address, t: Token, start: nat, cursor: nat, hash: nat): Checkpoint {
    PrintCheckpoint(t, cursor, hash, Replayed(ts, a, t, start, cursor))
  }

  predicate TokenFits(t: Token) {
    Ascending(t.rates) && RatesFit(t.rates)
  }

  lemma RecordIsAccepted(ts: seq<Transfer>, a: Address, earlier: Token, t: Token, start: nat, cursor: nat, hash: nat)
    requires TokenFits(t) && earlier == t.(rates := earlier.rates) && Extends(t.rates, earlier.rates, cursor)
    requires Fits(cursor)
    ensures ValidateCheckpoint(Record(ts, a, earlier, start, cursor, hash), t) ==
              Good((cursor, Replayed(ts, a, t, start, cursor)))
  {
    var f := Balances(ts, a);
    var st := Replayed(ts, a, t, start, cursor);
    AppendedRatesAreInvisible(f, earlier.rates, t.rates, t.decimals, start, cursor, BalanceAt(ts, a, cursor));
    assert st == Replayed(ts, a, earlier, start, cursor);
    SnapshotIsWellFormed(f, t.rates, t.decimals, start, cursor, BalanceAt(ts, a, cursor), cursor);
    ActiveFits(f, t.rates, t.decimals, start, cursor, BalanceAt(ts, a, cursor));
    hide Snapshot, Print, PrintAccount, PrintRates, ParseRates, ValidateCheckpoint;
    PrintedRatesParse(earlier.rates);
    PrefixFits(earlier, t);
    ReplayedAt(ts, a, t, start, cursor);
    AcceptedExactly(Record(ts, a, earlier, start, cursor, hash), t, cursor, st);
  }

  lemma PrefixFits(earlier: Token, t: Token)
    requires TokenFits(t) && earlier.rates <= t.rates
    ensures TokenFits(earlier)
  {
    forall i | 0 <= i < |earlier.rates| ensures earlier.rates[i] == t.rates[i] {
    }
  }

  lemma ActiveFits(f: nat -> nat, rates: seq<RatePoint>, decimals: nat, start: nat, cursor: nat, balance: nat)
    requires RatesFit(rates) && Fits(cursor)
    ensures AccountFits(Snapshot(f, rates, decimals, start, cursor, balance))
  {
  }

  /** Stopping anywhere, printing, re-parsing, appending rates that start after the cursor and
      resuming gives the record of one uninterrupted replay under the longer history. */
  lemma ResumeIsUninterrupted(ts: seq<Transfer>, a: Address, earlier: Token, t: Token, start: nat, cursor: nat,
                              target: nat, hash: nat, hash': nat)
    requires ValidLedger(ts) && a != ZERO_ADDRESS && start <= cursor <= target && Fits(cursor)
    requires TokenFits(t) && earlier == t.(rates := earlier.rates) && Extends(t.rates, earlier.rates, cursor)
    ensures AdvancedTo(Record(ts, a, earlier, start, cursor, hash), t, a, OwnTransfers(Window(ts, cursor, target), a),
                       target, hash')
         == (Record(ts, a, t, start, target, hash'), Good(()))
  {
    hide ValidateCheckpoint, ReplayOwn, Advance, Replayed, Window, Extends;
    RecordIsAccepted(ts, a, earlier, t, start, cursor, hash);
    OwnReplayIs(ts, a, t, start, cursor, target);
  }

  /** A history that grows after the cursor grows harmlessly: extending twice is extending once. */
  lemma ExtendsTwice(first: seq<RatePoint>, second: seq<RatePoint>, third: seq<RatePoint>, c: nat, d: nat)
    requires c <= d && Extends(second, first, c) && Extends(third, second, d)
    ensures Extends(third, first, c)
  {
    forall k | |first| <= k < |third| ensures third[k].fromBlock > c {
      if k < |second| {
        assert second[k] == third[k];
      }
    }
  }

  /** Two stops are as good as one: a record brought to `mid` under a longer history and then on
      under a still longer one is the record brought there at once. */
  lemma ResumingTwice(ts: seq<Transfer>, a: Address, first: Token, second: Token, third: Token, start: nat,
                      cursor: nat, mid: nat, target: nat, hash: nat, hash': nat, hash'': nat)
    requires ValidLedger(ts) && a != ZERO_ADDRESS && start <= cursor <= mid <= target && Fits(mid)
    requires TokenFits(third) && first == third.(rates := first.rates) && second == third.(rates := second.rates)
    requires Extends(second.rates, first.rates, cursor) && Extends(third.rates, second.rates, mid)
    ensures var stop := AdvancedTo(Record(ts, a, first, start, cursor, hash), second, a,
                                   OwnTransfers(Window(ts, cursor, mid), a), mid, hash').0;
            AdvancedTo(stop, third, a, OwnTransfers(Window(ts, mid, target), a), target, hash'')
              == AdvancedTo(Record(ts, a, first, start, cursor, hash), third, a,
                            OwnTransfers(Window(ts, cursor, target), a), target, hash'')
  {
    ExtendsTwice(first.rates, second.rates, third.rates, cursor, mid);
    PrefixFits(second, third);
    hide Extends, AdvancedTo, Record, Window, TokenFits, ValidLedger;
    ResumeIsUninterrupted(ts, a, first, second, start, cursor, mid, hash, hash');
    ResumeIsUninterrupted(ts, a, second, third, start, mid, target, hash', hash'');
    ResumeIsUninterrupted(ts, a, first, third, start, cursor, target, hash, hash'');
  }

  // ---- `score_to_block`, for one token ----

  /** A stored record is the uninterrupted replay from the first contributing block. */
  ghost predicate Faithful(c: Checkpoint, ts: seq<Transfer>, a: Address, t: Token, cursor: nat, hashOf: nat -> nat) {
    && TokenFits(t) && Fits(cursor)
    && FirstRated(t.rates, cursor, 0).Some?
    && c == Record(ts, a, t, t.rates[FirstRated(t.rates, cursor, 0).value].fromBlock, cursor, hashOf(cursor))
  }

  /** The record can be resumed under `t`: its history is one that `t` extends after its cursor. */
  ghost predicate ResumableAt(c: Checkpoint, ts: seq<Transfer>, a: Address, earlier: Token, storedAt: nat, t: Token,
                              hashOf: nat -> nat) {
    && Faithful(c, ts, a, earlier, storedAt, hashOf)
    && earlier == t.(rates := earlier.rates) && Extends(t.rates, earlier.rates, storedAt)
  }

  lemma {:induction false} FirstIsStable(earlier: seq<RatePoint>, rates: seq<RatePoint>, cursor: nat, target: nat,
                                         k: nat)
    requires earlier <= rates && cursor <= target && k <= |earlier|
    requires FirstRated(earlier, cursor, k).Some? && Ascending(rates)
    ensures FirstRated(rates, target, k) == FirstRated(earlier, cursor, k)
    decreases |earlier| - k
  {
    if k < |earlier| {
      assert earlier[k] == rates[k];
      var first := FirstRated(earlier, cursor, k).value;
      if !(earlier[k].rate != 0 && earlier[k].fromBlock < cursor) {
        FirstIs(earlier, cursor, k + 1);
        assert first > k && earlier[first].fromBlock < cursor;
        assert rates[k].fromBlock < rates[first].fromBlock;
        FirstIsStable(earlier, rates, cursor, target, k + 1);
      }
    }
  }

  /** The cold start reads the balance at the first contributing block. */
  lemma ColdRecord(ts: seq<Transfer>, a: Address, t: Token, start: nat, hash: nat)
    requires Ascending(t.rates)
    ensures PrintCheckpoint(t, start, hash, AccountState(BalanceAt(ts, a, start), start, 0, None, 0)) ==
              Record(ts, a, t, start, start, hash)
  {
    FreshSnapshot(Balances(ts, a), t.rates, t.decimals, start, BalanceAt(ts, a, start));
  }

  /** What the record of an uninterrupted replay scores. */
  lemma RecordScores(ts: seq<Transfer>, a: Address, t: Token, start: nat, target: nat)
    requires ValidLedger(ts) && a != ZERO_ADDRESS && Ascending(t.rates) && start <= target
    ensures Projected(Replayed(ts, a, t, start, target), target, t.rates, t.decimals)
         == Some(Numerator(Balances(ts, a), t.rates, t.decimals, start, target, |t.rates|))
  {
    ProjectionIsNumerator(Balances(ts, a), t.rates, t.decimals, start, target, target, BalanceAt(ts, a, target));
  }

  datatype Step = Step(checkpoint: Option<Checkpoint>, numerator: nat)

  lemma BalanceText(ts: seq<Transfer>, a: Address, from: Token, start: nat, cursor: nat, hash: nat)
    ensures Parse(Record(ts, a, from, start, cursor, hash).account.balance) == Some(BalanceAt(ts, a, cursor))
  {
    hide Print, Parse;
    ParsePrints(BalanceAt(ts, a, cursor), "");
  }

  /** The replay to the target, the balance check and the projection. */
  method FinishToken(ts: seq<Transfer>, a: Address, t: Token, c: Checkpoint, ghost from: Token, ghost start: nat,
                     cursor: nat, target: nat, hashOf: nat -> nat)
    returns (r: Answer<Step>)
    requires ValidLedger(ts) && a != ZERO_ADDRESS && TokenFits(t) && Fits(target) && start <= cursor <= target
    requires from == t.(rates := from.rates) && Extends(t.rates, from.rates, cursor)
    requires c == Record(ts, a, from, start, cursor, hashOf(cursor))
    ensures r.Good?
    ensures r.value.checkpoint == Some(if cursor < target then Record(ts, a, t, start, target, hashOf(target)) else c)
    ensures r.value.numerator == Numerator(Balances(ts, a), t.rates, t.decimals, start, target, |t.rates|)
  {
    hide ValidLedger, InOrder, ValidateCheckpoint, AdvancedTo, Replayed, Window, Extends, Numerator, Balances, Record,
         Projected;
    var next := c;
    ghost var made := from;
    if cursor < target {
      var cell := new CheckpointCell(c);
      var advanced :=
        cell.AdvanceTokenCheckpoint(t, a, OwnTransfers(Window(ts, cursor, target), a), target, hashOf(target));
      ResumeIsUninterrupted(ts, a, from, t, start, cursor, target, hashOf(cursor), hashOf(target));
      match advanced {
        case Bad(error) => return Bad(error);
        case Good(_) =>
      }
      next := cell.View();
      made := t;
      ExtendsItself(t.rates, target);
    }
    assert next == Record(ts, a, made, start, target, hashOf(target));
    BalanceText(ts, a, made, start, target, hashOf(target));
    if Parse(next.account.balance) != Some(BalanceAt(ts, a, target)) {
      return Bad(ReplayedBalance);
    }
    RecordIsAccepted(ts, a, made, t, start, target, hashOf(target));
    RecordScores(ts, a, t, start, target);
    var valid := ValidateCheckpoint(next, t);
    match valid {
      case Bad(error) => r := Bad(error);
      case Good(accepted) =>
        var projected := Projected(accepted.1, target, t.rates, t.decimals);
        r := Good(Step(Some(next), projected.value));
    }
  }

  /** One token of `score_to_block`. `hashOf` is the chain's block hash. Given a faithful record
      made at any earlier cursor under any earlier history, or none, the service answers with the
      specified numerator and again with a faithful record. */
  method ScoreToken(ts: seq<Transfer>, a: Address, t: Token, stored: Option<Checkpoint>,
                    ghost earlier: Token, ghost storedAt: nat, target: nat, hashOf: nat -> nat)
    returns (r: Answer<Step>)
    requires ValidLedger(ts) && a != ZERO_ADDRESS && TokenFits(t) && Fits(target)
    requires stored.Some? ==> ResumableAt(stored.value, ts, a, earlier, storedAt, t, hashOf)
    ensures r.Good? <==> (FirstRated(t.rates, target, 0).Some? && stored.Some? ==> storedAt <= target)
    ensures r.Good? ==> r.value.numerator == Numerator(Balances(ts, a), t.rates, t.decimals, 0, target, |t.rates|)
    ensures r.Good? ==> (r.value.checkpoint.Some? <==> FirstRated(t.rates, target, 0).Some?)
    ensures r.Good? && r.value.checkpoint.Some? ==>
              if stored.Some? && storedAt == target then r.value.checkpoint == stored
              else Faithful(r.value.checkpoint.value, ts, a, t, target, hashOf)
  {
    hide ValidLedger, InOrder, ValidateCheckpoint, AdvancedTo, Replayed, Window, Extends, Numerator, Balances, Print,
         FirstRated, Projected;
    FirstContributingSuffices(Balances(ts, a), t.rates, t.decimals, target);
    FirstsAgree(t.rates, target, 0);
    var first := FirstRated(t.rates, target, 0);
    if first.None? {
      return Good(Step(None, 0));
    }
    var start := t.rates[first.value].fromBlock;
    if stored.None? {
      var c := PrintCheckpoint(t, start, hashOf(start), AccountState(BalanceAt(ts, a, start), start, 0, None, 0));
      ColdRecord(ts, a, t, start, hashOf(start));
      ExtendsItself(t.rates, start);
      r := FinishToken(ts, a, t, c, t, start, start, target, hashOf);
      return;
    }
    ParsePrints(storedAt, stored.value.cursorBlock);
    var cursor := ParseU64(stored.value.cursorBlock);
    if cursor.None? {
      return Bad(Malformed);
    }
    if stored.value.cursorHash != hashOf(cursor.value) {
      return Bad(StaleBlockHash);
    }
    if cursor.value > target {
      return Bad(CursorRollback);
    }
    StartIsStable(t, earlier, storedAt, target);
    r := FinishToken(ts, a, t, stored.value, earlier, start, cursor.value, target, hashOf);
  }

  lemma ExtendsItself(rates: seq<RatePoint>, c: nat)
    ensures Extends(rates, rates, c)
  {
  }

  /** A stored record started where a cold replay of the longer history would start. */
  lemma StartIsStable(t: Token, earlier: Token, storedAt: nat, target: nat)
    requires TokenFits(t) && storedAt <= target
    requires Extends(t.rates, earlier.rates, storedAt) && FirstRated(earlier.rates, storedAt, 0).Some?
    ensures var first := FirstRated(earlier.rates, storedAt, 0);
            && FirstRated(t.rates, target, 0) == first
            && t.rates[first.value] == earlier.rates[first.value]
            && t.rates[first.value].fromBlock < storedAt
  {
    FirstIsStable(earlier.rates, t.rates, storedAt, target, 0);
    PrefixFits(earlier, t);
    FirstIs(earlier.rates, storedAt, 0);
  }

  // ---- `score_to_block`, for all tokens ----

  /** A scored token and, for the specification, its chain. */
  datatype Holding = Holding(token: Token, ledger: seq<Transfer>)

  function Scoreds(holdings: seq<Holding>): (s: seq<Scored>)
    ensures |s| == |holdings|
    ensures forall k :: 0 <= k < |s| ==>
              s[k] == Scored(holdings[k].token.decimals, holdings[k].token.rates, holdings[k].ledger)
  {
    if holdings == [] then []
    else
      var last := holdings[|holdings| - 1];
      Scoreds(holdings[..|holdings| - 1]) + [Scored(last.token.decimals, last.token.rates, last.ledger)]
  }

  /** The user's first stored record that names the token. */
  function StoredFor(previous: seq<Checkpoint>, token: Address): (c: Option<Checkpoint>)
    ensures c.Some? ==> c.value in previous && c.value.token == token
  {
    if previous == [] then None
    else if previous[0].token == token then Some(previous[0])
    else StoredFor(previous[1..], token)
  }

  predicate Contributes(h: Holding, target: nat) {
    FirstRated(h.token.rates, target, 0).Some?
  }

  function Contributing(holdings: seq<Holding>, target: nat): seq<Holding> {
    if holdings == [] then []
    else
      var rest, last := Contributing(holdings[..|holdings| - 1], target), holdings[|holdings| - 1];
      if Contributes(last, target) then rest + [last] else rest
  }

  lemma {:induction false} ContributingAre(holdings: seq<Holding>, target: nat)
    ensures forall h :: h in Contributing(holdings, target) <==> h in holdings && Contributes(h, target)
  {
    if holdings != [] {
      ContributingAre(holdings[..|holdings| - 1], target);
      assert holdings == holdings[..|holdings| - 1] + [holdings[|holdings| - 1]];
    }
  }

  ghost predicate Scorables(holdings: seq<Holding>) {
    forall k :: 0 <= k < |holdings| ==> ValidLedger(holdings[k].ledger) && TokenFits(holdings[k].token)
  }

  ghost predicate Resumes(stored: Option<Checkpoint>, h: Holding, a: Address, hashOf: nat -> nat) {
    stored.Some? ==>
      exists earlier: Token, at: nat :: ResumableAt(stored.value, h.ledger, a, earlier, at, h.token, hashOf)
  }

  /** A record at `target` that any later call can resume. */
  ghost predicate Resumed(c: Checkpoint, h: Holding, a: Address, target: nat, hashOf: nat -> nat) {
    exists earlier: Token :: ResumableAt(c, h.ledger, a, earlier, target, h.token, hashOf)
  }

  function CursorOf(c: Checkpoint): nat {
    var cursor := ParseU64(c.cursorBlock);
    if cursor.None? then 0 else cursor.value
  }

  /** The stored record, where it is needed, is not ahead of the target. */
  predicate InTime(stored: Option<Checkpoint>, h: Holding, target: nat) {
    Contributes(h, target) && stored.Some? ==> CursorOf(stored.value) <= target
  }

  lemma CursorIsStored(c: Checkpoint, ts: seq<Transfer>, a: Address, earlier: Token, at: nat, t: Token,
                       hashOf: nat -> nat)
    requires ResumableAt(c, ts, a, earlier, at, t, hashOf)
    ensures CursorOf(c) == at && c.token == t.token
  {
    hide Print, ParseU64, Replayed, FirstRated;
    ParsePrints(at, c.cursorBlock);
  }

  method ScoreHolding(h: Holding, a: Address, stored: Option<Checkpoint>, target: nat, hashOf: nat -> nat)
    returns (r: Answer<Step>)
    requires ValidLedger(h.ledger) && a != ZERO_ADDRESS && TokenFits(h.token) && Fits(target)
    requires Resumes(stored, h, a, hashOf)
    ensures r.Good? <==> InTime(stored, h, target)
    ensures var f, t := Balances(h.ledger, a), h.token;
            r.Good? ==> r.value.numerator == Numerator(f, t.rates, t.decimals, 0, target, |t.rates|)
    ensures r.Good? ==> (r.value.checkpoint.Some? <==> Contributes(h, target))
    ensures r.Good? && r.value.checkpoint.Some? ==> Resumed(r.value.checkpoint.value, h, a, target, hashOf)
  {
    hide ValidLedger, Faithful, Extends, Numerator, Balances, FirstRated, CursorOf;
    ghost var earlier: Token, at: nat := h.token, 0;
    if stored.Some? {
      earlier, at :| ResumableAt(stored.value, h.ledger, a, earlier, at, h.token, hashOf);
      CursorIsStored(stored.value, h.ledger, a, earlier, at, h.token, hashOf);
    }
    r := ScoreToken(h.ledger, a, h.token, stored, earlier, at, target, hashOf);
    if r.Good? && r.value.checkpoint.Some? {
      if stored.Some? && at == target {
        assert ResumableAt(r.value.checkpoint.value, h.ledger, a, earlier, target, h.token, hashOf);
      } else {
        ExtendsItself(h.token.rates, target);
        assert ResumableAt(r.value.checkpoint.value, h.ledger, a, h.token, target, h.token, hashOf);
      }
    }
  }

  datatype BlockScore = BlockScore(checkpoints: seq<Checkpoint>, numerator: nat)

  ghost predicate RecordsOf(cs: seq<Checkpoint>, hs: seq<Holding>, a: Address, target: nat, hashOf: nat -> nat) {
    |cs| == |hs| && forall k :: 0 <= k < |cs| ==> Resumed(cs[k], hs[k], a, target, hashOf)
  }

  lemma RecordsExtend(cs: seq<Checkpoint>, holdings: seq<Holding>, k: nat, c: Option<Checkpoint>, a: Address,
                      target: nat, hashOf: nat -> nat)
    requires k < |holdings| && RecordsOf(cs, Contributing(holdings[..k], target), a, target, hashOf)
    requires c.Some? <==> Contributes(holdings[k], target)
    requires c.Some? ==> Resumed(c.value, holdings[k], a, target, hashOf)
    ensures RecordsOf(if c.Some? then cs + [c.value] else cs,
                      Contributing(holdings[..k + 1], target), a, target, hashOf)
  {
    hide Resumed, Contributes;
    assert holdings[..k + 1][..k] == holdings[..k];
  }

  /** All tokens of a user. Given records that can be resumed, made at any earlier blocks under any
      earlier histories, the service answers exactly when none of them is ahead of the target; the
      numerator is the specified one of the raw, bulk and checkpoint sources, and the answer keeps
      one record for each contributing token. */
  method ScoreToBlock(holdings: seq<Holding>, a: Address, previous: seq<Checkpoint>, target: nat, hashOf: nat -> nat)
    returns (r: Answer<BlockScore>)
    requires Scorables(holdings) && a != ZERO_ADDRESS && Fits(target)
    requires forall k :: 0 <= k < |holdings| ==>
               Resumes(StoredFor(previous, holdings[k].token.token), holdings[k], a, hashOf)
    ensures r.Good? <==> forall k :: 0 <= k < |holdings| ==>
                           InTime(StoredFor(previous, holdings[k].token.token), holdings[k], target)
    ensures r.Good? ==> r.value.numerator == ScoreSources.Total(Scoreds(holdings), a, target, |holdings|)
    ensures r.Good? ==> RecordsOf(r.value.checkpoints, Contributing(holdings, target), a, target, hashOf)
  {
    hide ValidLedger, TokenFits, Resumes, Resumed, InTime, Contributes, Numerator, Balances, RecordsOf, StoredFor;
    NoRecords(a, target, hashOf);
    assert holdings[..0] == [];
    var checkpoints: seq<Checkpoint>, numerator := [], 0;
    for k := 0 to |holdings|
      invariant numerator == ScoreSources.Total(Scoreds(holdings), a, target, k)
      invariant RecordsOf(checkpoints, Contributing(holdings[..k], target), a, target, hashOf)
      invariant forall i :: 0 <= i < k ==>
                  InTime(StoredFor(previous, holdings[i].token.token), holdings[i], target)
    {
      TotalStep(Scoreds(holdings), a, target, k);
      var step := ScoreHolding(holdings[k], a, StoredFor(previous, holdings[k].token.token), target, hashOf);
      match step {
        case Bad(error) => return Bad(error);
        case Good(s) =>
          RecordsExtend(checkpoints, holdings, k, s.checkpoint, a, target, hashOf);
          if s.checkpoint.Some? {
            checkpoints := checkpoints + [s.checkpoint.value];
          }
          numerator := numerator + s.numerator;
      }
    }
    assert holdings[..|holdings|] == holdings;
    r := Good(BlockScore(checkpoints, numerator));
  }

  lemma NoRecords(a: Address, target: nat, hashOf: nat -> nat)
    ensures RecordsOf([], Contributing([], target), a, target, hashOf)
  {
  }

  /** The same token later: its history may have grown after `cursor`. */
  predicate GrownAfter(h: Holding, h': Holding, cursor: nat) {
    && h'.ledger == h.ledger && h'.token == h.token.(rates := h'.token.rates)
    && Extends(h'.token.rates, h.token.rates, cursor)
  }

  lemma ResumesLater(c: Checkpoint, h: Holding, h': Holding, a: Address, cursor: nat, hashOf: nat -> nat)
    requires Resumed(c, h, a, cursor, hashOf) && GrownAfter(h, h', cursor)
    ensures Resumed(c, h', a, cursor, hashOf)
  {
    hide Faithful;
    var earlier: Token :| ResumableAt(c, h.ledger, a, earlier, cursor, h.token, hashOf);
    ExtendsTwice(earlier.rates, h.token.rates, h'.token.rates, cursor, cursor);
    assert ResumableAt(c, h'.ledger, a, earlier, cursor, h'.token, hashOf);
  }

  /** An answer feeds the next call: with rates appended after its block, for any later target and
      distinct tokens, its records can be resumed and none of them is ahead. */
  lemma AnswersFeedCalls(cs: seq<Checkpoint>, holdings: seq<Holding>, later: seq<Holding>, a: Address,
                         cursor: nat, target: nat, hashOf: nat -> nat)
    requires RecordsOf(cs, Contributing(holdings, cursor), a, cursor, hashOf) && cursor <= target
    requires |later| == |holdings| && KeysDiffer((h: Holding) => h.token.token, holdings)
    requires forall k :: 0 <= k < |holdings| ==> GrownAfter(holdings[k], later[k], cursor)
    ensures forall k :: 0 <= k < |later| ==>
              && Resumes(StoredFor(cs, later[k].token.token), later[k], a, hashOf)
              && InTime(StoredFor(cs, later[k].token.token), later[k], target)
  {
    ContributingAre(holdings, cursor);
    forall k | 0 <= k < |later|
      ensures Resumes(StoredFor(cs, later[k].token.token), later[k], a, hashOf)
      ensures InTime(StoredFor(cs, later[k].token.token), later[k], target)
    {
      FeedsOne(cs, holdings, later, a, cursor, target, hashOf, k);
    }
  }

  lemma FeedsOne(cs: seq<Checkpoint>, holdings: seq<Holding>, later: seq<Holding>, a: Address,
                 cursor: nat, target: nat, hashOf: nat -> nat, k: nat)
    requires RecordsOf(cs, Contributing(holdings, cursor), a, cursor, hashOf) && cursor <= target
    requires |later| == |holdings| && KeysDiffer((h: Holding) => h.token.token, holdings) && k < |later|
    requires GrownAfter(holdings[k], later[k], cursor)
    requires forall h :: h in Contributing(holdings, cursor) ==> h in holdings
    ensures Resumes(StoredFor(cs, later[k].token.token), later[k], a, hashOf)
    ensures InTime(StoredFor(cs, later[k].token.token), later[k], target)
  {
    hide ResumableAt, Contributes, CursorOf, Extends;
    var stored := StoredFor(cs, later[k].token.token);
    if stored.Some? {
      var j :| 0 <= j < |cs| && cs[j] == stored.value;
      var h := Contributing(holdings, cursor)[j];
      assert h in Contributing(holdings, cursor);
      var i :| 0 <= i < |holdings| && holdings[i] == h;
      var earlier: Token :| ResumableAt(cs[j], h.ledger, a, earlier, cursor, h.token, hashOf);
      CursorIsStored(cs[j], h.ledger, a, earlier, cursor, h.token, hashOf);
      assert i == k;
      ResumesLater(cs[j], h, later[k], a, cursor, hashOf);
      var found: Token :| ResumableAt(cs[j], later[k].ledger, a, found, cursor, later[k].token, hashOf);
    }
  }

  // ---- Splitting a score among tokens ----

  function Floors(numerators: seq<nat>): nat {
    if numerators == [] then 0
    else Floors(numerators[..|numerators| - 1]) + GrossScore(numerators[|numerators| - 1])
  }

  function Total(numerators: seq<nat>): nat {
    if numerators == [] then 0
    else Total(numerators[..|numerators| - 1]) + numerators[|numerators| - 1]
  }

  /** Flooring each token loses less than one unit per token. */
  lemma {:induction false} FloorsFallShort(numerators: seq<nat>)
    ensures Floors(numerators) <= GrossScore(Total(numerators)) <= Floors(numerators) + |numerators|
    ensures |numerators| > 0 ==> GrossScore(Total(numerators)) < Floors(numerators) + |numerators|
  {
    if numerators != [] {
      FloorsFallShort(numerators[..|numerators| - 1]);
      FloorOfSum(Total(numerators[..|numerators| - 1]), numerators[|numerators| - 1]);
      if |numerators| == 1 {
        assert Total(numerators[..0]) == 0 && Floors(numerators[..0]) == 0;
      }
    }
  }

  lemma FloorOfSum(x: nat, y: nat)
    ensures GrossScore(x) + GrossScore(y) <= GrossScore(x + y) <= GrossScore(x) + GrossScore(y) + 1
    ensures x == 0 ==> GrossScore(x + y) == GrossScore(y)
  {
  }

  function SumOf(scores: seq<nat>): nat {
    if scores == [] then 0 else SumOf(scores[..|scores| - 1]) + scores[|scores| - 1]
  }

  /** `allocate_token_scores`: every token gets its own floor, the last one also what the floors
      lost (less than one unit per token), and together they are exactly the gross score. */
  method AllocateTokenScores(numerators: seq<nat>) returns (scores: seq<nat>)
    ensures |scores| == |numerators| && SumOf(scores) == GrossScore(Total(numerators))
    ensures forall k :: 0 <= k < |scores| - 1 ==> scores[k] == GrossScore(numerators[k])
    ensures scores != [] ==>
              var last := |scores| - 1;
              GrossScore(numerators[last]) <= scores[last] < GrossScore(numerators[last]) + |scores|
  {
    var total := GrossScore(Total(numerators));
    scores := [];
    var shared := 0;
    while |scores| < |numerators|
      invariant |scores| <= |numerators|
      invariant forall k :: 0 <= k < |scores| ==> scores[k] == GrossScore(numerators[k])
      invariant shared == SumOf(scores) == Floors(numerators[..|scores|])
    {
      var k := |scores|;
      assert numerators[..k + 1][..k] == numerators[..k];
      scores := scores + [GrossScore(numerators[k])];
      assert scores[..k] == scores[..|scores| - 1];
      shared := shared + scores[k];
    }
    assert numerators[..|scores|] == numerators;
    FloorsFallShort(numerators);
    if scores != [] {
      var last := |scores| - 1;
      ghost var before := scores;
      scores := scores[last := scores[last] + (total - shared)];
      assert scores[..last] == before[..last];
    }
  }
}
