/** The text form of score states, in the checkpoint file and in the score service's records. */
module ScorePersist {
  import opened Wrappers
  import opened ScoreCore
  import opened ScoreMeaning
  import opened ScoreLedger
  import opened ScoreReplay
  import opened ScoreSources
  import opened Decimals
  import opened U64

  datatype RateText = RateText(fromBlock: string, rate: string)

  datatype AccountText = AccountText(
    balance: string,
    lastBlock: string,
    completedNumerator: string,
    activeSegmentFrom: Option<string>,
    activeIntegral: string)

  function PrintOption(n: Option<nat>): Option<string> {
    if n.None? then None else Some(Print(n.value))
  }

  /** An absent text is accepted as absent; a present one must parse. */
  function ParseOption(s: Option<string>): Option<Option<nat>> {
    if s.None? then Some(None)
    else
      var n := ParseU64(s.value);
      if n.None? then None else Some(n)
  }

  function PrintAccount(st: AccountState): AccountText {
    AccountText(Print(st.balance), Print(st.lastBlock), Print(st.completedNumerator),
                PrintOption(st.activeSegmentFrom), Print(st.activeIntegral))
  }

  function ParseAccount(p: AccountText): Option<AccountState> {
    var balance, lastBlock, completed := Parse(p.balance), ParseU64(p.lastBlock), Parse(p.completedNumerator);
    var from, integral := ParseOption(p.activeSegmentFrom), Parse(p.activeIntegral);
    if balance.Some? && lastBlock.Some? && completed.Some? && from.Some? && integral.Some?
    then Some(AccountState(balance.value, lastBlock.value, completed.value, from.value, integral.value))
    else None
  }

  predicate Fits(n: nat) { n <= U64_MAX }

  predicate AccountFits(st: AccountState) {
    Fits(st.lastBlock) && (st.activeSegmentFrom.Some? ==> Fits(st.activeSegmentFrom.value))
  }

  /** Printing and parsing an account are inverse, in both directions. */
  lemma AccountRoundTrip(st: AccountState, p: AccountText)
    ensures ParseAccount(p) == Some(st) <==> p == PrintAccount(st) && AccountFits(st)
  {
    hide Print, Parse, ParseU64, Canonical;
    ParsePrints(st.balance, p.balance);
    ParsePrints(st.lastBlock, p.lastBlock);
    ParsePrints(st.completedNumerator, p.completedNumerator);
    ParsePrints(st.activeIntegral, p.activeIntegral);
    if st.activeSegmentFrom.Some? && p.activeSegmentFrom.Some? {
      ParsePrints(st.activeSegmentFrom.value, p.activeSegmentFrom.value);
    }
  }

  function PrintRates(rates: seq<RatePoint>): seq<RateText> {
    if rates == [] then []
    else PrintRates(rates[..|rates| - 1])
         + [RateText(Print(rates[|rates| - 1].fromBlock), Print(rates[|rates| - 1].rate))]
  }

  function ParsePoints(p: seq<RateText>): Option<seq<RatePoint>> {
    if p == [] then Some([])
    else
      var init, last := ParsePoints(p[..|p| - 1]), p[|p| - 1];
      var fromBlock, rate := ParseU64(last.fromBlock), Parse(last.rate);
      if init.Some? && fromBlock.Some? && rate.Some? then Some(init.value + [RatePoint(fromBlock.value, rate.value)])
        else None
  }

  function ParseRates(p: seq<RateText>): Option<seq<RatePoint>> {
    var points := ParsePoints(p);
    if points.Some? && Ascending(points.value) then points else None
  }

  predicate RatesFit(rates: seq<RatePoint>) {
    forall i :: 0 <= i < |rates| ==> Fits(rates[i].fromBlock)
  }

  lemma {:induction false} PointsParse(rates: seq<RatePoint>)
    ensures |PrintRates(rates)| == |rates|
    ensures ParsePoints(PrintRates(rates)) == if RatesFit(rates) then Some(rates) else None
  {
    hide Print, Parse, ParseU64;
    if rates != [] {
      var init, last := rates[..|rates| - 1], rates[|rates| - 1];
      PointsParse(init);
      ParsePrints(last.fromBlock, "");
      ParsePrints(last.rate, "");
      assert PrintRates(rates)[..|rates| - 1] == PrintRates(init);
      assert rates == init + [last];
    }
  }

  lemma PrintRatesAppends(rates: seq<RatePoint>, point: RatePoint)
    ensures PrintRates(rates + [point]) == PrintRates(rates) + [RateText(Print(point.fromBlock), Print(point.rate))]
  {
    assert (rates + [point])[..|rates|] == rates;
  }

  lemma {:induction false} PointsPrint(p: seq<RateText>)
    requires ParsePoints(p).Some?
    ensures PrintRates(ParsePoints(p).value) == p && RatesFit(ParsePoints(p).value)
  {
    hide Print, Parse, ParseU64;
    if p != [] {
      var init, last := p[..|p| - 1], p[|p| - 1];
      PointsPrint(init);
      var before, point := ParsePoints(init).value, RatePoint(ParseU64(last.fromBlock).value, Parse(last.rate).value);
      ParsePrints(point.fromBlock, last.fromBlock);
      ParsePrints(point.rate, last.rate);
      PrintRatesAppends(before, point);
      assert p == init + [last];
    }
  }

  lemma RatesRoundTrip(rates: seq<RatePoint>, p: seq<RateText>)
    ensures ParseRates(p) == Some(rates) <==> p == PrintRates(rates) && RatesFit(rates) && Ascending(rates)
  {
    PointsParse(rates);
    if ParsePoints(p).Some? {
      PointsPrint(p);
    }
  }

  lemma PrintedRatesParse(rates: seq<RatePoint>)
    ensures ParseRates(PrintRates(rates)) == if RatesFit(rates) && Ascending(rates) then Some(rates) else None
  {
    PointsParse(rates);
  }

  // ---- The checkpoint file ----

  datatype TokenText = TokenText(
    decimals: nat, cursorBlock: string, cursorHash: nat, rates: seq<RateText>, accounts: map<Address, AccountText>)

  function PrintAccounts(accounts: Accounts): map<Address, AccountText> {
    map a | a in accounts :: PrintAccount(accounts[a])
  }

  function PrintToken(token: StoredToken): TokenText {
    TokenText(token.decimals, Print(token.cursor), token.cursorHash, PrintRates(token.rates),
              PrintAccounts(token.accounts))
  }

  /** The checks on one parsed account. */
  predicate AcceptsAccount(p: AccountText, cursor: nat, rates: seq<RatePoint>) {
    var st := ParseAccount(p);
    && st.Some? && st.value.lastBlock <= cursor
    && if st.value.activeSegmentFrom.Some? then RateFor(rates, st.value.activeSegmentFrom.value).Some?
       else p.activeIntegral == "0"
  }

  function ParseAccounts(p: map<Address, AccountText>, cursor: nat, rates: seq<RatePoint>): Option<Accounts> {
    if forall a :: a in p ==> AcceptsAccount(p[a], cursor, rates)
    then Some(map a | a in p :: ParseAccount(p[a]).value)
    else None
  }

  function ParseToken(p: TokenText): Option<StoredToken> {
    var cursor, rates := ParseU64(p.cursorBlock), ParseRates(p.rates);
    if cursor.None? || (cursor.value == 0 && p.cursorHash != ZERO_HASH) || rates.None? then None
    else
      var accounts := ParseAccounts(p.accounts, cursor.value, rates.value);
      if accounts.None? then None
      else Some(StoredToken(p.decimals, cursor.value, p.cursorHash, rates.value, accounts.value))
  }

  /** The states the file can hold. */
  predicate WellFormedAccount(st: AccountState, cursor: nat, rates: seq<RatePoint>) {
    && AccountFits(st) && st.lastBlock <= cursor
    && if st.activeSegmentFrom.Some? then RateFor(rates, st.activeSegmentFrom.value).Some? else st.activeIntegral == 0
  }

  predicate AccountsWellFormed(accounts: Accounts, cursor: nat, rates: seq<RatePoint>) {
    forall a :: a in accounts ==> WellFormedAccount(accounts[a], cursor, rates)
  }

  predicate WellFormed(token: StoredToken) {
    && Fits(token.cursor) && (token.cursor == 0 ==> token.cursorHash == ZERO_HASH)
    && RatesFit(token.rates) && Ascending(token.rates)
    && AccountsWellFormed(token.accounts, token.cursor, token.rates)
  }

  lemma AcceptsPrinted(st: AccountState, cursor: nat, rates: seq<RatePoint>)
    ensures AcceptsAccount(PrintAccount(st), cursor, rates) <==> WellFormedAccount(st, cursor, rates)
    ensures AcceptsAccount(PrintAccount(st), cursor, rates) ==> ParseAccount(PrintAccount(st)) == Some(st)
  {
    AccountRoundTrip(st, PrintAccount(st));
    if ParseAccount(PrintAccount(st)).Some? {
      AccountRoundTrip(ParseAccount(PrintAccount(st)).value, PrintAccount(st));
      ParsePrints(st.balance, PrintAccount(st).balance);
      ParsePrints(st.lastBlock, PrintAccount(st).lastBlock);
      ParsePrints(st.completedNumerator, PrintAccount(st).completedNumerator);
      ParsePrints(st.activeIntegral, "0");
      if st.activeSegmentFrom.Some? {
        ParsePrints(st.activeSegmentFrom.value, PrintAccount(st).activeSegmentFrom.value);
      }
      ParsePrints(0, "0");
    }
  }

  lemma AccountsReadBack(accounts: Accounts, cursor: nat, rates: seq<RatePoint>)
    ensures ParseAccounts(PrintAccounts(accounts), cursor, rates) ==
              if AccountsWellFormed(accounts, cursor, rates) then Some(accounts) else None
  {
    hide AcceptsAccount, WellFormedAccount, PrintAccount, ParseAccount;
    var p := PrintAccounts(accounts);
    forall a | a in accounts
      ensures AcceptsAccount(p[a], cursor, rates) <==> WellFormedAccount(accounts[a], cursor, rates)
      ensures AcceptsAccount(p[a], cursor, rates) ==> ParseAccount(p[a]) == Some(accounts[a])
    {
      AcceptsPrinted(accounts[a], cursor, rates);
    }
    if AccountsWellFormed(accounts, cursor, rates) {
      assert ParseAccounts(p, cursor, rates).value == accounts;
    }
  }

  lemma AcceptedAccountsAreSaved(p: map<Address, AccountText>, cursor: nat, rates: seq<RatePoint>)
    requires ParseAccounts(p, cursor, rates).Some?
    ensures var accounts := ParseAccounts(p, cursor, rates).value;
            p == PrintAccounts(accounts) && AccountsWellFormed(accounts, cursor, rates)
  {
    var accounts := ParseAccounts(p, cursor, rates).value;
    forall a | a in p
      ensures p[a] == PrintAccount(accounts[a]) && WellFormedAccount(accounts[a], cursor, rates)
    {
      assert AcceptsAccount(p[a], cursor, rates);
      AccountRoundTrip(accounts[a], p[a]);
      AcceptsPrinted(accounts[a], cursor, rates);
    }
    assert PrintAccounts(accounts) == p;
  }

  /** A saved token reads back as itself exactly when it is well formed. */
  lemma SavedTokenReadsBack(token: StoredToken)
    ensures ParseToken(PrintToken(token)) == if WellFormed(token) then Some(token) else None
  {
    hide ParseAccounts, PrintAccounts, AccountsWellFormed, Print, ParseU64, ParseRates, PrintRates;
    ParsePrints(token.cursor, "");
    PrintedRatesParse(token.rates);
    AccountsReadBack(token.accounts, token.cursor, token.rates);
  }

  /** Whatever the file accepts is the text of a well-formed token. */
  lemma AcceptedTokenIsSaved(p: TokenText)
    requires ParseToken(p).Some?
    ensures var token := ParseToken(p).value; p == PrintToken(token) && WellFormed(token)
  {
    hide ParseAccounts, PrintAccounts, AccountsWellFormed, Print, ParseU64, ParseRates, PrintRates;
    var token := ParseToken(p).value;
    ParsePrints(token.cursor, p.cursorBlock);
    RatesRoundTrip(token.rates, p.rates);
    AcceptedAccountsAreSaved(p.accounts, token.cursor, token.rates);
  }

  // ---- Every state the replay reaches can be saved ----

  lemma SnapshotIsWellFormed(f: nat -> nat, rates: seq<RatePoint>, decimals: nat, start: nat, t: nat, balance: nat,
                             cursor: nat)
    requires Ascending(rates) && RatesFit(rates) && t <= cursor && Fits(cursor)
    ensures WellFormedAccount(Snapshot(f, rates, decimals, start, t, balance), cursor, rates)
  {
    var open := OpenSegment(rates, t, |rates|);
    if open.Some? {
      RateForIsIndexed(rates, open.value);
    }
  }

  /** A token that follows the ledger survives a save and a load. */
  lemma IndexedTokenReadsBack(token: StoredToken, ts: seq<Transfer>)
    requires Indexed(token, ts) && RatesFit(token.rates) && Fits(token.cursor)
    requires ZERO_ADDRESS !in token.accounts && (token.cursor == 0 ==> token.cursorHash == ZERO_HASH)
    ensures ParseToken(PrintToken(token)) == Some(token)
  {
    forall a | a in token.accounts ensures WellFormedAccount(token.accounts[a], token.cursor, token.rates) {
      assert Tracks(None, a);
      var st := AccountOf(token.accounts, a);
      SnapshotIsWellFormed(Balances(ts, a), token.rates, token.decimals, 0, st.lastBlock, st.balance, token.cursor);
    }
    SavedTokenReadsBack(token);
  }
}
