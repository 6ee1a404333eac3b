/** The chunked, bisecting log reader against a provider that may answer, cap, refuse or fail. */
module LogReader {
  import opened Wrappers
  import opened Sorting
  import opened U64

  const MAX_INITIAL_LOG_RANGE: nat := 5000
  const MAX_LOG_RESULT_CAP: nat := 1000
  const MAX_LOG_REQUESTS_PER_CHUNK: nat := 4096
  const MAX_LOG_BISECTIONS_PER_CHUNK: nat := 2048
  const MAX_RPC_RETRIES: nat := 8
  const MAX_LOG_TRANSPORT_ATTEMPTS_PER_CHUNK: nat := 36_864
  const MAX_LOG_CHUNK_MILLISECONDS: nat := 300_000

  /** A log at its position; `payload` stands for its address, topics, data and transaction. */
  datatype Log = Log(block: nat, index: nat, payload: nat)

  /** What a query gives: logs that passed the response checks, a refusal of the range, or any
      other failure (transport, malformed response). */
  datatype Fetched = Logs(logs: seq<Log>) | RangeLimited | Broken

  /** The provider may answer each call differently; `call` numbers the requests. */
  type Provider = (nat, nat, nat) -> Fetched

  /** Block receipts: all matching logs of one block, or a failure. */
  type Receipts = (nat, nat) -> Option<seq<Log>>

  /** The time and the transport attempts that a chunk has taken when it looks at them: around
      the query, and around the block's receipts, of the request that `Meter` is given. */
  datatype Moment = BeforeQuery | AfterQuery | BeforeReceipts | AfterReceipts

  datatype Reading = Reading(elapsed: nat, attempts: nat)

  type Meter = (nat, Moment) -> Reading

  datatype ReadError =
    | InvalidPolicy
    | RequestBudget
    | BisectionBudget
    | Deadline
    | TransportBudget
    | Upstream
    | DuplicatePosition

  datatype ReadResult = Ok(logs: seq<Log>) | Err(error: ReadError)

  predicate Precedes(a: Log, b: Log) {
    a.block < b.block || (a.block == b.block && a.index < b.index)
  }

  predicate SamePosition(a: Log, b: Log) {
    a.block == b.block && a.index == b.index
  }

  /** The chain's matching logs, in order. */
  predicate Ordered(ledger: seq<Log>) {
    forall i, j :: 0 <= i < j < |ledger| ==> Precedes(ledger[i], ledger[j])
  }

  predicate Within(l: Log, from: nat, end: nat) {
    from <= l.block <= end
  }

  /** `logs` holds exactly the ledger's logs of blocks `from <= b <= end`, in any order. */
  ghost predicate Covers(logs: seq<Log>, ledger: seq<Log>, from: nat, end: int) {
    forall l :: l in logs <==> l in ledger && from <= l.block <= end
  }

  ghost predicate CompleteBelowCap(provider: Provider, ledger: seq<Log>, cap: nat) {
    forall call: nat, from: nat, end: nat ::
      provider(call, from, end).Logs? && |provider(call, from, end).logs| < cap ==>
      Covers(provider(call, from, end).logs, ledger, from, end)
  }

  ghost predicate CompleteReceipts(receipts: Receipts, ledger: seq<Log>) {
    forall call: nat, block: nat :: receipts(call, block).Some? ==>
      Covers(receipts(call, block).value, ledger, block, block)
  }

  predicate Distinct(logs: seq<Log>) {
    forall i, j :: 0 <= i < j < |logs| ==> !SamePosition(logs[i], logs[j])
  }

  /** Nothing fails and no answer repeats a position. */
  ghost predicate Reliable(provider: Provider, receipts: Receipts) {
    && (forall call: nat, from: nat, end: nat :: provider(call, from, end) != Broken)
    && (forall call: nat, from: nat, end: nat :: provider(call, from, end).Logs? ==>
        Distinct(provider(call, from, end).logs))
    && (forall call: nat, block: nat :: receipts(call, block).Some? && Distinct(receipts(call, block).value))
  }

  predicate Late(meter: Meter, call: nat, moment: Moment) {
    meter(call, moment).elapsed > MAX_LOG_CHUNK_MILLISECONDS
  }

  /** Requests that a chunk starting at request `call` has made at a look. */
  function Made(call: nat, now: nat, moment: Moment): int {
    now - call + (match moment case BeforeQuery => 0 case AfterQuery => 1 case _ => 3)
  }

  /** The attempts are the chunk's own, with the permitted retries. */
  ghost predicate Undisturbed(meter: Meter, call: nat) {
    forall now: nat, moment: Moment ::
      now >= call ==> meter(now, moment).attempts <= (MAX_RPC_RETRIES + 1) * Made(call, now, moment)
  }

  /** Every look finds time and attempts to spare. */
  ghost predicate Quick(meter: Meter) {
    && (forall call: nat, moment: Moment :: !Late(meter, call, moment))
    && (forall call: nat, moment: Moment :: meter(call, moment).attempts < MAX_LOG_TRANSPORT_ATTEMPTS_PER_CHUNK)
  }

  /** A deadline or transport error needs a reading at its limit. */
  ghost predicate Overspent(meter: Meter, error: ReadError) {
    && (error == Deadline ==> exists call: nat, moment: Moment :: Late(meter, call, moment))
    && (error == TransportBudget ==>
          exists call: nat, moment: Moment :: meter(call, moment).attempts >= MAX_LOG_TRANSPORT_ATTEMPTS_PER_CHUNK)
  }

  ghost predicate AlwaysRefuses(provider: Provider) {
    forall call: nat, from: nat, end: nat :: provider(call, from, end) == RangeLimited
  }

  // ---- The stack of pending ranges ----

  /** The stack (top last) splits the blocks `next <= b <= end` into adjacent nonempty ranges. */
  predicate Tiles(pending: seq<(nat, nat)>, next: nat, end: nat) {
    if pending == [] then next == end + 1
    else
      var (from, to) := pending[|pending| - 1];
      from == next && from <= to && Tiles(pending[..|pending| - 1], to + 1, end)
  }

  lemma {:induction false} TilesFit(pending: seq<(nat, nat)>, next: nat, end: nat)
    requires Tiles(pending, next, end)
    ensures next + |pending| <= end + 1
    ensures pending != [] ==>
              var (from, to) := pending[|pending| - 1];
              from == next && from <= to <= end && (to - from) + |pending| <= end + 1 - next
  {
    if pending != [] {
      TilesFit(pending[..|pending| - 1], pending[|pending| - 1].1 + 1, end);
    }
  }

  lemma TilesSplit(rest: seq<(nat, nat)>, from: nat, middle: nat, to: nat, end: nat)
    requires Tiles(rest, to + 1, end) && from <= middle < to
    ensures Tiles(rest + [(middle + 1, to), (from, middle)], from, end)
  {
    var one, two := rest + [(middle + 1, to)], rest + [(middle + 1, to), (from, middle)];
    assert one[..|one| - 1] == rest;
    assert two[..|two| - 1] == one;
    assert Tiles(one, middle + 1, end);
  }

  lemma CoversExtends(output: seq<Log>, more: seq<Log>, ledger: seq<Log>, from: nat, next: nat, to: nat)
    requires from <= next <= to + 1
    requires Covers(output, ledger, from, next - 1) && Covers(more, ledger, next, to)
    ensures Covers(output + more, ledger, from, to)
  {
    forall l ensures l in output + more <==> l in ledger && from <= l.block <= to {
      assert l in output + more <==> l in output || l in more;
    }
  }

  lemma DistinctExtends(output: seq<Log>, more: seq<Log>, ledger: seq<Log>, from: nat, next: nat, to: nat)
    requires Distinct(output) && Distinct(more)
    requires Covers(output, ledger, from, next - 1) && Covers(more, ledger, next, to)
    ensures Distinct(output + more)
  {
    var all := output + more;
    forall i, j | 0 <= i < j < |all| ensures !SamePosition(all[i], all[j]) {
      if i < |output| <= j {
        assert all[i] in output && all[j] in more;
      }
    }
  }

  // ---- One chunk ----

  datatype ChunkResult = Chunk(logs: seq<Log>) | ChunkErr(error: ReadError)

  /** Requests and bisections of a chunk. */
  datatype Effort = Effort(requests: nat, bisections: nat)

  /** The amortised bound: what is spent plus what the pending ranges can still cost. */
  predicate Affordable(effort: Effort, pending: nat, remaining: nat, blocks: nat) {
    && effort.requests + 4 * remaining - pending <= 4 * blocks - 1
    && effort.bisections + remaining - pending <= blocks - 1
  }

  predicate Exhaustive(effort: Effort, pending: nat, remaining: nat, blocks: nat) {
    && effort.requests + 4 * remaining - pending == 4 * blocks - 1
    && effort.bisections + remaining - pending == blocks - 1
  }

  datatype Answer = Read(logs: seq<Log>) | Bisect | Fail(error: ReadError)

  /** One range from the stack: the query, and for a single block that was refused or capped its
      receipts. `used` is the chunk's requests afterwards. */
  method Ask(ghost ledger: seq<Log>, provider: Provider, receipts: Receipts, meter: Meter, cap: nat,
             first: nat, last: nat, call: nat, requests: nat)
    returns (answer: Answer, used: nat)
    requires first <= last && requests < MAX_LOG_REQUESTS_PER_CHUNK
    requires CompleteBelowCap(provider, ledger, cap) && CompleteReceipts(receipts, ledger)
    ensures requests <= used <= MAX_LOG_REQUESTS_PER_CHUNK && used <= requests + (if first == last then 3 else 1)
    ensures answer.Bisect? ==> first < last
    ensures answer.Read? ==> Covers(answer.logs, ledger, first, last)
    ensures answer.Read? && Reliable(provider, receipts) ==> Distinct(answer.logs)
    ensures answer.Fail? ==> answer.error in {RequestBudget, Deadline, TransportBudget, Upstream}
    ensures answer == Fail(RequestBudget) ==> first == last && requests + 3 > MAX_LOG_REQUESTS_PER_CHUNK
    ensures answer.Fail? ==> Overspent(meter, answer.error)
    ensures Undisturbed(meter, call) ==> answer != Fail(TransportBudget)
    ensures Reliable(provider, receipts) ==> answer != Fail(Upstream)
    ensures AlwaysRefuses(provider) && answer.Read? ==> first == last && used == requests + 3
    ensures AlwaysRefuses(provider) && answer.Bisect? ==> used == requests + 1
  {
    hide Covers, Distinct;
    var now := call + requests;
    used := requests;
    if meter(now, BeforeQuery).elapsed > MAX_LOG_CHUNK_MILLISECONDS {
      assert Late(meter, now, BeforeQuery);
      return Fail(Deadline), used;
    }
    if meter(now, BeforeQuery).attempts >= MAX_LOG_TRANSPORT_ATTEMPTS_PER_CHUNK {
      return Fail(TransportBudget), used;
    }
    used := used + 1;
    var fetched := provider(now, first, last);
    if meter(now, AfterQuery).elapsed > MAX_LOG_CHUNK_MILLISECONDS {
      assert Late(meter, now, AfterQuery);
      return Fail(Deadline), used;
    }
    if meter(now, AfterQuery).attempts > MAX_LOG_TRANSPORT_ATTEMPTS_PER_CHUNK {
      return Fail(TransportBudget), used;
    }
    if fetched == Broken {
      return Fail(Upstream), used;
    }
    if fetched.Logs? && |fetched.logs| < cap {
      return Read(fetched.logs), used;
    }
    if first < last {
      return Bisect, used;
    }
    if used + 2 > MAX_LOG_REQUESTS_PER_CHUNK {
      return Fail(RequestBudget), used;
    }
    used := used + 2;
    if meter(now, BeforeReceipts).elapsed > MAX_LOG_CHUNK_MILLISECONDS
       || meter(now, AfterReceipts).elapsed > MAX_LOG_CHUNK_MILLISECONDS {
      assert Late(meter, now, BeforeReceipts) || Late(meter, now, AfterReceipts);
      return Fail(Deadline), used;
    }
    var fallback := receipts(now, first);
    if fallback.None? {
      return Fail(Upstream), used;
    }
    // Only a capped answer, not a refused range, is followed by this look.
    if fetched.Logs? && meter(now, AfterReceipts).attempts > MAX_LOG_TRANSPORT_ATTEMPTS_PER_CHUNK {
      return Fail(TransportBudget), used;
    }
    answer := Read(fallback.value);
  }

  /** The loop over the stack. Requests and bisections are the reader's own: a chunk of `n` blocks
      costs at most `4 n - 1` requests and `n - 1` bisections, so up to 1,024 blocks neither of
      these budgets trips; a provider that refuses every range costs exactly that much, so with
      more blocks one does. */
  method ReadChunk(ghost ledger: seq<Log>, provider: Provider, receipts: Receipts, meter: Meter, cap: nat,
                   from: nat, to: nat, call: nat)
    returns (r: ChunkResult, effort: Effort)
    requires from <= to && cap > 0
    requires CompleteBelowCap(provider, ledger, cap) && CompleteReceipts(receipts, ledger)
    ensures r.Chunk? ==> Covers(r.logs, ledger, from, to)
    ensures effort.requests <= 4 * (to + 1 - from) - 1 && effort.bisections <= to - from
    ensures r.Chunk? && Reliable(provider, receipts) ==> Distinct(r.logs)
    ensures r.ChunkErr? ==> r.error in {RequestBudget, BisectionBudget, Deadline, TransportBudget, Upstream}
    ensures r.ChunkErr? && r.error in {RequestBudget, BisectionBudget} ==> to + 1 - from > 1024
    ensures r.ChunkErr? ==> Overspent(meter, r.error)
    ensures Undisturbed(meter, call) ==> r != ChunkErr(TransportBudget)
    ensures Reliable(provider, receipts) ==> r != ChunkErr(Upstream)
    ensures AlwaysRefuses(provider) && r.Chunk? ==> effort == Effort(4 * (to + 1 - from) - 1, to - from)
    ensures AlwaysRefuses(provider) && to + 1 - from > 1024 ==> r.ChunkErr?
  {
    NothingRead(ledger, from);
    hide Covers, Distinct, CompleteBelowCap, CompleteReceipts, Reliable, AlwaysRefuses, Undisturbed;
    ghost var blocks := to + 1 - from;
    ghost var next := from;
    var output: seq<Log> := [];
    var pending := [(from, to)];
    effort := Effort(0, 0);
    assert pending[..0] == [];
    while pending != []
      invariant from <= next <= to + 1 && Tiles(pending, next, to)
      invariant Covers(output, ledger, from, next - 1)
      invariant Affordable(effort, |pending|, to + 1 - next, blocks) && next + |pending| <= to + 1
      invariant Reliable(provider, receipts) ==> Distinct(output)
      invariant AlwaysRefuses(provider) ==> Exhaustive(effort, |pending|, to + 1 - next, blocks)
      invariant effort.requests <= MAX_LOG_REQUESTS_PER_CHUNK
      decreases 2 * (to + 1 - next) - |pending|
    {
      TilesFit(pending, next, to);
      var (first, last) := pending[|pending| - 1];
      var rest := pending[..|pending| - 1];
      if effort.requests >= MAX_LOG_REQUESTS_PER_CHUNK {
        return ChunkErr(RequestBudget), effort;
      }
      var answer, used := Ask(ledger, provider, receipts, meter, cap, first, last, call, effort.requests);
      effort := effort.(requests := used);
      match answer {
        case Fail(error) => return ChunkErr(error), effort;
        case Bisect =>
          if effort.bisections >= MAX_LOG_BISECTIONS_PER_CHUNK {
            return ChunkErr(BisectionBudget), effort;
          }
          effort := effort.(bisections := effort.bisections + 1);
          var middle := first + (last - first) / 2;
          TilesSplit(rest, first, middle, last, to);
          pending := rest + [(middle + 1, last), (first, middle)];
        case Read(logs) =>
          Extend(output, logs, ledger, provider, receipts, from, next, last);
          output := output + logs;
          pending, next := rest, last + 1;
      }
    }
    r := Chunk(output);
  }

  lemma NothingRead(ledger: seq<Log>, from: nat)
    ensures Covers([], ledger, from, from - 1) && Distinct([])
  {
  }

  /** What accepting an answer for the top range adds. */
  lemma Extend(output: seq<Log>, more: seq<Log>, ledger: seq<Log>, provider: Provider, receipts: Receipts, from: nat,
               next: nat, last: nat)
    requires from <= next <= last + 1
    requires Covers(output, ledger, from, next - 1) && Covers(more, ledger, next, last)
    requires Reliable(provider, receipts) ==> Distinct(output) && Distinct(more)
    ensures Covers(output + more, ledger, from, last)
    ensures Reliable(provider, receipts) ==> Distinct(output + more)
  {
    CoversExtends(output, more, ledger, from, next, last);
    if Reliable(provider, receipts) {
      DistinctExtends(output, more, ledger, from, next, last);
    }
  }

  // ---- Sorting and the duplicate check ----

  const BY_POSITION: (Log, Log) -> bool := (a, b) => Precedes(a, b)

  function Sorted(logs: seq<Log>): seq<Log> {
    Sort(BY_POSITION, logs)
  }

  lemma SortedKeeps(logs: seq<Log>)
    ensures multiset(Sorted(logs)) == multiset(logs)
    ensures forall i, j :: 0 <= i < j < |Sorted(logs)| ==> !Precedes(Sorted(logs)[j], Sorted(logs)[i])
  {
    SortKeeps(BY_POSITION, logs);
  }

  /** Sorting neither loses nor adds a log, and keeps positions distinct. */
  lemma SortedIsSame(logs: seq<Log>)
    ensures forall l :: l in Sorted(logs) <==> l in logs
    ensures Distinct(logs) ==> Distinct(Sorted(logs))
  {
    SortedKeeps(logs);
    forall l ensures l in Sorted(logs) <==> l in logs {
      assert l in multiset(Sorted(logs)) <==> l in multiset(logs);
    }
    if Distinct(logs) {
      DistinctIsCounted(logs, Sorted(logs));
    }
  }

  lemma DistinctIsCounted(logs: seq<Log>, other: seq<Log>)
    requires Distinct(logs) && multiset(logs) == multiset(other)
    ensures Distinct(other)
  {
    KeysStayDistinct((l: Log) => (l.block, l.index), logs, other);
  }

  method HasDuplicate(logs: seq<Log>) returns (found: bool)
    ensures found <==> !Distinct(logs)
  {
    var seen: set<(nat, nat)> := {};
    for k := 0 to |logs|
      invariant forall i :: 0 <= i < k ==> (logs[i].block, logs[i].index) in seen
      invariant forall p :: p in seen ==> exists i :: 0 <= i < k && p == (logs[i].block, logs[i].index)
      invariant Distinct(logs[..k])
    {
      var position := (logs[k].block, logs[k].index);
      if position in seen {
        var i :| 0 <= i < k && position == (logs[i].block, logs[i].index);
        assert SamePosition(logs[i], logs[k]);
        return true;
      }
      seen := seen + {position};
    }
    assert logs[..|logs|] == logs;
    found := false;
  }

  // ---- The whole range ----

  /** The ledger's logs of a range, in order. */
  function Range(ledger: seq<Log>, from: nat, end: nat): seq<Log> {
    if ledger == [] then []
    else
      var before, last := Range(ledger[..|ledger| - 1], from, end), ledger[|ledger| - 1];
      if Within(last, from, end) then before + [last] else before
  }

  lemma {:induction false} RangeIs(ledger: seq<Log>, from: nat, end: nat)
    requires Ordered(ledger)
    ensures Ordered(Range(ledger, from, end))
    ensures Covers(Range(ledger, from, end), ledger, from, end)
  {
    if ledger != [] {
      var init, last := ledger[..|ledger| - 1], ledger[|ledger| - 1];
      RangeIs(init, from, end);
      var before := Range(init, from, end);
      assert ledger == init + [last];
      forall i | 0 <= i < |before| ensures Precedes(before[i], last) {
        assert before[i] in init;
        var k :| 0 <= k < |init| && init[k] == before[i];
        assert ledger[k] == init[k];
      }
    }
  }

  lemma {:induction false} EmptyRange(ledger: seq<Log>, from: nat, end: nat)
    requires from > end
    ensures Range(ledger, from, end) == []
  {
    if ledger != [] {
      EmptyRange(ledger[..|ledger| - 1], from, end);
    }
  }

  lemma SortedRange(output: seq<Log>, ledger: seq<Log>, from: nat, to: nat)
    requires Ordered(ledger) && Covers(output, ledger, from, to) && Distinct(Sorted(output))
    ensures Sorted(output) == Range(ledger, from, to)
  {
    SortedIsSame(output);
    SortedKeeps(output);
    RangeIs(ledger, from, to);
    var s := Sorted(output);
    forall i, j | 0 <= i < j < |s| ensures Precedes(s[i], s[j]) {
      assert !SamePosition(s[i], s[j]) && !Precedes(s[j], s[i]);
    }
    RiseIsUnique(BY_POSITION, s, Range(ledger, from, to));
  }

  predicate PolicyHolds(maxRange: nat, cap: nat) {
    0 < maxRange <= MAX_INITIAL_LOG_RANGE && 0 < cap <= MAX_LOG_RESULT_CAP
  }

  /** `get_logs_chunked`: whatever the provider refused or capped, a successful read is exactly
      the ledger's logs of the range, each once and in order; with chunks of up to 1,024 blocks
      (the settlement uses 1,000) neither the request nor the bisection budget can trip, and a
      reliable provider that spares time and attempts always gives success. `meter` restarts with
      each chunk: request numbers go on over the chunks, the readings are the chunk's own. */
  method GetLogsChunked(ghost ledger: seq<Log>, provider: Provider, receipts: Receipts, meter: Meter,
                        from: nat, to: nat, maxRange: nat, cap: nat)
    returns (r: ReadResult)
    requires Ordered(ledger) && to <= U64_MAX
    requires CompleteBelowCap(provider, ledger, cap) && CompleteReceipts(receipts, ledger)
    ensures r == Err(InvalidPolicy) <==> !PolicyHolds(maxRange, cap)
    ensures r.Ok? ==> r.logs == Range(ledger, from, to)
    ensures r.Err? && r.error in {RequestBudget, BisectionBudget} ==> maxRange > 1024
    ensures r.Err? ==> Overspent(meter, r.error)
    ensures Reliable(provider, receipts) && Quick(meter) && PolicyHolds(maxRange, cap) && maxRange <= 1024 ==> r.Ok?
  {
    if maxRange == 0 || maxRange > MAX_INITIAL_LOG_RANGE || cap == 0 || cap > MAX_LOG_RESULT_CAP {
      return Err(InvalidPolicy);
    }
    if from > to {
      EmptyRange(ledger, from, to);
      return Ok([]);
    }
    var output: seq<Log> := [];
    var calls: nat := 0;
    var chunkStart := from;
    while chunkStart <= to
      invariant from <= chunkStart <= to + 1
      invariant Covers(output, ledger, from, chunkStart - 1)
      invariant Reliable(provider, receipts) ==> Distinct(output)
    {
      var chunkEnd := Min(Min(chunkStart + (maxRange - 1), U64_MAX), to);
      var chunk, effort := ReadChunk(ledger, provider, receipts, meter, cap, chunkStart, chunkEnd, calls);
      if chunk.ChunkErr? {
        return Err(chunk.error);
      }
      calls := calls + effort.requests;
      Extend(output, chunk.logs, ledger, provider, receipts, from, chunkStart, chunkEnd);
      output := output + chunk.logs;
      chunkStart := chunkEnd + 1;
      if chunkEnd == U64_MAX {
        break;
      }
    }
    SortedIsSame(output);
    var sorted := Sorted(output);
    var duplicate := HasDuplicate(sorted);
    if duplicate {
      return Err(DuplicatePosition);
    }
    SortedRange(output, ledger, from, to);
    r := Ok(sorted);
  }
}
