/** What every run of the advisory cache keeps: spaced refreshes, publication by the current
    attempt's owner only, snapshots replaced only by checked results, and what `fresh` means. */
module AdvisorySafety {
  import opened Wrappers
  import opened ConditionalStore
  import opened AdvisoryCache
  import opened U64

  // ---- The history ----

  /** A reservation keeps the snapshot and waits for the previous attempt; a publication keeps the
      attempt, and its snapshot was made under it and checked. */
  predicate Grows(before: Record, v: Version) {
    if v.checked.None? then
      && v.record.snapshot == before.snapshot
      && v.record.attemptAt.Some? && v.record.attemptAt.value <= U64_MAX && !Blocked(before, v.record.attemptAt.value)
    else
      && v.record.attemptAt == before.attemptAt && v.record.attemptAt.Some? && v.record.snapshot.Some?
      && Checked(v.record.snapshot.value, v.record.attemptAt.value, v.checked.value)
  }

  /** A result made at `now` for an eligible binding. */
  predicate Checked(s: Advisory, now: nat, b: Binding) {
    && s.checkedAt == now && s.expiresAt == now + 3600 && s.expiresAt <= U64_MAX
    && s.configuration == b.commitment && Eligible(s.result, b)
  }

  predicate Chained(h: History) {
    forall k :: 0 <= k < |h| ==> Grows(RecordAt(h, k), h[k])
  }

  predicate Reserved(h: History, at: nat, id: nat, now: nat) {
    at < |h| && h[at].checked.None? && h[at].writer == id && h[at].record.attemptAt == Some(now)
  }

  /** Every publication's writer holds the reservation that its record names. */
  predicate Owned(h: History) {
    forall k :: 0 <= k < |h| && h[k].checked.Some? ==> OwnedAt(h, k)
  }

  predicate OwnedAt(h: History, k: nat)
    requires k < |h|
  {
    h[k].record.attemptAt.Some? && exists at :: 0 <= at < k && Reserved(h, at, h[k].writer, h[k].record.attemptAt.value)
  }

  // ---- The checks ----

  predicate Stored(h: History, s: Advisory) {
    exists k :: 0 <= k < |h| && h[k].record.snapshot == Some(s)
  }

  predicate ReadAs(h: History, rev: nat, record: Record) {
    rev <= |h| && record == RecordAt(h, rev)
  }

  predicate FromHistory(h: History, now: nat, s: Option<Advisory>) {
    s.Some? ==> Stored(h, s.value) && Usable(s.value, now)
  }

  predicate Holds(h: History, id: nat, now: nat, at: nat, rev: nat, mine: Record) {
    Reserved(h, at, id, now) && at < rev && ReadAs(h, rev, mine) && mine.attemptAt == Some(now)
  }

  /** What a decision to answer `fresh` rests on. */
  predicate Justified(h: History, s: Advisory, b: Binding) {
    Stored(h, s) && s.configuration == b.commitment && Eligible(s.result, b)
  }

  predicate PcOk(h: History, id: nat, now: nat, pc: Pc) {
    match pc
    case Begin => true
    case Binding1(rev, record, retained) => ReadAs(h, rev, record) && FromHistory(h, now, retained)
    case Reserve(rev, record, prior, _) => ReadAs(h, rev, record) && !Blocked(record, now)
    case ReadBack(at, mine, _, _) => Reserved(h, at, id, now) && h[at].record == mine
    case Refresh(at, rev, mine, _, _) => Holds(h, id, now, at, rev, mine)
    case Binding2(at, rev, mine, _, _, _) => Holds(h, id, now, at, rev, mine)
    case Publish(at, rev, mine, _, snapshot, b) => Holds(h, id, now, at, rev, mine) && Checked(snapshot, now, b)
    case Decided(d, b) => d.isFresh ==> d.advisory.Some? && Justified(h, d.advisory.value, b)
    case Returned(d, b, returnedAt) => d.isFresh ==>
      d.advisory.Some? && Justified(h, d.advisory.value, b) && returnedAt < d.advisory.value.expiresAt
      && SatSub(returnedAt, d.advisory.value.checkedAt) < 60
    case Refused => true
  }

  /** History only grows, and what a check relies on stays. */
  lemma PcIsStable(h: History, h': History, id: nat, now: nat, pc: Pc)
    requires h <= h' && PcOk(h, id, now, pc)
    ensures PcOk(h', id, now, pc)
  {
    forall s: Advisory | Stored(h, s) ensures Stored(h', s) {
      var k :| 0 <= k < |h| && h[k].record.snapshot == Some(s);
      assert h'[k] == h[k];
    }
    assert forall rev :: 0 <= rev <= |h| ==> RecordAt(h', rev) == RecordAt(h, rev);
    assert forall k :: 0 <= k < |h| ==> h'[k] == h[k];
  }

  lemma AppendChains(h: History, v: Version)
    requires Chained(h) && Grows(RecordAt(h, |h|), v)
    ensures Chained(h + [v])
  {
    hide Grows;
    var h' := h + [v];
    forall k | 0 <= k < |h'| ensures Grows(RecordAt(h', k), h'[k]) {
      assert k < |h| ==> h'[k] == h[k];
      assert RecordAt(h', k) == RecordAt(h, k);
    }
  }

  predicate OwnsReservation(h: History, v: Version) {
    v.record.attemptAt.Some? && exists at :: 0 <= at < |h| && Reserved(h, at, v.writer, v.record.attemptAt.value)
  }

  lemma AppendOwns(h: History, v: Version)
    requires Owned(h) && (v.checked.Some? ==> OwnsReservation(h, v))
    ensures Owned(h + [v])
  {
    var h' := h + [v];
    forall k | 0 <= k < |h'| && h'[k].checked.Some? ensures OwnedAt(h', k) {
      if k < |h| {
        assert OwnedAt(h, k) && h'[k] == h[k];
        var at :| 0 <= at < k && Reserved(h, at, h[k].writer, h[k].record.attemptAt.value);
        assert Reserved(h', at, h'[k].writer, h'[k].record.attemptAt.value);
      } else {
        var at :| 0 <= at < |h| && Reserved(h, at, v.writer, v.record.attemptAt.value);
        assert Reserved(h', at, v.writer, v.record.attemptAt.value);
      }
    }
  }

  lemma AppendKeeps(h: History, v: Version)
    requires Chained(h) && Owned(h) && Grows(RecordAt(h, |h|), v) && (v.checked.Some? ==> OwnsReservation(h, v))
    ensures Chained(h + [v]) && Owned(h + [v]) && h <= h + [v]
  {
    hide Chained, Owned, Grows, OwnsReservation;
    AppendChains(h, v);
    AppendOwns(h, v);
  }

  /** A usable snapshot read from the record is in the history. */
  lemma SnapshotIsStored(h: History, rev: nat)
    requires rev <= |h| && RecordAt(h, rev).snapshot.Some?
    ensures Stored(h, RecordAt(h, rev).snapshot.value)
  {
    assert h[rev - 1].record.snapshot == Some(RecordAt(h, rev).snapshot.value);
  }

  lemma ReserveKeeps(h: History, id: nat, now: nat, pc: Pc, env: Env)
    requires Chained(h) && Owned(h) && pc.Reserve? && PcOk(h, id, now, pc) && now <= U64_MAX
    ensures var (h', pc') := Step(h, id, now, pc, env);
            h <= h' && Chained(h') && Owned(h') && PcOk(h', id, now, pc')
  {
    var mine := pc.record.(attemptAt := Some(now));
    if Applies(|h|, pc.rev, env.reply) {
      AppendKeeps(h, Version(mine, id, None));
    }
  }

  lemma PublishKeeps(h: History, id: nat, now: nat, pc: Pc, env: Env)
    requires Chained(h) && Owned(h) && pc.Publish? && PcOk(h, id, now, pc) && now <= U64_MAX
    ensures var (h', pc') := Step(h, id, now, pc, env);
            h <= h' && Chained(h') && Owned(h') && PcOk(h', id, now, pc')
  {
    if Applies(|h|, pc.rev, env.reply) {
      var v := Version(pc.mine.(snapshot := Some(pc.snapshot)), id, Some(pc.binding));
      assert Reserved(h, pc.at, id, now);
      AppendKeeps(h, v);
      var h' := h + [v];
      assert h'[|h|].record.snapshot == Some(pc.snapshot);
    }
  }

  lemma QuietKeeps(h: History, id: nat, now: nat, pc: Pc, env: Env)
    requires !pc.Reserve? && !pc.Publish? && PcOk(h, id, now, pc) && now <= U64_MAX
    ensures var (h', pc') := Step(h, id, now, pc, env);
            h' == h && PcOk(h, id, now, pc')
  {
    if pc.Begin? && RecordAt(h, |h|).snapshot.Some? {
      SnapshotIsStored(h, |h|);
    }
  }

  lemma StepKeeps(h: History, id: nat, now: nat, pc: Pc, env: Env)
    requires Chained(h) && Owned(h) && PcOk(h, id, now, pc) && now <= U64_MAX
    ensures var (h', pc') := Step(h, id, now, pc, env);
            h <= h' && Chained(h') && Owned(h') && PcOk(h', id, now, pc')
  {
    if pc.Reserve? {
      ReserveKeeps(h, id, now, pc, env);
    } else if pc.Publish? {
      PublishKeeps(h, id, now, pc, env);
    } else {
      QuietKeeps(h, id, now, pc, env);
    }
  }

  // ---- Runs ----

  predicate CheckOk(h: History, id: nat, c: Check) {
    c.now <= U64_MAX && PcOk(h, id, c.now, c.pc) && (c.started.Some? ==> Reserved(h, c.started.value, id, c.now))
  }

  predicate Safe(w: World) {
    && Chained(w.history) && Owned(w.history)
    && forall id :: id in w.checks ==> CheckOk(w.history, id, w.checks[id])
  }

  lemma CheckIsStable(h: History, h': History, id: nat, c: Check)
    requires h <= h' && CheckOk(h, id, c)
    ensures CheckOk(h', id, c)
  {
    PcIsStable(h, h', id, c.now, c.pc);
    hide PcOk;
    if c.started.Some? {
      assert h'[c.started.value] == h[c.started.value];
    }
  }

  lemma RunKeepsCheck(h: History, id: nat, c: Check, env: Env)
    requires Chained(h) && Owned(h) && CheckOk(h, id, c)
    ensures var (h', pc) := Step(h, id, c.now, c.pc, env);
            && h <= h' && Chained(h') && Owned(h')
            && CheckOk(h', id, Check(c.now, pc, if pc.Refresh? then Some(pc.at) else c.started))
  {
    StepKeeps(h, id, c.now, c.pc, env);
    var (h', pc) := Step(h, id, c.now, c.pc, env);
    HoldsIsReserved(h', id, c.now, pc);
    hide Step, PcOk, Chained, Owned;
    if c.started.Some? {
      assert h'[c.started.value] == h[c.started.value];
    }
  }

  lemma HoldsIsReserved(h: History, id: nat, now: nat, pc: Pc)
    requires PcOk(h, id, now, pc)
    ensures pc.Refresh? ==> Reserved(h, pc.at, id, now)
  {
  }

  lemma ApplyKeeps(w: World, e: Event)
    requires Safe(w)
    ensures Safe(Apply(w, e)) && w.history <= Apply(w, e).history
  {
    hide Step, PcOk, Chained, Owned;
    match e
    case Arrive(id, now) => BeginIsOk(w.history, id);
    case Run(id, env) =>
      if id in w.checks {
        var c := w.checks[id];
        RunKeepsCheck(w.history, id, c, env);
        var w' := Apply(w, e);
        forall other | other in w'.checks ensures CheckOk(w'.history, other, w'.checks[other]) {
          if other != id {
            CheckIsStable(w.history, w'.history, other, w.checks[other]);
          }
        }
      }
  }

  lemma BeginIsOk(h: History, id: nat)
    ensures forall now: nat :: PcOk(h, id, now, Begin)
  {
  }

  lemma {:induction false} RunsAreSafe(events: seq<Event>)
    ensures Safe(RunAll(events))
  {
    if events != [] {
      RunsAreSafe(events[..|events| - 1]);
      ApplyKeeps(RunAll(events[..|events| - 1]), events[|events| - 1]);
    }
  }

  // ---- What follows ----

  lemma GrowsClimbs(before: Record, v: Version)
    requires Grows(before, v) && before.attemptAt.Some? && before.attemptAt.value <= U64_MAX
    ensures v.record.attemptAt.Some? && before.attemptAt.value <= v.record.attemptAt.value <= U64_MAX
  {
  }

  /** Attempts never go back. */
  lemma {:induction false} AttemptsClimb(h: History, i: nat, j: nat)
    requires Chained(h) && i < j <= |h| && h[i].record.attemptAt.Some?
    ensures RecordAt(h, j).attemptAt.Some? && h[i].record.attemptAt.value <= RecordAt(h, j).attemptAt.value <= U64_MAX
    decreases j
  {
    hide Grows;
    if i < j - 1 {
      AttemptsClimb(h, i, j - 1);
      GrowsClimbs(RecordAt(h, j - 1), h[j - 1]);
    } else {
      AttemptBounded(h, i);
    }
  }

  lemma {:induction false} AttemptBounded(h: History, k: nat)
    requires Chained(h) && k < |h|
    ensures h[k].record.attemptAt.Some? ==> h[k].record.attemptAt.value <= U64_MAX
  {
    assert Grows(RecordAt(h, k), h[k]);
    if k > 0 && h[k].checked.Some? {
      AttemptBounded(h, k - 1);
    }
  }

  /** Two reservations are at least 60 s apart; only at the very end of the clock's range is the
      distance cut short. */
  lemma ReservationsSpaced(h: History, i: nat, j: nat)
    requires Chained(h) && i < j < |h| && h[i].checked.None? && h[j].checked.None?
    ensures h[i].record.attemptAt.Some? && h[j].record.attemptAt.Some?
    ensures h[j].record.attemptAt.value >= SatAdd(h[i].record.attemptAt.value, 60)
    ensures h[j].record.attemptAt.value < U64_MAX ==> h[j].record.attemptAt.value >= h[i].record.attemptAt.value + 60
  {
    assert Grows(RecordAt(h, i), h[i]) && Grows(RecordAt(h, j), h[j]);
    AttemptsClimb(h, i, j);
  }

  /** In every run, any two refreshes were started under attempts at least 60 s apart, exactly when
      the earlier attempt's reading leaves 60 s of the clock's range; otherwise the later one reads
      the clock's last second. */
  lemma RefreshesSpaced(events: seq<Event>, p: nat, q: nat)
    requires var w := RunAll(events);
             p != q && p in w.checks && q in w.checks && w.checks[p].started.Some? && w.checks[q].started.Some?
    ensures var a, b := RunAll(events).checks[p].now, RunAll(events).checks[q].now;
            && Max(a, b) <= U64_MAX
            && (Max(a, b) - Min(a, b) >= 60 <==> Min(a, b) + 60 <= U64_MAX)
            && (Max(a, b) - Min(a, b) < 60 ==> Max(a, b) == U64_MAX)
  {
    hide PcOk, Chained, Owned;
    RunsAreSafe(events);
    var w := RunAll(events);
    var i, j := w.checks[p].started.value, w.checks[q].started.value;
    assert CheckOk(w.history, p, w.checks[p]) && CheckOk(w.history, q, w.checks[q]);
    if i < j {
      ReservationsSpaced(w.history, i, j);
    } else {
      ReservationsSpaced(w.history, j, i);
    }
  }

  /** A publication is written under its writer's own reservation, and nobody reserved since. */
  lemma OnlyTheOwnerPublishes(events: seq<Event>, k: nat) returns (at: nat)
    requires k < |RunAll(events).history| && RunAll(events).history[k].checked.Some?
    ensures var h := RunAll(events).history;
            && at < k && h[k].record.attemptAt.Some? && Reserved(h, at, h[k].writer, h[k].record.attemptAt.value)
            && forall m :: at < m < k ==> h[m].checked.Some?
  {
    RunsAreSafe(events);
    var h := RunAll(events).history;
    assert OwnedAt(h, k);
    at :| 0 <= at < k && Reserved(h, at, h[k].writer, h[k].record.attemptAt.value);
    assert Grows(RecordAt(h, k), h[k]);
    forall m | at < m < k ensures h[m].checked.Some? {
      if h[m].checked.None? {
        ReservationsSpaced(h, at, m);
        AttemptsClimb(h, m, k);
      }
    }
  }

  /** The snapshot changes only by publishing a result that was refreshed under the current attempt
      and checked against a binding with the same configuration: failures leave it alone. */
  lemma SnapshotsOnlyPublished(events: seq<Event>, k: nat)
    requires k < |RunAll(events).history|
    ensures var h := RunAll(events).history;
            h[k].record.snapshot != RecordAt(h, k).snapshot ==>
              && h[k].checked.Some? && h[k].record.snapshot.Some? && h[k].record.attemptAt == RecordAt(h, k).attemptAt
              && h[k].record.attemptAt.Some?
              && Checked(h[k].record.snapshot.value, h[k].record.attemptAt.value, h[k].checked.value)
  {
    RunsAreSafe(events);
    var h := RunAll(events).history;
    assert Grows(RecordAt(h, k), h[k]);
  }

  /** What a binding must say for a result to be used: finalized blocks and a configuration, and for a
      drop that its reference is recent and was observed on the finalized chain. */
  predicate Supports(b: Binding, result: Semantic) {
    && 0 < b.finalized <= b.head && b.maxAge > 0 && b.commitment > 0
    && (result.Qualifying? ==>
          && 0 < result.referenceBlock < b.head <= result.referenceBlock + b.maxAge
          && result.referenceBlock < result.observationBlock <= b.finalized)
  }

  lemma EligibleIsSupported(result: Semantic, b: Binding)
    ensures Eligible(result, b) <==> Supports(b, result)
  {
  }

  /** A `fresh` answer: a stored result for the configuration just read, supported by that binding,
      unexpired and under 60 s old at return. */
  lemma FreshMeans(events: seq<Event>, id: nat)
    requires id in RunAll(events).checks && RunAll(events).checks[id].pc.Returned?
    requires RunAll(events).checks[id].pc.decision.isFresh
    ensures var w := RunAll(events);
            var Returned(d, b, returnedAt) := w.checks[id].pc;
            && d.advisory.Some? && Stored(w.history, d.advisory.value)
            && d.advisory.value.configuration == b.commitment && Supports(b, d.advisory.value.result)
            && returnedAt < d.advisory.value.expiresAt && returnedAt < d.advisory.value.checkedAt + 60
  {
    RunsAreSafe(events);
    var w := RunAll(events);
    assert CheckOk(w.history, id, w.checks[id]);
    EligibleIsSupported(w.checks[id].pc.decision.advisory.value.result, w.checks[id].pc.binding);
  }

  // ---- The end of the clock ----

  const ENV: Env := Env(Fine, Truthful, Got(Binding(1, 1, 1, 1)), None, false, 0)

  /** A check's arrival and its steps up to the start of its refresh. */
  function Refreshing(id: nat, now: nat): seq<Event> {
    [Arrive(id, now), Run(id, ENV), Run(id, ENV), Run(id, ENV), Run(id, ENV)]
  }

  function AfterFive(w: World, id: nat, now: nat): World {
    Apply(Apply(Apply(Apply(Apply(w, Arrive(id, now)), Run(id, ENV)), Run(id, ENV)), Run(id, ENV)), Run(id, ENV))
  }

  /** The refresh of a check that arrives when no attempt holds it up. */
  lemma Starting(w: World, id: nat, now: nat)
    requires id !in w.checks && now <= U64_MAX && RecordAt(w.history, |w.history|).snapshot.None?
    requires !Blocked(RecordAt(w.history, |w.history|), now)
    ensures var w', at := AfterFive(w, id, now), |w.history|;
            && w'.history == w.history + [Version(RecordAt(w.history, at).(attemptAt := Some(now)), id, None)]
            && w'.checks.Keys == w.checks.Keys + {id}
            && w'.checks[id].now == now && w'.checks[id].started == Some(at)
            && forall other :: other in w.checks ==> w'.checks[other] == w.checks[other]
  {
    var w1 := Apply(w, Arrive(id, now));
    var w2 := Apply(w1, Run(id, ENV));
    var w3 := Apply(w2, Run(id, ENV));
    var w4 := Apply(w3, Run(id, ENV));
  }

  lemma RunOne(events: seq<Event>, e: Event)
    ensures RunAll(events + [e]) == Apply(RunAll(events), e)
  {
    assert (events + [e])[..|events|] == events;
  }

  lemma RunOn(events: seq<Event>, id: nat, now: nat)
    ensures RunAll(events + Refreshing(id, now)) == AfterFive(RunAll(events), id, now)
  {
    hide Apply, RunAll;
    var e := Run(id, ENV);
    RunOne(events, Arrive(id, now));
    RunOne(events + [Arrive(id, now)], e);
    RunOne(events + [Arrive(id, now)] + [e], e);
    RunOne(events + [Arrive(id, now)] + [e] + [e], e);
    RunOne(events + [Arrive(id, now)] + [e] + [e] + [e], e);
    assert events + Refreshing(id, now) == events + [Arrive(id, now)] + [e] + [e] + [e] + [e];
  }

  /** After any attempt of the clock's last minute a second refresh can start less than 60 s
      later, even at once. */
  lemma SaturationClosesTheGap(a: nat)
    requires a <= U64_MAX < a + 60
    ensures exists events: seq<Event> ::
              var checks := RunAll(events).checks;
              && 0 in checks && 1 in checks && checks[0].started.Some? && checks[1].started.Some?
              && checks[0].now == a && checks[1].now == U64_MAX
  {
    hide AfterFive;
    var first := Refreshing(0, a);
    var both := first + Refreshing(1, U64_MAX);
    assert [] + first == first;
    RunOn([], 0, a);
    Starting(START, 0, a);
    RunOn(first, 1, U64_MAX);
    Starting(RunAll(first), 1, U64_MAX);
    var checks := RunAll(both).checks;
    assert 0 in checks && 1 in checks && checks[0].started.Some? && checks[1].started.Some?;
  }
}
