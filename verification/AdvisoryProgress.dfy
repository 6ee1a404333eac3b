/** What an undisturbed check of the advisory cache answers, from any reachable state. */
module AdvisoryProgress {
  import opened Wrappers
  import opened ConditionalStore
  import opened AdvisoryCache
  import opened AdvisorySafety
  import opened U64

  // ---- Undisturbed checks ----

  const READ: Env := Env(Fine, Truthful, Unavailable, None, false, 0)

  function Steps(id: nat, envs: seq<Env>): seq<Event> {
    if envs == [] then [] else Steps(id, envs[..|envs| - 1]) + [Run(id, envs[|envs| - 1])]
  }

  /** Nothing fails: the binding is read, and the check returns after `elapsed` seconds. */
  function Asking(id: nat, now: nat, b: Binding, elapsed: nat): seq<Event> {
    [Arrive(id, now)] + Steps(id, [READ, READ.(binding := Got(b)), READ.(elapsed := elapsed)])
  }

  /** Nothing fails on the way through a refresh. */
  function Refreshed(id: nat, now: nat, b: Binding, result: Semantic, again: Binding, elapsed: nat): seq<Event> {
    [Arrive(id, now)] + Steps(id, [READ, READ.(binding := Got(b)), READ, READ, READ.(refreshed := Some(result)),
                                   READ.(binding := Got(again)), READ, READ.(elapsed := elapsed)])
  }

  /** The record holds a result for the configuration, made by `now` and under 60 s old. */
  predicate HasRecent(record: Record, now: nat, b: Binding) {
    && record.snapshot.Some? && record.snapshot.value.checkedAt <= now < record.snapshot.value.checkedAt + 60
    && record.snapshot.value.configuration == b.commitment && Supports(b, record.snapshot.value.result)
  }

  predicate AttemptedRecently(record: Record, now: nat) {
    record.attemptAt.Some? && now < SatAdd(record.attemptAt.value, 60)
  }

  /** The stored result that may still be shown at `at`: for the configuration, unexpired. */
  function Shown(record: Record, now: nat, b: Binding, at: nat): Option<Advisory> {
    if record.snapshot.None? then None
    else
      var s := record.snapshot.value;
      if s.checkedAt <= now && s.configuration == b.commitment && now < s.checkedAt + 3600 && at < s.checkedAt + 3600
      then Some(s) else None
  }

  function Newest(events: seq<Event>): Record {
    RecordAt(RunAll(events).history, |RunAll(events).history|)
  }

  // ---- Stored results expire an hour after they were made ----

  lemma {:induction false} StoredForAnHour(h: History, k: nat)
    requires Chained(h) && k <= |h| && RecordAt(h, k).snapshot.Some?
    ensures var s := RecordAt(h, k).snapshot.value; s.expiresAt == s.checkedAt + 3600 <= U64_MAX
  {
    if k > 0 {
      assert Grows(RecordAt(h, k - 1), h[k - 1]);
      if h[k - 1].checked.None? {
        StoredForAnHour(h, k - 1);
      }
    }
  }

  lemma NewestLastsAnHour(events: seq<Event>)
    ensures LastsAnHour(Newest(events))
  {
    RunsAreSafe(events);
    if Newest(events).snapshot.Some? {
      StoredForAnHour(RunAll(events).history, |RunAll(events).history|);
    }
  }

  // ---- Running one check ----

  /** The history and one check after one of its steps. */
  function Forward(s: (History, Check), id: nat, env: Env): (History, Check) {
    var (h, pc) := Step(s.0, id, s.1.now, s.1.pc, env);
    (h, Check(s.1.now, pc, if pc.Refresh? then Some(pc.at) else s.1.started))
  }

  function Alone(s: (History, Check), id: nat, envs: seq<Env>): (History, Check) {
    if envs == [] then s else Forward(Alone(s, id, envs[..|envs| - 1]), id, envs[|envs| - 1])
  }

  lemma {:induction false} RunsAlone(events: seq<Event>, id: nat, now: nat, envs: seq<Env>)
    requires id !in RunAll(events).checks && now <= U64_MAX
    ensures var w := RunAll(events);
            var s := Alone((w.history, Check(now, Begin, None)), id, envs);
            RunAll(events + ([Arrive(id, now)] + Steps(id, envs))) == World(s.0, w.checks[id := s.1])
  {
    hide Step;
    var w, all := RunAll(events), [Arrive(id, now)] + Steps(id, envs);
    if envs == [] {
      RunOne(events, Arrive(id, now));
      assert all == [Arrive(id, now)];
    } else {
      var init, last := envs[..|envs| - 1], envs[|envs| - 1];
      RunsAlone(events, id, now, init);
      var before := events + ([Arrive(id, now)] + Steps(id, init));
      RunOne(before, Run(id, last));
      assert events + all == before + [Run(id, last)];
      ForwardApplies(RunAll(before), id, last);
    }
  }

  lemma ForwardApplies(w: World, id: nat, env: Env)
    requires id in w.checks
    ensures var s := Forward((w.history, w.checks[id]), id, env);
            Apply(w, Run(id, env)) == World(s.0, w.checks[id := s.1])
  {
    hide Step;
  }

  lemma AloneNext(s: (History, Check), id: nat, envs: seq<Env>, env: Env)
    ensures Alone(s, id, envs + [env]) == Forward(Alone(s, id, envs), id, env)
  {
    assert (envs + [env])[..|envs|] == envs;
  }

  /** Reading the record and the binding. */
  lemma Opening(h: History, id: nat, now: nat, b: Binding)
    ensures var record := RecordAt(h, |h|);
            var retained := Keep(record.snapshot, record.snapshot.Some? && Usable(record.snapshot.value, now));
            Alone((h, Check(now, Begin, None)), id, [READ, READ.(binding := Got(b))])
              == (h, Check(now, AfterBinding(now, |h|, record, retained, b), None))
  {
    hide Usable;
    var s: (History, Check), bind := (h, Check(now, Begin, None)), READ.(binding := Got(b));
    AloneNext(s, id, [], READ);
    AloneNext(s, id, [READ], bind);
    assert [] + [READ] == [READ] && [READ] + [bind] == [READ, bind];
  }

  lemma Returning(h: History, id: nat, now: nat, d: Decision, b: Binding, started: Option<nat>, elapsed: nat)
    ensures Forward((h, Check(now, Decided(d, b), started)), id, READ.(elapsed := elapsed))
         == (h, Check(now, Return(now, d, b, elapsed), started))
  {
  }

  /** An answer without a refresh. */
  lemma AnswersAtOnce(events: seq<Event>, id: nat, now: nat, b: Binding, elapsed: nat)
    requires id !in RunAll(events).checks && now <= U64_MAX
    requires HasRecent(Newest(events), now, b) || AttemptedRecently(Newest(events), now)
    ensures var w := RunAll(events + Asking(id, now, b, elapsed));
            var record, at := Newest(events), SatAdd(now, elapsed);
            && w.history == RunAll(events).history && id in w.checks && w.checks[id].pc.Returned?
            && w.checks[id].pc.decision.advisory == Shown(record, now, b, at)
            && (w.checks[id].pc.decision.isFresh <==>
                  HasRecent(record, now, b) && at < record.snapshot.value.checkedAt + 60)
  {
    var h, record := RunAll(events).history, Newest(events);
    var bind, end := READ.(binding := Got(b)), READ.(elapsed := elapsed);
    NewestLastsAnHour(events);
    RunsAlone(events, id, now, [READ, bind, end]);
    Opening(h, id, now, b);
    AloneNext((h, Check(now, Begin, None)), id, [READ, bind], end);
    assert [READ, bind] + [end] == [READ, bind, end];
    hide Alone, RunAll, Steps, Forward;
    Decides(record, |h|, now, b);
    var decided := Judged(record, |h|, now, b);
    Returning(h, id, now, decided.decision, decided.binding, None, elapsed);
  }

  /** What the record and the binding lead to. */
  function Judged(record: Record, rev: nat, now: nat, b: Binding): Pc {
    AfterBinding(now, rev, record,
                 Keep(record.snapshot, record.snapshot.Some? && Usable(record.snapshot.value, now)), b)
  }

  predicate LastsAnHour(record: Record) {
    record.snapshot.Some? ==> record.snapshot.value.expiresAt == record.snapshot.value.checkedAt + 3600 <= U64_MAX
  }

  lemma Decides(record: Record, rev: nat, now: nat, b: Binding)
    requires LastsAnHour(record) && now <= U64_MAX
    ensures HasRecent(record, now, b) ==> Judged(record, rev, now, b) == Decided(Decision(true, record.snapshot), b)
    ensures !HasRecent(record, now, b) && AttemptedRecently(record, now) ==>
              Judged(record, rev, now, b) == NotFresh(Shown(record, now, b, now))
    ensures !HasRecent(record, now, b) && !AttemptedRecently(record, now) ==>
              Judged(record, rev, now, b) == Reserve(rev, record, Shown(record, now, b, now), b)
  {
    if record.snapshot.Some? {
      EligibleIsSupported(record.snapshot.value.result, b);
    }
  }

  /** A result under 60 s old, for the configuration just read and supported by it, is served as fresh
      while it is under 60 s old at return, and nothing is written. */
  lemma RecentIsServed(events: seq<Event>, id: nat, now: nat, b: Binding, elapsed: nat)
    requires id !in RunAll(events).checks && now <= U64_MAX
    requires HasRecent(Newest(events), now, b)
    requires SatAdd(now, elapsed) < Newest(events).snapshot.value.checkedAt + 60
    ensures var w := RunAll(events + Asking(id, now, b, elapsed));
            && w.history == RunAll(events).history && id in w.checks && w.checks[id].pc.Returned?
            && w.checks[id].pc.decision == Decision(true, Newest(events).snapshot)
  {
    AnswersAtOnce(events, id, now, b, elapsed);
  }

  /** Within 60 s of an attempt, and without such a result, the stored one is shown as not fresh while
      it may be, and nothing is written. */
  lemma AttemptHoldsBack(events: seq<Event>, id: nat, now: nat, b: Binding, elapsed: nat)
    requires id !in RunAll(events).checks && now <= U64_MAX
    requires AttemptedRecently(Newest(events), now) && !HasRecent(Newest(events), now, b)
    ensures var w := RunAll(events + Asking(id, now, b, elapsed));
            && w.history == RunAll(events).history && id in w.checks && w.checks[id].pc.Returned?
            && w.checks[id].pc.decision == Decision(false, Shown(Newest(events), now, b, SatAdd(now, elapsed)))
  {
    AnswersAtOnce(events, id, now, b, elapsed);
  }

  // ---- Refreshing ----

  /** Reserving the attempt and reading it back. */
  lemma Reserves(h: History, id: nat, now: nat, prior: Option<Advisory>, b: Binding)
    ensures var record := RecordAt(h, |h|);
            var mine := record.(attemptAt := Some(now));
            var s := Forward((h, Check(now, Reserve(|h|, record, prior, b), None)), id, READ);
            && s == (h + [Version(mine, id, None)], Check(now, ReadBack(|h|, mine, prior, b), None))
            && Forward(s, id, READ) ==
                 (h + [Version(mine, id, None)], Check(now, Refresh(|h|, |h| + 1, mine, prior, b), Some(|h|)))
  {
  }

  lemma Refreshes(h: History, id: nat, now: nat, at: nat, mine: Record, prior: Option<Advisory>, b: Binding,
                  result: Semantic, again: Binding)
    requires now + 3600 <= U64_MAX && again.commitment == b.commitment && Supports(again, result)
    ensures var s := Forward((h, Check(now, Refresh(at, |h|, mine, prior, b), Some(at))), id,
                             READ.(refreshed := Some(result)));
            Forward(s, id, READ.(binding := Got(again)))
              == (h, Check(now, Publish(at, |h|, mine, prior, Advisory(now, now + 3600, b.commitment, result), again),
                           Some(at)))
  {
    EligibleIsSupported(result, again);
  }

  lemma Publishes(h: History, id: nat, now: nat, at: nat, mine: Record, prior: Option<Advisory>, s: Advisory,
                  again: Binding)
    ensures Forward((h, Check(now, Publish(at, |h|, mine, prior, s, again), Some(at))), id, READ)
         == (h + [Version(mine.(snapshot := Some(s)), id, Some(again))],
             Check(now, Decided(Decision(true, Some(s)), again), Some(at)))
  {
  }

  /** The steps of a refresh, from the decision to make one. */
  lemma RefreshSteps(h: History, id: nat, now: nat, prior: Option<Advisory>, b: Binding, result: Semantic,
                     again: Binding, elapsed: nat)
    requires now + 3600 <= U64_MAX && elapsed < 60 && again.commitment == b.commitment && Supports(again, result)
    ensures var record, s := RecordAt(h, |h|), Advisory(now, now + 3600, b.commitment, result);
            var s1 := Forward((h, Check(now, Reserve(|h|, record, prior, b), None)), id, READ);
            var s2 := Forward(s1, id, READ);
            var s3 := Forward(s2, id, READ.(refreshed := Some(result)));
            var s4 := Forward(s3, id, READ.(binding := Got(again)));
            var s5 := Forward(s4, id, READ);
            var s6 := Forward(s5, id, READ.(elapsed := elapsed));
            && s6.0 == h + [Version(Record(Some(now), record.snapshot), id, None),
                            Version(Record(Some(now), Some(s)), id, Some(again))]
            && s6.1.pc == Returned(Decision(true, Some(s)), again, now + elapsed)
  {
    hide Forward;
    var record, s := RecordAt(h, |h|), Advisory(now, now + 3600, b.commitment, result);
    var mine := record.(attemptAt := Some(now));
    var h1 := h + [Version(mine, id, None)];
    Reserves(h, id, now, prior, b);
    Refreshes(h1, id, now, |h|, mine, prior, b, result, again);
    Publishes(h1, id, now, |h|, mine, prior, s, again);
    Returning(h1 + [Version(mine.(snapshot := Some(s)), id, Some(again))], id, now, Decision(true, Some(s)), again,
              Some(|h|), elapsed);
  }

  /** Without a recent result and more than 60 s after any attempt, an undisturbed check reserves the
      attempt, refreshes, publishes a supported result and returns it as fresh. */
  lemma RefreshIsPublished(events: seq<Event>, id: nat, now: nat, b: Binding, result: Semantic, again: Binding,
                           elapsed: nat)
    requires id !in RunAll(events).checks && now + 3600 <= U64_MAX && elapsed < 60
    requires !HasRecent(Newest(events), now, b) && !AttemptedRecently(Newest(events), now)
    requires again.commitment == b.commitment && Supports(again, result)
    ensures var w := RunAll(events + Refreshed(id, now, b, result, again, elapsed));
            var s := Advisory(now, now + 3600, b.commitment, result);
            && w.history == RunAll(events).history
                 + [Version(Record(Some(now), Newest(events).snapshot), id, None),
                    Version(Record(Some(now), Some(s)), id, Some(again))]
            && id in w.checks && w.checks[id].pc == Returned(Decision(true, Some(s)), again, now + elapsed)
  {
    var h, start := RunAll(events).history, Check(now, Begin, None);
    var e1, e2, e5 := READ.(binding := Got(b)), READ.(refreshed := Some(result)), READ.(binding := Got(again));
    var e8 := READ.(elapsed := elapsed);
    NewestLastsAnHour(events);
    RunsAlone(events, id, now, [READ, e1, READ, READ, e2, e5, READ, e8]);
    Opening(h, id, now, b);
    Decides(Newest(events), |h|, now, b);
    SixMore((h, start), id, [READ, e1], READ, READ, e2, e5, READ, e8);
    assert [READ, e1] + [READ, READ, e2, e5, READ, e8] == [READ, e1, READ, READ, e2, e5, READ, e8];
    hide Alone, RunAll, Steps, Forward;
    RefreshSteps(h, id, now, Shown(Newest(events), now, b, now), b, result, again, elapsed);
  }

  lemma SixMore(s: (History, Check), id: nat, envs: seq<Env>, a: Env, b: Env, c: Env, d: Env, e: Env, f: Env)
    ensures var s1 := Forward(Alone(s, id, envs), id, a);
            var s2 := Forward(s1, id, b);
            var s3 := Forward(s2, id, c);
            var s4 := Forward(s3, id, d);
            var s5 := Forward(s4, id, e);
            Alone(s, id, envs + [a, b, c, d, e, f]) == Forward(s5, id, f)
  {
    hide Forward;
    AloneNext(s, id, envs, a);
    AloneNext(s, id, envs + [a], b);
    AloneNext(s, id, envs + [a] + [b], c);
    AloneNext(s, id, envs + [a] + [b] + [c], d);
    AloneNext(s, id, envs + [a] + [b] + [c] + [d], e);
    AloneNext(s, id, envs + [a] + [b] + [c] + [d] + [e], f);
    assert envs + [a] + [b] + [c] + [d] + [e] + [f] == envs + [a, b, c, d, e, f];
  }
}
