/** The open-advisory cache: one record, changed only by compare-and-swap, that both reserves
    refresh attempts and keeps the last published result. Any number of checks interleave, with
    arbitrary clock readings, failures and timeouts. */
module AdvisoryCache {
  import opened Wrappers
  import opened ConditionalStore
  import opened U64

  datatype Semantic = NoDrop | Qualifying(referenceBlock: nat, observationBlock: nat)

  /** `commitment` is the configuration's digest; 0 is the empty one. */
  datatype Binding = Binding(commitment: nat, head: nat, finalized: nat, maxAge: nat)

  datatype Advisory = Advisory(checkedAt: nat, expiresAt: nat, configuration: nat, result: Semantic)

  datatype Record = Record(attemptAt: Option<nat>, snapshot: Option<Advisory>)

  const EMPTY: Record := Record(None, None)

  datatype Decision = Decision(isFresh: bool, advisory: Option<Advisory>)

  predicate Eligible(result: Semantic, b: Binding) {
    && b.head != 0 && b.finalized != 0 && b.finalized <= b.head && b.maxAge != 0 && b.commitment != 0
    && match result
       case NoDrop => true
       case Qualifying(reference, observation) =>
         && 0 < reference < b.head && b.head - reference <= b.maxAge
         && reference < observation <= b.finalized
  }

  /** A stored result that may be used at all. */
  predicate Usable(s: Advisory, now: nat) {
    s.checkedAt <= now < s.expiresAt && s.expiresAt == SatAdd(s.checkedAt, 3600)
  }

  predicate Blocked(record: Record, now: nat) {
    record.attemptAt.Some? && now < SatAdd(record.attemptAt.value, 60)
  }

  // ---- The store and the checks in flight ----

  /** One version of the record; `writer` and, for a publication, the binding it was checked
      against are history, not stored data. */
  datatype Version = Version(record: Record, writer: nat, checked: Option<Binding>)

  type History = seq<Version>

  /** The record after the first `rev` versions. */
  function RecordAt(h: History, rev: nat): Record
    requires rev <= |h|
  {
    if rev == 0 then EMPTY else h[rev - 1].record
  }

  /** Where a check is. `at` is the place of its own reservation in the history. */
  datatype Pc =
    | Begin
    | Binding1(rev: nat, record: Record, retained: Option<Advisory>)
    | Reserve(rev: nat, record: Record, prior: Option<Advisory>, binding: Binding)
    | ReadBack(at: nat, mine: Record, prior: Option<Advisory>, binding: Binding)
    | Refresh(at: nat, rev: nat, mine: Record, prior: Option<Advisory>, binding: Binding)
    | Binding2(at: nat, rev: nat, mine: Record, prior: Option<Advisory>, binding: Binding, result: Semantic)
    | Publish(at: nat, rev: nat, mine: Record, prior: Option<Advisory>, snapshot: Advisory, binding: Binding)
    | Decided(decision: Decision, binding: Binding)
    | Returned(decision: Decision, binding: Binding, returnedAt: nat)
    | Refused

  datatype Failure = Fine | Error | Timeout

  datatype Read<T> = Got(value: T) | Unavailable | Other

  /** What the world does at a step. A compare-and-swap that fails or times out may have taken
      effect all the same. */
  datatype Env = Env(
    failure: Failure, reply: Reply, binding: Read<Binding>, refreshed: Option<Semantic>, late: bool, elapsed: nat)

  const NO_BINDING: Binding := Binding(0, 0, 0, 0)

  function NotFresh(advisory: Option<Advisory>): Pc {
    Decided(Decision(false, advisory), NO_BINDING)
  }

  function Keep(s: Option<Advisory>, keep: bool): Option<Advisory> {
    if keep then s else None
  }

  /** What a timeout falls back to. */
  function Fallback(pc: Pc): Option<Advisory> {
    match pc
    case Binding1(_, _, retained) => retained
    case Reserve(_, _, prior, _) => prior
    case ReadBack(_, _, prior, _) => prior
    case Refresh(_, _, _, prior, _) => prior
    case Binding2(_, _, _, prior, _, _) => prior
    case Publish(_, _, _, prior, _, _) => prior
    case _ => None
  }

  function Swap(h: History, rev: nat, v: Version, reply: Reply): History {
    if Applies(|h|, rev, reply) then h + [v] else h
  }

  function AfterBinding(now: nat, rev: nat, record: Record, retained: Option<Advisory>, b: Binding): Pc {
    var prior := Keep(retained, retained.Some? && retained.value.configuration == b.commitment);
    if prior.Some? && SatSub(now, prior.value.checkedAt) < 60 && Eligible(prior.value.result, b)
    then Decided(Decision(true, prior), b)
    else if Blocked(record, now) then NotFresh(prior)
    else Reserve(rev, record, prior, b)
  }

  function AfterRefresh(now: nat, at: nat, rev: nat, mine: Record, prior: Option<Advisory>, b: Binding,
                        result: Semantic, again: Read<Binding>): Pc {
    if again.Unavailable? then NotFresh(prior)
    else if again.Other? || again.value.commitment != b.commitment then NotFresh(None)
    else if !Eligible(result, again.value) then NotFresh(prior)
    else if now + 3600 > U64_MAX then Refused
    else Publish(at, rev, mine, prior, Advisory(now, now + 3600, b.commitment, result), again.value)
  }

  /** The filters of `check` around the decision of `check_inner`. */
  function Return(now: nat, d: Decision, b: Binding, elapsed: nat): Pc {
    var returnedAt := SatAdd(now, elapsed);
    var advisory := Keep(d.advisory, d.advisory.Some? && returnedAt < d.advisory.value.expiresAt);
    var isFresh := d.isFresh && advisory.Some? && SatSub(returnedAt, advisory.value.checkedAt) < 60;
    Returned(Decision(isFresh, advisory), b, returnedAt)
  }

  function Step(h: History, id: nat, now: nat, pc: Pc, env: Env): (History, Pc) {
    match pc
    case Begin =>
      if env.failure == Timeout then (h, NotFresh(Fallback(pc)))
      else if env.failure == Error then (h, Refused)
      else
        var record := RecordAt(h, |h|);
        (h, Binding1(|h|, record, Keep(record.snapshot, record.snapshot.Some? && Usable(record.snapshot.value, now))))
    case Binding1(rev, record, retained) =>
      if env.failure == Timeout || env.binding.Unavailable? then (h, NotFresh(Fallback(pc)))
      else if env.binding.Other? then (h, Refused)
      else (h, AfterBinding(now, rev, record, retained, env.binding.value))
    case Reserve(rev, record, prior, b) =>
      var mine := record.(attemptAt := Some(now));
      var h' := Swap(h, rev, Version(mine, id, None), env.reply);
      if env.failure == Error then (h', Refused)
      else if env.failure == Timeout || !Confirmed(|h|, rev, env.reply) then (h', NotFresh(Fallback(pc)))
      else (h', ReadBack(|h|, mine, prior, b))
    case ReadBack(at, mine, prior, b) =>
      if env.failure == Timeout then (h, NotFresh(Fallback(pc)))
      else if env.failure == Error || h == [] || RecordAt(h, |h|) != mine then (h, Refused)
      else if env.late then (h, NotFresh(prior))
      else (h, Refresh(at, |h|, mine, prior, b))
    case Refresh(at, rev, mine, prior, b) =>
      if env.failure == Timeout || env.refreshed.None? then (h, NotFresh(Fallback(pc)))
      else (h, Binding2(at, rev, mine, prior, b, env.refreshed.value))
    case Binding2(at, rev, mine, prior, b, result) =>
      if env.failure == Timeout then (h, NotFresh(Fallback(pc)))
      else (h, AfterRefresh(now, at, rev, mine, prior, b, result, env.binding))
    case Publish(at, rev, mine, prior, snapshot, b) =>
      var h' := Swap(h, rev, Version(mine.(snapshot := Some(snapshot)), id, Some(b)), env.reply);
      if env.failure == Timeout then (h', NotFresh(Fallback(pc)))
      else if env.failure == Error || !Confirmed(|h|, rev, env.reply) then (h', Refused)
      else (h', Decided(Decision(true, Some(snapshot)), b))
    case Decided(d, b) => (h, Return(now, d, b, env.elapsed))
    case Returned(_, _, _) => (h, pc)
    case Refused => (h, pc)
  }

  // ---- Runs ----

  /** A check's clock reading, where it is, and the place of the reservation under which it began
      a refresh, if it did. */
  datatype Check = Check(now: nat, pc: Pc, started: Option<nat>)

  datatype World = World(history: History, checks: map<nat, Check>)

  const START: World := World([], map[])

  /** A new check with any clock reading, or one step of a running one. */
  datatype Event = Arrive(id: nat, now: nat) | Run(id: nat, env: Env)

  function Apply(w: World, e: Event): World {
    match e
    case Arrive(id, now) =>
      if id in w.checks || now > U64_MAX then w
      else w.(checks := w.checks[id := Check(now, Begin, None)])
    case Run(id, env) =>
      if id !in w.checks then w
      else
        var check := w.checks[id];
        var (h, pc) := Step(w.history, id, check.now, check.pc, env);
        World(h, w.checks[id := Check(check.now, pc, if pc.Refresh? then Some(pc.at) else check.started)])
  }

  function RunAll(events: seq<Event>): World {
    if events == [] then START else Apply(RunAll(events[..|events| - 1]), events[|events| - 1])
  }
}
