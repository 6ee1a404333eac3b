/** What one undisturbed invocation of the job service brings about, from any reachable state. */
module JobProgress {
  import opened Wrappers
  import opened JobTypes
  import opened AdmissionLedger
  import opened ConditionalStore
  import opened JobMachine
  import opened JobInvariant
  import opened JobSteps
  import opened JobDenial
  import opened JobSafety
  import opened U64

  // ---- Undisturbed runs ----

  const ENOUGH: nat := 20

  function Repeat(id: nat, e: Env, n: nat): seq<Action> {
    if n == 0 then [] else [Step(id, e)] + Repeat(id, e, n - 1)
  }

  /** One call, with no other invocation stepping until it is done. */
  function Undisturbed(id: nat, kind: Kind, e: Env): seq<Action> {
    [Call(id, kind)] + Repeat(id, e, ENOUGH)
  }

  /** The same, followed by the store and the invocation only. */
  function Solo(cfg: Config, id: nat, kind: Kind, started: nat, sh: Shared, pc: Pc, e: Env, n: nat): (Shared, Pc)
    decreases n
  {
    if n == 0 then (sh, pc)
    else
      var (sh', pc') := Next(cfg, id, Invocation(kind, started, pc), sh, e);
      Solo(cfg, id, kind, started, sh', pc', e, n - 1)
  }

  lemma {:induction false} RepeatIsSolo(cfg: Config, s: State, id: nat, e: Env, n: nat)
    requires id in s.invocations
    ensures Runs(cfg, s, Repeat(id, e, n))
    ensures var inv := s.invocations[id];
            var (sh, pc) := Solo(cfg, id, inv.kind, inv.started, s.shared, inv.pc, e, n);
            Outcome(cfg, s, Repeat(id, e, n)) == State(sh, s.invocations[id := inv.(pc := pc)])
    decreases n
  {
    hide Next;
    if n == 0 {
      assert s.invocations[id := s.invocations[id]] == s.invocations;
    } else {
      var inv := s.invocations[id];
      var s' := Apply(cfg, s, Step(id, e));
      RepeatIsSolo(cfg, s', id, e, n - 1);
      assert Repeat(id, e, n)[1..] == Repeat(id, e, n - 1);
      assert forall pc :: s'.invocations[id := inv.(pc := pc)] == s.invocations[id := inv.(pc := pc)];
    }
  }

  lemma UndisturbedIsSolo(cfg: Config, s: State, id: nat, kind: Kind, e: Env)
    requires id !in s.invocations && WellFormed(kind)
    ensures Runs(cfg, s, Undisturbed(id, kind, e))
    ensures var pc := if kind.Submit? then Start else PollEvidence;
            Outcome(cfg, s, Undisturbed(id, kind, e)).shared
              == Solo(cfg, id, kind, s.shared.time, s.shared, pc, e, ENOUGH).0
  {
    var actions := Undisturbed(id, kind, e);
    assert actions[1..] == Repeat(id, e, ENOUGH);
    hide Repeat, Solo, Next;
    RepeatIsSolo(cfg, Apply(cfg, s, actions[0]), id, e, ENOUGH);
  }

  lemma {:induction false} SoloDone(cfg: Config, id: nat, kind: Kind, started: nat, sh: Shared, e: Env, n: nat)
    ensures Solo(cfg, id, kind, started, sh, Done, e, n) == (sh, Done)
  {
    if n > 0 {
      SoloDone(cfg, id, kind, started, sh, e, n - 1);
    }
  }

  // ---- When a submission makes a new attempt ----

  /** What the worker or the retained evidence holds for a job. */
  function Candidate(sh: Shared, job: JobId, e: Env): Option<Terminal> {
    if e.terminal.Some? then e.terminal else if job in sh.completions then Some(sh.completions[job]) else None
  }

  predicate Finished(found: Option<Terminal>, job: JobId) {
    found.Some? && Parses(found.value, job) && found.value.done
  }

  predicate Failed(found: Option<Terminal>, job: JobId) {
    found.Some? && Parses(found.value, job) && !found.value.done
  }

  /** The service can read the record: its request is the work's, and no mark contradicts another. */
  predicate Readable(cur: WorkAttempt) {
    cur.stored.Live(cur.stored.createdAt) && !(cur.admissionDenied && (cur.launched || cur.completed))
  }

  /** A completion was found, and the verifier rejects it. */
  predicate Rejected(cur: WorkAttempt, found: Option<Terminal>, e: Env) {
    Finished(found, cur.stored.jobId) && cur.stored.request.Settlement? && e.verdict.Reject?
  }

  /** The newest attempt is over without a result: denied, expired or failed. */
  predicate Over(cur: WorkAttempt, found: Option<Terminal>, e: Env) {
    && !cur.completed && (!Finished(found, cur.stored.jobId) || Rejected(cur, found, e))
    && (cur.admissionDenied || e.now > cur.stored.expiresAt || Failed(found, cur.stored.jobId))
  }

  predicate NeedsAttempt(sh: Shared, w: WorkId, e: Env) {
    var h := sh.History(w);
    h == [] ||
    var cur := h[|h| - 1].value;
    Readable(cur) && Over(cur, Candidate(sh, cur.stored.jobId, e), e) && cur.generation < U64_MAX
  }

  /** The newest attempt was never launched and may be taken up again. */
  predicate Stalled(sh: Shared, w: WorkId, e: Env) {
    var h := sh.History(w);
    h != [] &&
    var cur := h[|h| - 1].value;
    && Readable(cur) && !cur.completed && !cur.admissionDenied && !cur.launched
    && Candidate(sh, cur.stored.jobId, e).None? && e.now <= cur.stored.expiresAt
    && cur.launchRetryAt <= e.now < cur.stored.createdAt + 120
  }

  function Generation(sh: Shared, w: WorkId): nat {
    var h := sh.History(w);
    if h == [] then 0 else h[|h| - 1].value.generation + 1
  }

  /** The attempt that a submission at `now` makes. */
  function NewAttempt(cfg: Config, sh: Shared, w: WorkId, now: nat): WorkAttempt {
    var generation := Generation(sh, w);
    WorkAttempt(generation,
                StoredRequest(JobId(w, generation), w.request, now, SatAdd(now, cfg.ttl)),
                SatAdd(now, 60), false, false, false)
  }

  /** A truthful store, an admitting precheck, and a clock that has started and does not run back. */
  predicate Calm(sh: Shared, e: Env) {
    0 < e.now < U64_MAX && sh.ledger.observedAt <= e.now && e.admitted && e.reply.Truthful?
  }

  // ---- Room, from the history of charges and the slots ----

  /** A slot still counts: its launch fence has not passed, or it was taken within the hour (without a
      worker limit) or is not proven free (with one). */
  predicate Counts(cfg: Config, slot: Reservation, now: nat, proven: set<JobId>) {
    var taken := if slot.startedAt.Some? then slot.startedAt.value else slot.launchUntil;
    now <= slot.launchUntil + 900 || (if cfg.maxActive == 0 then now <= taken + 3600 else slot.jobId !in proven)
  }

  function Counting(cfg: Config, slots: seq<Reservation>, now: nat, proven: set<JobId>): nat {
    if slots == [] then 0
    else
      Counting(cfg, slots[..|slots| - 1], now, proven)
      + if Counts(cfg, slots[|slots| - 1], now, proven) then 1 else 0
  }

  /** Fewer charges within the last hour, and fewer slots that count, than the policy allows. */
  predicate Room(cfg: Config, sh: Shared, now: nat, proven: set<JobId>) {
    var slots := Counting(cfg, sh.ledger.reservations, now, proven);
    && CountIn(sh.charges, SatSub(now, 3600), now) < cfg.maxStarts
    && (cfg.maxActive > 0 ==> slots < cfg.maxActive) && slots < 2048
  }

  predicate ValidPolicy(cfg: Config) {
    1 <= cfg.maxStarts <= 1024
  }

  lemma {:induction false} CountingIs(cfg: Config, slots: seq<Reservation>, now: nat, proven: set<JobId>)
    requires now <= U64_MAX
    ensures |Unreleased(cfg, slots, now, proven)| == Counting(cfg, slots, now, proven)
  {
    if slots != [] {
      CountingIs(cfg, slots[..|slots| - 1], now, proven);
      assert Released(cfg, slots[|slots| - 1], now, proven) <==> !Counts(cfg, slots[|slots| - 1], now, proven);
    }
  }

  lemma {:induction false} OldChargesCountNothing(charges: seq<nat>, from: nat, to: nat)
    requires forall i :: 0 <= i < |charges| ==> charges[i] < from
    ensures CountIn(charges, from, to) == 0
  {
    if charges != [] {
      OldChargesCountNothing(charges[..|charges| - 1], from, to);
    }
  }

  lemma {:induction false} YoungStartsCount(starts: seq<nat>, now: nat)
    requires forall i :: 0 <= i < |starts| ==> starts[i] <= now
    ensures |Recent(starts, now)| == CountIn(starts, SatSub(now, 3600), now)
  {
    if starts != [] {
      YoungStartsCount(starts[..|starts| - 1], now);
    }
  }

  lemma {:induction false} CountInAppends(x: seq<nat>, y: seq<nat>, from: nat, to: nat)
    ensures CountIn(x + y, from, to) == CountIn(x, from, to) + CountIn(y, from, to)
  {
    if y == [] {
      assert x + y == x;
    } else {
      CountInAppends(x, y[..|y| - 1], from, to);
      assert (x + y)[..|x + y| - 1] == x + y[..|y| - 1];
    }
  }

  /** The pruned list of starts counts what the whole history does. */
  lemma StartsCount(l: Ledger, charges: seq<nat>, now: nat)
    requires Remembers(l, charges) && l.observedAt <= now
    ensures |Recent(l.starts, now)| == CountIn(charges, SatSub(now, 3600), now)
    ensures forall i :: 0 <= i < |l.starts| ==> l.starts[i] <= now
  {
    hide Recent, CountIn;
    var cut := |charges| - |l.starts|;
    assert charges == charges[..cut] + l.starts;
    assert forall i :: 0 <= i < |l.starts| ==> l.starts[i] == charges[cut + i];
    CountInAppends(charges[..cut], l.starts, SatSub(now, 3600), now);
    OldChargesCountNothing(charges[..cut], SatSub(now, 3600), now);
    YoungStartsCount(l.starts, now);
  }

  /** What the ledger's one reading decides for a job without a slot. */
  lemma RoomDecides(cfg: Config, sh: Shared, now: nat, job: JobId, until: nat, proven: set<JobId>)
    requires ValidPolicy(cfg) && Accounted(cfg, sh.ledger, sh.charges)
    requires 0 < now <= U64_MAX && sh.ledger.observedAt <= now && SlotOf(sh.ledger.reservations, job).None?
    ensures var a := Admit(cfg, sh.ledger, now, job, until, proven);
            a.Proposed? && (a.denied <==> !Room(cfg, sh, now, proven))
  {
    hide Ascending, Spaced, Distinct, CountIn, Recent, SlotOf, Unreleased;
    StartsCount(sh.ledger, sh.charges, now);
    CountingIs(cfg, sh.ledger.reservations, now, proven);
  }

  // ---- From the call to the compare-and-swap of the record ----

  /** One step of an undisturbed run. */
  lemma SoloStep(cfg: Config, id: nat, kind: Kind, started: nat, sh: Shared, pc: Pc, e: Env, n: nat)
    requires n > 0
    ensures var (sh', pc') := Next(cfg, id, Invocation(kind, started, pc), sh, e);
            Solo(cfg, id, kind, started, sh, pc, e, n) == Solo(cfg, id, kind, started, sh', pc', e, n - 1)
  {
  }

  /** Where the first steps of a submission lead: to judging the newest attempt, or to a first one. */
  function Opened(cfg: Config, sh: Shared, w: WorkId, e: Env): Pc {
    var h := sh.History(w);
    if h == [] then Precheck(0, NewAttempt(cfg, sh, w, e.now))
    else
      var cur := h[|h| - 1].value;
      Judge(e.now, |h|, cur, Candidate(sh, cur.stored.jobId, e))
  }

  lemma Opens(cfg: Config, id: nat, w: WorkId, started: nat, sh: Shared, e: Env, n: nat) returns (k: nat)
    requires Calm(sh, e) && n >= 4
    requires Orderly(w, sh.History(w))
    requires sh.History(w) != [] ==> Readable(sh.History(w)[|sh.History(w)| - 1].value)
    ensures k <= 4 && Solo(cfg, id, Submit(w), started, sh, Start, e, n)
                   == Solo(cfg, id, Submit(w), started, sh, Opened(cfg, sh, w, e), e, n - k)
  {
    hide Solo, Judged, OwnStep, EvidenceStep, PollStep, VerifyStep;
    var kind := Submit(w);
    SoloStep(cfg, id, kind, started, sh, Start, e, n);
    SoloStep(cfg, id, kind, started, sh, ReadWork(e.now), e, n - 1);
    k := 2;
    var h := sh.History(w);
    if h != [] {
      var cur := h[|h| - 1].value;
      assert Belongs(w, cur);
      SoloStep(cfg, id, kind, started, sh, ReadEvidence(e.now, |h|, cur), e, n - 2);
      k := 3;
      if e.terminal.None? {
        SoloStep(cfg, id, kind, started, sh, ReadRetained(e.now, |h|, cur), e, n - 3);
        k := 4;
      }
    }
  }

  /** An attempt that is over gives way to a new one. */
  lemma OverGivesWay(cfg: Config, sh: Shared, w: WorkId, e: Env)
    requires Calm(sh, e) && NeedsAttempt(sh, w, e) && sh.History(w) != []
    ensures Judged(cfg, w, Opened(cfg, sh, w, e), e) == Precheck(|sh.History(w)|, NewAttempt(cfg, sh, w, e.now))
  {
  }

  lemma StalledIsResumed(cfg: Config, sh: Shared, w: WorkId, e: Env)
    requires Stalled(sh, w, e) && e.now < U64_MAX
    ensures var h := sh.History(w);
            Judged(cfg, w, Opened(cfg, sh, w, e), e)
              == Precheck(|h|, h[|h| - 1].value.(launchRetryAt := SatAdd(e.now, 60)))
  {
  }

  /** The precheck admits, and the record is written. */
  lemma Writes(cfg: Config, id: nat, w: WorkId, started: nat, sh: Shared, mine: WorkAttempt, e: Env, n: nat)
    requires Calm(sh, e) && n >= 2
    ensures var rev := |sh.History(w)|;
            Solo(cfg, id, Submit(w), started, sh, Precheck(rev, mine), e, n)
              == Solo(cfg, id, Submit(w), started, sh.Append(w, mine, id), Own(rev + 1, mine, CreateRequest), e, n - 2)
  {
    hide Solo, Judged, OwnStep, EvidenceStep, PollStep, VerifyStep;
    var rev := |sh.History(w)|;
    SoloStep(cfg, id, Submit(w), started, sh, Precheck(rev, mine), e, n);
    SoloStep(cfg, id, Submit(w), started, sh, WriteWork(rev, mine), e, n - 1);
  }

  // ---- From owning the record to the ledger ----

  /** The attempt `mine` is the newest version of the record, and its job is no other attempt's. */
  predicate Holder(sh: Shared, w: WorkId, rev: nat, mine: WorkAttempt) {
    var h := sh.History(w);
    && h != [] && |h| == rev && h[|h| - 1].value == mine && mine.stored.jobId.work == w
    && (mine.stored.jobId in sh.requests ==> sh.requests[mine.stored.jobId] == mine.stored)
  }

  function Requested(sh: Shared, stored: StoredRequest): Shared {
    sh.(requests := sh.requests[stored.jobId := stored])
  }

  lemma Asks(cfg: Config, id: nat, w: WorkId, started: nat, sh: Shared, rev: nat, mine: WorkAttempt, e: Env, n: nat)
    requires Calm(sh, e) && n >= 4 && Holder(sh, w, rev, mine) && e.now < mine.stored.LaunchUntil()
    ensures Solo(cfg, id, Submit(w), started, sh, Own(rev, mine, CreateRequest), e, n)
         == Solo(cfg, id, Submit(w), started, Requested(sh, mine.stored),
                 Own(rev, mine, Decide(sh.ledgerRevision, sh.ledger)), e, n - 4)
  {
    hide Solo, SubmitStep, EvidenceStep, PollStep, VerifyStep, Admit, CommitStep;
    var kind, sh' := Submit(w), Requested(sh, mine.stored);
    assert mine.stored.jobId in sh.requests ==> sh' == sh;
    assert sh'.History(w) == sh.History(w);
    SoloStep(cfg, id, kind, started, sh, Own(rev, mine, CreateRequest), e, n);
    SoloStep(cfg, id, kind, started, sh', Own(rev, mine, ReadOwned), e, n - 1);
    SoloStep(cfg, id, kind, started, sh', Own(rev, mine, CheckLease), e, n - 2);
    SoloStep(cfg, id, kind, started, sh', Own(rev, mine, ReadLedger), e, n - 3);
  }

  function Committed(sh: Shared, stored: StoredRequest, now: nat, proposal: Admission): Shared
    requires proposal.Proposed?
  {
    var sh' := sh.(ledger := proposal.ledger, ledgerRevision := sh.ledgerRevision + 1);
    if proposal.denied then sh'
    else
      sh'.(charges := sh.charges + [now], payers := sh.payers + [stored.jobId],
           reserved := sh.reserved[stored.jobId := stored.LaunchUntil()])
  }

  lemma Commits(cfg: Config, id: nat, w: WorkId, started: nat, sh: Shared, rev: nat, mine: WorkAttempt, e: Env,
                proposal: Admission, n: nat)
    requires Calm(sh, e) && n >= 2 && proposal.Proposed?
    requires Admit(cfg, sh.ledger, e.now, mine.stored.jobId, mine.stored.LaunchUntil(), e.proven) == proposal
    ensures Solo(cfg, id, Submit(w), started, sh, Own(rev, mine, Decide(sh.ledgerRevision, sh.ledger)), e, n)
         == Solo(cfg, id, Submit(w), started, Committed(sh, mine.stored, e.now, proposal),
                 Own(rev, mine, if proposal.denied then Deny else ReadFresh), e, n - 2)
  {
    hide Solo, SubmitStep, EvidenceStep, PollStep, VerifyStep, Admit;
    var kind := Submit(w);
    SoloStep(cfg, id, kind, started, sh, Own(rev, mine, Decide(sh.ledgerRevision, sh.ledger)), e, n);
    SoloStep(cfg, id, kind, started, sh,
             Own(rev, mine, Commit(sh.ledgerRevision, sh.ledger, e.now, e.proven)), e, n - 1);
  }

  lemma FindsSlot(cfg: Config, id: nat, w: WorkId, started: nat, sh: Shared, rev: nat, mine: WorkAttempt, e: Env,
                  n: nat)
    requires n >= 1
    requires Admit(cfg, sh.ledger, e.now, mine.stored.jobId, mine.stored.LaunchUntil(), e.proven) == AlreadyHeld
    ensures Solo(cfg, id, Submit(w), started, sh, Own(rev, mine, Decide(sh.ledgerRevision, sh.ledger)), e, n)
         == Solo(cfg, id, Submit(w), started, sh, Own(rev, mine, ReadFresh), e, n - 1)
  {
    hide Solo, SubmitStep, EvidenceStep, PollStep, VerifyStep, Admit;
    SoloStep(cfg, id, Submit(w), started, sh, Own(rev, mine, Decide(sh.ledgerRevision, sh.ledger)), e, n);
  }

  // ---- From the ledger to the launch ----

  function LaunchedBy(sh: Shared, w: WorkId, rev: nat, mine: WorkAttempt, id: nat): Shared {
    var job := mine.stored.jobId;
    sh.(cleared := sh.cleared + {(job, rev)}, launches := sh.launches + {job}).Append(w, mine.(launched := true), id)
  }

  lemma Launches(cfg: Config, id: nat, w: WorkId, started: nat, sh: Shared, rev: nat, mine: WorkAttempt, e: Env, n: nat)
    requires e.reply.Truthful? && n >= 4 && Holder(sh, w, rev, mine) && e.now < mine.stored.LaunchUntil()
    ensures Solo(cfg, id, Submit(w), started, sh, Own(rev, mine, ReadFresh), e, n)
         == (LaunchedBy(sh, w, rev, mine, id), Done)
  {
    hide Solo, SubmitStep, EvidenceStep, PollStep, VerifyStep, Admit, CommitStep;
    var kind, job := Submit(w), mine.stored.jobId;
    var sh1 := sh.(cleared := sh.cleared + {(job, rev)});
    var sh2 := sh1.(launches := sh.launches + {job});
    assert sh2.History(w) == sh.History(w);
    SoloStep(cfg, id, kind, started, sh, Own(rev, mine, ReadFresh), e, n);
    SoloStep(cfg, id, kind, started, sh1, Own(rev, mine, CheckFresh(true)), e, n - 1);
    SoloStep(cfg, id, kind, started, sh1, Own(rev, mine, Stage.Launch), e, n - 2);
    SoloStep(cfg, id, kind, started, sh2, Own(rev, mine, MarkLaunched), e, n - 3);
    SoloDone(cfg, id, kind, started, LaunchedBy(sh, w, rev, mine, id), e, n - 4);
  }

  lemma Denies(cfg: Config, id: nat, w: WorkId, started: nat, sh: Shared, rev: nat, mine: WorkAttempt, e: Env, n: nat)
    requires e.reply.Truthful? && n >= 1 && |sh.History(w)| == rev
    ensures Solo(cfg, id, Submit(w), started, sh, Own(rev, mine, Deny), e, n)
         == (sh.Append(w, mine.(admissionDenied := true), id), Done)
  {
    hide Solo, SubmitStep, EvidenceStep, PollStep, VerifyStep, Admit, CommitStep;
    SoloStep(cfg, id, Submit(w), started, sh, Own(rev, mine, Deny), e, n);
    SoloDone(cfg, id, Submit(w), started, sh.Append(w, mine.(admissionDenied := true), id), e, n - 1);
  }

  // ---- A submission that makes a new attempt ----

  lemma {:induction false} NoSuchAttempt(w: WorkId, h: seq<Version>, job: JobId, k: nat)
    requires Orderly(w, h) && k < |h| && job.generation > h[|h| - 1].value.generation
    ensures h[k].value.stored.jobId != job
  {
    if k < |h| - 1 {
      assert Before(h[k].value, h[|h| - 1].value);
    }
    assert Belongs(w, h[k].value);
  }

  /** The job of the next generation is known to no request, reservation, slot or launch. */
  lemma NewJobIsNew(cfg: Config, sh: Shared, w: WorkId)
    requires Consistent(cfg, sh)
    ensures var job := JobId(w, Generation(sh, w));
            && job !in sh.requests && job !in sh.reserved && job !in sh.launches
            && SlotOf(sh.ledger.reservations, job).None?
  {
    var job, h := JobId(w, Generation(sh, w)), sh.History(w);
    OrderlyHistory(cfg, sh, w);
    hide Orderly, SettlementsOk, SealsOk, VerifiedOk, Accounted, SlotOf;
    forall k | 0 <= k < |h| ensures h[k].value.stored.jobId != job {
      NoSuchAttempt(w, h, job, k);
    }
    assert !Deadline(sh, job, if job in sh.reserved then sh.reserved[job] else 0);
    assert job in sh.requests ==> !Attempted(sh, sh.requests[job]);
    SlotIsReserved(sh, job);
  }

  lemma SlotIsReserved(sh: Shared, job: JobId)
    requires ReservedOk(sh)
    ensures SlotOf(sh.ledger.reservations, job).Some? ==>
              job in sh.reserved && SlotOf(sh.ledger.reservations, job).value.launchUntil == sh.reserved[job]
  {
  }

  /** The record has two versions more, both of the new attempt; nothing else but its request object
      is written outside the ledger. */
  predicate Recorded(cfg: Config, sh: Shared, t: Shared, w: WorkId, id: nat, now: nat) {
    var h, h' := sh.History(w), t.History(w);
    var stored := StoredRequest(JobId(w, Generation(sh, w)), w.request, now, SatAdd(now, cfg.ttl));
    && |h'| == |h| + 2 && h <= h' && h'[|h|].author == id && h'[|h| + 1].author == id
    && h'[|h|].value.stored == stored && h'[|h| + 1].value.stored == stored
    && h'[|h| + 1].value.generation == Generation(sh, w) && !h'[|h| + 1].value.completed
    && t.works == sh.works[w := h'] && t.requests == sh.requests[stored.jobId := stored]
    && t.completions == sh.completions && t.completionRequests == sh.completionRequests
    && t.settlements == sh.settlements && t.verified == sh.verified && t.time == sh.time
  }

  /** The new attempt was reserved, charged once and launched. */
  predicate NewlyLaunched(cfg: Config, sh: Shared, t: Shared, w: WorkId, id: nat, now: nat) {
    var job, h' := JobId(w, Generation(sh, w)), t.History(w);
    && Recorded(cfg, sh, t, w, id, now)
    && h'[|h'| - 1].value.launched && !h'[|h'| - 1].value.admissionDenied
    && job !in sh.launches && t.launches == sh.launches + {job}
    && job !in sh.reserved && t.reserved == sh.reserved[job := SatAdd(now, 120)]
    && t.charges == sh.charges + [now] && t.payers == sh.payers + [job]
    && SlotOf(t.ledger.reservations, job) == Some(Reservation(job, SatAdd(now, 120), Some(now)))
  }

  /** The new attempt was denied; nothing was reserved, charged or launched. */
  predicate NewlyDenied(cfg: Config, sh: Shared, t: Shared, w: WorkId, id: nat, now: nat) {
    var h' := t.History(w);
    && Recorded(cfg, sh, t, w, id, now)
    && h'[|h'| - 1].value.admissionDenied && !h'[|h'| - 1].value.launched
    && t.launches == sh.launches && t.reserved == sh.reserved && t.charges == sh.charges && t.payers == sh.payers
  }

  /** From the call to the moment at which the record is written. */
  lemma StartsNew(cfg: Config, id: nat, w: WorkId, started: nat, sh: Shared, e: Env) returns (n: nat)
    requires Calm(sh, e) && Orderly(w, sh.History(w)) && NeedsAttempt(sh, w, e)
    ensures var mine := NewAttempt(cfg, sh, w, e.now);
            && n >= 12
            && Solo(cfg, id, Submit(w), started, sh, Start, e, ENOUGH)
                 == Solo(cfg, id, Submit(w), started, sh.Append(w, mine, id),
                         Own(|sh.History(w)| + 1, mine, CreateRequest), e, n)
  {
    NewestIsReadable(sh, w, e);
    hide *;
    var k := Opens(cfg, id, w, started, sh, e, ENOUGH);
    n := ENOUGH - k;
    if sh.History(w) == [] {
      OpensFirst(cfg, sh, w, e);
    } else {
      JudgesNext(cfg, id, w, started, sh, e, n);
      OverGivesWay(cfg, sh, w, e);
      n := n - 1;
    }
    Writes(cfg, id, w, started, sh, NewAttempt(cfg, sh, w, e.now), e, n);
    n := n - 2;
  }

  lemma OpensFirst(cfg: Config, sh: Shared, w: WorkId, e: Env)
    requires sh.History(w) == []
    ensures Opened(cfg, sh, w, e) == Precheck(|sh.History(w)|, NewAttempt(cfg, sh, w, e.now))
  {
  }

  lemma NewestIsReadable(sh: Shared, w: WorkId, e: Env)
    requires NeedsAttempt(sh, w, e)
    ensures sh.History(w) != [] ==> Readable(sh.History(w)[|sh.History(w)| - 1].value)
  {
  }

  lemma JudgesNext(cfg: Config, id: nat, w: WorkId, started: nat, sh: Shared, e: Env, n: nat)
    requires n > 0 && sh.History(w) != []
    ensures Opened(cfg, sh, w, e).Judge?
    ensures Solo(cfg, id, Submit(w), started, sh, Opened(cfg, sh, w, e), e, n)
         == Solo(cfg, id, Submit(w), started, sh, Judged(cfg, w, Opened(cfg, sh, w, e), e), e, n - 1)
  {
    hide Solo, Judged, OwnStep, EvidenceStep, PollStep, VerifyStep;
    SoloStep(cfg, id, Submit(w), started, sh, Opened(cfg, sh, w, e), e, n);
  }

  lemma NewIsHeld(cfg: Config, sh: Shared, w: WorkId, id: nat, now: nat)
    requires Consistent(cfg, sh) && now < U64_MAX
    ensures var mine := NewAttempt(cfg, sh, w, now);
            && Holder(sh.Append(w, mine, id), w, |sh.History(w)| + 1, mine)
            && mine.stored.jobId == JobId(w, Generation(sh, w)) && now < mine.stored.LaunchUntil()
  {
    NewJobIsNew(cfg, sh, w);
  }

  /** Where an owner's run ends, by what the ledger decides. */
  function Ended(sh: Shared, w: WorkId, rev: nat, mine: WorkAttempt, id: nat, now: nat, proposal: Admission): Shared
    requires proposal.Proposed?
  {
    var sh' := Committed(Requested(sh, mine.stored), mine.stored, now, proposal);
    if proposal.denied then sh'.Append(w, mine.(admissionDenied := true), id)
    else LaunchedBy(sh', w, rev, mine, id)
  }

  lemma OwnerEnds(cfg: Config, id: nat, w: WorkId, started: nat, sh: Shared, rev: nat, mine: WorkAttempt, e: Env,
                  proposal: Admission, n: nat)
    requires Calm(sh, e) && n >= 10 && Holder(sh, w, rev, mine) && e.now < mine.stored.LaunchUntil()
    requires proposal.Proposed?
    requires Admit(cfg, sh.ledger, e.now, mine.stored.jobId, mine.stored.LaunchUntil(), e.proven) == proposal
    ensures Solo(cfg, id, Submit(w), started, sh, Own(rev, mine, CreateRequest), e, n)
         == (Ended(sh, w, rev, mine, id, e.now, proposal), Done)
  {
    hide Solo, Admit, LaunchedBy;
    var sh2 := Requested(sh, mine.stored);
    var sh3 := Committed(sh2, mine.stored, e.now, proposal);
    Asks(cfg, id, w, started, sh, rev, mine, e, n);
    Commits(cfg, id, w, started, sh2, rev, mine, e, proposal, n - 4);
    assert sh3.History(w) == sh.History(w);
    if proposal.denied {
      Denies(cfg, id, w, started, sh3, rev, mine, e, n - 6);
    } else {
      Launches(cfg, id, w, started, sh3, rev, mine, e, n - 6);
    }
  }

  /** The states that follow a new attempt. */
  lemma NewEnds(cfg: Config, id: nat, w: WorkId, started: nat, sh: Shared, e: Env, n: nat)
    requires ValidPolicy(cfg) && Consistent(cfg, sh) && Calm(sh, e) && n >= 10
    ensures var mine := NewAttempt(cfg, sh, w, e.now);
            var t := Solo(cfg, id, Submit(w), started, sh.Append(w, mine, id),
                          Own(|sh.History(w)| + 1, mine, CreateRequest), e, n).0;
            if Room(cfg, sh, e.now, e.proven) then NewlyLaunched(cfg, sh, t, w, id, e.now)
            else NewlyDenied(cfg, sh, t, w, id, e.now)
  {
    var mine, rev := NewAttempt(cfg, sh, w, e.now), |sh.History(w)| + 1;
    NewJobIsNew(cfg, sh, w);
    NewIsHeld(cfg, sh, w, id, e.now);
    hide Consistent, Solo, Room, Admit, SlotOf, NewlyLaunched, NewlyDenied, NewAttempt, Ended, Holder;
    var job, until := mine.stored.jobId, mine.stored.LaunchUntil();
    ConsistentIsAccounted(cfg, sh);
    RoomDecides(cfg, sh, e.now, job, until, e.proven);
    AdmitsSlot(cfg, sh.ledger, e.now, job, until, e.proven);
    var proposal := Admit(cfg, sh.ledger, e.now, job, until, e.proven);
    OwnerEnds(cfg, id, w, started, sh.Append(w, mine, id), rev, mine, e, proposal, n);
    if proposal.denied {
      DeniedIsNew(cfg, sh, w, id, e.now, proposal);
    } else {
      LaunchedIsNew(cfg, sh, w, id, e.now, proposal);
    }
  }

  lemma ConsistentIsAccounted(cfg: Config, sh: Shared)
    requires Consistent(cfg, sh)
    ensures Accounted(cfg, sh.ledger, sh.charges)
  {
  }

  lemma LaunchedIsNew(cfg: Config, sh: Shared, w: WorkId, id: nat, now: nat, proposal: Admission)
    requires proposal.Proposed? && !proposal.denied
    requires var mine := NewAttempt(cfg, sh, w, now);
             var job := mine.stored.jobId;
             && job !in sh.launches && job !in sh.reserved
             && SlotOf(proposal.ledger.reservations, job)
                  == Some(Reservation(job, mine.stored.LaunchUntil(), Some(now)))
    ensures var mine := NewAttempt(cfg, sh, w, now);
            NewlyLaunched(cfg, sh, Ended(sh.Append(w, mine, id), w, |sh.History(w)| + 1, mine, id, now, proposal),
                          w, id, now)
  {
    hide SlotOf;
    var h, mine := sh.History(w), NewAttempt(cfg, sh, w, now);
    TwoVersions(sh, w, mine, mine.(launched := true), id);
  }

  lemma TwoVersions(sh: Shared, w: WorkId, a: WorkAttempt, b: WorkAttempt, id: nat)
    ensures var h := sh.History(w);
            sh.works[w := h + [Version(a, id)]][w := (h + [Version(a, id)]) + [Version(b, id)]]
              == sh.works[w := h + [Version(a, id), Version(b, id)]]
  {
    var h := sh.History(w);
    assert (h + [Version(a, id)]) + [Version(b, id)] == h + [Version(a, id), Version(b, id)];
  }

  lemma AdmitsSlot(cfg: Config, l: Ledger, now: nat, job: JobId, until: nat, proven: set<JobId>)
    requires SlotOf(l.reservations, job).None?
    ensures var a := Admit(cfg, l, now, job, until, proven);
            a.Proposed? && !a.denied ==> SlotOf(a.ledger.reservations, job) == Some(Reservation(job, until, Some(now)))
  {
    UnreleasedSlots(cfg, l.reservations, now, proven);
    var kept := Unreleased(cfg, l.reservations, now, proven);
    forall i | 0 <= i < |kept| ensures kept[i].jobId != job {
      assert kept[i] in l.reservations;
    }
    LastSlot(kept, Reservation(job, until, Some(now)));
  }

  lemma LastSlot(slots: seq<Reservation>, last: Reservation)
    requires forall i :: 0 <= i < |slots| ==> slots[i].jobId != last.jobId
    ensures SlotOf(slots + [last], last.jobId) == Some(last)
  {
    var all := slots + [last];
    assert all[|slots|] == last;
    var found := SlotOf(all, last.jobId);
    assert found.Some?;
    var k :| 0 <= k < |all| && all[k] == found.value;
  }

  lemma DeniedIsNew(cfg: Config, sh: Shared, w: WorkId, id: nat, now: nat, proposal: Admission)
    requires proposal.Proposed? && proposal.denied
    ensures var mine := NewAttempt(cfg, sh, w, now);
            NewlyDenied(cfg, sh, Ended(sh.Append(w, mine, id), w, |sh.History(w)| + 1, mine, id, now, proposal),
                        w, id, now)
  {
    var h, mine := sh.History(w), NewAttempt(cfg, sh, w, now);
    TwoVersions(sh, w, mine, mine.(admissionDenied := true), id);
  }

  /** An undisturbed submission whose work has no attempt that is still going. From any reachable state:
      with room it makes a new attempt, reserves and charges it once and launches it; without room it
      marks the new attempt as denied and launches nothing. */
  lemma SubmitLaunches(cfg: Config, past: seq<Action>, id: nat, w: WorkId, e: Env)
    requires ValidPolicy(cfg) && Runs(cfg, INITIAL, past) && WellFormed(Submit(w))
    requires var s := Outcome(cfg, INITIAL, past);
             id !in s.invocations && Calm(s.shared, e) && NeedsAttempt(s.shared, w, e)
    ensures var s := Outcome(cfg, INITIAL, past);
            && Runs(cfg, s, Undisturbed(id, Submit(w), e))
            && var t := Outcome(cfg, s, Undisturbed(id, Submit(w), e)).shared;
               if Room(cfg, s.shared, e.now, e.proven) then NewlyLaunched(cfg, s.shared, t, w, id, e.now)
               else NewlyDenied(cfg, s.shared, t, w, id, e.now)
  {
    hide Consistent, Solo, NeedsAttempt, NewlyLaunched, NewlyDenied, Room, Undisturbed, Orderly;
    ReachableIsSafe(cfg, past);
    var s := Outcome(cfg, INITIAL, past);
    SafeIsConsistent(cfg, s);
    ConsistentRecords(cfg, s.shared);
    OrderlyHistory(cfg, s.shared, w);
    UndisturbedIsSolo(cfg, s, id, Submit(w), e);
    var n := StartsNew(cfg, id, w, s.shared.time, s.shared, e);
    NewEnds(cfg, id, w, s.shared.time, s.shared, e, n);
  }

  lemma SafeIsConsistent(cfg: Config, s: State)
    requires Safe(cfg, s)
    ensures Consistent(cfg, s.shared)
  {
  }
}
