/** The clock fence: when invocations read one shared monotone clock and live at most 900
    seconds, an attempt recorded as denied admission is never launched. */
module JobDenial {
  import opened Wrappers
  import opened Sorting
  import opened JobTypes
  import opened AdmissionLedger
  import opened ConditionalStore
  import opened JobMachine
  import opened JobInvariant
  import opened JobSteps
  import opened U64

  const LIFETIME: nat := 900

  /** Steps read the shared clock, and only within the invocation's lifetime. */
  predicate Timely(s: State, a: Action)
    requires Enabled(s, a)
  {
    match a
    case Step(id, e) => e.now == s.shared.time && s.shared.time <= s.invocations[id].started + LIFETIME
    case Wait(until) => until <= U64_MAX
    case _ => true
  }

  predicate TimelyRuns(cfg: Config, s: State, actions: seq<Action>)
    decreases |actions|
  {
    actions == [] ||
    (Enabled(s, actions[0]) && Timely(s, actions[0]) && TimelyRuns(cfg, Apply(cfg, s, actions[0]), actions[1..]))
  }

  // ---- Shared invariant ----

  predicate Held(sh: Shared, job: JobId) {
    SlotOf(sh.ledger.reservations, job).Some?
  }

  /** A reserved job keeps its slot until 900 seconds after its launch deadline. */
  predicate Fenced(sh: Shared) {
    forall job :: job in sh.reserved ==> Held(sh, job) || sh.time > sh.reserved[job] + LIFETIME
  }

  predicate ClearedOk(sh: Shared) {
    && (forall p :: p in sh.cleared ==> p.0 in sh.reserved)
    && (forall job :: job in sh.launches ==> exists p :: p in sh.cleared && p.0 == job)
  }

  predicate DeniedIn(h: seq<Version>, job: JobId) {
    exists k :: 0 <= k < |h| && h[k].value.admissionDenied && h[k].value.stored.jobId == job
  }

  predicate NeverCleared(sh: Shared) {
    forall p :: p in sh.cleared ==> !DeniedIn(sh.History(p.0.work), p.0)
  }

  ghost predicate Guarded(sh: Shared) {
    sh.time <= U64_MAX && Fenced(sh) && ClearedOk(sh) && NeverCleared(sh) && NoRepeats(sh.payers)
  }

  // ---- One invocation ----

  predicate Overtaken(sh: Shared, w: WorkId, job: JobId, rev: nat) {
    forall p :: p in sh.cleared && p.0 == job ==> |sh.History(w)| > rev
  }

  predicate TimedStage(sh: Shared, w: WorkId, rev: nat, mine: WorkAttempt, stage: Stage) {
    var job := mine.stored.jobId;
    match stage
    case Commit(_, _, now, _) => now <= sh.time
    case Deny => Overtaken(sh, w, job, rev)
    case CheckFresh(same) => same ==> (job, rev) in sh.cleared
    case Launch => (job, rev) in sh.cleared
    case _ => true
  }

  predicate TimedPc(sh: Shared, inv: Invocation) {
    inv.started <= sh.time &&
    match inv.pc
    case ReadWork(now) => inv.started <= now <= U64_MAX
    case ReadEvidence(now, _, _) => inv.started <= now <= U64_MAX
    case ReadRetained(now, _, _) => inv.started <= now <= U64_MAX
    case Judge(now, _, _, _) => inv.started <= now <= U64_MAX
    case Precheck(_, mine) => inv.started <= mine.stored.LaunchUntil()
    case WriteWork(_, mine) => inv.started <= mine.stored.LaunchUntil()
    case Own(rev, mine, stage) =>
      inv.started <= mine.stored.LaunchUntil() && inv.kind.Submit? && TimedStage(sh, inv.kind.work, rev, mine, stage)
    case _ => true
  }

  // ---- What a step promises ----

  /** Only the author of a record's newest version clears it for launch. */
  predicate Clears(actor: nat, sh: Shared, sh': Shared) {
    && sh.cleared <= sh'.cleared
    && (forall p :: p in sh'.cleared && p !in sh.cleared ==>
          var h := sh.History(p.0.work);
          h != [] && |h| == p.1 && h[|h| - 1].author == actor)
  }

  ghost predicate TimedGrows(actor: nat, sh: Shared, sh': Shared) {
    && GrowsRecords(sh, sh')
    && sh.time <= sh'.time
    && sh.reserved.Keys <= sh'.reserved.Keys
    && Clears(actor, sh, sh')
  }

  lemma TimedIsStable(cfg: Config, actor: nat, sh: Shared, sh': Shared, i: nat, inv: Invocation)
    requires actor != i && TimedGrows(actor, sh, sh')
    requires SoundPc(cfg, sh, i, inv.kind, inv.pc) && TimedPc(sh, inv)
    requires RecordsOk(sh)
    ensures TimedPc(sh', inv)
  {
    if inv.pc.Own? && inv.pc.stage.Deny? {
      var w, rev, job := inv.kind.work, inv.pc.revision, inv.pc.mine.stored.jobId;
      OrderlyHistory(cfg, sh, w);
      assert GrowsRecord(sh.History(w), sh'.History(w));
      forall p | p in sh'.cleared && p.0 == job ensures |sh'.History(w)| > rev {
        assert p !in sh.cleared ==> p.1 != rev;
      }
    }
  }

  lemma DenialSticks(w: WorkId, h: seq<Version>, job: JobId)
    requires Orderly(w, h) && h != [] && h[|h| - 1].value.stored.jobId == job && DeniedIn(h, job)
    ensures h[|h| - 1].value.admissionDenied
  {
    var k :| 0 <= k < |h| && h[k].value.admissionDenied && h[k].value.stored.jobId == job;
    if k < |h| - 1 {
      assert Before(h[k].value, h[|h| - 1].value);
    }
  }

  /** Everything but the records and the clock is as before. */
  lemma RecordStep(cfg: Config, sh: Shared, sh': Shared)
    requires Guarded(sh) && GrowsRecords(sh, sh') && sh.time <= sh'.time <= U64_MAX
    requires sh'.ledger == sh.ledger && sh'.reserved == sh.reserved
    requires sh'.cleared == sh.cleared && sh'.launches == sh.launches && sh'.payers == sh.payers
    requires NeverCleared(sh')
    ensures Guarded(sh')
  {
    assert forall job :: job in sh'.reserved ==> Held(sh', job) == Held(sh, job);
  }

  lemma AppendDenies(sh: Shared, w: WorkId, v: WorkAttempt, i: nat, job: JobId)
    ensures DeniedIn(sh.Append(w, v, i).History(job.work), job) ==>
              DeniedIn(sh.History(job.work), job) || (v.admissionDenied && v.stored.jobId == job)
  {
    var h, h' := sh.History(job.work), sh.Append(w, v, i).History(job.work);
    if DeniedIn(h', job) {
      var k :| 0 <= k < |h'| && h'[k].value.admissionDenied && h'[k].value.stored.jobId == job;
      if k < |h| {
        assert h'[k] == h[k];
      }
    }
  }

  /** A version that is denied only if its job already was, or was never cleared. */
  lemma AppendGuarded(cfg: Config, sh: Shared, w: WorkId, v: WorkAttempt, i: nat)
    requires Guarded(sh) && GrowsRecords(sh, sh.Append(w, v, i))
    requires Belongs(w, v)
    requires v.admissionDenied ==>
               DeniedIn(sh.History(w), v.stored.jobId) || forall p :: p in sh.cleared ==> p.0 != v.stored.jobId
    ensures Guarded(sh.Append(w, v, i)) && TimedGrows(i, sh, sh.Append(w, v, i))
  {
    var sh' := sh.Append(w, v, i);
    forall p | p in sh'.cleared ensures !DeniedIn(sh'.History(p.0.work), p.0) {
      AppendDenies(sh, w, v, i, p.0);
    }
    RecordStep(cfg, sh, sh');
  }

  // ---- Steps ----

  ghost predicate TimedKept(i: nat, inv: Invocation, sh: Shared, after: (Shared, Pc)) {
    Guarded(after.0) && TimedGrows(i, sh, after.0) && TimedPc(after.0, inv.(pc := after.1))
  }

  /** What a step may assume: everything so far, and a live, punctual invocation. */
  ghost predicate Punctual(cfg: Config, i: nat, inv: Invocation, sh: Shared, e: Env) {
    && Consistent(cfg, sh) && SoundPc(cfg, sh, i, inv.kind, inv.pc)
    && Guarded(sh) && TimedPc(sh, inv)
    && e.now == sh.time <= inv.started + LIFETIME
  }

  lemma SubmitNext(cfg: Config, w: WorkId, i: nat, inv: Invocation, sh: Shared, e: Env)
    requires TimedPc(sh, inv) && e.now == sh.time <= U64_MAX
    requires Submitting(inv.pc) && !inv.pc.WriteWork?
    ensures var (sh', pc') := SubmitStep(cfg, w, i, sh, inv.pc, e);
            sh' == sh && TimedPc(sh, inv.(pc := pc'))
  {
    hide VerifyCompletion, Parses, TimedStage;
  }

  lemma SubmitTimed(cfg: Config, w: WorkId, i: nat, inv: Invocation, sh: Shared, e: Env)
    requires Punctual(cfg, i, inv, sh, e) && inv.kind == Submit(w)
    requires Submitting(inv.pc)
    ensures TimedKept(i, inv, sh, SubmitStep(cfg, w, i, sh, inv.pc, e))
  {
    if inv.pc.WriteWork? && Applies(|sh.History(w)|, inv.pc.revision, e.reply) {
      SubmitKeeps(cfg, w, i, sh, inv.pc, e);
      AppendGuarded(cfg, sh, w, inv.pc.mine, i);
    } else {
      AsideKeeps(cfg, i, sh, sh);
      if !inv.pc.WriteWork? {
        SubmitNext(cfg, w, i, inv, sh, e);
      }
    }
  }

  /** The step touched nothing that the fence is about. */
  predicate Aside(sh: Shared, sh': Shared) {
    && sh'.works == sh.works && sh'.time == sh.time && sh'.ledger == sh.ledger
    && sh'.reserved == sh.reserved && sh'.cleared == sh.cleared && sh'.launches == sh.launches
    && sh'.payers == sh.payers
  }

  lemma AsideKeeps(cfg: Config, i: nat, sh: Shared, sh': Shared)
    requires Guarded(sh) && Aside(sh, sh')
    ensures Guarded(sh') && TimedGrows(i, sh, sh')
  {
    assert forall w :: sh'.History(w) == sh.History(w);
    RecordStep(cfg, sh, sh');
  }

  lemma VerifyTimed(cfg: Config, i: nat, inv: Invocation, stored: StoredRequest, bytes: Terminal, after: After,
                    sh: Shared, e: Env)
    requires Guarded(sh) && TimedPc(sh, inv)
    ensures TimedKept(i, inv, sh, VerifyStep(cfg, stored, bytes, after, sh, e))
  {
    hide Guarded, TimedGrows, VerifyCompletion, TimedStage;
    AsideKeeps(cfg, i, sh, VerifyStep(cfg, stored, bytes, after, sh, e).0);
  }

  /** Retaining and publishing evidence, apart from the writes that seal. */
  predicate Evidencing(pc: Pc) {
    pc.RetainBytes? || pc.RetainRequest? || pc.PublishCheck? || pc.PublishRead? || pc.PublishCreate?
  }

  lemma EvidenceAside(cfg: Config, i: nat, sh: Shared, pc: Pc, e: Env)
    requires Evidencing(pc)
    ensures var (sh', pc') := EvidenceStep(cfg, i, sh, pc, e);
            Aside(sh, sh') && (Evidencing(pc') || pc'.SealWork? || pc'.PublishSeal? || pc'.Done?)
  {
  }

  lemma EvidenceTimed(cfg: Config, i: nat, inv: Invocation, sh: Shared, e: Env)
    requires Guarded(sh) && TimedPc(sh, inv)
    requires Evidencing(inv.pc)
    ensures TimedKept(i, inv, sh, EvidenceStep(cfg, i, sh, inv.pc, e))
  {
    var after := EvidenceStep(cfg, i, sh, inv.pc, e);
    EvidenceAside(cfg, i, sh, inv.pc, e);
    AsideKeeps(cfg, i, sh, after.0);
  }

  lemma SealTimedPc(cfg: Config, i: nat, inv: Invocation, sh: Shared, e: Env)
    requires TimedPc(sh, inv) && (inv.pc.SealWork? || inv.pc.PublishSeal?)
    ensures var (sh', pc') := EvidenceStep(cfg, i, sh, inv.pc, e); TimedPc(sh', inv.(pc := pc'))
  {
  }

  lemma NothingTimed(i: nat, sh: Shared)
    ensures TimedGrows(i, sh, sh)
  {
  }

  /** A sealed version is marked as denied only if the version it follows was. */
  lemma SealedWasDenied(cfg: Config, i: nat, kind: Kind, sh: Shared, pc: Pc)
    requires (pc.SealWork? || pc.PublishSeal?) && SoundPc(cfg, sh, i, kind, pc)
    requires |sh.History(SealedRecord(pc))| == pc.revision
    ensures pc.current.admissionDenied ==> DeniedIn(sh.History(SealedRecord(pc)), pc.current.stored.jobId)
  {
    var h := sh.History(SealedRecord(pc));
    assert h[pc.revision - 1].value == pc.current;
  }

  lemma SealTimed(cfg: Config, i: nat, inv: Invocation, sh: Shared, e: Env)
    requires Punctual(cfg, i, inv, sh, e) && (inv.pc.SealWork? || inv.pc.PublishSeal?)
    ensures TimedKept(i, inv, sh, EvidenceStep(cfg, i, sh, inv.pc, e))
  {
    hide Guarded, Consistent, SoundPc, EvidenceStep, Orderly, DeniedIn;
    var pc := inv.pc;
    var w := SealedRecord(pc);
    SealTimedPc(cfg, i, inv, sh, e);
    NothingTimed(i, sh);
    ConsistentRecords(cfg, sh);
    OrderlyHistory(cfg, sh, w);
    SealWrites(cfg, i, inv.kind, sh, pc, e);
    if Applies(|sh.History(w)|, pc.revision, e.reply) {
      SealKeeps(cfg, i, inv.kind, sh, pc, e);
      SealedWasDenied(cfg, i, inv.kind, sh, pc);
      AppendGuarded(cfg, sh, w, pc.current.(completed := true), i);
    }
  }

  /** A denial that takes effect marks a job that was never cleared: a job is cleared only at the
      newest revision of its record, and later versions overtake the denial. */
  lemma DeniesUncleared(w: WorkId, inv: Invocation, sh: Shared)
    requires TimedPc(sh, inv) && inv.kind == Submit(w) && inv.pc.Own? && inv.pc.stage.Deny?
    requires |sh.History(w)| == inv.pc.revision
    ensures forall p :: p in sh.cleared ==> p.0 != inv.pc.mine.stored.jobId
  {
  }

  lemma MarkBelongs(cfg: Config, w: WorkId, i: nat, sh: Shared, pc: Pc)
    requires pc.Own? && (pc.stage.Deny? || pc.stage.MarkLaunched?)
    requires SoundPc(cfg, sh, i, Submit(w), pc) && Orderly(w, sh.History(w))
    ensures Belongs(w, Marked(pc)) && !pc.mine.admissionDenied
  {
  }

  lemma MarkTimed(cfg: Config, w: WorkId, i: nat, inv: Invocation, sh: Shared, e: Env)
    requires Punctual(cfg, i, inv, sh, e) && inv.kind == Submit(w)
    requires inv.pc.Own? && (inv.pc.stage.Deny? || inv.pc.stage.MarkLaunched?)
    ensures TimedKept(i, inv, sh, OwnStep(cfg, i, w, sh, inv.pc, e))
  {
    hide Guarded, Consistent, Grows, SoundPc, OwnStep, TimedStage, TimedGrows, Orderly, Belongs, DeniedIn;
    MarkWrites(cfg, w, i, sh, inv.pc, e);
    ConsistentRecords(cfg, sh);
    OrderlyHistory(cfg, sh, w);
    MarkBelongs(cfg, w, i, sh, inv.pc);
    if Applies(|sh.History(w)|, inv.pc.revision, e.reply) {
      MarkKeeps(cfg, w, i, sh, inv.pc, e);
      if inv.pc.stage.Deny? {
        DeniesUncleared(w, inv, sh);
      }
      GrowsIsRecords(sh, sh.Append(w, Marked(inv.pc), i));
      AppendGuarded(cfg, sh, w, Marked(inv.pc), i);
    } else {
      AsideKeeps(cfg, i, sh, sh);
    }
  }

  lemma GrowsIsRecords(sh: Shared, sh': Shared)
    requires Grows(sh, sh')
    ensures GrowsRecords(sh, sh')
  {
  }

  /** An owner whose record is still its own was never denied. */
  lemma OwnerIsNotDenied(w: WorkId, h: seq<Version>, rev: nat, mine: WorkAttempt)
    requires Orderly(w, h) && 1 <= rev <= |h| && h[rev - 1].value == mine == h[|h| - 1].value
    ensures mine.stored.jobId.work == w
    requires !mine.admissionDenied
    ensures rev == |h| && !DeniedIn(h, mine.stored.jobId)
  {
    ContentsIdentifyRevision(w, h, rev);
    if DeniedIn(h, mine.stored.jobId) {
      DenialSticks(w, h, mine.stored.jobId);
    }
  }

  /** Clearing happens only on a reserved job whose record is still the clearer's own, so no
      earlier version denied the job. */
  lemma ReadFreshTimed(cfg: Config, w: WorkId, i: nat, inv: Invocation, sh: Shared, e: Env)
    requires Guarded(sh) && TimedPc(sh, inv) && inv.kind == Submit(w)
    requires inv.pc.Own? && inv.pc.stage.ReadFresh?
    requires Orderly(w, sh.History(w)) && Owns(sh, i, w, inv.pc.revision, inv.pc.mine)
    requires inv.pc.mine.stored.jobId in sh.reserved
    ensures TimedKept(i, inv, sh, OwnStep(cfg, i, w, sh, inv.pc, e))
  {
    hide Guarded, TimedGrows, Orderly, Admit, CommitStep, DeniedIn, Held, Deadline;
    var mine := inv.pc.mine;
    if Current(sh, w) == Some(mine) {
      OwnerIsNotDenied(w, sh.History(w), inv.pc.revision, mine);
      var p := (mine.stored.jobId, inv.pc.revision);
      ClearKeeps(cfg, i, sh, sh.(cleared := sh.cleared + {p}), p);
    } else {
      AsideKeeps(cfg, i, sh, sh);
    }
  }

  lemma HistoryKeeps(i: nat, sh: Shared, sh': Shared)
    requires Guarded(sh) && sh' == sh.(cleared := sh'.cleared, launches := sh'.launches)
    requires ClearedOk(sh') && NeverCleared(sh') && Clears(i, sh, sh')
    ensures Guarded(sh') && TimedGrows(i, sh, sh')
  {
    assert forall x :: sh'.History(x) == sh.History(x);
  }

  lemma ClearKeeps(cfg: Config, i: nat, sh: Shared, sh': Shared, p: (JobId, nat))
    requires Guarded(sh) && sh' == sh.(cleared := sh.cleared + {p})
    requires p.0 in sh.reserved && !DeniedIn(sh.History(p.0.work), p.0)
    requires var h := sh.History(p.0.work); h != [] && |h| == p.1 && h[|h| - 1].author == i
    ensures Guarded(sh') && TimedGrows(i, sh, sh')
  {
    hide DeniedIn, Deadline, Held;
    forall q | q in sh'.cleared ensures !DeniedIn(sh'.History(q.0.work), q.0) {
      assert sh'.History(q.0.work) == sh.History(q.0.work);
    }
    forall job | job in sh'.launches ensures exists q :: q in sh'.cleared && q.0 == job {
      var q :| q in sh.cleared && q.0 == job;
      assert q in sh'.cleared;
    }
    HistoryKeeps(i, sh, sh');
  }

  lemma LaunchKeeps(cfg: Config, i: nat, sh: Shared, sh': Shared, p: (JobId, nat))
    requires Guarded(sh) && p in sh.cleared && sh' == sh.(launches := sh.launches + {p.0})
    ensures Guarded(sh') && TimedGrows(i, sh, sh')
  {
    forall q | q in sh'.cleared ensures !DeniedIn(sh'.History(q.0.work), q.0) {
      assert sh'.History(q.0.work) == sh.History(q.0.work);
    }
    forall job | job in sh'.launches ensures exists q :: q in sh'.cleared && q.0 == job {
      assert job == p.0 || job in sh.launches;
    }
    HistoryKeeps(i, sh, sh');
  }

  lemma LaunchNext(cfg: Config, w: WorkId, i: nat, sh: Shared, pc: Pc, e: Env)
    requires pc.Own? && pc.stage.Launch?
    ensures OwnStep(cfg, i, w, sh, pc, e) ==
              (sh.(launches := sh.launches + {pc.mine.stored.jobId}), pc.(stage := MarkLaunched))
  {
  }

  lemma LaunchTimed(cfg: Config, w: WorkId, i: nat, inv: Invocation, sh: Shared, e: Env)
    requires Guarded(sh) && TimedPc(sh, inv) && inv.kind == Submit(w)
    requires inv.pc.Own? && inv.pc.stage.Launch?
    ensures TimedKept(i, inv, sh, OwnStep(cfg, i, w, sh, inv.pc, e))
  {
    var job := inv.pc.mine.stored.jobId;
    LaunchNext(cfg, w, i, sh, inv.pc, e);
    LaunchKeeps(cfg, i, sh, sh.(launches := sh.launches + {job}), (job, inv.pc.revision));
  }

  lemma DecideAside(cfg: Config, w: WorkId, i: nat, inv: Invocation, sh: Shared, e: Env)
    requires TimedPc(sh, inv) && e.now == sh.time && inv.kind == Submit(w) && inv.pc.Own? && inv.pc.stage.Decide?
    ensures var (sh', pc') := OwnStep(cfg, i, w, sh, inv.pc, e);
            Aside(sh, sh') && TimedPc(sh', inv.(pc := pc'))
  {
  }

  /** Stages that write nothing the fence is about. */
  predicate Reading(stage: Stage) {
    || stage.CreateRequest? || stage.ReadOwned? || stage.CheckLease? || stage.ReadLedger?
    || stage.Decide? || stage.CheckFresh?
  }

  lemma QuietAside(cfg: Config, w: WorkId, i: nat, inv: Invocation, sh: Shared, e: Env)
    requires TimedPc(sh, inv) && e.now == sh.time && inv.kind == Submit(w)
    requires inv.pc.Own? && Reading(inv.pc.stage)
    ensures var (sh', pc') := OwnStep(cfg, i, w, sh, inv.pc, e);
            Aside(sh, sh') && TimedPc(sh', inv.(pc := pc'))
  {
    hide Admit, CommitStep, Overtaken;
    if inv.pc.stage.Decide? {
      DecideAside(cfg, w, i, inv, sh, e);
    }
  }

  lemma QuietTimed(cfg: Config, w: WorkId, i: nat, inv: Invocation, sh: Shared, e: Env)
    requires Punctual(cfg, i, inv, sh, e) && inv.kind == Submit(w)
    requires inv.pc.Own? && Reading(inv.pc.stage)
    ensures TimedKept(i, inv, sh, OwnStep(cfg, i, w, sh, inv.pc, e))
  {
    QuietAside(cfg, w, i, inv, sh, e);
    AsideKeeps(cfg, i, sh, OwnStep(cfg, i, w, sh, inv.pc, e).0);
  }

  // ---- The ledger's compare-and-swap ----

  lemma OrderlyBelongs(w: WorkId, h: seq<Version>, k: nat)
    requires Orderly(w, h) && k < |h|
    ensures h[k].value.stored.jobId.work == w
  {
  }

  /** The deadline of a reserved job is that of every attempt with its job id. */
  lemma DeadlineIs(w: WorkId, sh: Shared, rev: nat, mine: WorkAttempt, until: nat)
    requires Orderly(w, sh.History(w)) && ReadAt(sh, w, rev, mine)
    requires Deadline(sh, mine.stored.jobId, until)
    ensures until == mine.stored.LaunchUntil()
  {
    var job, h := mine.stored.jobId, sh.History(w);
    OrderlyBelongs(w, h, rev - 1);
    hide Orderly;
    var k :| 0 <= k < |h| && h[k].value.stored.jobId == job && h[k].value.stored.LaunchUntil() == until;
    SameJobSameStored(w, h, k, rev - 1);
  }

  /** A reserved job of a live invocation still holds its slot. */
  lemma LiveJobIsHeld(w: WorkId, sh: Shared, started: nat, rev: nat, mine: WorkAttempt)
    requires Orderly(w, sh.History(w)) && ReadAt(sh, w, rev, mine)
    requires ReservedOk(sh) && Fenced(sh) && mine.stored.jobId in sh.reserved
    requires sh.time <= started + LIFETIME && started <= mine.stored.LaunchUntil()
    ensures Held(sh, mine.stored.jobId)
  {
    hide Orderly, SlotOf, ReadAt, Deadline;
    var job := mine.stored.jobId;
    assert Deadline(sh, job, sh.reserved[job]);
    DeadlineIs(w, sh, rev, mine, sh.reserved[job]);
  }

  /** Pruning releases a slot only after its fence has passed. */
  lemma PruneRespectsFence(cfg: Config, slots: seq<Reservation>, job: JobId, now: nat, proven: set<JobId>)
    requires now <= U64_MAX && SlotOf(slots, job).Some?
    ensures || SlotOf(Unreleased(cfg, slots, now, proven), job).Some?
            || now > SlotOf(slots, job).value.launchUntil + LIFETIME
  {
    UnreleasedSlots(cfg, slots, now, proven);
    var slot := SlotOf(slots, job).value;
    if !Released(cfg, slot, now, proven) {
      assert slot in Unreleased(cfg, slots, now, proven);
    }
  }

  /** What an admission proposes, as far as the fence is concerned. */
  predicate Honest(cfg: Config, sh: Shared, now: nat, job: JobId, until: nat, proposal: Admission)
    requires proposal.Proposed?
  {
    var slots := proposal.ledger.reservations;
    && (forall slot :: slot in slots ==>
          slot in sh.ledger.reservations || (!proposal.denied && slot.jobId == job && slot.launchUntil == until))
    && (forall j :: j in sh.reserved && Held(sh, j) ==>
          SlotOf(slots, j).Some? || now > sh.reserved[j] + LIFETIME)
    && (!proposal.denied ==> SlotOf(slots, job).Some?)
    && !Held(sh, job)
  }

  lemma SlotSurvivesAppend(slots: seq<Reservation>, last: Reservation, job: JobId)
    ensures SlotOf(slots, job).Some? || last.jobId == job ==> SlotOf(slots + [last], job).Some?
  {
    var longer := slots + [last];
    if SlotOf(slots, job).Some? {
      var k :| 0 <= k < |slots| && slots[k].jobId == job;
      assert longer[k].jobId == job;
    } else {
      assert longer[|slots|] == last;
    }
  }

  lemma AdmissionIsHonest(cfg: Config, sh: Shared, now: nat, job: JobId, until: nat, proven: set<JobId>)
    requires ReservedOk(sh) && now <= U64_MAX
    ensures var a := Admit(cfg, sh.ledger, now, job, until, proven);
            a.Proposed? ==> Honest(cfg, sh, now, job, until, a)
  {
    var a := Admit(cfg, sh.ledger, now, job, until, proven);
    if a.Proposed? {
      var slots, kept := sh.ledger.reservations, Unreleased(cfg, sh.ledger.reservations, now, proven);
      UnreleasedSlots(cfg, slots, now, proven);
      var last := Reservation(job, until, Some(now));
      SlotSurvivesAppend(kept, last, job);
      forall j | j in sh.reserved && Held(sh, j)
        ensures SlotOf(a.ledger.reservations, j).Some? || now > sh.reserved[j] + LIFETIME
      {
        PruneRespectsFence(cfg, slots, j, now, proven);
        SlotSurvivesAppend(kept, last, j);
      }
    }
  }

  /** Committing an honest proposal keeps the fence and the deadlines. */
  predicate Commits(sh: Shared, sh': Shared, job: JobId, until: nat, proposal: Admission)
    requires proposal.Proposed?
  {
    && LedgerOnly(sh, sh') && sh'.ledger == proposal.ledger
    && sh'.payers == (if proposal.denied then sh.payers else sh.payers + [job])
    && sh'.reserved == if proposal.denied then sh.reserved else sh.reserved[job := until]
  }

  lemma CommitFences(cfg: Config, sh: Shared, sh': Shared, now: nat, job: JobId, until: nat, proposal: Admission)
    requires Fenced(sh) && ReservedOk(sh) && now <= sh.time
    requires proposal.Proposed? && Honest(cfg, sh, now, job, until, proposal) && Commits(sh, sh', job, until, proposal)
    ensures Fenced(sh')
  {
    hide Deadline;
  }

  lemma CommitClears(i: nat, sh: Shared, sh': Shared, job: JobId, until: nat, proposal: Admission)
    requires ClearedOk(sh) && NeverCleared(sh) && proposal.Proposed? && Commits(sh, sh', job, until, proposal)
    ensures ClearedOk(sh') && NeverCleared(sh') && TimedGrows(i, sh, sh')
  {
    hide DeniedIn;
    assert forall x :: sh'.History(x) == sh.History(x);
  }

  lemma CommitGuarded(cfg: Config, i: nat, sh: Shared, sh': Shared, now: nat, job: JobId, until: nat,
                      proposal: Admission)
    requires Guarded(sh) && now <= sh.time && proposal.Proposed? && Honest(cfg, sh, now, job, until, proposal)
    requires Commits(sh, sh', job, until, proposal)
    requires ReservedOk(sh) && job !in sh.payers
    ensures Guarded(sh') && TimedGrows(i, sh, sh')
  {
    hide Fenced, ReservedOk, ClearedOk, NeverCleared, TimedGrows, Honest;
    CommitFences(cfg, sh, sh', now, job, until, proposal);
    CommitClears(i, sh, sh', job, until, proposal);
  }

  lemma CommitStepTimed(cfg: Config, w: WorkId, i: nat, inv: Invocation, sh: Shared, proposal: Admission, e: Env)
    requires Guarded(sh) && TimedPc(sh, inv) && inv.kind == Submit(w) && inv.pc.Own? && inv.pc.stage.Commit?
    requires Orderly(w, sh.History(w)) && Owns(sh, i, w, inv.pc.revision, inv.pc.mine)
    requires sh.time <= inv.started + LIFETIME && Paid(sh) && ReservedOk(sh)
    requires proposal.Proposed? && inv.pc.stage.revision == sh.ledgerRevision ==>
               Honest(cfg, sh, inv.pc.stage.now, inv.pc.mine.stored.jobId, inv.pc.mine.stored.LaunchUntil(), proposal)
    ensures TimedKept(i, inv, sh, CommitStep(sh, inv.pc, proposal, e))
  {
    var pc, job, until := inv.pc, inv.pc.mine.stored.jobId, inv.pc.mine.stored.LaunchUntil();
    if proposal.Proposed? && Applies(sh.ledgerRevision, pc.stage.revision, e.reply) {
      var sh' := CommitStep(sh, pc, proposal, e).0;
      if job in sh.reserved {
        LiveJobIsHeld(w, sh, inv.started, pc.revision, pc.mine);
      }
      CommitGuarded(cfg, i, sh, sh', pc.stage.now, job, until, proposal);
    } else {
      AsideKeeps(cfg, i, sh, sh);
    }
  }

  lemma CommitTimed(cfg: Config, w: WorkId, i: nat, inv: Invocation, sh: Shared, e: Env)
    requires Punctual(cfg, i, inv, sh, e) && inv.kind == Submit(w) && inv.pc.Own? && inv.pc.stage.Commit?
    ensures TimedKept(i, inv, sh, OwnStep(cfg, i, w, sh, inv.pc, e))
  {
    var stage, job, until := inv.pc.stage, inv.pc.mine.stored.jobId, inv.pc.mine.stored.LaunchUntil();
    if stage.revision == sh.ledgerRevision {
      AdmissionIsHonest(cfg, sh, stage.now, job, until, stage.proven);
    }
    OrderlyHistory(cfg, sh, w);
    CommitStepTimed(cfg, w, i, inv, sh, Admit(cfg, stage.ledger, stage.now, job, until, stage.proven), e);
  }

  lemma NextTimed(cfg: Config, i: nat, inv: Invocation, sh: Shared, e: Env)
    requires Punctual(cfg, i, inv, sh, e)
    ensures TimedKept(i, inv, sh, Next(cfg, i, inv, sh, e))
  {
    hide Guarded, Consistent, TimedGrows, SoundPc, EvidenceStep, OwnStep, PollStep, SubmitStep, VerifyStep, TimedStage;
    AsideKeeps(cfg, i, sh, sh);
    var pc := inv.pc;
    if Evidencing(pc) {
      EvidenceTimed(cfg, i, inv, sh, e);
    } else if pc.SealWork? || pc.PublishSeal? {
      SealTimed(cfg, i, inv, sh, e);
    } else if pc.Reverify? {
      VerifyTimed(cfg, i, inv, pc.stored, pc.bytes, pc.after, sh, e);
    } else if inv.kind.Poll? {
      if Polling(pc) {
        PollTimed(cfg, i, inv, sh, e);
      }
    } else if pc.Own? {
      OwnTimed(cfg, inv.kind.work, i, inv, sh, e);
    } else if Submitting(pc) {
      SubmitTimed(cfg, inv.kind.work, i, inv, sh, e);
    }
  }

  lemma PollAside(cfg: Config, job: JobId, sh: Shared, pc: Pc, e: Env)
    requires Polling(pc)
    ensures var (sh', pc') := PollStep(cfg, job, sh, pc, e);
            Aside(sh, sh') && (Polling(pc') || pc'.RetainBytes? || pc'.Done?)
  {
  }

  lemma PollTimed(cfg: Config, i: nat, inv: Invocation, sh: Shared, e: Env)
    requires Guarded(sh) && TimedPc(sh, inv) && inv.kind.Poll?
    requires Polling(inv.pc)
    ensures TimedKept(i, inv, sh, PollStep(cfg, inv.kind.job, sh, inv.pc, e))
  {
    var after := PollStep(cfg, inv.kind.job, sh, inv.pc, e);
    PollAside(cfg, inv.kind.job, sh, inv.pc, e);
    AsideKeeps(cfg, i, sh, after.0);
  }

  lemma OwnTimed(cfg: Config, w: WorkId, i: nat, inv: Invocation, sh: Shared, e: Env)
    requires Punctual(cfg, i, inv, sh, e) && inv.kind == Submit(w) && inv.pc.Own?
    ensures TimedKept(i, inv, sh, OwnStep(cfg, i, w, sh, inv.pc, e))
  {
    match inv.pc.stage {
      case Deny => MarkTimed(cfg, w, i, inv, sh, e);
      case MarkLaunched => MarkTimed(cfg, w, i, inv, sh, e);
      case ReadFresh => OrderlyHistory(cfg, sh, w); ReadFreshTimed(cfg, w, i, inv, sh, e);
      case Launch => LaunchTimed(cfg, w, i, inv, sh, e);
      case Commit(_, _, _, _) => CommitTimed(cfg, w, i, inv, sh, e);
      case _ => QuietTimed(cfg, w, i, inv, sh, e);
    }
  }
}
