/** Every step of an invocation keeps the store consistent, keeps its own local state sound and
    only grows what others rely on. No clock reading is trusted here. */
module JobSteps {
  import opened Wrappers
  import opened JobTypes
  import opened AdmissionLedger
  import opened ConditionalStore
  import opened JobMachine
  import opened JobInvariant

  ghost predicate Kept(cfg: Config, i: nat, kind: Kind, sh: Shared, after: (Shared, Pc)) {
    Consistent(cfg, after.0) && Grows(sh, after.0) && SoundPc(cfg, after.0, i, kind, after.1)
  }

  lemma NothingWritten(cfg: Config, sh: Shared)
    requires Consistent(cfg, sh)
    ensures Grows(sh, sh)
  {
  }

  lemma SubmitSound(cfg: Config, w: WorkId, i: nat, sh: Shared, pc: Pc, e: Env)
    requires Submitting(pc) && !pc.WriteWork? && !pc.Judge?
    requires Orderly(w, sh.History(w)) && SoundPc(cfg, sh, i, Submit(w), pc)
    ensures SubmitStep(cfg, w, i, sh, pc, e).0 == sh
    ensures SoundPc(cfg, sh, i, Submit(w), SubmitStep(cfg, w, i, sh, pc, e).1)
  {
    hide Judged, Before;
  }

  /** The compare-and-swap of a work record. */
  lemma WriteSound(cfg: Config, w: WorkId, i: nat, sh: Shared, pc: Pc, e: Env)
    requires pc.WriteWork? && SoundPc(cfg, sh, i, Submit(w), pc)
    ensures var (sh', pc') := SubmitStep(cfg, w, i, sh, pc, e);
            && SoundPc(cfg, sh', i, Submit(w), pc')
            && (if Applies(|sh.History(w)|, pc.revision, e.reply)
                then sh' == sh.Append(w, pc.mine, i) && Belongs(w, pc.mine) && !pc.mine.completed
                     && (sh.History(w) != [] ==> Succeeds(sh.History(w)[|sh.History(w)| - 1].value, pc.mine))
                else sh' == sh)
  {
    hide Judged, Before;
  }

  lemma WriteKeeps(cfg: Config, w: WorkId, i: nat, sh: Shared, pc: Pc, e: Env)
    requires pc.WriteWork?
    requires Consistent(cfg, sh) && SoundPc(cfg, sh, i, Submit(w), pc)
    ensures Kept(cfg, i, Submit(w), sh, SubmitStep(cfg, w, i, sh, pc, e))
  {
    hide Consistent, Grows, SoundPc, SubmitStep, Belongs, Succeeds;
    WriteSound(cfg, w, i, sh, pc, e);
    if Applies(|sh.History(w)|, pc.revision, e.reply) {
      AppendKeeps(cfg, sh, w, pc.mine, i);
    } else {
      NothingWritten(cfg, sh);
    }
  }

  lemma SubmitKeeps(cfg: Config, w: WorkId, i: nat, sh: Shared, pc: Pc, e: Env)
    requires Submitting(pc)
    requires Consistent(cfg, sh) && SoundPc(cfg, sh, i, Submit(w), pc)
    ensures Kept(cfg, i, Submit(w), sh, SubmitStep(cfg, w, i, sh, pc, e))
  {
    if pc.WriteWork? {
      WriteKeeps(cfg, w, i, sh, pc, e);
    } else if pc.Judge? {
      JudgeKeeps(cfg, w, i, sh, pc, e);
    } else {
      NothingWritten(cfg, sh);
      OrderlyHistory(cfg, sh, w);
      SubmitSound(cfg, w, i, sh, pc, e);
    }
  }

  /** A verification that succeeded is recorded; nothing else changes. */
  lemma RecordVerified(cfg: Config, sh: Shared, stored: StoredRequest, bytes: Terminal)
    requires Consistent(cfg, sh) && Evidence(cfg, stored, bytes)
    ensures var sh' := sh.(verified := sh.verified + {(stored, bytes)});
            Consistent(cfg, sh') && Grows(sh, sh')
  {
    hide Documented;
    DocumentsStay(sh, sh.(verified := sh.verified + {(stored, bytes)}));
    EvidenceKeeps(cfg, sh, sh.(verified := sh.verified + {(stored, bytes)}));
  }

  /** Judging a record decides on a legal next version, a verification, or nothing. */
  lemma JudgeSound(cfg: Config, w: WorkId, i: nat, sh: Shared, pc: Pc, e: Env)
    requires pc.Judge?
    requires Orderly(w, sh.History(w)) && SoundPc(cfg, sh, i, Submit(w), pc)
    ensures SoundPc(cfg, sh, i, Submit(w), Judged(cfg, w, pc, e))
  {
  }

  lemma JudgeKeeps(cfg: Config, w: WorkId, i: nat, sh: Shared, pc: Pc, e: Env)
    requires pc.Judge?
    requires Consistent(cfg, sh) && SoundPc(cfg, sh, i, Submit(w), pc)
    ensures Kept(cfg, i, Submit(w), sh, SubmitStep(cfg, w, i, sh, pc, e))
  {
    hide Judged;
    OrderlyHistory(cfg, sh, w);
    JudgeSound(cfg, w, i, sh, pc, e);
    NothingWritten(cfg, sh);
  }

  /** Only bytes that verified go on to be retained. */
  lemma VerifyKeeps(cfg: Config, i: nat, kind: Kind, stored: StoredRequest, bytes: Terminal, after: After,
                    sh: Shared, e: Env)
    requires Consistent(cfg, sh) && Parses(bytes, stored.jobId) && SoundAfter(sh, stored, after)
    ensures Kept(cfg, i, kind, sh, VerifyStep(cfg, stored, bytes, after, sh, e))
  {
    if VerifyCompletion(cfg, stored, bytes, e.verdict).Valid? {
      VerifyGivesEvidence(cfg, stored, bytes, e.verdict);
      RecordVerified(cfg, sh, stored, bytes);
      var sh' := VerifyStep(cfg, stored, bytes, after, sh, e).0;
      assert sh'.History(stored.jobId.work) == sh.History(stored.jobId.work);
    } else {
      NothingWritten(cfg, sh);
    }
  }

  lemma PaidIsLocal(sh: Shared, sh': Shared)
    requires Paid(sh) && sh'.payers == sh.payers && sh'.charges == sh.charges && sh'.reserved == sh.reserved
    requires sh'.ledger == sh.ledger && sh'.launches == sh.launches
    ensures Paid(sh')
  {
  }

  lemma RetainBytesKeeps(cfg: Config, i: nat, kind: Kind, sh: Shared, pc: Pc, e: Env)
    requires pc.RetainBytes?
    requires Consistent(cfg, sh) && SoundPc(cfg, sh, i, kind, pc)
    ensures Kept(cfg, i, kind, sh, EvidenceStep(cfg, i, sh, pc, e))
  {
    hide Orderly, Accounted, Paid, Evidence, Documented;
    NothingWritten(cfg, sh);
    var sh' := sh.(completions := sh.completions[pc.stored.jobId := pc.bytes]);
    if pc.stored.jobId !in sh.completions {
      PaidIsLocal(sh, sh');
      DocumentsStay(sh, sh');
      EvidenceKeeps(cfg, sh, sh');
      SoundIsStable(cfg, sh, sh', i, kind, pc);
    }
  }

  lemma RetainRequestKeeps(cfg: Config, i: nat, kind: Kind, sh: Shared, pc: Pc, e: Env)
    requires pc.RetainRequest?
    requires Consistent(cfg, sh) && SoundPc(cfg, sh, i, kind, pc)
    ensures Kept(cfg, i, kind, sh, EvidenceStep(cfg, i, sh, pc, e))
  {
    hide Orderly, Accounted, Paid, Evidence, Documented;
    NothingWritten(cfg, sh);
    var sh' := sh.(completionRequests := sh.completionRequests[pc.stored.jobId := pc.stored]);
    if pc.stored.jobId !in sh.completionRequests {
      PaidIsLocal(sh, sh');
      DocumentsStay(sh, sh');
      EvidenceKeeps(cfg, sh, sh');
      SoundIsStable(cfg, sh, sh', i, kind, pc);
    }
  }

  lemma PublishReadSound(cfg: Config, i: nat, kind: Kind, sh: Shared, pc: Pc, e: Env)
    requires pc.PublishCheck? || pc.PublishRead?
    requires SoundPc(cfg, sh, i, kind, pc)
    ensures EvidenceStep(cfg, i, sh, pc, e).0 == sh && SoundPc(cfg, sh, i, kind, EvidenceStep(cfg, i, sh, pc, e).1)
  {
  }

  lemma PublishReadKeeps(cfg: Config, i: nat, kind: Kind, sh: Shared, pc: Pc, e: Env)
    requires pc.PublishCheck? || pc.PublishRead?
    requires Consistent(cfg, sh) && SoundPc(cfg, sh, i, kind, pc)
    ensures Kept(cfg, i, kind, sh, EvidenceStep(cfg, i, sh, pc, e))
  {
    NothingWritten(cfg, sh);
    PublishReadSound(cfg, i, kind, sh, pc, e);
  }

  function SealedRecord(pc: Pc): WorkId
    requires pc.SealWork? || pc.PublishSeal?
  {
    if pc.SealWork? then pc.stored.jobId.work else WorkId(pc.stored.request, None)
  }

  /** A seal that takes effect writes the newest attempt as completed. */
  lemma SealWrites(cfg: Config, i: nat, kind: Kind, sh: Shared, pc: Pc, e: Env)
    requires (pc.SealWork? || pc.PublishSeal?) && SoundPc(cfg, sh, i, kind, pc)
    requires Orderly(SealedRecord(pc), sh.History(SealedRecord(pc)))
    ensures var w, v, h := SealedRecord(pc), pc.current.(completed := true), sh.History(SealedRecord(pc));
            if Applies(|h|, pc.revision, e.reply)
            then EvidenceStep(cfg, i, sh, pc, e).0 == sh.Append(w, v, i) && Belongs(w, v)
                 && h != [] && Succeeds(h[|h| - 1].value, v) && Proven(sh, v.stored)
            else EvidenceStep(cfg, i, sh, pc, e).0 == sh
  {
  }

  lemma SealNext(cfg: Config, i: nat, kind: Kind, sh: Shared, pc: Pc, e: Env)
    requires (pc.SealWork? || pc.PublishSeal?) && SoundPc(cfg, sh, i, kind, pc)
    ensures var (sh', pc') := EvidenceStep(cfg, i, sh, pc, e); SoundPc(cfg, sh', i, kind, pc')
  {
    hide Orderly, Succeeds, Before;
  }

  lemma SealKeeps(cfg: Config, i: nat, kind: Kind, sh: Shared, pc: Pc, e: Env)
    requires pc.SealWork? || pc.PublishSeal?
    requires Consistent(cfg, sh) && SoundPc(cfg, sh, i, kind, pc)
    ensures Kept(cfg, i, kind, sh, EvidenceStep(cfg, i, sh, pc, e))
  {
    hide Consistent, Grows, EvidenceStep, SoundPc, Orderly, Succeeds, Belongs, Proven;
    NothingWritten(cfg, sh);
    ConsistentRecords(cfg, sh);
    OrderlyHistory(cfg, sh, SealedRecord(pc));
    SealWrites(cfg, i, kind, sh, pc, e);
    SealNext(cfg, i, kind, sh, pc, e);
    if Applies(|sh.History(SealedRecord(pc))|, pc.revision, e.reply) {
      AppendKeeps(cfg, sh, SealedRecord(pc), pc.current.(completed := true), i);
    }
  }

  lemma ConsistentRecords(cfg: Config, sh: Shared)
    requires Consistent(cfg, sh)
    ensures RecordsOk(sh)
  {
  }

  lemma PublishNew(cfg: Config, sh: Shared, sh': Shared, key: Locator, bytes: Terminal)
    requires Consistent(cfg, sh) && key !in sh.settlements
    requires sh' == sh.(settlements := sh.settlements[key := bytes])
    requires Published(cfg, sh, key, bytes)
    ensures Consistent(cfg, sh') && Grows(sh, sh')
  {
    hide Orderly, Accounted, Paid, Evidence, Documented;
    PaidIsLocal(sh, sh');
    DocumentsStay(sh, sh');
    assert forall w :: sh'.History(w) == sh.History(w);
    SealsSurvive(sh, sh');
    forall loc | loc in sh'.settlements ensures Published(cfg, sh', loc, sh'.settlements[loc]) {
      var b := sh'.settlements[loc];
      assert Published(cfg, sh, loc, b);
      SealedSurvives(sh, sh', WorkId(sh.completionRequests[b.jobId].request, None), sh.completionRequests[b.jobId]);
    }
  }

  lemma PublishKeeps(cfg: Config, i: nat, kind: Kind, sh: Shared, pc: Pc, e: Env)
    requires pc.PublishCreate?
    requires Consistent(cfg, sh) && SoundPc(cfg, sh, i, kind, pc)
    ensures Kept(cfg, i, kind, sh, EvidenceStep(cfg, i, sh, pc, e))
  {
    NothingWritten(cfg, sh);
    var key := LocatorOf(cfg, pc.bytes).locator;
    if key !in sh.settlements {
      PublishNew(cfg, sh, EvidenceStep(cfg, i, sh, pc, e).0, key, pc.bytes);
    }
  }

  lemma PollKeeps(cfg: Config, job: JobId, i: nat, sh: Shared, pc: Pc, e: Env)
    requires Polling(pc)
    requires Consistent(cfg, sh) && SoundPc(cfg, sh, i, Poll(job), pc)
    ensures Kept(cfg, i, Poll(job), sh, PollStep(cfg, job, sh, pc, e))
  {
    hide Consistent, Grows;
    NothingWritten(cfg, sh);
    if pc.PollVerify? {
      VerifyKeeps(cfg, i, Poll(job), pc.stored, pc.bytes, Publish, sh, e);
    }
  }

  /** Only the ledger and the history of charges differ. */
  predicate LedgerOnly(sh: Shared, sh': Shared) {
    sh' == sh.(ledger := sh'.ledger, ledgerRevision := sh'.ledgerRevision,
               charges := sh'.charges, payers := sh'.payers, reserved := sh'.reserved)
  }

  lemma LedgerCommitted(cfg: Config, sh: Shared, sh': Shared)
    requires Consistent(cfg, sh) && Accounted(cfg, sh'.ledger, sh'.charges) && Paid(sh') && Documented(sh')
    requires sh'.ledgerRevision == sh.ledgerRevision + 1 && sh.reserved.Keys <= sh'.reserved.Keys
    requires LedgerOnly(sh, sh')
    ensures Consistent(cfg, sh') && Grows(sh, sh')
  {
    hide Documented;
    EvidenceKeeps(cfg, sh, sh');
  }

  lemma CommitSound(cfg: Config, w: WorkId, i: nat, sh: Shared, pc: Pc, proposal: Admission, e: Env)
    requires pc.Own? && pc.stage.Commit? && SoundPc(cfg, sh, i, Submit(w), pc)
    ensures var (sh', pc') := CommitStep(sh, pc, proposal, e);
            && SoundPc(cfg, sh', i, Submit(w), pc')
            && if proposal.Proposed? && Applies(sh.ledgerRevision, pc.stage.revision, e.reply)
               then sh'.ledgerRevision == sh.ledgerRevision + 1 && LedgerOnly(sh, sh') && sh'.ledger == proposal.ledger
                    && Charged(sh, sh', pc.mine.stored, pc.stage.now, proposal.denied)
               else sh' == sh
  {
    hide Before, Belongs;
    var sh' := CommitStep(sh, pc, proposal, e).0;
    assert sh'.History(w) == sh.History(w);
  }

  /** A commit charges its job once, unless it denies it. */
  predicate Charged(sh: Shared, sh': Shared, stored: StoredRequest, now: nat, denied: bool) {
    if denied then sh'.charges == sh.charges && sh'.payers == sh.payers && sh'.reserved == sh.reserved
    else
      && sh'.charges == sh.charges + [now] && sh'.payers == sh.payers + [stored.jobId]
      && sh'.reserved == sh.reserved[stored.jobId := stored.LaunchUntil()]
  }

  lemma ChargeIsPaid(sh: Shared, sh': Shared, stored: StoredRequest, now: nat, denied: bool)
    requires Paid(sh) && LedgerOnly(sh, sh') && Charged(sh, sh', stored, now, denied)
    ensures Paid(sh') && sh.reserved.Keys <= sh'.reserved.Keys
  {
  }

  lemma ChargeIsDocumented(sh: Shared, sh': Shared, w: WorkId, stored: StoredRequest, now: nat, denied: bool)
    requires Documented(sh) && LedgerOnly(sh, sh') && Charged(sh, sh', stored, now, denied)
    requires Deadline(sh, stored.jobId, stored.LaunchUntil())
    requires forall slot :: slot in sh'.ledger.reservations ==>
               Admitted(sh.ledger, slot, stored.jobId, stored.LaunchUntil(), denied)
    ensures Documented(sh')
  {
    hide Deadline, Attempted;
    assert forall x :: sh'.History(x) == sh.History(x);
    forall job | job in sh'.reserved ensures Deadline(sh', job, sh'.reserved[job]) {
      assert Deadline(sh, job, sh'.reserved[job]);
      SameDeadline(sh, sh', job, sh'.reserved[job]);
    }
    forall job | job in sh'.requests ensures Attempted(sh', sh'.requests[job]) {
      SameAttempt(sh, sh', sh.requests[job]);
    }
  }

  lemma SameDeadline(sh: Shared, sh': Shared, job: JobId, until: nat)
    requires sh'.works == sh.works
    ensures Deadline(sh', job, until) <==> Deadline(sh, job, until)
  {
    assert sh'.History(job.work) == sh.History(job.work);
  }

  lemma SameAttempt(sh: Shared, sh': Shared, stored: StoredRequest)
    requires sh'.works == sh.works
    ensures Attempted(sh', stored) <==> Attempted(sh, stored)
  {
    assert sh'.History(stored.jobId.work) == sh.History(stored.jobId.work);
  }

  /** An owner's attempt is in its record. */
  lemma OwnerIsAttempted(cfg: Config, w: WorkId, i: nat, sh: Shared, pc: Pc)
    requires pc.Own? && SoundPc(cfg, sh, i, Submit(w), pc) && Orderly(w, sh.History(w))
    ensures pc.mine.stored.jobId.work == w
    ensures Attempted(sh, pc.mine.stored) && Deadline(sh, pc.mine.stored.jobId, pc.mine.stored.LaunchUntil())
  {
    var h := sh.History(w);
    assert Belongs(w, h[pc.revision - 1].value) && h[pc.revision - 1].value.stored == pc.mine.stored;
  }

  lemma CommitStepKeeps(cfg: Config, w: WorkId, i: nat, sh: Shared, pc: Pc, proposal: Admission, e: Env)
    requires pc.Own? && pc.stage.Commit?
    requires Consistent(cfg, sh) && SoundPc(cfg, sh, i, Submit(w), pc)
    requires proposal.Proposed? && pc.stage.revision == sh.ledgerRevision ==>
               Accounted(cfg, proposal.ledger, if proposal.denied then sh.charges else sh.charges + [pc.stage.now])
    requires proposal.Proposed? && pc.stage.revision == sh.ledgerRevision ==>
               forall slot :: slot in proposal.ledger.reservations ==>
                 Admitted(sh.ledger, slot, pc.mine.stored.jobId, pc.mine.stored.LaunchUntil(), proposal.denied)
    ensures Kept(cfg, i, Submit(w), sh, CommitStep(sh, pc, proposal, e))
  {
    hide Paid, Accounted, SoundPc, CommitStep, Documented, Deadline, Attempted, Admitted, Orderly;
    CommitSound(cfg, w, i, sh, pc, proposal, e);
    OrderlyHistory(cfg, sh, w);
    OwnerIsAttempted(cfg, w, i, sh, pc);
    var sh' := CommitStep(sh, pc, proposal, e).0;
    if proposal.Proposed? && Applies(sh.ledgerRevision, pc.stage.revision, e.reply) {
      ChargeIsPaid(sh, sh', pc.mine.stored, pc.stage.now, proposal.denied);
      ChargeIsDocumented(sh, sh', w, pc.mine.stored, pc.stage.now, proposal.denied);
      LedgerCommitted(cfg, sh, sh');
    } else {
      NothingWritten(cfg, sh);
    }
  }

  lemma CommitKeeps(cfg: Config, w: WorkId, i: nat, sh: Shared, pc: Pc, e: Env)
    requires pc.Own? && pc.stage.Commit?
    requires Consistent(cfg, sh) && SoundPc(cfg, sh, i, Submit(w), pc)
    ensures Kept(cfg, i, Submit(w), sh, OwnStep(cfg, i, w, sh, pc, e))
  {
    var stage, job, until := pc.stage, pc.mine.stored.jobId, pc.mine.stored.LaunchUntil();
    if stage.revision == sh.ledgerRevision {
      AdmitKeepsAccounts(cfg, sh.ledger, sh.charges, stage.now, job, until, stage.proven);
      AdmitSlots(cfg, sh.ledger, stage.now, job, until, stage.proven);
    }
    CommitStepKeeps(cfg, w, i, sh, pc, Admit(cfg, stage.ledger, stage.now, job, until, stage.proven), e);
  }

  /** What the last write of an owner makes of its attempt. */
  function Marked(pc: Pc): WorkAttempt
    requires pc.Own? && (pc.stage.Deny? || pc.stage.MarkLaunched?)
  {
    if pc.stage.Deny? then pc.mine.(admissionDenied := true) else pc.mine.(launched := true)
  }

  lemma MarkWrites(cfg: Config, w: WorkId, i: nat, sh: Shared, pc: Pc, e: Env)
    requires pc.Own? && (pc.stage.Deny? || pc.stage.MarkLaunched?)
    ensures OwnStep(cfg, i, w, sh, pc, e) == (Swap(sh, w, pc.revision, Marked(pc), i, e), Done)
  {
  }

  lemma MarkIsLegal(cfg: Config, w: WorkId, i: nat, sh: Shared, pc: Pc)
    requires pc.Own? && (pc.stage.Deny? || pc.stage.MarkLaunched?)
    requires SoundPc(cfg, sh, i, Submit(w), pc) && Orderly(w, sh.History(w)) && |sh.History(w)| == pc.revision
    ensures sh.History(w) != [] && Succeeds(sh.History(w)[|sh.History(w)| - 1].value, Marked(pc))
    ensures Belongs(w, Marked(pc)) && !Marked(pc).completed
  {
  }

  lemma MarkKeeps(cfg: Config, w: WorkId, i: nat, sh: Shared, pc: Pc, e: Env)
    requires pc.Own? && (pc.stage.Deny? || pc.stage.MarkLaunched?)
    requires Consistent(cfg, sh) && SoundPc(cfg, sh, i, Submit(w), pc)
    ensures Kept(cfg, i, Submit(w), sh, OwnStep(cfg, i, w, sh, pc, e))
  {
    hide Consistent, Grows, SoundPc, OwnStep, Orderly, Succeeds, Belongs, Proven;
    NothingWritten(cfg, sh);
    DoneIsSound(cfg, i, Submit(w), sh);
    MarkWrites(cfg, w, i, sh, pc, e);
    ConsistentRecords(cfg, sh);
    OrderlyHistory(cfg, sh, w);
    if Applies(|sh.History(w)|, pc.revision, e.reply) {
      MarkIsLegal(cfg, w, i, sh, pc);
      assert Swap(sh, w, pc.revision, Marked(pc), i, e) == sh.Append(w, Marked(pc), i);
      AppendKeeps(cfg, sh, w, Marked(pc), i);
      DoneIsSound(cfg, i, Submit(w), sh.Append(w, Marked(pc), i));
    } else {
      assert Swap(sh, w, pc.revision, Marked(pc), i, e) == sh;
    }
  }

  /** Request objects and history variables are no part of what others rely on. */
  lemma OffRecord(cfg: Config, sh: Shared, sh': Shared)
    requires Consistent(cfg, sh) && sh'.launches <= sh.reserved.Keys && Documented(sh')
    requires sh' == sh.(requests := sh'.requests, cleared := sh'.cleared, launches := sh'.launches)
    ensures Consistent(cfg, sh') && Grows(sh, sh')
  {
    hide Documented;
    EvidenceKeeps(cfg, sh, sh');
  }

  /** The only request object ever written is the owner's. */
  predicate RequestsOf(sh: Shared, sh': Shared, stored: StoredRequest) {
    forall job :: job in sh'.requests ==>
      || (job in sh.requests && sh'.requests[job] == sh.requests[job])
      || (job == stored.jobId && sh'.requests[job] == stored)
  }

  lemma RequestIsDocumented(sh: Shared, sh': Shared, stored: StoredRequest)
    requires Documented(sh) && Attempted(sh, stored) && RequestsOf(sh, sh', stored)
    requires sh'.works == sh.works && sh'.reserved == sh.reserved && sh'.ledger == sh.ledger
    ensures Documented(sh')
  {
    hide Deadline, Attempted;
    forall job | job in sh'.reserved ensures Deadline(sh', job, sh'.reserved[job]) {
      SameDeadline(sh, sh', job, sh.reserved[job]);
    }
    forall job | job in sh'.requests ensures Attempted(sh', sh'.requests[job]) {
      SameAttempt(sh, sh', sh'.requests[job]);
    }
  }

  lemma ReadOwnedKeeps(cfg: Config, w: WorkId, i: nat, sh: Shared, pc: Pc, e: Env)
    requires pc.Own? && pc.stage.ReadOwned?
    requires Consistent(cfg, sh) && SoundPc(cfg, sh, i, Submit(w), pc)
    ensures Kept(cfg, i, Submit(w), sh, OwnStep(cfg, i, w, sh, pc, e))
  {
    NothingWritten(cfg, sh);
    OrderlyHistory(cfg, sh, w);
    if Current(sh, w) == Some(pc.mine) {
      ContentsIdentifyRevision(w, sh.History(w), pc.revision);
    }
  }

  lemma DecideSound(cfg: Config, w: WorkId, i: nat, sh: Shared, pc: Pc, e: Env)
    requires pc.Own? && pc.stage.Decide? && SoundPc(cfg, sh, i, Submit(w), pc)
    ensures OwnStep(cfg, i, w, sh, pc, e).0 == sh && SoundPc(cfg, sh, i, Submit(w), OwnStep(cfg, i, w, sh, pc, e).1)
  {
    hide Admit;
    AdmitSlots(cfg, pc.stage.ledger, e.now, pc.mine.stored.jobId, pc.mine.stored.LaunchUntil(), e.proven);
  }

  lemma DecideKeeps(cfg: Config, w: WorkId, i: nat, sh: Shared, pc: Pc, e: Env)
    requires pc.Own? && pc.stage.Decide?
    requires Consistent(cfg, sh) && SoundPc(cfg, sh, i, Submit(w), pc)
    ensures Kept(cfg, i, Submit(w), sh, OwnStep(cfg, i, w, sh, pc, e))
  {
    NothingWritten(cfg, sh);
    DecideSound(cfg, w, i, sh, pc, e);
  }

  predicate Quiet(stage: Stage) {
    || stage.CreateRequest? || stage.CheckLease? || stage.ReadLedger?
    || stage.ReadFresh? || stage.CheckFresh? || stage.Launch?
  }

  /** A quiet stage writes no record and stays with its version. */
  lemma QuietStep(cfg: Config, w: WorkId, i: nat, sh: Shared, pc: Pc, e: Env)
    requires pc.Own? && Quiet(pc.stage) && SoundStage(sh, pc.mine.stored.jobId, pc.stage)
    requires Paid(sh) && ReservedOk(sh)
    ensures var (sh', pc') := OwnStep(cfg, i, w, sh, pc, e);
            && RequestsOf(sh, sh', pc.mine.stored)
            && sh' == sh.(requests := sh'.requests, cleared := sh'.cleared, launches := sh'.launches)
            && sh'.launches <= sh.reserved.Keys
            && (pc'.Done? || (pc'.Own? && pc' == pc.(stage := pc'.stage)
                              && SoundStage(sh, pc.mine.stored.jobId, pc'.stage)))
  {
    hide Admit, CommitStep, Swap, Deadline;
  }

  lemma QuietSound(cfg: Config, w: WorkId, i: nat, sh: Shared, pc: Pc, e: Env)
    requires pc.Own? && Quiet(pc.stage) && SoundPc(cfg, sh, i, Submit(w), pc)
    requires Paid(sh) && ReservedOk(sh)
    ensures var (sh', pc') := OwnStep(cfg, i, w, sh, pc, e);
            && RequestsOf(sh, sh', pc.mine.stored)
            && sh' == sh.(requests := sh'.requests, cleared := sh'.cleared, launches := sh'.launches)
            && sh'.launches <= sh.reserved.Keys
            && SoundPc(cfg, sh', i, Submit(w), pc')
  {
    hide OwnStep, Paid, ReservedOk, RequestsOf;
    QuietStep(cfg, w, i, sh, pc, e);
    var sh' := OwnStep(cfg, i, w, sh, pc, e).0;
    assert sh'.History(w) == sh.History(w);
  }

  lemma QuietKeeps(cfg: Config, w: WorkId, i: nat, sh: Shared, pc: Pc, e: Env)
    requires pc.Own? && Quiet(pc.stage)
    requires Consistent(cfg, sh) && SoundPc(cfg, sh, i, Submit(w), pc)
    ensures Kept(cfg, i, Submit(w), sh, OwnStep(cfg, i, w, sh, pc, e))
  {
    hide OwnStep, Paid, RequestsOk, ReservedOk, RequestsOf, SoundPc, Attempted, Deadline, Orderly;
    OrderlyHistory(cfg, sh, w);
    OwnerIsAttempted(cfg, w, i, sh, pc);
    QuietSound(cfg, w, i, sh, pc, e);
    RequestIsDocumented(sh, OwnStep(cfg, i, w, sh, pc, e).0, pc.mine.stored);
    OffRecord(cfg, sh, OwnStep(cfg, i, w, sh, pc, e).0);
  }

  lemma OwnKeeps(cfg: Config, w: WorkId, i: nat, sh: Shared, pc: Pc, e: Env)
    requires pc.Own?
    requires Consistent(cfg, sh) && SoundPc(cfg, sh, i, Submit(w), pc)
    ensures Kept(cfg, i, Submit(w), sh, OwnStep(cfg, i, w, sh, pc, e))
  {
    if Quiet(pc.stage) {
      QuietKeeps(cfg, w, i, sh, pc, e);
    } else if pc.stage.ReadOwned? {
      ReadOwnedKeeps(cfg, w, i, sh, pc, e);
    } else if pc.stage.Decide? {
      DecideKeeps(cfg, w, i, sh, pc, e);
    } else if pc.stage.Commit? {
      CommitKeeps(cfg, w, i, sh, pc, e);
    } else {
      MarkKeeps(cfg, w, i, sh, pc, e);
    }
  }

  lemma ReverifyKeeps(cfg: Config, i: nat, kind: Kind, sh: Shared, pc: Pc, e: Env)
    requires pc.Reverify?
    requires Consistent(cfg, sh) && SoundPc(cfg, sh, i, kind, pc)
    ensures Kept(cfg, i, kind, sh, VerifyStep(cfg, pc.stored, pc.bytes, pc.after, sh, e))
  {
    hide Consistent, Grows, VerifyStep;
    VerifyKeeps(cfg, i, kind, pc.stored, pc.bytes, pc.after, sh, e);
  }

  lemma DoneIsSound(cfg: Config, i: nat, kind: Kind, sh: Shared)
    ensures SoundPc(cfg, sh, i, kind, Done)
  {
  }

  /** One step of any invocation. */
  lemma NextKeeps(cfg: Config, i: nat, inv: Invocation, sh: Shared, e: Env)
    requires Consistent(cfg, sh) && SoundPc(cfg, sh, i, inv.kind, inv.pc)
    ensures Kept(cfg, i, inv.kind, sh, Next(cfg, i, inv, sh, e))
  {
    hide Consistent, Grows, SoundPc, EvidenceStep, OwnStep, PollStep, SubmitStep, VerifyStep;
    NothingWritten(cfg, sh);
    DoneIsSound(cfg, i, inv.kind, sh);
    var pc := inv.pc;
    if pc.RetainBytes? {
      RetainBytesKeeps(cfg, i, inv.kind, sh, pc, e);
    } else if pc.RetainRequest? {
      RetainRequestKeeps(cfg, i, inv.kind, sh, pc, e);
    } else if pc.PublishCheck? || pc.PublishRead? {
      PublishReadKeeps(cfg, i, inv.kind, sh, pc, e);
    } else if pc.SealWork? || pc.PublishSeal? {
      SealKeeps(cfg, i, inv.kind, sh, pc, e);
    } else if pc.PublishCreate? {
      PublishKeeps(cfg, i, inv.kind, sh, pc, e);
    } else if pc.Reverify? {
      ReverifyKeeps(cfg, i, inv.kind, sh, pc, e);
    } else if inv.kind.Poll? {
      if Polling(pc) {
        PollKeeps(cfg, inv.kind.job, i, sh, pc, e);
      }
    } else if pc.Own? {
      OwnKeeps(cfg, inv.kind.work, i, sh, pc, e);
    } else if Submitting(pc) {
      SubmitKeeps(cfg, inv.kind.work, i, sh, pc, e);
    }
  }

  // ---- Whole states and runs ----

  ghost predicate Safe(cfg: Config, s: State) {
    && Consistent(cfg, s.shared)
    && (forall i :: i in s.invocations ==>
          SoundPc(cfg, s.shared, i, s.invocations[i].kind, s.invocations[i].pc))
  }

  lemma ApplyKeeps(cfg: Config, s: State, a: Action)
    requires Safe(cfg, s) && Enabled(s, a)
    ensures Safe(cfg, Apply(cfg, s, a)) && Grows(s.shared, Apply(cfg, s, a).shared)
  {
    var s' := Apply(cfg, s, a);
    if a.Step? {
      NextKeeps(cfg, a.id, s.invocations[a.id], s.shared, a.env);
    } else {
      NothingWritten(cfg, s.shared);
      assert forall w :: s'.shared.History(w) == s.shared.History(w);
      DocumentsStay(s.shared, s'.shared);
      EvidenceKeeps(cfg, s.shared, s'.shared);
    }
    forall i | i in s'.invocations && i in s.invocations && (a.Step? ==> i != a.id)
      ensures SoundPc(cfg, s'.shared, i, s'.invocations[i].kind, s'.invocations[i].pc)
    {
      SoundIsStable(cfg, s.shared, s'.shared, i, s.invocations[i].kind, s.invocations[i].pc);
    }
  }

  lemma GrowsIsTransitive(a: Shared, b: Shared, c: Shared)
    requires Grows(a, b) && Grows(b, c)
    ensures Grows(a, c)
  {
    forall w ensures GrowsRecord(a.History(w), c.History(w)) {
      assert GrowsRecord(a.History(w), b.History(w)) && GrowsRecord(b.History(w), c.History(w));
    }
  }

  /** Every reachable state is safe, and each state only grows from any earlier one. */
  lemma {:induction false} RunKeeps(cfg: Config, s: State, actions: seq<Action>)
    requires Safe(cfg, s) && Runs(cfg, s, actions)
    ensures Safe(cfg, Outcome(cfg, s, actions)) && Grows(s.shared, Outcome(cfg, s, actions).shared)
    decreases |actions|
  {
    if actions == [] {
      NothingWritten(cfg, s.shared);
    } else {
      ApplyKeeps(cfg, s, actions[0]);
      var next := Apply(cfg, s, actions[0]);
      RunKeeps(cfg, next, actions[1..]);
      GrowsIsTransitive(s.shared, next.shared, Outcome(cfg, s, actions).shared);
    }
  }

  lemma InitialIsSafe(cfg: Config)
    ensures Safe(cfg, INITIAL)
  {
    var sh := INITIAL.shared;
    assert forall w :: sh.History(w) == [];
    assert Paid(sh) && Documented(sh);
    EmptyIsAccounted(cfg);
    hide Accounted, Paid, Documented, Orderly;
  }

  lemma EmptyIsAccounted(cfg: Config)
    ensures Accounted(cfg, EMPTY_LEDGER, [])
  {
  }
}
