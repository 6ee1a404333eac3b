/** What an undisturbed submission or poll does with a completed settlement: its evidence is retained,
    its record sealed and the settlement published. */
module JobPublication {
  import opened Wrappers
  import opened JobTypes
  import opened ConditionalStore
  import opened JobMachine
  import opened JobInvariant
  import opened JobSteps
  import opened JobSafety
  import opened JobProgress
  import opened JobResumption

  /** The immutable objects of the job are absent or already these. */
  predicate Retainable(sh: Shared, stored: StoredRequest, bytes: Terminal) {
    && (stored.jobId in sh.completions ==> sh.completions[stored.jobId] == bytes)
    && (stored.jobId in sh.completionRequests ==> sh.completionRequests[stored.jobId] == stored)
  }

  /** The attempt `stored` is the newest of its settlement's record and not sealed yet. */
  predicate Unsealed(sh: Shared, stored: StoredRequest) {
    var h := sh.History(WorkId(stored.request, None));
    h != [] && h[|h| - 1].value.stored == stored && !h[|h| - 1].value.completed
  }

  /** The record got one version more, sealed; both evidence objects and the shared settlement key hold
      the verified bytes; nothing else was written. */
  predicate SealedAndPublished(sh: Shared, t: Shared, stored: StoredRequest, bytes: Terminal, id: nat)
    requires bytes.Envelope? && bytes.artifact.Located? && Unsealed(sh, stored)
  {
    var w := WorkId(stored.request, None);
    var h := sh.History(w);
    var loc := bytes.artifact.locator;
    && t.works == sh.works[w := h + [Version(h[|h| - 1].value.(completed := true), id)]]
    && t.completions == sh.completions[stored.jobId := bytes]
    && t.completionRequests == sh.completionRequests[stored.jobId := stored]
    && loc !in sh.settlements && t.settlements == sh.settlements[loc := bytes]
    && t.verified == sh.verified + {(stored, bytes)}
    && t.ledger == sh.ledger && t.charges == sh.charges && t.launches == sh.launches && t.requests == sh.requests
  }

  lemma SettlesIsValid(cfg: Config, stored: StoredRequest, bytes: Terminal)
    requires SettlesRequest(cfg, stored, bytes)
    ensures VerifyCompletion(cfg, stored, bytes, Accept).Valid?
    ensures LocatorOf(cfg, bytes) == LocatorResult.Found(bytes.artifact.locator)
    ensures Names(stored.request, bytes.artifact.locator)
  {
  }

  lemma Accepted(cfg: Config, stored: StoredRequest, bytes: Terminal, e: Env)
    requires SettlesRequest(cfg, stored, bytes) && e.verdict.Accept?
    ensures VerifyCompletion(cfg, stored, bytes, e.verdict).Valid?
  {
    SettlesIsValid(cfg, stored, bytes);
  }

  lemma PublishedIsSealed(cfg: Config, sh: Shared, loc: Locator)
    requires Consistent(cfg, sh) && loc in sh.settlements
    ensures exists stored: StoredRequest ::
              Names(stored.request, loc) && Sealed(sh, WorkId(stored.request, None), stored)
  {
    hide Orderly, Paid, Documented;
    assert Published(cfg, sh, loc, sh.settlements[loc]);
  }

  /** A settlement whose record is not sealed is not published. */
  lemma UnsealedIsUnpublished(cfg: Config, sh: Shared, stored: StoredRequest, bytes: Terminal)
    requires Consistent(cfg, sh) && Unsealed(sh, stored) && SettlesRequest(cfg, stored, bytes)
    ensures bytes.artifact.locator !in sh.settlements
  {
    hide Consistent;
    if bytes.artifact.locator in sh.settlements {
      PublishedIsSealed(cfg, sh, bytes.artifact.locator);
    }
  }

  // ---- Retaining, sealing and publishing ----

  function Evidenced(sh: Shared, stored: StoredRequest, bytes: Terminal): Shared {
    sh.(completions := sh.completions[stored.jobId := bytes],
        completionRequests := sh.completionRequests[stored.jobId := stored],
        verified := sh.verified + {(stored, bytes)})
  }

  lemma Verifies(cfg: Config, id: nat, kind: Kind, started: nat, sh: Shared, stored: StoredRequest, bytes: Terminal,
                 after: After, e: Env, n: nat)
    requires n >= 1 && VerifyCompletion(cfg, stored, bytes, e.verdict).Valid?
    ensures Solo(cfg, id, kind, started, sh, Reverify(stored, bytes, after), e, n)
         == Solo(cfg, id, kind, started, sh.(verified := sh.verified + {(stored, bytes)}),
                 RetainBytes(stored, bytes, after), e, n - 1)
  {
    hide Solo, SubmitStep, OwnStep, PollStep, EvidenceStep, VerifyCompletion;
    SoloStep(cfg, id, kind, started, sh, Reverify(stored, bytes, after), e, n);
  }

  lemma KeepsBytes(cfg: Config, id: nat, kind: Kind, started: nat, sh: Shared, stored: StoredRequest, bytes: Terminal,
                   after: After, e: Env, n: nat)
    requires n >= 1 && Retainable(sh, stored, bytes)
    ensures Solo(cfg, id, kind, started, sh, RetainBytes(stored, bytes, after), e, n)
         == Solo(cfg, id, kind, started, sh.(completions := sh.completions[stored.jobId := bytes]),
                 RetainRequest(stored, bytes, after), e, n - 1)
  {
    hide Solo, SubmitStep, OwnStep, PollStep, VerifyStep, LocatorOf, Names, Swap;
    assert stored.jobId in sh.completions ==> sh.completions == sh.completions[stored.jobId := bytes];
    SoloStep(cfg, id, kind, started, sh, RetainBytes(stored, bytes, after), e, n);
  }

  lemma KeepsRequest(cfg: Config, id: nat, kind: Kind, started: nat, sh: Shared, stored: StoredRequest,
                     bytes: Terminal, after: After, e: Env, n: nat)
    requires n >= 1 && Retainable(sh, stored, bytes)
    ensures var pc := if after.Publish? then PublishCheck(stored, bytes)
                      else SealWork(stored, bytes, after.revision, after.current);
            Solo(cfg, id, kind, started, sh, RetainRequest(stored, bytes, after), e, n)
              == Solo(cfg, id, kind, started,
                      sh.(completionRequests := sh.completionRequests[stored.jobId := stored]), pc, e, n - 1)
  {
    hide Solo, SubmitStep, OwnStep, PollStep, VerifyStep, LocatorOf, Names, Swap;
    assert stored.jobId in sh.completionRequests ==>
        sh.completionRequests == sh.completionRequests[stored.jobId := stored];
    SoloStep(cfg, id, kind, started, sh, RetainRequest(stored, bytes, after), e, n);
  }

  /** From the last verification to both objects retained. */
  lemma Retains(cfg: Config, id: nat, kind: Kind, started: nat, sh: Shared, stored: StoredRequest, bytes: Terminal,
                after: After, e: Env, n: nat)
    requires n >= 3 && VerifyCompletion(cfg, stored, bytes, e.verdict).Valid? && Retainable(sh, stored, bytes)
    ensures var pc := if after.Publish? then PublishCheck(stored, bytes)
                      else SealWork(stored, bytes, after.revision, after.current);
            Solo(cfg, id, kind, started, sh, Reverify(stored, bytes, after), e, n)
              == Solo(cfg, id, kind, started, Evidenced(sh, stored, bytes), pc, e, n - 3)
  {
    hide Solo, VerifyCompletion;
    var sh1 := sh.(verified := sh.verified + {(stored, bytes)});
    var sh2 := sh1.(completions := sh.completions[stored.jobId := bytes]);
    Verifies(cfg, id, kind, started, sh, stored, bytes, after, e, n);
    KeepsBytes(cfg, id, kind, started, sh1, stored, bytes, after, e, n - 1);
    KeepsRequest(cfg, id, kind, started, sh2, stored, bytes, after, e, n - 2);
  }

  function WithSeal(sh: Shared, stored: StoredRequest, id: nat): Shared
    requires Unsealed(sh, stored)
  {
    var w := WorkId(stored.request, None);
    var h := sh.History(w);
    sh.Append(w, h[|h| - 1].value.(completed := true), id)
  }

  /** A sealed record's settlement gets its shared key. */
  lemma Publishes(cfg: Config, id: nat, kind: Kind, started: nat, sh: Shared, stored: StoredRequest, bytes: Terminal,
                  e: Env, n: nat)
    requires n >= 1 && SettlesRequest(cfg, stored, bytes) && bytes.artifact.locator !in sh.settlements
    ensures Solo(cfg, id, kind, started, sh, PublishCreate(stored, bytes), e, n)
         == (sh.(settlements := sh.settlements[bytes.artifact.locator := bytes]), Done)
  {
    SettlesIsValid(cfg, stored, bytes);
    hide Solo, SubmitStep, OwnStep, PollStep, VerifyStep, LocatorOf;
    SoloStep(cfg, id, kind, started, sh, PublishCreate(stored, bytes), e, n);
    SoloDone(cfg, id, kind, started, sh.(settlements := sh.settlements[bytes.artifact.locator := bytes]), e, n - 1);
  }

  lemma Checks(cfg: Config, id: nat, kind: Kind, started: nat, sh: Shared, stored: StoredRequest, bytes: Terminal,
               e: Env, n: nat)
    requires n >= 1 && SettlesRequest(cfg, stored, bytes) && stored.jobId.work.request == stored.request
    ensures Solo(cfg, id, kind, started, sh, PublishCheck(stored, bytes), e, n)
         == Solo(cfg, id, kind, started, sh, PublishRead(stored, bytes), e, n - 1)
  {
    SettlesIsValid(cfg, stored, bytes);
    hide Solo, SubmitStep, OwnStep, PollStep, VerifyStep, LocatorOf, Names;
    SoloStep(cfg, id, kind, started, sh, PublishCheck(stored, bytes), e, n);
  }

  lemma ReadsRecord(cfg: Config, id: nat, kind: Kind, started: nat, sh: Shared, stored: StoredRequest,
                    bytes: Terminal, e: Env, n: nat)
    requires n >= 1
    requires var h := sh.History(WorkId(stored.request, None)); h != [] && h[|h| - 1].value.stored == stored
    ensures var h := sh.History(WorkId(stored.request, None));
            var pc := if h[|h| - 1].value.completed then PublishCreate(stored, bytes)
                      else PublishSeal(stored, bytes, |h|, h[|h| - 1].value);
            Solo(cfg, id, kind, started, sh, PublishRead(stored, bytes), e, n)
              == Solo(cfg, id, kind, started, sh, pc, e, n - 1)
  {
    hide Solo, SubmitStep, OwnStep, PollStep, VerifyStep, LocatorOf, Names, Swap;
    SoloStep(cfg, id, kind, started, sh, PublishRead(stored, bytes), e, n);
  }

  lemma SealsRecord(cfg: Config, id: nat, kind: Kind, started: nat, sh: Shared, stored: StoredRequest,
                    bytes: Terminal, e: Env, n: nat)
    requires n >= 1 && e.reply.Truthful? && Unsealed(sh, stored)
    ensures var h := sh.History(WorkId(stored.request, None));
            && Solo(cfg, id, kind, started, sh, PublishSeal(stored, bytes, |h|, h[|h| - 1].value), e, n)
                 == Solo(cfg, id, kind, started, WithSeal(sh, stored, id), PublishCreate(stored, bytes), e, n - 1)
            && (stored.jobId.work == WorkId(stored.request, None) ==>
                  Solo(cfg, id, kind, started, sh, SealWork(stored, bytes, |h|, h[|h| - 1].value), e, n)
                    == Solo(cfg, id, kind, started, WithSeal(sh, stored, id), PublishCheck(stored, bytes), e, n - 1))
  {
    hide Solo, SubmitStep, OwnStep, PollStep, VerifyStep, LocatorOf, Names;
    var h := sh.History(WorkId(stored.request, None));
    SoloStep(cfg, id, kind, started, sh, PublishSeal(stored, bytes, |h|, h[|h| - 1].value), e, n);
    SoloStep(cfg, id, kind, started, sh, SealWork(stored, bytes, |h|, h[|h| - 1].value), e, n);
  }

  lemma WithSealIs(sh: Shared, stored: StoredRequest, id: nat)
    requires Unsealed(sh, stored)
    ensures var h := WithSeal(sh, stored, id).History(WorkId(stored.request, None));
            h != [] && h[|h| - 1].value.stored == stored && h[|h| - 1].value.completed
    ensures WithSeal(sh, stored, id).settlements == sh.settlements
  {
  }

  /** The submission seals the record it judged, and then publishes. */
  lemma SealsJudged(cfg: Config, id: nat, kind: Kind, started: nat, sh: Shared, stored: StoredRequest, bytes: Terminal,
                    e: Env, n: nat)
    requires n >= 4 && SettlesRequest(cfg, stored, bytes) && e.reply.Truthful? && Unsealed(sh, stored)
    requires stored.jobId.work == WorkId(stored.request, None) && bytes.artifact.locator !in sh.settlements
    ensures var h := sh.History(stored.jobId.work);
            Solo(cfg, id, kind, started, sh, SealWork(stored, bytes, |h|, h[|h| - 1].value), e, n).0
              == WithSeal(sh, stored, id).(settlements := sh.settlements[bytes.artifact.locator := bytes])
  {
    hide Solo, WithSeal;
    var sh1 := WithSeal(sh, stored, id);
    WithSealIs(sh, stored, id);
    SealsRecord(cfg, id, kind, started, sh, stored, bytes, e, n);
    Checks(cfg, id, kind, started, sh1, stored, bytes, e, n - 1);
    ReadsRecord(cfg, id, kind, started, sh1, stored, bytes, e, n - 2);
    Publishes(cfg, id, kind, started, sh1, stored, bytes, e, n - 3);
  }

  /** The poll seals on the way to publishing. */
  lemma SealsRead(cfg: Config, id: nat, kind: Kind, started: nat, sh: Shared, stored: StoredRequest, bytes: Terminal,
                  e: Env, n: nat)
    requires n >= 4 && SettlesRequest(cfg, stored, bytes) && e.reply.Truthful? && Unsealed(sh, stored)
    requires stored.jobId.work.request == stored.request && bytes.artifact.locator !in sh.settlements
    ensures Solo(cfg, id, kind, started, sh, PublishCheck(stored, bytes), e, n).0
         == WithSeal(sh, stored, id).(settlements := sh.settlements[bytes.artifact.locator := bytes])
  {
    hide Solo, WithSeal;
    WithSealIs(sh, stored, id);
    Checks(cfg, id, kind, started, sh, stored, bytes, e, n);
    ReadsRecord(cfg, id, kind, started, sh, stored, bytes, e, n - 1);
    SealsRecord(cfg, id, kind, started, sh, stored, bytes, e, n - 2);
    Publishes(cfg, id, kind, started, WithSeal(sh, stored, id), stored, bytes, e, n - 3);
  }

  lemma EvidencedStays(sh: Shared, stored: StoredRequest, bytes: Terminal)
    requires Unsealed(sh, stored)
    ensures Unsealed(Evidenced(sh, stored, bytes), stored)
    ensures Evidenced(sh, stored, bytes).History(WorkId(stored.request, None))
         == sh.History(WorkId(stored.request, None))
    ensures Evidenced(sh, stored, bytes).settlements == sh.settlements
  {
  }

  lemma EndsPublished(cfg: Config, sh: Shared, stored: StoredRequest, bytes: Terminal, id: nat)
    requires SettlesRequest(cfg, stored, bytes) && Unsealed(sh, stored) && bytes.artifact.locator !in sh.settlements
    ensures Unsealed(Evidenced(sh, stored, bytes), stored)
    ensures SealedAndPublished(sh, WithSeal(Evidenced(sh, stored, bytes), stored, id).(
                                     settlements := sh.settlements[bytes.artifact.locator := bytes]),
                               stored, bytes, id)
  {
    EvidencedStays(sh, stored, bytes);
  }

  // ---- A submission ----

  /** The newest attempt of a settlement's record has an acceptable completion. */
  predicate Completes(cfg: Config, sh: Shared, w: WorkId, e: Env) {
    var h := sh.History(w);
    h != [] &&
    var cur := h[|h| - 1].value;
    var found := Candidate(sh, cur.stored.jobId, e);
    && Readable(cur) && !cur.completed && found.Some? && SettlesRequest(cfg, cur.stored, found.value)
    && e.verdict.Accept? && Retainable(sh, cur.stored, found.value)
  }

  lemma CompletedIsVerified(cfg: Config, sh: Shared, w: WorkId, e: Env)
    requires Completes(cfg, sh, w, e)
    ensures var h := sh.History(w);
            var stored := NewestAttempt(sh, w).stored;
            Judged(cfg, w, Opened(cfg, sh, w, e), e)
              == Reverify(stored, Candidate(sh, stored.jobId, e).value, Seal(|h|, NewestAttempt(sh, w)))
  {
    var stored := NewestAttempt(sh, w).stored;
    SettlesIsValid(cfg, stored, Candidate(sh, stored.jobId, e).value);
  }

  lemma CompletedIsUnsealed(cfg: Config, sh: Shared, w: WorkId, e: Env)
    requires Completes(cfg, sh, w, e) && Orderly(w, sh.History(w)) && WellFormed(Submit(w))
    ensures var stored := NewestAttempt(sh, w).stored;
            && w == WorkId(stored.request, None) && stored.jobId.work == w && Unsealed(sh, stored)
            && Readable(NewestAttempt(sh, w))
            && SettlesRequest(cfg, stored, Candidate(sh, stored.jobId, e).value)
            && Retainable(sh, stored, Candidate(sh, stored.jobId, e).value) && e.verdict.Accept?
  {
    var h := sh.History(w);
    assert Belongs(w, h[|h| - 1].value);
  }

  /** The steps from judging to the shared key. */
  lemma CompletesHasRecord(cfg: Config, sh: Shared, w: WorkId, e: Env)
    requires Completes(cfg, sh, w, e)
    ensures sh.History(w) != [] && Candidate(sh, NewestAttempt(sh, w).stored.jobId, e).Some?
    ensures NewestAttempt(sh, w) == sh.History(w)[|sh.History(w)| - 1].value
  {
  }

  lemma SubmitSeals(cfg: Config, id: nat, w: WorkId, started: nat, sh: Shared, e: Env, n: nat)
    requires Completes(cfg, sh, w, e) && Consistent(cfg, sh) && WellFormed(Submit(w)) && e.reply.Truthful? && n >= 8
    ensures var stored := NewestAttempt(sh, w).stored;
            var bytes := Candidate(sh, stored.jobId, e).value;
            && Unsealed(sh, stored) && SettlesRequest(cfg, stored, bytes)
            && SealedAndPublished(sh, Solo(cfg, id, Submit(w), started, sh, Opened(cfg, sh, w, e), e, n).0,
                                  stored, bytes, id)
  {
    hide *;
    ConsistentRecords(cfg, sh);
    CompletesHasRecord(cfg, sh, w, e);
    var cur, bytes := NewestAttempt(sh, w), Candidate(sh, NewestAttempt(sh, w).stored.jobId, e).value;
    OrderlyHistory(cfg, sh, w);
    CompletedIsUnsealed(cfg, sh, w, e);
    UnsealedIsUnpublished(cfg, sh, cur.stored, bytes);
    EvidencedStays(sh, cur.stored, bytes);
    EndsPublished(cfg, sh, cur.stored, bytes, id);
    JudgesNext(cfg, id, w, started, sh, e, n);
    CompletedIsVerified(cfg, sh, w, e);
    Accepted(cfg, cur.stored, bytes, e);
    Retains(cfg, id, Submit(w), started, sh, cur.stored, bytes, Seal(|sh.History(w)|, cur), e, n - 1);
    SealsJudged(cfg, id, Submit(w), started, Evidenced(sh, cur.stored, bytes), cur.stored, bytes, e, n - 4);
  }

  lemma CalmIsTruthful(sh: Shared, e: Env)
    requires Calm(sh, e)
    ensures e.reply.Truthful? && ENOUGH == 20
  {
  }

  lemma PollIsWellFormed(job: JobId)
    ensures WellFormed(Poll(job)) && ENOUGH == 20
  {
  }

  /** An undisturbed submission of a settlement whose newest attempt has an acceptable completion seals
      that attempt and publishes its bytes. */
  lemma SubmitPublishes(cfg: Config, past: seq<Action>, id: nat, w: WorkId, e: Env)
    requires Runs(cfg, INITIAL, past) && WellFormed(Submit(w))
    requires var s := Outcome(cfg, INITIAL, past);
             id !in s.invocations && Calm(s.shared, e) && Completes(cfg, s.shared, w, e)
    ensures var s := Outcome(cfg, INITIAL, past);
            && Runs(cfg, s, Undisturbed(id, Submit(w), e))
            && var stored := NewestAttempt(s.shared, w).stored;
               var bytes := Candidate(s.shared, stored.jobId, e).value;
               && Unsealed(s.shared, stored) && SettlesRequest(cfg, stored, bytes)
               && SealedAndPublished(s.shared, Outcome(cfg, s, Undisturbed(id, Submit(w), e)).shared, stored, bytes, id)
  {
    hide *;
    ReachableIsSafe(cfg, past);
    var s := Outcome(cfg, INITIAL, past);
    SafeIsConsistent(cfg, s);
    ConsistentRecords(cfg, s.shared);
    OrderlyHistory(cfg, s.shared, w);
    CompletedIsUnsealed(cfg, s.shared, w, e);
    CalmIsTruthful(s.shared, e);
    CompletesHasRecord(cfg, s.shared, w, e);
    UndisturbedIsSolo(cfg, s, id, Submit(w), e);
    var k := Opens(cfg, id, w, s.shared.time, s.shared, e, ENOUGH);
    SubmitSeals(cfg, id, w, s.shared.time, s.shared, e, ENOUGH - k);
  }

  // ---- A poll ----

  /** The request that a poll verifies against: the retained one, or else the job's request object. */
  function PolledRequest(sh: Shared, job: JobId): Option<StoredRequest> {
    if job in sh.completionRequests then Some(sh.completionRequests[job])
    else if job in sh.requests then Some(sh.requests[job])
    else None
  }

  /** There is a completion, and a request to verify it against. */
  predicate Polls(sh: Shared, job: JobId, e: Env) {
    var found, stored := Candidate(sh, job, e), PolledRequest(sh, job);
    && Finished(found, job) && stored.Some? && stored.value.jobId == job && stored.value.Live(stored.value.createdAt)
  }

  predicate PollCompletes(cfg: Config, sh: Shared, job: JobId, e: Env) {
    var found, stored := Candidate(sh, job, e), PolledRequest(sh, job);
    && Polls(sh, job, e)
    && SettlesRequest(cfg, stored.value, found.value) && e.verdict.Accept?
    && Retainable(sh, stored.value, found.value) && Unsealed(sh, stored.value)
  }

  /** From the call to the verification. */
  lemma PollOpens(cfg: Config, id: nat, job: JobId, started: nat, sh: Shared, e: Env, n: nat) returns (k: nat)
    requires Polls(sh, job, e) && n >= 4
    ensures var stored, bytes := PolledRequest(sh, job).value, Candidate(sh, job, e).value;
            k <= 4 && Solo(cfg, id, Poll(job), started, sh, PollEvidence, e, n)
                   == Solo(cfg, id, Poll(job), started, sh, PollVerify(stored, bytes), e, n - k)
  {
    hide Solo, SubmitStep, OwnStep, EvidenceStep, VerifyStep;
    var stored, bytes := PolledRequest(sh, job).value, Candidate(sh, job, e).value;
    SoloStep(cfg, id, Poll(job), started, sh, PollEvidence, e, n);
    k := 1;
    if e.terminal.None? {
      SoloStep(cfg, id, Poll(job), started, sh, PollRetained, e, n - 1);
      k := 2;
    }
    SoloStep(cfg, id, Poll(job), started, sh, PollKept(bytes), e, n - k);
    k := k + 1;
    if job !in sh.completionRequests {
      SoloStep(cfg, id, Poll(job), started, sh, PollRequest(bytes), e, n - k);
      k := k + 1;
    }
  }

  /** A poll verifies as a submission does before it retains. */
  lemma PollVerifies(cfg: Config, id: nat, job: JobId, started: nat, sh: Shared, stored: StoredRequest,
                     bytes: Terminal, e: Env, n: nat)
    requires n >= 1
    ensures Solo(cfg, id, Poll(job), started, sh, PollVerify(stored, bytes), e, n)
         == Solo(cfg, id, Poll(job), started, sh, Reverify(stored, bytes, Publish), e, n)
  {
    hide Solo, SubmitStep, OwnStep, EvidenceStep, VerifyStep;
    SoloStep(cfg, id, Poll(job), started, sh, PollVerify(stored, bytes), e, n);
    SoloStep(cfg, id, Poll(job), started, sh, Reverify(stored, bytes, Publish), e, n);
  }

  lemma PolledIsUnsealed(cfg: Config, sh: Shared, job: JobId, e: Env)
    requires PollCompletes(cfg, sh, job, e)
    ensures var stored, bytes := PolledRequest(sh, job).value, Candidate(sh, job, e).value;
            && stored.jobId.work.request == stored.request && Unsealed(sh, stored) && SettlesRequest(cfg, stored, bytes)
            && Retainable(sh, stored, bytes) && e.verdict.Accept? && Polls(sh, job, e)
  {
  }

  lemma PollHasBoth(cfg: Config, sh: Shared, job: JobId, e: Env)
    requires PollCompletes(cfg, sh, job, e)
    ensures Candidate(sh, job, e).Some? && PolledRequest(sh, job).Some?
  {
  }

  lemma PollSeals(cfg: Config, id: nat, job: JobId, started: nat, sh: Shared, e: Env, n: nat)
    requires PollCompletes(cfg, sh, job, e) && Consistent(cfg, sh) && e.reply.Truthful? && n >= 7
    ensures var stored, bytes := PolledRequest(sh, job).value, Candidate(sh, job, e).value;
            && Unsealed(sh, stored) && SettlesRequest(cfg, stored, bytes)
            && SealedAndPublished(sh, Solo(cfg, id, Poll(job), started, sh, PollVerify(stored, bytes), e, n).0,
                                  stored, bytes, id)
  {
    hide *;
    PollHasBoth(cfg, sh, job, e);
    var stored, bytes := PolledRequest(sh, job).value, Candidate(sh, job, e).value;
    PolledIsUnsealed(cfg, sh, job, e);
    UnsealedIsUnpublished(cfg, sh, stored, bytes);
    EvidencedStays(sh, stored, bytes);
    EndsPublished(cfg, sh, stored, bytes, id);
    PollVerifies(cfg, id, job, started, sh, stored, bytes, e, n);
    Accepted(cfg, stored, bytes, e);
    Retains(cfg, id, Poll(job), started, sh, stored, bytes, Publish, e, n);
    SealsRead(cfg, id, Poll(job), started, Evidenced(sh, stored, bytes), stored, bytes, e, n - 3);
  }

  /** An undisturbed poll of a settlement job with an acceptable completion does the same. */
  lemma PollPublishes(cfg: Config, past: seq<Action>, id: nat, job: JobId, e: Env)
    requires Runs(cfg, INITIAL, past)
    requires var s := Outcome(cfg, INITIAL, past);
             id !in s.invocations && e.reply.Truthful? && PollCompletes(cfg, s.shared, job, e)
    ensures var s := Outcome(cfg, INITIAL, past);
            && Runs(cfg, s, Undisturbed(id, Poll(job), e))
            && var stored, bytes := PolledRequest(s.shared, job).value, Candidate(s.shared, job, e).value;
               && Unsealed(s.shared, stored) && SettlesRequest(cfg, stored, bytes)
               && SealedAndPublished(s.shared, Outcome(cfg, s, Undisturbed(id, Poll(job), e)).shared, stored, bytes, id)
  {
    hide *;
    ReachableIsSafe(cfg, past);
    var s := Outcome(cfg, INITIAL, past);
    SafeIsConsistent(cfg, s);
    PolledIsUnsealed(cfg, s.shared, job, e);
    PollIsWellFormed(job);
    UndisturbedIsSolo(cfg, s, id, Poll(job), e);
    var k := PollOpens(cfg, id, job, s.shared.time, s.shared, e, ENOUGH);
    PollSeals(cfg, id, job, s.shared.time, s.shared, e, ENOUGH - k);
  }

  // ---- A record that is sealed already ----

  /** The attempt `stored` is the newest of its settlement's record, and sealed. */
  predicate IsSealed(sh: Shared, stored: StoredRequest) {
    var h := sh.History(WorkId(stored.request, None));
    h != [] && h[|h| - 1].value.stored == stored && h[|h| - 1].value.completed
  }

  /** The shared key is written if it was missing; beyond that only the verification is new. */
  function Republished(sh: Shared, stored: StoredRequest, bytes: Terminal): Shared
    requires bytes.Envelope? && bytes.artifact.Located?
  {
    var loc := bytes.artifact.locator;
    var t := Evidenced(sh, stored, bytes);
    if loc in sh.settlements then t else t.(settlements := sh.settlements[loc := bytes])
  }

  lemma PublishesSealed(cfg: Config, id: nat, kind: Kind, started: nat, sh: Shared, stored: StoredRequest,
                        bytes: Terminal, e: Env, n: nat)
    requires n >= 6 && SettlesRequest(cfg, stored, bytes) && e.verdict.Accept? && Retainable(sh, stored, bytes)
    requires IsSealed(sh, stored) && stored.jobId.work.request == stored.request
    ensures Solo(cfg, id, kind, started, sh, Reverify(stored, bytes, Publish), e, n)
         == (Republished(sh, stored, bytes), Done)
  {
    hide Solo, SettlesRequest;
    var t := Evidenced(sh, stored, bytes);
    assert t.History(WorkId(stored.request, None)) == sh.History(WorkId(stored.request, None));
    Accepted(cfg, stored, bytes, e);
    Retains(cfg, id, kind, started, sh, stored, bytes, Publish, e, n);
    Checks(cfg, id, kind, started, t, stored, bytes, e, n - 3);
    ReadsRecord(cfg, id, kind, started, t, stored, bytes, e, n - 4);
    CreatesKey(cfg, id, kind, started, t, stored, bytes, e, n - 5);
  }

  lemma CreatesKey(cfg: Config, id: nat, kind: Kind, started: nat, sh: Shared, stored: StoredRequest, bytes: Terminal,
                   e: Env, n: nat)
    requires n >= 1 && SettlesRequest(cfg, stored, bytes)
    ensures var loc := bytes.artifact.locator;
            Solo(cfg, id, kind, started, sh, PublishCreate(stored, bytes), e, n)
              == (if loc in sh.settlements then sh else sh.(settlements := sh.settlements[loc := bytes]), Done)
  {
    if bytes.artifact.locator !in sh.settlements {
      Publishes(cfg, id, kind, started, sh, stored, bytes, e, n);
    } else {
      SettlesIsValid(cfg, stored, bytes);
      hide Solo, SubmitStep, OwnStep, PollStep, VerifyStep, LocatorOf;
      SoloStep(cfg, id, kind, started, sh, PublishCreate(stored, bytes), e, n);
      SoloDone(cfg, id, kind, started, sh, e, n - 1);
    }
  }

  /** The newest attempt of a settlement's record is sealed, and its completion still verifies. */
  predicate SealedCompletes(cfg: Config, sh: Shared, w: WorkId, e: Env) {
    var h := sh.History(w);
    h != [] &&
    var cur := h[|h| - 1].value;
    var found := Candidate(sh, cur.stored.jobId, e);
    && Readable(cur) && cur.completed && found.Some? && SettlesRequest(cfg, cur.stored, found.value)
    && e.verdict.Accept? && Retainable(sh, cur.stored, found.value)
  }

  lemma SealedIsVerified(cfg: Config, sh: Shared, w: WorkId, e: Env)
    requires SealedCompletes(cfg, sh, w, e) && Orderly(w, sh.History(w)) && WellFormed(Submit(w))
    ensures sh.History(w) != [] && Readable(NewestAttempt(sh, w))
    ensures NewestAttempt(sh, w) == sh.History(w)[|sh.History(w)| - 1].value
    ensures var stored := NewestAttempt(sh, w).stored;
            var found := Candidate(sh, stored.jobId, e);
            && found.Some? && SettlesRequest(cfg, stored, found.value) && e.verdict.Accept?
            && Retainable(sh, stored, found.value)
            && IsSealed(sh, stored) && stored.jobId.work.request == stored.request
            && Judged(cfg, w, Opened(cfg, sh, w, e), e) == Reverify(stored, found.value, Publish)
  {
    var h := sh.History(w);
    assert Belongs(w, h[|h| - 1].value);
  }

  /** An undisturbed submission of a sealed settlement publishes it if that is still missing. */
  lemma SubmitRepublishes(cfg: Config, past: seq<Action>, id: nat, w: WorkId, e: Env)
    requires Runs(cfg, INITIAL, past) && WellFormed(Submit(w))
    requires var s := Outcome(cfg, INITIAL, past);
             id !in s.invocations && Calm(s.shared, e) && SealedCompletes(cfg, s.shared, w, e)
    ensures var s := Outcome(cfg, INITIAL, past);
            && Runs(cfg, s, Undisturbed(id, Submit(w), e))
            && var stored := NewestAttempt(s.shared, w).stored;
               var bytes := Candidate(s.shared, stored.jobId, e).value;
               && SettlesRequest(cfg, stored, bytes)
               && Outcome(cfg, s, Undisturbed(id, Submit(w), e)).shared == Republished(s.shared, stored, bytes)
  {
    hide *;
    ReachableIsSafe(cfg, past);
    var s := Outcome(cfg, INITIAL, past);
    SafeIsConsistent(cfg, s);
    ConsistentRecords(cfg, s.shared);
    OrderlyHistory(cfg, s.shared, w);
    SealedIsVerified(cfg, s.shared, w, e);
    CalmIsTruthful(s.shared, e);
    UndisturbedIsSolo(cfg, s, id, Submit(w), e);
    var k := Opens(cfg, id, w, s.shared.time, s.shared, e, ENOUGH);
    JudgesNext(cfg, id, w, s.shared.time, s.shared, e, ENOUGH - k);
    var stored := NewestAttempt(s.shared, w).stored;
    PublishesSealed(cfg, id, Submit(w), s.shared.time, s.shared, stored,
                    Candidate(s.shared, stored.jobId, e).value, e, ENOUGH - k - 1);
  }

  /** A poll of a sealed settlement does the same. */
  lemma PollRepublishes(cfg: Config, past: seq<Action>, id: nat, job: JobId, e: Env)
    requires Runs(cfg, INITIAL, past)
    requires var s := Outcome(cfg, INITIAL, past);
             var found, stored := Candidate(s.shared, job, e), PolledRequest(s.shared, job);
             && id !in s.invocations && Polls(s.shared, job, e) && SettlesRequest(cfg, stored.value, found.value)
             && e.verdict.Accept? && Retainable(s.shared, stored.value, found.value)
             && IsSealed(s.shared, stored.value)
    ensures var s := Outcome(cfg, INITIAL, past);
            && Runs(cfg, s, Undisturbed(id, Poll(job), e))
            && Outcome(cfg, s, Undisturbed(id, Poll(job), e)).shared
                 == Republished(s.shared, PolledRequest(s.shared, job).value, Candidate(s.shared, job, e).value)
  {
    hide Solo, Undisturbed, SealedAndPublished, SettlesRequest, Republished, Retainable, IsSealed;
    var s := Outcome(cfg, INITIAL, past);
    var stored, bytes := PolledRequest(s.shared, job).value, Candidate(s.shared, job, e).value;
    UndisturbedIsSolo(cfg, s, id, Poll(job), e);
    var k := PollOpens(cfg, id, job, s.shared.time, s.shared, e, ENOUGH);
    PollVerifies(cfg, id, job, s.shared.time, s.shared, stored, bytes, e, ENOUGH - k);
    PublishesSealed(cfg, id, Poll(job), s.shared.time, s.shared, stored, bytes, e, ENOUGH - k);
  }

  // ---- Opening advice ----

  /** The newest attempt of an open request has its completion. */
  predicate OpenCompletes(sh: Shared, w: WorkId, e: Env) {
    var h := sh.History(w);
    h != [] &&
    var cur := h[|h| - 1].value;
    var found := Candidate(sh, cur.stored.jobId, e);
    && Readable(cur) && !cur.completed && cur.stored.request.Open? && Finished(found, cur.stored.jobId)
    && Retainable(sh, cur.stored, found.value)
  }

  /** The record got one version more, sealed, and both evidence objects are there; there is nothing to
      publish. */
  predicate OnlySealed(sh: Shared, t: Shared, w: WorkId, bytes: Terminal, id: nat)
    requires sh.History(w) != []
  {
    var h, stored := sh.History(w), NewestAttempt(sh, w).stored;
    && t.works == sh.works[w := h + [Version(h[|h| - 1].value.(completed := true), id)]]
    && t.completions == sh.completions[stored.jobId := bytes]
    && t.completionRequests == sh.completionRequests[stored.jobId := stored]
    && t.settlements == sh.settlements && t.verified == sh.verified + {(stored, bytes)}
    && t.ledger == sh.ledger && t.charges == sh.charges && t.launches == sh.launches && t.requests == sh.requests
  }

  lemma OpenIsVerified(cfg: Config, sh: Shared, w: WorkId, e: Env)
    requires OpenCompletes(sh, w, e) && Orderly(w, sh.History(w))
    ensures var h := sh.History(w);
            var stored := NewestAttempt(sh, w).stored;
            var bytes := Candidate(sh, stored.jobId, e).value;
            && Judged(cfg, w, Opened(cfg, sh, w, e), e) == Reverify(stored, bytes, Seal(|h|, NewestAttempt(sh, w)))
            && VerifyCompletion(cfg, stored, bytes, e.verdict).Valid? && Retainable(sh, stored, bytes)
            && stored.jobId.work == w && stored.request.Open?
  {
    var h := sh.History(w);
    assert Belongs(w, h[|h| - 1].value);
  }

  lemma ChecksOpen(cfg: Config, id: nat, kind: Kind, started: nat, sh: Shared, stored: StoredRequest, bytes: Terminal,
                   e: Env, n: nat)
    requires n >= 1 && stored.request.Open?
    ensures Solo(cfg, id, kind, started, sh, PublishCheck(stored, bytes), e, n).0 == sh
  {
    hide Solo, SubmitStep, OwnStep, PollStep, VerifyStep, LocatorOf;
    SoloStep(cfg, id, kind, started, sh, PublishCheck(stored, bytes), e, n);
    SoloDone(cfg, id, kind, started, sh, e, n - 1);
  }

  lemma SealsOpen(cfg: Config, id: nat, kind: Kind, started: nat, sh: Shared, w: WorkId, stored: StoredRequest,
                  bytes: Terminal, e: Env, n: nat)
    requires n >= 2 && e.reply.Truthful? && stored.jobId.work == w && stored.request.Open? && sh.History(w) != []
    ensures var cur := NewestAttempt(sh, w);
            Solo(cfg, id, kind, started, sh, SealWork(stored, bytes, |sh.History(w)|, cur), e, n).0
              == sh.Append(w, cur.(completed := true), id)
  {
    hide Solo, SubmitStep, OwnStep, PollStep, VerifyStep, LocatorOf, Names;
    var cur := NewestAttempt(sh, w);
    SoloStep(cfg, id, kind, started, sh, SealWork(stored, bytes, |sh.History(w)|, cur), e, n);
    ChecksOpen(cfg, id, kind, started, sh.Append(w, cur.(completed := true), id), stored, bytes, e, n - 1);
  }

  lemma EndsSealed(sh: Shared, w: WorkId, bytes: Terminal, id: nat)
    requires sh.History(w) != []
    ensures var cur := NewestAttempt(sh, w);
            var t := Evidenced(sh, cur.stored, bytes);
            && t.History(w) == sh.History(w) && NewestAttempt(t, w) == cur
            && OnlySealed(sh, t.Append(w, cur.(completed := true), id), w, bytes, id)
  {
  }

  lemma OpenHasRecord(sh: Shared, w: WorkId, e: Env)
    requires OpenCompletes(sh, w, e)
    ensures sh.History(w) != [] && Candidate(sh, NewestAttempt(sh, w).stored.jobId, e).Some?
    ensures Readable(NewestAttempt(sh, w)) && Readable(sh.History(w)[|sh.History(w)| - 1].value)
    ensures NewestAttempt(sh, w) == sh.History(w)[|sh.History(w)| - 1].value
  {
  }

  /** An undisturbed submission of an open request whose newest attempt has its completion retains the
      evidence and seals that attempt. */
  lemma SubmitSealsOpen(cfg: Config, past: seq<Action>, id: nat, w: WorkId, e: Env)
    requires Runs(cfg, INITIAL, past) && WellFormed(Submit(w))
    requires var s := Outcome(cfg, INITIAL, past);
             id !in s.invocations && Calm(s.shared, e) && OpenCompletes(s.shared, w, e)
    ensures var s := Outcome(cfg, INITIAL, past);
            && Runs(cfg, s, Undisturbed(id, Submit(w), e))
            && s.shared.History(w) != []
            && var bytes := Candidate(s.shared, NewestAttempt(s.shared, w).stored.jobId, e);
               && bytes.Some?
               && OnlySealed(s.shared, Outcome(cfg, s, Undisturbed(id, Submit(w), e)).shared, w, bytes.value, id)
  {
    hide *;
    ReachableIsSafe(cfg, past);
    var s := Outcome(cfg, INITIAL, past);
    var sh, at := s.shared, s.shared.time;
    SafeIsConsistent(cfg, s);
    ConsistentRecords(cfg, sh);
    OrderlyHistory(cfg, sh, w);
    OpenHasRecord(sh, w, e);
    CalmIsTruthful(sh, e);
    UndisturbedIsSolo(cfg, s, id, Submit(w), e);
    var k := Opens(cfg, id, w, at, sh, e, ENOUGH);
    JudgesNext(cfg, id, w, at, sh, e, ENOUGH - k);
    OpenIsVerified(cfg, sh, w, e);
    var cur := NewestAttempt(sh, w);
    var bytes := Candidate(sh, cur.stored.jobId, e).value;
    Retains(cfg, id, Submit(w), at, sh, cur.stored, bytes, Seal(|sh.History(w)|, cur), e, ENOUGH - k - 1);
    EndsSealed(sh, w, bytes, id);
    SealsOpen(cfg, id, Submit(w), at, Evidenced(sh, cur.stored, bytes), w, cur.stored, bytes, e, ENOUGH - k - 4);
  }

  /** A poll of such a job only retains the evidence: sealing is left to the next submission. */
  lemma PollRetainsOpen(cfg: Config, past: seq<Action>, id: nat, job: JobId, e: Env)
    requires Runs(cfg, INITIAL, past)
    requires var s := Outcome(cfg, INITIAL, past);
             var found, stored := Candidate(s.shared, job, e), PolledRequest(s.shared, job);
             && id !in s.invocations && Polls(s.shared, job, e) && stored.value.request.Open?
             && Retainable(s.shared, stored.value, found.value)
    ensures var s := Outcome(cfg, INITIAL, past);
            && Runs(cfg, s, Undisturbed(id, Poll(job), e))
            && Outcome(cfg, s, Undisturbed(id, Poll(job), e)).shared
                 == Evidenced(s.shared, PolledRequest(s.shared, job).value, Candidate(s.shared, job, e).value)
  {
    var s := Outcome(cfg, INITIAL, past);
    var sh, at := s.shared, s.shared.time;
    var stored, bytes := PolledRequest(sh, job).value, Candidate(sh, job, e).value;
    hide Solo, Undisturbed, Retainable, Evidenced;
    PollIsWellFormed(job);
    UndisturbedIsSolo(cfg, s, id, Poll(job), e);
    var k := PollOpens(cfg, id, job, at, sh, e, ENOUGH);
    PollVerifies(cfg, id, job, at, sh, stored, bytes, e, ENOUGH - k);
    Retains(cfg, id, Poll(job), at, sh, stored, bytes, Publish, e, ENOUGH - k);
    ChecksOpen(cfg, id, Poll(job), at, Evidenced(sh, stored, bytes), stored, bytes, e, ENOUGH - k - 3);
  }
}
