/** What every step of every invocation keeps, whatever the clock readings: a rely/guarantee
    proof. `Consistent` is about the store, `Sound` about one invocation's local state, and
    `Grows` is what any step promises to all other invocations. */
module JobInvariant {
  import opened Wrappers
  import opened JobTypes
  import opened AdmissionLedger
  import opened JobMachine

  // ---- One work record ----

  /** `b` may replace `a` in a work record. */
  predicate Succeeds(a: WorkAttempt, b: WorkAttempt) {
    && !a.completed
    && (|| (b.generation == a.generation + 1 && !b.launched && !b.completed && !b.admissionDenied)
        || (!a.launched && !a.admissionDenied && a.launchRetryAt < b.launchRetryAt
            && b == a.(launchRetryAt := b.launchRetryAt))
        || (!a.launched && b == a.(launched := true))
        || (!a.admissionDenied && b == a.(admissionDenied := true))
        || b == a.(completed := true))
  }

  /** The strict order in which a record's versions appear. */
  predicate Before(a: WorkAttempt, b: WorkAttempt) {
    || a.generation < b.generation
    || (&& a.generation == b.generation && a.stored == b.stored && a != b
        && a.launchRetryAt <= b.launchRetryAt
        && (a.launched ==> b.launched) && (a.completed ==> b.completed)
        && (a.admissionDenied ==> b.admissionDenied))
  }

  predicate Belongs(w: WorkId, a: WorkAttempt) {
    a.stored.jobId == JobId(w, a.generation)
  }

  predicate Orderly(w: WorkId, h: seq<Version>) {
    && (forall k :: 0 <= k < |h| ==> Belongs(w, h[k].value))
    && (forall j, k :: 0 <= j < k < |h| ==> Before(h[j].value, h[k].value))
    && (forall k :: 0 <= k < |h| - 1 ==> !h[k].value.completed)
  }

  /** `a` was the content of record `w` at revision `rev`. */
  predicate ReadAt(sh: Shared, w: WorkId, rev: nat, a: WorkAttempt) {
    var h := sh.History(w);
    1 <= rev <= |h| && h[rev - 1].value == a
  }

  /** The record of `w` is completed, for the attempt `stored`. */
  predicate Sealed(sh: Shared, w: WorkId, stored: StoredRequest) {
    var h := sh.History(w);
    h != [] && h[|h| - 1].value.completed && h[|h| - 1].value.stored == stored
  }

  /** `a` may be the next version of record `w` if its revision still is `rev`. */
  predicate Writable(sh: Shared, w: WorkId, rev: nat, a: WorkAttempt) {
    var h := sh.History(w);
    && Belongs(w, a) && !a.launched && !a.completed && !a.admissionDenied
    && rev <= |h|
    && (rev > 0 ==> Succeeds(h[rev - 1].value, a))
  }

  // ---- Evidence ----

  /** What a successful verification established about the bytes. */
  predicate Evidence(cfg: Config, stored: StoredRequest, bytes: Terminal) {
    && Parses(bytes, stored.jobId)
    && (stored.request.Settlement? ==>
          var loc := LocatorOf(cfg, bytes);
          loc.Found? && Names(stored.request, loc.locator) && loc.locator.defiInsurance == cfg.defiInsurance)
  }

  /** Both immutable evidence objects exist, with verified bytes. */
  predicate Retained(sh: Shared, stored: StoredRequest, bytes: Terminal) {
    var job := stored.jobId;
    && job in sh.completions && sh.completions[job] == bytes
    && job in sh.completionRequests && sh.completionRequests[job] == stored
    && (stored, bytes) in sh.verified
  }

  predicate Proven(sh: Shared, stored: StoredRequest) {
    stored.jobId in sh.completions && Retained(sh, stored, sh.completions[stored.jobId])
  }

  /** The bytes under a shared settlement key are those retained for the attempt that sealed
      the incident's work record. */
  predicate Published(cfg: Config, sh: Shared, loc: Locator, bytes: Terminal) {
    && LocatorOf(cfg, bytes) == Found(loc)
    && bytes.jobId in sh.completionRequests
    && var stored := sh.completionRequests[bytes.jobId];
       && stored.jobId == bytes.jobId
       && Names(stored.request, loc)
       && Retained(sh, stored, bytes)
       && Sealed(sh, WorkId(stored.request, None), stored)
  }

  predicate RecordsOk(sh: Shared) {
    forall w :: w in sh.works ==> Orderly(w, sh.works[w])
  }

  ghost predicate SealsOk(sh: Shared) {
    forall w, stored :: Sealed(sh, w, stored) ==> Proven(sh, stored)
  }

  predicate SettlementsOk(cfg: Config, sh: Shared) {
    forall loc :: loc in sh.settlements ==> Published(cfg, sh, loc, sh.settlements[loc])
  }

  predicate VerifiedOk(cfg: Config, sh: Shared) {
    forall p :: p in sh.verified ==> Evidence(cfg, p.0, p.1)
  }

  /** The record has had this attempt. */
  predicate Attempted(sh: Shared, stored: StoredRequest) {
    var h := sh.History(stored.jobId.work);
    exists k :: 0 <= k < |h| && h[k].value.stored == stored
  }

  /** The reservation's deadline is that of an attempt in the record. */
  predicate Deadline(sh: Shared, job: JobId, until: nat) {
    var h := sh.History(job.work);
    exists k :: 0 <= k < |h| && h[k].value.stored.jobId == job && h[k].value.stored.LaunchUntil() == until
  }

  predicate ReservedOk(sh: Shared) {
    && (forall job :: job in sh.reserved ==> Deadline(sh, job, sh.reserved[job]))
    && (forall slot :: slot in sh.ledger.reservations ==>
          slot.jobId in sh.reserved && sh.reserved[slot.jobId] == slot.launchUntil)
  }

  predicate RequestsOk(sh: Shared) {
    forall job :: job in sh.requests ==> sh.requests[job].jobId == job && Attempted(sh, sh.requests[job])
  }

  /** Requests and reservations are those of attempts in the records. */
  predicate Documented(sh: Shared) {
    RequestsOk(sh) && ReservedOk(sh)
  }

  /** Every committed charge was made for a job, and the charged jobs are those ever reserved:
      the ones with a slot or a launch are among them. */
  ghost predicate Paid(sh: Shared) {
    && |sh.payers| == |sh.charges|
    && (forall job :: job in sh.reserved <==> job in sh.payers)
    && sh.launches <= sh.reserved.Keys
  }

  ghost predicate Consistent(cfg: Config, sh: Shared) {
    && RecordsOk(sh)
    && SealsOk(sh)
    && SettlementsOk(cfg, sh)
    && VerifiedOk(cfg, sh)
    && Accounted(cfg, sh.ledger, sh.charges)
    && Paid(sh) && Documented(sh)
  }

  // ---- One invocation ----

  predicate SoundStage(sh: Shared, job: JobId, stage: Stage) {
    match stage
    case Decide(rev, ledger) =>
      && rev <= sh.ledgerRevision && (rev == sh.ledgerRevision ==> ledger == sh.ledger)
      && (forall slot :: slot in ledger.reservations ==> slot.jobId in sh.reserved)
    case Commit(rev, ledger, _, _) => rev <= sh.ledgerRevision && (rev == sh.ledgerRevision ==> ledger == sh.ledger)
    case ReadFresh => job in sh.reserved
    case CheckFresh(same) => job in sh.reserved
    case Launch => job in sh.reserved
    case _ => true
  }

  /** The invocation owns version `rev` of the record: it wrote it. */
  predicate Owns(sh: Shared, i: nat, w: WorkId, rev: nat, mine: WorkAttempt) {
    && ReadAt(sh, w, rev, mine) && sh.History(w)[rev - 1].author == i
    && !mine.launched && !mine.completed && !mine.admissionDenied
  }

  predicate SoundSeal(sh: Shared, w: WorkId, rev: nat, cur: WorkAttempt, stored: StoredRequest) {
    ReadAt(sh, w, rev, cur) && !cur.completed && cur.stored == stored
  }

  predicate SoundAfter(sh: Shared, stored: StoredRequest, after: After) {
    after.Seal? ==> SoundSeal(sh, stored.jobId.work, after.revision, after.current, stored)
  }

  /** The bytes locate the settlement that the request asked for. */
  predicate Publishable(cfg: Config, stored: StoredRequest, bytes: Terminal) {
    var loc := LocatorOf(cfg, bytes);
    loc.Found? && Names(stored.request, loc.locator) && bytes.jobId == stored.jobId
  }

  predicate SoundPc(cfg: Config, sh: Shared, i: nat, kind: Kind, pc: Pc) {
    match pc
    case Start => true
    case ReadWork(_) => true
    case ReadEvidence(_, rev, cur) => kind.Submit? && ReadAt(sh, kind.work, rev, cur)
    case ReadRetained(_, rev, cur) => kind.Submit? && ReadAt(sh, kind.work, rev, cur)
    case Reverify(stored, bytes, after) => Parses(bytes, stored.jobId) && SoundAfter(sh, stored, after)
    case Judge(_, rev, cur, _) => kind.Submit? && ReadAt(sh, kind.work, rev, cur)
    case Precheck(rev, mine) => kind.Submit? && Writable(sh, kind.work, rev, mine)
    case WriteWork(rev, mine) => kind.Submit? && Writable(sh, kind.work, rev, mine)
    case Own(rev, mine, stage) => kind.Submit? && Owns(sh, i, kind.work, rev, mine)
      && SoundStage(sh, mine.stored.jobId, stage)
    case RetainBytes(stored, bytes, after) => (stored, bytes) in sh.verified && SoundAfter(sh, stored, after)
    case RetainRequest(stored, bytes, after) =>
      && (stored, bytes) in sh.verified && SoundAfter(sh, stored, after)
      && stored.jobId in sh.completions && sh.completions[stored.jobId] == bytes
    case SealWork(stored, bytes, rev, cur) =>
      Retained(sh, stored, bytes) && SoundSeal(sh, stored.jobId.work, rev, cur, stored)
    case PublishCheck(stored, bytes) => Retained(sh, stored, bytes)
    case PublishRead(stored, bytes) => Retained(sh, stored, bytes) && Publishable(cfg, stored, bytes)
    case PublishSeal(stored, bytes, rev, cur) =>
      && Retained(sh, stored, bytes) && Publishable(cfg, stored, bytes)
      && SoundSeal(sh, WorkId(stored.request, None), rev, cur, stored)
    case PublishCreate(stored, bytes) =>
      && Retained(sh, stored, bytes) && Publishable(cfg, stored, bytes)
      && Sealed(sh, WorkId(stored.request, None), stored)
    case PollEvidence => true
    case PollRetained => true
    case PollKept(bytes) => kind.Poll? && Parses(bytes, kind.job)
    case PollRequest(bytes) => kind.Poll? && Parses(bytes, kind.job)
    case PollVerify(stored, bytes) => kind.Poll? && Parses(bytes, kind.job) && stored.jobId == kind.job
    case Done => true
  }

  // ---- What a step promises to everyone else ----

  ghost predicate KeepsMap<K, V>(m: map<K, V>, m': map<K, V>) {
    forall k :: k in m ==> k in m' && m'[k] == m[k]
  }

  predicate GrowsRecord(h: seq<Version>, h': seq<Version>) {
    && h <= h'
    && (h != [] && h[|h| - 1].value.completed ==> h' == h)
  }

  ghost predicate GrowsRecords(sh: Shared, sh': Shared) {
    forall w :: GrowsRecord(sh.History(w), sh'.History(w))
  }

  ghost predicate GrowsEvidence(sh: Shared, sh': Shared) {
    && KeepsMap(sh.completions, sh'.completions)
    && KeepsMap(sh.completionRequests, sh'.completionRequests)
    && KeepsMap(sh.settlements, sh'.settlements)
    && sh.verified <= sh'.verified
  }

  predicate GrowsLedger(sh: Shared, sh': Shared) {
    && (|| (sh'.ledgerRevision == sh.ledgerRevision && sh'.ledger == sh.ledger)
        || sh'.ledgerRevision > sh.ledgerRevision)
    && sh.reserved.Keys <= sh'.reserved.Keys
  }

  ghost predicate Grows(sh: Shared, sh': Shared) {
    GrowsRecords(sh, sh') && GrowsEvidence(sh, sh') && GrowsLedger(sh, sh')
  }

  /** A promise kept by others cannot invalidate an invocation's local state. */
  lemma SoundIsStable(cfg: Config, sh: Shared, sh': Shared, i: nat, kind: Kind, pc: Pc)
    requires SoundPc(cfg, sh, i, kind, pc) && Grows(sh, sh')
    ensures SoundPc(cfg, sh', i, kind, pc)
  {
    if kind.Submit? {
      assert GrowsRecord(sh.History(kind.work), sh'.History(kind.work));
    }
    if pc.RetainBytes? || pc.RetainRequest? || pc.SealWork? || pc.PublishSeal? || pc.PublishCreate? {
      assert GrowsRecord(sh.History(pc.stored.jobId.work), sh'.History(pc.stored.jobId.work));
      var w := WorkId(pc.stored.request, None);
      assert GrowsRecord(sh.History(w), sh'.History(w));
    }
  }

  // ---- Steps that write a work record ----

  lemma BeforeIsTransitive(a: WorkAttempt, b: WorkAttempt, c: WorkAttempt)
    requires Before(a, b) && Before(b, c)
    ensures Before(a, c)
  {
  }

  lemma AppendKeepsOrder(w: WorkId, h: seq<Version>, v: Version)
    requires Orderly(w, h) && Belongs(w, v.value)
    requires h != [] ==> Succeeds(h[|h| - 1].value, v.value)
    ensures Orderly(w, h + [v])
  {
    if h != [] {
      var last := h[|h| - 1].value;
      assert Before(last, v.value);
      forall j | 0 <= j < |h| ensures Before(h[j].value, v.value) {
        if j < |h| - 1 {
          BeforeIsTransitive(h[j].value, last, v.value);
        }
      }
    }
  }

  /** Versions of one record never repeat: equal contents mean equal revisions. */
  lemma ContentsIdentifyRevision(w: WorkId, h: seq<Version>, rev: nat)
    requires Orderly(w, h) && 1 <= rev <= |h| && h[rev - 1].value == h[|h| - 1].value
    ensures rev == |h|
  {
    assert !Before(h[rev - 1].value, h[rev - 1].value);
  }

  /** Attempts of one job share their stored request. */
  lemma SameJobSameStored(w: WorkId, h: seq<Version>, j: nat, k: nat)
    requires Orderly(w, h) && j < |h| && k < |h|
    requires h[j].value.stored.jobId == h[k].value.stored.jobId
    ensures h[j].value.stored == h[k].value.stored
  {
    if j < k {
      assert Before(h[j].value, h[k].value);
    } else if k < j {
      assert Before(h[k].value, h[j].value);
    }
  }

  lemma OrderlyHistory(cfg: Config, sh: Shared, w: WorkId)
    requires RecordsOk(sh)
    ensures Orderly(w, sh.History(w))
  {
  }

  lemma SealedSurvives(sh: Shared, sh': Shared, w: WorkId, stored: StoredRequest)
    requires GrowsRecords(sh, sh') && Sealed(sh, w, stored)
    ensures Sealed(sh', w, stored)
  {
    assert GrowsRecord(sh.History(w), sh'.History(w));
  }

  lemma SettlementsSurvive(cfg: Config, sh: Shared, sh': Shared)
    requires SettlementsOk(cfg, sh) && GrowsRecords(sh, sh') && GrowsEvidence(sh, sh')
    requires sh'.settlements == sh.settlements
    ensures SettlementsOk(cfg, sh')
  {
    forall loc | loc in sh'.settlements ensures Published(cfg, sh', loc, sh'.settlements[loc]) {
      var bytes := sh.settlements[loc];
      assert Published(cfg, sh, loc, bytes);
      var stored := sh.completionRequests[bytes.jobId];
      SealedSurvives(sh, sh', WorkId(stored.request, None), stored);
    }
  }

  lemma SealsSurvive(sh: Shared, sh': Shared)
    requires SealsOk(sh) && GrowsEvidence(sh, sh') && sh'.works == sh.works
    ensures SealsOk(sh')
  {
    forall w, stored | Sealed(sh', w, stored) ensures Proven(sh', stored) {
      assert Sealed(sh, w, stored);
    }
  }

  lemma DeadlineSurvives(sh: Shared, sh': Shared, job: JobId, until: nat)
    requires GrowsRecords(sh, sh') && Deadline(sh, job, until)
    ensures Deadline(sh', job, until)
  {
    var h, h' := sh.History(job.work), sh'.History(job.work);
    assert GrowsRecord(h, h');
    var k :| 0 <= k < |h| && h[k].value.stored.jobId == job && h[k].value.stored.LaunchUntil() == until;
    assert h'[k] == h[k];
  }

  /** Requests may expire, and records may grow. */
  lemma DocumentsSurvive(sh: Shared, sh': Shared)
    requires Documented(sh) && GrowsRecords(sh, sh')
    requires sh'.reserved == sh.reserved && sh'.ledger == sh.ledger
    requires forall job :: job in sh'.requests ==> job in sh.requests && sh'.requests[job] == sh.requests[job]
    ensures Documented(sh')
  {
    hide Attempted, Deadline;
    forall job | job in sh'.reserved ensures Deadline(sh', job, sh'.reserved[job]) {
      DeadlineSurvives(sh, sh', job, sh.reserved[job]);
    }
    forall job | job in sh'.requests ensures Attempted(sh', sh'.requests[job]) {
      AttemptSurvives(sh, sh', sh.requests[job]);
    }
  }

  lemma AttemptSurvives(sh: Shared, sh': Shared, stored: StoredRequest)
    requires GrowsRecords(sh, sh') && Attempted(sh, stored)
    ensures Attempted(sh', stored)
  {
    var h, h' := sh.History(stored.jobId.work), sh'.History(stored.jobId.work);
    assert GrowsRecord(h, h');
    var k :| 0 <= k < |h| && h[k].value.stored == stored;
    assert h'[k] == h[k];
  }

  /** The same, where the records are untouched. */
  lemma DocumentsStay(sh: Shared, sh': Shared)
    requires Documented(sh) && sh'.works == sh.works && sh'.reserved == sh.reserved && sh'.ledger == sh.ledger
    requires forall job :: job in sh'.requests ==> job in sh.requests && sh'.requests[job] == sh.requests[job]
    ensures Documented(sh')
  {
    hide Documented;
    assert forall w :: sh'.History(w) == sh.History(w);
    DocumentsSurvive(sh, sh');
  }

  /** Appending a legal version to one record, sealing it only once its evidence is retained. */
  lemma AppendKeeps(cfg: Config, sh: Shared, w: WorkId, v: WorkAttempt, i: nat)
    requires Consistent(cfg, sh)
    requires Belongs(w, v)
    requires sh.History(w) != [] ==> Succeeds(sh.History(w)[|sh.History(w)| - 1].value, v)
    requires v.completed ==> Proven(sh, v.stored)
    ensures Consistent(cfg, sh.Append(w, v, i)) && Grows(sh, sh.Append(w, v, i))
  {
    hide Documented;
    var sh' := sh.Append(w, v, i);
    OrderlyHistory(cfg, sh, w);
    AppendKeepsOrder(w, sh.History(w), Version(v, i));
    assert forall x :: x != w ==> sh'.History(x) == sh.History(x);
    forall x ensures GrowsRecord(sh.History(x), sh'.History(x)) {
    }
    DocumentsSurvive(sh, sh');
    SettlementsSurvive(cfg, sh, sh');
    forall x, stored | Sealed(sh', x, stored) ensures Proven(sh', stored) {
      if x != w {
        assert Sealed(sh, x, stored);
      }
    }
  }

  /** Steps that leave the work records and settlements alone. */
  lemma EvidenceKeeps(cfg: Config, sh: Shared, sh': Shared)
    requires Consistent(cfg, sh) && GrowsEvidence(sh, sh') && GrowsLedger(sh, sh')
    requires sh'.works == sh.works && sh'.settlements == sh.settlements
    requires VerifiedOk(cfg, sh') && Accounted(cfg, sh'.ledger, sh'.charges)
    requires Paid(sh') && Documented(sh')
    ensures Consistent(cfg, sh') && Grows(sh, sh')
  {
    hide Documented;
    assert forall w :: sh'.History(w) == sh.History(w);
    SealsSurvive(sh, sh');
    SettlementsSurvive(cfg, sh, sh');
  }

  lemma VerifyGivesEvidence(cfg: Config, stored: StoredRequest, bytes: Terminal, verdict: Verdict)
    requires Parses(bytes, stored.jobId) && VerifyCompletion(cfg, stored, bytes, verdict).Valid?
    ensures Evidence(cfg, stored, bytes)
  {
  }
}
