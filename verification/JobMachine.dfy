/** The invocations of the job service as a state machine over a shared versioned store.

    Every store access, clock reading, external answer and launch of `submit_canonical`,
    `reserve_worker`, `poll`, `retain_completion`, `publish_settlement` and
    `seal_settlement_completion` is one step of one invocation; steps of different invocations
    interleave freely. An invocation that errors, crashes or is killed simply takes no further
    step, and it may retry more often than the sixteen times of the program. A compare-and-swap
    may be refused without contention, and may be reported as refused although it took effect. */
module JobMachine {
  import opened Wrappers
  import opened JobTypes
  import opened AdmissionLedger
  import opened ConditionalStore
  import opened U64

  /** One committed version of a work record and the invocation that wrote it. The revision of
      a record is the number of versions written so far; 0 means absent. */
  datatype Version = Version(value: WorkAttempt, author: nat)

  datatype Shared = Shared(
    time: nat,
    works: map<WorkId, seq<Version>>,
    ledger: Ledger,
    ledgerRevision: nat,
    requests: map<JobId, StoredRequest>,
    completions: map<JobId, Terminal>,
    completionRequests: map<JobId, StoredRequest>,
    settlements: map<Locator, Terminal>,
    // History: what has happened, never read by the program.
    charges: seq<nat>,
    payers: seq<JobId>,
    reserved: map<JobId, nat>,
    cleared: set<(JobId, nat)>,
    launches: set<JobId>,
    verified: set<(StoredRequest, Terminal)>)
  {
    function History(w: WorkId): seq<Version> {
      if w in works then works[w] else []
    }

    function Append(w: WorkId, v: WorkAttempt, author: nat): Shared {
      this.(works := works[w := History(w) + [Version(v, author)]])
    }
  }

  /** Where a winner of the work record's compare-and-swap stands. */
  datatype Stage =
    | CreateRequest
    | ReadOwned
    | CheckLease
    | ReadLedger
    | Decide(revision: nat, ledger: Ledger)
    | Commit(revision: nat, ledger: Ledger, now: nat, proven: set<JobId>)
    | Deny
    | ReadFresh
    | CheckFresh(same: bool)
    | Launch
    | MarkLaunched

  /** What follows once both evidence objects are retained. */
  datatype After = Seal(revision: nat, current: WorkAttempt) | Publish

  datatype Pc =
    | Start
    | ReadWork(now: nat)
    | ReadEvidence(now: nat, revision: nat, current: WorkAttempt)
    | ReadRetained(now: nat, revision: nat, current: WorkAttempt)
    | Judge(now: nat, revision: nat, current: WorkAttempt, found: Option<Terminal>)
    | Reverify(stored: StoredRequest, bytes: Terminal, after: After)
    | Precheck(revision: nat, mine: WorkAttempt)
    | WriteWork(revision: nat, mine: WorkAttempt)
    | Own(revision: nat, mine: WorkAttempt, stage: Stage)
    | RetainBytes(stored: StoredRequest, bytes: Terminal, after: After)
    | RetainRequest(stored: StoredRequest, bytes: Terminal, after: After)
    | SealWork(stored: StoredRequest, bytes: Terminal, revision: nat, current: WorkAttempt)
    | PublishCheck(stored: StoredRequest, bytes: Terminal)
    | PublishRead(stored: StoredRequest, bytes: Terminal)
    | PublishSeal(stored: StoredRequest, bytes: Terminal, revision: nat, current: WorkAttempt)
    | PublishCreate(stored: StoredRequest, bytes: Terminal)
    | PollEvidence
    | PollRetained
    | PollKept(bytes: Terminal)
    | PollRequest(bytes: Terminal)
    | PollVerify(stored: StoredRequest, bytes: Terminal)
    | Done

  datatype Kind = Submit(work: WorkId) | Poll(job: JobId)

  datatype Invocation = Invocation(kind: Kind, started: nat, pc: Pc)

  /** What the outside contributes to one step: a clock reading, the terminal object as the
      worker left it, the verifier's and the admission precheck's answers, the slots the
      launcher proves free, and the manner of the store's reply. */
  datatype Env = Env(
    now: nat, terminal: Option<Terminal>, verdict: Verdict, admitted: bool, proven: set<JobId>, reply: Reply)

  /** The record of a work id and its revision, as one versioned read. */
  function Current(sh: Shared, w: WorkId): Option<WorkAttempt> {
    var h := sh.History(w);
    if h == [] then None else Some(h[|h| - 1].value)
  }

  function Lookup<K, V>(m: map<K, V>, key: K): Option<V> {
    if key in m then Some(m[key]) else None
  }

  predicate Parses(t: Terminal, job: JobId) {
    t.Envelope? && t.jobId == job
  }

  function FreshAttempt(cfg: Config, w: WorkId, generation: nat, now: nat): WorkAttempt {
    WorkAttempt(generation,
                StoredRequest(JobId(w, generation), w.request, now, SatAdd(now, cfg.ttl)),
                SatAdd(now, 60), false, false, false)
  }

  predicate Resumable(a: WorkAttempt, now: nat) {
    !a.launched && now >= a.launchRetryAt && now < a.stored.LaunchUntil()
  }

  /** The branch of `submit_canonical` taken on an existing record. A candidate for sealing is
      verified here and once more at `Reverify`. */
  function Judged(cfg: Config, w: WorkId, pc: Pc, e: Env): Pc
    requires pc.Judge?
  {
    var cur, now, rev := pc.current, pc.now, pc.revision;
    var job := cur.stored.jobId;
    var terminal := if pc.found.Some? && Parses(pc.found.value, job) then pc.found else None;
    var garbled := pc.found.Some? && terminal.None?;
    var finished := terminal.Some? && terminal.value.done;
    var check := if terminal.Some? then VerifyCompletion(cfg, cur.stored, terminal.value, e.verdict) else Invalid;
    if cur.completed then
      if terminal.Some? then Reverify(cur.stored, terminal.value, Publish) else Done
    else if finished && check.Valid? then Reverify(cur.stored, terminal.value, Seal(rev, cur))
    else if finished && check.Unavailable? then Done
    else
      var invalid := garbled || (finished && check.Invalid?);
      if cur.admissionDenied || (terminal.Some? && !invalid) || now > cur.stored.expiresAt then
        if cur.generation + 1 > U64_MAX then Done
        else Precheck(rev, FreshAttempt(cfg, w, cur.generation + 1, now))
      else if !invalid && Resumable(cur, now) then
        Precheck(rev, cur.(launchRetryAt := SatAdd(now, 60)))
      else Done
  }

  /** The verification that precedes retention; a success is recorded. */
  function VerifyStep(cfg: Config, stored: StoredRequest, bytes: Terminal, after: After, sh: Shared, e: Env)
    : (Shared, Pc)
  {
    if VerifyCompletion(cfg, stored, bytes, e.verdict).Valid? then
      (sh.(verified := sh.verified + {(stored, bytes)}), RetainBytes(stored, bytes, after))
    else (sh, Done)
  }

  /** The compare-and-swap of the admission ledger. */
  function CommitStep(sh: Shared, pc: Pc, proposal: Admission, e: Env): (Shared, Pc)
    requires pc.Own? && pc.stage.Commit?
  {
    var job, until := pc.mine.stored.jobId, pc.mine.stored.LaunchUntil();
    if !proposal.Proposed? then (sh, Done)
    else if !Applies(sh.ledgerRevision, pc.stage.revision, e.reply) then (sh, pc.(stage := ReadLedger))
    else
      var sh' := sh.(ledger := proposal.ledger, ledgerRevision := sh.ledgerRevision + 1);
      var next := if !e.reply.Truthful? then ReadLedger else if proposal.denied then Deny else ReadFresh;
      if proposal.denied then (sh', pc.(stage := next))
      else
        (sh'.(charges := sh.charges + [pc.stage.now],
              payers := sh.payers + [job],
              reserved := sh.reserved[job := until]),
         pc.(stage := next))
  }

  /** The compare-and-swap of a work record. */
  function Swap(sh: Shared, w: WorkId, rev: nat, v: WorkAttempt, i: nat, e: Env): Shared {
    if Applies(|sh.History(w)|, rev, e.reply) then sh.Append(w, v, i) else sh
  }

  /** Stages of an invocation whose attempt is in the work record. */
  function OwnStep(cfg: Config, i: nat, w: WorkId, sh: Shared, pc: Pc, e: Env): (Shared, Pc)
    requires pc.Own?
  {
    var rev, mine := pc.revision, pc.mine;
    var job, until := mine.stored.jobId, mine.stored.LaunchUntil();
    match pc.stage
    case CreateRequest =>
      if job !in sh.requests then (sh.(requests := sh.requests[job := mine.stored]), pc.(stage := ReadOwned))
      else if sh.requests[job] == mine.stored then (sh, pc.(stage := ReadOwned))
      else (sh, Done)
    case ReadOwned =>
      // The bytes are compared; the revision read along with them is used from here on.
      if Current(sh, w) == Some(mine) then (sh, Own(|sh.History(w)|, mine, CheckLease)) else (sh, Done)
    case CheckLease =>
      if e.now < until then (sh, pc.(stage := ReadLedger)) else (sh, Done)
    case ReadLedger => (sh, pc.(stage := Decide(sh.ledgerRevision, sh.ledger)))
    case Decide(lrev, ledger) =>
      (match Admit(cfg, ledger, e.now, job, until, e.proven)
       case Refused => (sh, Done)
       case AlreadyHeld => (sh, pc.(stage := ReadFresh))
       case Proposed(_, _) => (sh, pc.(stage := Commit(lrev, ledger, e.now, e.proven))))
    case Commit(lrev, ledger, now, proven) =>
      CommitStep(sh, pc, Admit(cfg, ledger, now, job, until, proven), e)
    case Deny => (Swap(sh, w, rev, mine.(admissionDenied := true), i, e), Done)
    case ReadFresh =>
      // `cleared` records that the job was seen reserved and its record unchanged.
      if Current(sh, w) == Some(mine) then
        (sh.(cleared := sh.cleared + {(job, rev)}), pc.(stage := CheckFresh(true)))
      else (sh, pc.(stage := CheckFresh(false)))
    case CheckFresh(same) =>
      if e.now >= until || !same then (sh, Done) else (sh, pc.(stage := Launch))
    case Launch => (sh.(launches := sh.launches + {job}), pc.(stage := MarkLaunched))
    case MarkLaunched => (Swap(sh, w, rev, mine.(launched := true), i, e), Done)
  }

  /** `retain_completion`, `seal_settlement_completion` and `publish_settlement`. */
  function EvidenceStep(cfg: Config, i: nat, sh: Shared, pc: Pc, e: Env): (Shared, Pc)
    requires pc.RetainBytes? || pc.RetainRequest? || pc.SealWork? || pc.PublishCheck?
          || pc.PublishRead? || pc.PublishSeal? || pc.PublishCreate?
  {
    var job := pc.stored.jobId;
    match pc
    case RetainBytes(stored, bytes, after) =>
      if job !in sh.completions then
        (sh.(completions := sh.completions[job := bytes]), RetainRequest(stored, bytes, after))
      else if sh.completions[job] == bytes then (sh, RetainRequest(stored, bytes, after))
      else (sh, Done)
    case RetainRequest(stored, bytes, after) =>
      var next := if after.Publish? then PublishCheck(stored, bytes)
                  else SealWork(stored, bytes, after.revision, after.current);
      if job !in sh.completionRequests then
        (sh.(completionRequests := sh.completionRequests[job := stored]), next)
      else if sh.completionRequests[job] == stored then (sh, next)
      else (sh, Done)
    case SealWork(stored, bytes, rev, current) =>
      var w := stored.jobId.work;
      (Swap(sh, w, rev, current.(completed := true), i, e),
       if Confirmed(|sh.History(w)|, rev, e.reply) then PublishCheck(stored, bytes) else Start)
    case PublishCheck(stored, bytes) =>
      var located := LocatorOf(cfg, bytes);
      if located.Found? && bytes.jobId == job && job.work.request == stored.request
         && Names(stored.request, located.locator)
      then (sh, PublishRead(stored, bytes))
      else (sh, Done)
    case PublishRead(stored, bytes) =>
      var w := WorkId(stored.request, None);
      var current := Current(sh, w);
      if current.None? || current.value.stored != stored then (sh, Done)
      else if current.value.completed then (sh, PublishCreate(stored, bytes))
      else (sh, PublishSeal(stored, bytes, |sh.History(w)|, current.value))
    case PublishSeal(stored, bytes, rev, current) =>
      var w := WorkId(stored.request, None);
      (Swap(sh, w, rev, current.(completed := true), i, e),
       if Confirmed(|sh.History(w)|, rev, e.reply) then PublishCreate(stored, bytes) else PublishRead(stored, bytes))
    case PublishCreate(stored, bytes) =>
      var loc := LocatorOf(cfg, bytes);
      if loc.Found? && loc.locator !in sh.settlements then
        (sh.(settlements := sh.settlements[loc.locator := bytes]), Done)
      else (sh, Done)
  }

  /** `poll`, up to the shared evidence path. */
  function PollStep(cfg: Config, job: JobId, sh: Shared, pc: Pc, e: Env): (Shared, Pc)
    requires Polling(pc)
  {
    match pc
    case PollEvidence => (sh, if e.terminal.Some? then PollFound(job, e.terminal) else PollRetained)
    case PollRetained => (sh, PollFound(job, Lookup(sh.completions, job)))
    case PollKept(bytes) =>
      (sh, if job in sh.completionRequests then PollStored(job, Lookup(sh.completionRequests, job), bytes)
           else PollRequest(bytes))
    case PollRequest(bytes) => (sh, PollStored(job, Lookup(sh.requests, job), bytes))
    case PollVerify(stored, bytes) => VerifyStep(cfg, stored, bytes, Publish, sh, e)
  }

  predicate Polling(pc: Pc) {
    pc.PollEvidence? || pc.PollRetained? || pc.PollKept? || pc.PollRequest? || pc.PollVerify?
  }

  function PollFound(job: JobId, found: Option<Terminal>): Pc {
    if found.Some? && Parses(found.value, job) && found.value.done then PollKept(found.value) else Done
  }

  function PollStored(job: JobId, stored: Option<StoredRequest>, bytes: Terminal): Pc {
    if stored.Some? && stored.value.jobId == job && stored.value.Live(stored.value.createdAt)
    then PollVerify(stored.value, bytes) else Done
  }

  predicate Submitting(pc: Pc) {
    pc.Start? || pc.ReadWork? || pc.ReadEvidence? || pc.ReadRetained? || pc.Judge? || pc.Precheck? || pc.WriteWork?
  }

  function SubmitStep(cfg: Config, w: WorkId, i: nat, sh: Shared, pc: Pc, e: Env): (Shared, Pc)
    requires Submitting(pc)
  {
    match pc
    case Start => if e.now == 0 then (sh, Done) else (sh, ReadWork(e.now))
    case ReadWork(now) =>
      (match Current(sh, w)
       case None => (sh, Precheck(0, FreshAttempt(cfg, w, 0, now)))
       case Some(cur) =>
         if cur.stored.request != w.request || !cur.stored.Live(cur.stored.createdAt)
            || (cur.admissionDenied && (cur.launched || cur.completed))
         then (sh, Done)
         else (sh, ReadEvidence(now, |sh.History(w)|, cur)))
    case ReadEvidence(now, rev, cur) =>
      (sh, if e.terminal.Some? then Judge(now, rev, cur, e.terminal) else ReadRetained(now, rev, cur))
    case ReadRetained(now, rev, cur) =>
      (sh, Judge(now, rev, cur, Lookup(sh.completions, cur.stored.jobId)))
    case Judge(_, _, _, _) => (sh, Judged(cfg, w, pc, e))
    case Precheck(rev, mine) => if e.admitted then (sh, WriteWork(rev, mine)) else (sh, Done)
    case WriteWork(rev, mine) =>
      (Swap(sh, w, rev, mine, i, e),
       if Confirmed(|sh.History(w)|, rev, e.reply) then Own(rev + 1, mine, CreateRequest) else Start)
  }

  /** One step of invocation `i`. */
  function Next(cfg: Config, i: nat, inv: Invocation, sh: Shared, e: Env): (Shared, Pc) {
    match inv.pc
    case Done => (sh, Done)
    case RetainBytes(_, _, _) | RetainRequest(_, _, _) | SealWork(_, _, _, _) | PublishCheck(_, _)
       | PublishRead(_, _) | PublishSeal(_, _, _, _) | PublishCreate(_, _) => EvidenceStep(cfg, i, sh, inv.pc, e)
    case Reverify(stored, bytes, after) => VerifyStep(cfg, stored, bytes, after, sh, e)
    case PollEvidence | PollRetained | PollKept(_) | PollRequest(_) | PollVerify(_, _) =>
      if inv.kind.Poll? then PollStep(cfg, inv.kind.job, sh, inv.pc, e) else (sh, Done)
    case Own(_, _, _) => if inv.kind.Submit? then OwnStep(cfg, i, inv.kind.work, sh, inv.pc, e) else (sh, Done)
    case Start | ReadWork(_) | ReadEvidence(_, _, _) | ReadRetained(_, _, _) | Judge(_, _, _, _)
       | Precheck(_, _) | WriteWork(_, _) =>
      if inv.kind.Submit? then SubmitStep(cfg, inv.kind.work, i, sh, inv.pc, e) else (sh, Done)
  }

  datatype State = State(shared: Shared, invocations: map<nat, Invocation>)

  datatype Action =
    | Call(id: nat, kind: Kind)
    | Step(id: nat, env: Env)
    | Wait(until: nat)
    | Expire(job: JobId)

  /** Settlement work ids carry no key; opening work ids do. */
  predicate WellFormed(kind: Kind) {
    kind.Submit? ==> (kind.work.request.Settlement? <==> kind.work.key.None?)
  }

  predicate Enabled(s: State, a: Action) {
    match a
    case Call(id, kind) => id !in s.invocations && WellFormed(kind)
    case Step(id, _) => id in s.invocations
    case Wait(until) => s.shared.time <= until
    case Expire(_) => true
  }

  function Apply(cfg: Config, s: State, a: Action): State
    requires Enabled(s, a)
  {
    match a
    case Call(id, kind) =>
      var pc := if kind.Submit? then Start else PollEvidence;
      s.(invocations := s.invocations[id := Invocation(kind, s.shared.time, pc)])
    case Step(id, e) =>
      var (sh, pc) := Next(cfg, id, s.invocations[id], s.shared, e);
      State(sh, s.invocations[id := s.invocations[id].(pc := pc)])
    case Wait(until) => s.(shared := s.shared.(time := until))
    case Expire(job) => s.(shared := s.shared.(requests := s.shared.requests - {job}))
  }

  const INITIAL := State(
    Shared(0, map[], EMPTY_LEDGER, 0, map[], map[], map[], map[], [], [], map[], {}, {}, {}),
    map[])

  /** A run is any list of enabled actions from the empty store. */
  predicate Runs(cfg: Config, s: State, actions: seq<Action>)
    decreases |actions|
  {
    actions == [] || (Enabled(s, actions[0]) && Runs(cfg, Apply(cfg, s, actions[0]), actions[1..]))
  }

  function Outcome(cfg: Config, s: State, actions: seq<Action>): State
    requires Runs(cfg, s, actions)
    decreases |actions|
  {
    if actions == [] then s else Outcome(cfg, Apply(cfg, s, actions[0]), actions[1..])
  }
}
