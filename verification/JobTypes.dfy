/** The records the job service keeps in its store, and the pure checks made on them.

    Identifiers that the service derives with SHA-256 and HMAC are modelled as constructors,
    that is, as collision-free: a work id determines its request, a job id its work id and
    generation. */
module JobTypes {
  import opened Wrappers
  import opened U64

  datatype Request = Settlement(incident: nat, registry: nat) | Open(token: nat, registry: nat)

  /** `key` is the idempotency key mixed into the work id of an opening request; a settlement
      has none, so one incident is one work id. */
  datatype WorkId = WorkId(request: Request, key: Option<nat>)

  datatype JobId = JobId(work: WorkId, generation: nat)

  datatype StoredRequest = StoredRequest(jobId: JobId, request: Request, createdAt: nat, expiresAt: nat) {
    /** `stored_request_is_live`: the job id commits to the request. */
    predicate Live(now: nat) {
      createdAt < expiresAt && now <= expiresAt && jobId.work.request == request
    }

    function LaunchUntil(): nat {
      SatAdd(createdAt, 120)
    }
  }

  datatype WorkAttempt = WorkAttempt(
    generation: nat,
    stored: StoredRequest,
    launchRetryAt: nat,
    launched: bool,
    completed: bool,
    admissionDenied: bool)

  datatype Locator = Locator(chain: nat, registry: nat, defiInsurance: nat, incident: nat, root: nat)

  /** What the payload of a completed terminal says about a settlement. */
  datatype Artifact = Rootless | Malformed | Located(locator: Locator)

  /** The bytes of a terminal object: either unparsable, or an envelope. `raw` stands for all
      that the service does not interpret, so that two terminals are equal only as bytes. */
  datatype Terminal =
    | Corrupt(raw: nat)
    | Envelope(jobId: JobId, done: bool, artifact: Artifact, raw: nat)

  /** The answer of the independent completion verifier. */
  datatype Verdict = Accept | Reject | Unknown

  datatype Check = Valid | Invalid | Unavailable

  datatype Config = Config(registry: nat, defiInsurance: nat, ttl: nat, maxActive: nat, maxStarts: nat)

  datatype LocatorResult = BadArtifact | NoLocator | Found(locator: Locator)

  /** `settlement_locator_from_terminal`. */
  function LocatorOf(cfg: Config, t: Terminal): LocatorResult {
    match t
    case Corrupt(_) => BadArtifact
    case Envelope(_, done, artifact, _) =>
      if !done || artifact.Rootless? then NoLocator
      else if artifact.Malformed? || artifact.locator.registry != cfg.registry then BadArtifact
      else Found(artifact.locator)
  }

  /** The locator names this request's incident on this registry. */
  predicate Names(request: Request, loc: Locator) {
    request.Settlement? && request.incident == loc.incident && request.registry == loc.registry
  }

  /** The terminal is the job's, completed, and locates the settlement that the request asked for, on
      the configured contracts. */
  predicate SettlesRequest(cfg: Config, stored: StoredRequest, bytes: Terminal) {
    && bytes.Envelope? && bytes.jobId == stored.jobId && bytes.done && bytes.artifact.Located?
    && var loc := bytes.artifact.locator;
       && loc.registry == cfg.registry && loc.defiInsurance == cfg.defiInsurance
       && stored.request == Settlement(loc.incident, loc.registry)
  }

  /** `verify_completion`. */
  function VerifyCompletion(cfg: Config, stored: StoredRequest, t: Terminal, verdict: Verdict): Check {
    if stored.request.Open? then Valid
    else match verdict
      case Unknown => Unavailable
      case Reject => Invalid
      case Accept =>
        match LocatorOf(cfg, t)
        case Found(loc) =>
          if Names(stored.request, loc) && loc.defiInsurance == cfg.defiInsurance then Valid else Invalid
        case _ => Invalid
  }
}
