/** What an undisturbed submission does with an attempt that is still going: a stalled one is launched,
    any other is left alone. */
module JobResumption {
  import opened Wrappers
  import opened JobTypes
  import opened AdmissionLedger
  import opened ConditionalStore
  import opened JobMachine
  import opened JobInvariant
  import opened JobSteps
  import opened JobDenial
  import opened JobSafety
  import opened JobProgress
  import opened U64

  // ---- A submission that takes up a stalled attempt ----

  function NewestAttempt(sh: Shared, w: WorkId): WorkAttempt
    requires sh.History(w) != []
  {
    sh.History(w)[|sh.History(w)| - 1].value
  }

  /** The record has two versions more of the attempt it had. */
  predicate RecordedAgain(sh: Shared, t: Shared, w: WorkId, id: nat)
    requires sh.History(w) != []
  {
    var h, h', cur := sh.History(w), t.History(w), NewestAttempt(sh, w);
    && |h'| == |h| + 2 && h <= h' && h'[|h|].author == id && h'[|h| + 1].author == id
    && h'[|h| + 1].value.stored == cur.stored && h'[|h| + 1].value.generation == cur.generation
    && !h'[|h| + 1].value.completed
    && t.works == sh.works[w := h'] && t.requests == sh.requests[cur.stored.jobId := cur.stored]
    && t.completions == sh.completions && t.completionRequests == sh.completionRequests
    && t.settlements == sh.settlements && t.verified == sh.verified && t.time == sh.time
  }

  /** The attempt was launched: on the slot it held, or on a new one that was charged. */
  predicate LaunchedAgain(sh: Shared, t: Shared, w: WorkId, id: nat, now: nat)
    requires sh.History(w) != []
  {
    var stored, h' := NewestAttempt(sh, w).stored, t.History(w);
    && RecordedAgain(sh, t, w, id)
    && h'[|h'| - 1].value.launched && !h'[|h'| - 1].value.admissionDenied
    && t.launches == sh.launches + {stored.jobId}
    && if SlotOf(sh.ledger.reservations, stored.jobId).Some? then
         t.charges == sh.charges && t.payers == sh.payers && t.reserved == sh.reserved
       else
         && t.charges == sh.charges + [now] && t.payers == sh.payers + [stored.jobId]
         && t.reserved == sh.reserved[stored.jobId := SatAdd(stored.createdAt, 120)]
  }

  predicate DeniedAgain(sh: Shared, t: Shared, w: WorkId, id: nat)
    requires sh.History(w) != []
  {
    var h' := t.History(w);
    && RecordedAgain(sh, t, w, id)
    && h'[|h'| - 1].value.admissionDenied && !h'[|h'| - 1].value.launched
    && t.launches == sh.launches && t.charges == sh.charges && t.payers == sh.payers && t.reserved == sh.reserved
  }

  function TakenUp(sh: Shared, w: WorkId, now: nat): WorkAttempt
    requires sh.History(w) != []
  {
    NewestAttempt(sh, w).(launchRetryAt := SatAdd(now, 60))
  }

  /** A request or a slot of a recorded attempt's job is that attempt's. */
  lemma JobIsKnown(sh: Shared, w: WorkId, job: JobId)
    requires RecordsOk(sh) && Documented(sh) && sh.History(w) != [] && job == NewestAttempt(sh, w).stored.jobId
    ensures job.work == w
    ensures job in sh.requests ==> sh.requests[job] == NewestAttempt(sh, w).stored
    ensures SlotOf(sh.ledger.reservations, job).Some? ==>
              SlotOf(sh.ledger.reservations, job).value.launchUntil == NewestAttempt(sh, w).stored.LaunchUntil()
  {
    var h, cur := sh.History(w), NewestAttempt(sh, w);
    assert Orderly(w, h);
    OrderlyBelongs(w, h, |h| - 1);
    if job in sh.requests {
      assert Attempted(sh, sh.requests[job]);
      var k :| 0 <= k < |h| && h[k].value.stored == sh.requests[job];
      SameJobSameStored(w, h, k, |h| - 1);
    }
    hide Orderly, SlotOf;
    SlotIsReserved(sh, job);
    if SlotOf(sh.ledger.reservations, job).Some? {
      assert Deadline(sh, job, sh.reserved[job]);
      DeadlineIs(w, sh, |h|, cur, sh.reserved[job]);
    }
  }

  lemma TakenUpIsHeld(sh: Shared, w: WorkId, id: nat, e: Env)
    requires RecordsOk(sh) && Documented(sh) && Stalled(sh, w, e) && e.now < U64_MAX
    ensures var mine := TakenUp(sh, w, e.now);
            && Holder(sh.Append(w, mine, id), w, |sh.History(w)| + 1, mine) && e.now < mine.stored.LaunchUntil()
  {
    JobIsKnown(sh, w, NewestAttempt(sh, w).stored.jobId);
  }

  lemma SlotIsFound(cfg: Config, l: Ledger, charges: seq<nat>, now: nat, job: JobId, until: nat, proven: set<JobId>)
    requires ValidPolicy(cfg) && Accounted(cfg, l, charges) && 0 < now && l.observedAt <= now
    requires SlotOf(l.reservations, job).Some? && SlotOf(l.reservations, job).value.launchUntil == until
    ensures Admit(cfg, l, now, job, until, proven) == AlreadyHeld
  {
    hide Spaced, Distinct, SlotOf, Unreleased, Recent;
    StartsCount(l, charges, now);
  }

  /** From the call to owning the stalled attempt. */
  lemma StartsAgain(cfg: Config, id: nat, w: WorkId, started: nat, sh: Shared, e: Env) returns (n: nat)
    requires Calm(sh, e) && Orderly(w, sh.History(w)) && Stalled(sh, w, e)
    ensures var mine := TakenUp(sh, w, e.now);
            && n >= 12
            && Solo(cfg, id, Submit(w), started, sh, Start, e, ENOUGH)
                 == Solo(cfg, id, Submit(w), started, sh.Append(w, mine, id),
                         Own(|sh.History(w)| + 1, mine, CreateRequest), e, n)
  {
    StalledIsReadable(sh, w, e);
    hide *;
    var k := Opens(cfg, id, w, started, sh, e, ENOUGH);
    n := ENOUGH - k;
    JudgesNext(cfg, id, w, started, sh, e, n);
    StalledIsResumed(cfg, sh, w, e);
    n := n - 1;
    Writes(cfg, id, w, started, sh, TakenUp(sh, w, e.now), e, n);
    n := n - 2;
  }

  lemma StalledIsReadable(sh: Shared, w: WorkId, e: Env)
    requires Stalled(sh, w, e)
    ensures sh.History(w) != [] && Readable(NewestAttempt(sh, w))
  {
  }

  lemma EndsDenied(sh: Shared, w: WorkId, id: nat, now: nat, proposal: Admission)
    requires sh.History(w) != [] && proposal.Proposed? && proposal.denied
    requires var cur := NewestAttempt(sh, w); !cur.completed && !cur.launched && !cur.admissionDenied
    ensures var mine := TakenUp(sh, w, now);
            DeniedAgain(sh, Ended(sh.Append(w, mine, id), w, |sh.History(w)| + 1, mine, id, now, proposal), w, id)
  {
    var mine := TakenUp(sh, w, now);
    TwoVersions(sh, w, mine, mine.(admissionDenied := true), id);
  }

  lemma EndsLaunched(sh: Shared, w: WorkId, id: nat, now: nat, proposal: Admission)
    requires sh.History(w) != [] && proposal.Proposed? && !proposal.denied
    requires SlotOf(sh.ledger.reservations, NewestAttempt(sh, w).stored.jobId).None?
    requires var cur := NewestAttempt(sh, w); !cur.completed && !cur.launched && !cur.admissionDenied
    ensures var mine := TakenUp(sh, w, now);
            LaunchedAgain(sh, Ended(sh.Append(w, mine, id), w, |sh.History(w)| + 1, mine, id, now, proposal), w, id,
                          now)
  {
    hide SlotOf;
    var mine := TakenUp(sh, w, now);
    TwoVersions(sh, w, mine, mine.(launched := true), id);
  }

  lemma EndsOnSlot(sh: Shared, w: WorkId, id: nat, now: nat)
    requires sh.History(w) != [] && SlotOf(sh.ledger.reservations, NewestAttempt(sh, w).stored.jobId).Some?
    requires var cur := NewestAttempt(sh, w); !cur.completed && !cur.launched && !cur.admissionDenied
    ensures var mine := TakenUp(sh, w, now);
            LaunchedAgain(sh,
                          LaunchedBy(Requested(sh.Append(w, mine, id), mine.stored), w, |sh.History(w)| + 1, mine, id),
                          w, id, now)
  {
    hide SlotOf;
    var mine := TakenUp(sh, w, now);
    TwoVersions(sh, w, mine, mine.(launched := true), id);
  }

  /** On the slot that its job holds, the attempt is launched without another charge. */
  lemma EndsWithSlot(cfg: Config, id: nat, w: WorkId, started: nat, sh: Shared, e: Env, n: nat)
    requires ValidPolicy(cfg) && Consistent(cfg, sh) && Calm(sh, e) && n >= 10 && Stalled(sh, w, e)
    requires SlotOf(sh.ledger.reservations, TakenUp(sh, w, e.now).stored.jobId).Some?
    ensures var mine := TakenUp(sh, w, e.now);
            LaunchedAgain(sh, Solo(cfg, id, Submit(w), started, sh.Append(w, mine, id),
                                   Own(|sh.History(w)| + 1, mine, CreateRequest), e, n).0, w, id, e.now)
  {
    hide *;
    StalledIsIdle(sh, w, e);
    var mine, rev := TakenUp(sh, w, e.now), |sh.History(w)| + 1;
    var job, until := mine.stored.jobId, mine.stored.LaunchUntil();
    SameLedger(sh, w, mine, id, e);
    ConsistentIsDocumented(cfg, sh);
    JobIsKnown(sh, w, job);
    TakenUpIsHeld(sh, w, id, e);
    SlotIsFound(cfg, sh.ledger, sh.charges, e.now, job, until, e.proven);
    var sh1 := sh.Append(w, mine, id);
    var sh2 := Requested(sh1, mine.stored);
    Asks(cfg, id, w, started, sh1, rev, mine, e, n);
    FindsSlot(cfg, id, w, started, sh2, rev, mine, e, n - 4);
    StillHolds(sh1, w, rev, mine);
    Launches(cfg, id, w, started, sh2, rev, mine, e, n - 5);
    EndsOnSlot(sh, w, id, e.now);
  }

  lemma SameLedger(sh: Shared, w: WorkId, mine: WorkAttempt, id: nat, e: Env)
    requires Calm(sh, e)
    ensures var sh1 := sh.Append(w, mine, id);
            && sh1.ledger == sh.ledger && Requested(sh1, mine.stored).ledger == sh.ledger
            && Requested(sh1, mine.stored).ledgerRevision == sh1.ledgerRevision
            && Calm(sh1, e) && e.reply.Truthful? && 0 < e.now < U64_MAX && sh.ledger.observedAt <= e.now
  {
  }

  lemma EndsWithoutSlot(cfg: Config, id: nat, w: WorkId, started: nat, sh: Shared, e: Env, n: nat)
    requires ValidPolicy(cfg) && Consistent(cfg, sh) && Calm(sh, e) && n >= 10 && Stalled(sh, w, e)
    requires SlotOf(sh.ledger.reservations, TakenUp(sh, w, e.now).stored.jobId).None?
    ensures var mine := TakenUp(sh, w, e.now);
            var t := Solo(cfg, id, Submit(w), started, sh.Append(w, mine, id),
                          Own(|sh.History(w)| + 1, mine, CreateRequest), e, n).0;
            if Room(cfg, sh, e.now, e.proven) then LaunchedAgain(sh, t, w, id, e.now) else DeniedAgain(sh, t, w, id)
  {
    hide *;
    StalledIsIdle(sh, w, e);
    var mine, rev := TakenUp(sh, w, e.now), |sh.History(w)| + 1;
    var job, until := mine.stored.jobId, mine.stored.LaunchUntil();
    SameLedger(sh, w, mine, id, e);
    ConsistentIsDocumented(cfg, sh);
    TakenUpIsHeld(sh, w, id, e);
    RoomDecides(cfg, sh, e.now, job, until, e.proven);
    var proposal := Admit(cfg, sh.ledger, e.now, job, until, e.proven);
    OwnerEnds(cfg, id, w, started, sh.Append(w, mine, id), rev, mine, e, proposal, n);
    if proposal.denied {
      EndsDenied(sh, w, id, e.now, proposal);
    } else {
      EndsLaunched(sh, w, id, e.now, proposal);
    }
  }

  lemma ConsistentIsDocumented(cfg: Config, sh: Shared)
    requires Consistent(cfg, sh)
    ensures RecordsOk(sh) && Documented(sh) && Accounted(cfg, sh.ledger, sh.charges)
  {
  }

  lemma StillHolds(sh: Shared, w: WorkId, rev: nat, mine: WorkAttempt)
    requires Holder(sh, w, rev, mine)
    ensures Holder(Requested(sh, mine.stored), w, rev, mine)
  {
    assert Requested(sh, mine.stored).History(w) == sh.History(w);
  }

  lemma StalledIsIdle(sh: Shared, w: WorkId, e: Env)
    requires Stalled(sh, w, e)
    ensures sh.History(w) != []
    ensures var cur := NewestAttempt(sh, w);
            && !cur.completed && !cur.launched && !cur.admissionDenied && TakenUp(sh, w, e.now).stored == cur.stored
  {
  }

  /** An undisturbed submission whose newest attempt stalled before its launch launches that attempt: on
      the slot it already holds, without another charge, or else as there is room. */
  lemma SubmitResumes(cfg: Config, past: seq<Action>, id: nat, w: WorkId, e: Env)
    requires ValidPolicy(cfg) && Runs(cfg, INITIAL, past) && WellFormed(Submit(w))
    requires var s := Outcome(cfg, INITIAL, past);
             id !in s.invocations && Calm(s.shared, e) && Stalled(s.shared, w, e)
    ensures var s := Outcome(cfg, INITIAL, past);
            && Runs(cfg, s, Undisturbed(id, Submit(w), e))
            && var t := Outcome(cfg, s, Undisturbed(id, Submit(w), e)).shared;
               if SlotOf(s.shared.ledger.reservations, NewestAttempt(s.shared, w).stored.jobId).Some?
                  || Room(cfg, s.shared, e.now, e.proven)
               then LaunchedAgain(s.shared, t, w, id, e.now) else DeniedAgain(s.shared, t, w, id)
  {
    ReachableIsSafe(cfg, past);
    var s := Outcome(cfg, INITIAL, past);
    StalledIsIdle(s.shared, w, e);
    hide Consistent, Solo, Stalled, LaunchedAgain, DeniedAgain, Room, Undisturbed, Orderly, SlotOf, TakenUp;
    SafeIsConsistent(cfg, s);
    ConsistentRecords(cfg, s.shared);
    OrderlyHistory(cfg, s.shared, w);
    UndisturbedIsSolo(cfg, s, id, Submit(w), e);
    var n := StartsAgain(cfg, id, w, s.shared.time, s.shared, e);
    if SlotOf(s.shared.ledger.reservations, NewestAttempt(s.shared, w).stored.jobId).Some? {
      EndsWithSlot(cfg, id, w, s.shared.time, s.shared, e, n);
    } else {
      EndsWithoutSlot(cfg, id, w, s.shared.time, s.shared, e, n);
    }
  }

  // ---- A submission that has nothing to do ----

  /** The newest attempt is going on, or is not to be taken up yet. */
  predicate Pending(cur: WorkAttempt, found: Option<Terminal>, now: nat) {
    found.None? && (cur.launched || now < cur.launchRetryAt || cur.stored.createdAt + 120 <= now)
  }

  /** What was found is no terminal of the job, or a completion that the verifier rejects. */
  predicate Worthless(cur: WorkAttempt, found: Option<Terminal>, e: Env) {
    found.Some? && (!Parses(found.value, cur.stored.jobId) || Rejected(cur, found, e))
  }

  /** A completion was found on which the verifier cannot say anything yet. */
  predicate Undecided(cur: WorkAttempt, found: Option<Terminal>, e: Env) {
    Finished(found, cur.stored.jobId) && cur.stored.request.Settlement? && e.verdict.Unknown?
  }

  /** There is nothing to do for the newest attempt. */
  predicate GoingOn(sh: Shared, w: WorkId, e: Env) {
    var h := sh.History(w);
    h != [] &&
    var cur := h[|h| - 1].value;
    var found := Candidate(sh, cur.stored.jobId, e);
    && Readable(cur) && !cur.completed
    && (|| Undecided(cur, found, e)
        || (&& !cur.admissionDenied && e.now <= cur.stored.expiresAt
            && (Pending(cur, found, e.now) || Worthless(cur, found, e))))
  }

  lemma GoingOnIsLeft(cfg: Config, sh: Shared, w: WorkId, e: Env)
    requires GoingOn(sh, w, e) && e.now < U64_MAX
    ensures Readable(NewestAttempt(sh, w)) && Judged(cfg, w, Opened(cfg, sh, w, e), e) == Done
  {
  }

  /** It writes nothing and launches nothing. */
  lemma SubmitLeavesAlone(cfg: Config, past: seq<Action>, id: nat, w: WorkId, e: Env)
    requires Runs(cfg, INITIAL, past) && WellFormed(Submit(w))
    requires var s := Outcome(cfg, INITIAL, past);
             id !in s.invocations && Calm(s.shared, e) && GoingOn(s.shared, w, e)
    ensures var s := Outcome(cfg, INITIAL, past);
            && Runs(cfg, s, Undisturbed(id, Submit(w), e))
            && Outcome(cfg, s, Undisturbed(id, Submit(w), e)).shared == s.shared
  {
    ReachableIsSafe(cfg, past);
    var s := Outcome(cfg, INITIAL, past);
    GoingOnIsLeft(cfg, s.shared, w, e);
    hide Consistent, Solo, GoingOn, Undisturbed, Orderly, Readable, Judged, Opened;
    SafeIsConsistent(cfg, s);
    ConsistentRecords(cfg, s.shared);
    OrderlyHistory(cfg, s.shared, w);
    UndisturbedIsSolo(cfg, s, id, Submit(w), e);
    var k := Opens(cfg, id, w, s.shared.time, s.shared, e, ENOUGH);
    JudgesNext(cfg, id, w, s.shared.time, s.shared, e, ENOUGH - k);
    SoloDone(cfg, id, Submit(w), s.shared.time, s.shared, e, ENOUGH - k - 1);
  }

  /** A record that the service cannot read stops it at once. */
  lemma SubmitRefusesUnreadable(cfg: Config, past: seq<Action>, id: nat, w: WorkId, e: Env)
    requires Runs(cfg, INITIAL, past) && WellFormed(Submit(w))
    requires var s := Outcome(cfg, INITIAL, past);
             && id !in s.invocations && s.shared.History(w) != []
             && !Readable(NewestAttempt(s.shared, w))
    ensures var s := Outcome(cfg, INITIAL, past);
            && Runs(cfg, s, Undisturbed(id, Submit(w), e))
            && Outcome(cfg, s, Undisturbed(id, Submit(w), e)).shared == s.shared
  {
    hide Consistent, Solo, Undisturbed, SubmitStep;
    var s := Outcome(cfg, INITIAL, past);
    var sh, started := s.shared, s.shared.time;
    UndisturbedIsSolo(cfg, s, id, Submit(w), e);
    SoloStep(cfg, id, Submit(w), started, sh, Start, e, ENOUGH);
    RefusesUnreadable(cfg, w, id, sh, e);
    if e.now != 0 {
      SoloStep(cfg, id, Submit(w), started, sh, ReadWork(e.now), e, ENOUGH - 1);
      SoloDone(cfg, id, Submit(w), started, sh, e, ENOUGH - 2);
    } else {
      SoloDone(cfg, id, Submit(w), started, sh, e, ENOUGH - 1);
    }
  }

  lemma RefusesUnreadable(cfg: Config, w: WorkId, id: nat, sh: Shared, e: Env)
    requires sh.History(w) != [] && !Readable(NewestAttempt(sh, w))
    ensures SubmitStep(cfg, w, id, sh, Start, e) == if e.now == 0 then (sh, Done) else (sh, ReadWork(e.now))
    ensures SubmitStep(cfg, w, id, sh, ReadWork(e.now), e) == (sh, Done)
  {
  }
}
