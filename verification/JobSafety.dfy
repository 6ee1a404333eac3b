/** The promises of the job service over whole runs. */
module JobSafety {
  import opened Wrappers
  import opened JobTypes
  import opened AdmissionLedger
  import opened JobMachine
  import opened JobInvariant
  import opened JobSteps
  import opened JobDenial

  // ---- Any interleaving, any clock readings ----

  lemma ReachableIsSafe(cfg: Config, actions: seq<Action>)
    requires Runs(cfg, INITIAL, actions)
    ensures Safe(cfg, Outcome(cfg, INITIAL, actions))
  {
    InitialIsSafe(cfg);
    RunKeeps(cfg, INITIAL, actions);
  }

  /** Once a work record is completed it never changes again. */
  lemma CompletionIsFinal(cfg: Config, past: seq<Action>, future: seq<Action>, w: WorkId, stored: StoredRequest)
    requires Runs(cfg, INITIAL, past) && Runs(cfg, Outcome(cfg, INITIAL, past), future)
    requires Sealed(Outcome(cfg, INITIAL, past).shared, w, stored)
    ensures var s, t := Outcome(cfg, INITIAL, past), Outcome(cfg, Outcome(cfg, INITIAL, past), future);
            t.shared.History(w) == s.shared.History(w)
  {
    ReachableIsSafe(cfg, past);
    var s := Outcome(cfg, INITIAL, past);
    RunKeeps(cfg, s, future);
    assert GrowsRecord(s.shared.History(w), Outcome(cfg, s, future).shared.History(w));
  }

  /** At most one attempt of a work id is ever sealed. */
  lemma OneAttemptIsSealed(cfg: Config, past: seq<Action>, future: seq<Action>, w: WorkId, a: StoredRequest,
                           b: StoredRequest)
    requires Runs(cfg, INITIAL, past) && Runs(cfg, Outcome(cfg, INITIAL, past), future)
    requires Sealed(Outcome(cfg, INITIAL, past).shared, w, a)
    requires Sealed(Outcome(cfg, Outcome(cfg, INITIAL, past), future).shared, w, b)
    ensures a == b
  {
    CompletionIsFinal(cfg, past, future, w, a);
  }

  /** A completed record's attempt has both evidence objects, holding bytes that verified. */
  lemma SealedHasEvidence(cfg: Config, actions: seq<Action>, w: WorkId, stored: StoredRequest)
    requires Runs(cfg, INITIAL, actions) && Sealed(Outcome(cfg, INITIAL, actions).shared, w, stored)
    ensures var sh := Outcome(cfg, INITIAL, actions).shared;
            && stored.jobId.work == w
            && stored.jobId in sh.completions && stored.jobId in sh.completionRequests
            && sh.completionRequests[stored.jobId] == stored
            && (stored, sh.completions[stored.jobId]) in sh.verified
            && Evidence(cfg, stored, sh.completions[stored.jobId])
            && (stored.request.Settlement? ==> SettlesRequest(cfg, stored, sh.completions[stored.jobId]))
  {
    ReachableIsSafe(cfg, actions);
    var sh := Outcome(cfg, INITIAL, actions).shared;
    assert Proven(sh, stored);
    assert Evidence(cfg, stored, sh.completions[stored.jobId]) by {
      assert (stored, sh.completions[stored.jobId]) in sh.verified;
    }
    OrderlyHistory(cfg, sh, w);
  }

  /** Whatever stands under a shared settlement key is the retained evidence of the one attempt
      that sealed that incident, and stays there. */
  lemma SettlementKeyIsSealedEvidence(cfg: Config, past: seq<Action>, future: seq<Action>, loc: Locator)
    requires Runs(cfg, INITIAL, past) && Runs(cfg, Outcome(cfg, INITIAL, past), future)
    requires loc in Outcome(cfg, INITIAL, past).shared.settlements
    ensures var sh := Outcome(cfg, INITIAL, past).shared;
            var bytes := sh.settlements[loc];
            && bytes.Envelope? && bytes.artifact == Located(loc)
            && (exists stored: StoredRequest ::
                  && SettlesRequest(cfg, stored, bytes)
                  && Retained(sh, stored, bytes)
                  && Sealed(sh, WorkId(stored.request, None), stored))
    ensures var t := Outcome(cfg, Outcome(cfg, INITIAL, past), future).shared;
            loc in t.settlements && t.settlements[loc] == Outcome(cfg, INITIAL, past).shared.settlements[loc]
  {
    ReachableIsSafe(cfg, past);
    var s := Outcome(cfg, INITIAL, past);
    var bytes := s.shared.settlements[loc];
    assert Published(cfg, s.shared, loc, bytes);
    var stored := s.shared.completionRequests[bytes.jobId];
    assert Retained(s.shared, stored, bytes);
    RunKeeps(cfg, s, future);
  }

  /** The hourly limit holds over the whole history of charges, the worker limit at all times,
      and no job holds two slots. */
  lemma AdmissionIsBounded(cfg: Config, actions: seq<Action>, from: nat)
    requires Runs(cfg, INITIAL, actions)
    ensures var sh := Outcome(cfg, INITIAL, actions).shared;
            && CountIn(sh.charges, from, from + WINDOW) <= cfg.maxStarts
            && Distinct(sh.ledger.reservations)
            && (cfg.maxActive > 0 ==> |sh.ledger.reservations| <= cfg.maxActive)
  {
    ReachableIsSafe(cfg, actions);
    HourlyLimit(Outcome(cfg, INITIAL, actions).shared.charges, cfg.maxStarts, from);
  }

  // ---- Launches against charges ----

  lemma {:induction false} FewElements(s: seq<JobId>)
    ensures |set x | x in s| <= |s|
  {
    if s != [] {
      var init, last := s[..|s| - 1], s[|s| - 1];
      FewElements(init);
      assert s == init + [last];
      assert (set x | x in s) == (set x | x in init) + {last};
    }
  }

  /** The jobs charged in a window. */
  function PayersIn(charges: seq<nat>, payers: seq<JobId>, from: nat, to: nat): (jobs: set<JobId>)
    requires |payers| == |charges|
    ensures |jobs| <= CountIn(charges, from, to)
    ensures forall k :: 0 <= k < |charges| && from <= charges[k] <= to ==> payers[k] in jobs
    ensures forall job :: job in jobs ==> exists k :: 0 <= k < |charges| && payers[k] == job && from <= charges[k] <= to
  {
    if charges == [] then {}
    else
      var n := |charges| - 1;
      var before := PayersIn(charges[..n], payers[..n], from, to);
      if from <= charges[n] <= to then before + {payers[n]} else before
  }

  /** In every run a launched job was reserved, a reserved job was charged, and so there are no more
      launches than reservations ever made and no more of those than charges; of the jobs charged
      within any one hour, no more are launched than the policy allows starts. */
  lemma LaunchesArePaid(cfg: Config, actions: seq<Action>, from: nat)
    requires Runs(cfg, INITIAL, actions)
    ensures var sh := Outcome(cfg, INITIAL, actions).shared;
            && |sh.payers| == |sh.charges|
            && (forall job :: job in sh.launches ==> job in sh.reserved)
            && (forall job :: job in sh.reserved <==> job in sh.payers)
            && |sh.launches| <= |sh.reserved| <= |sh.charges|
            && |sh.launches * PayersIn(sh.charges, sh.payers, from, from + WINDOW)| <= cfg.maxStarts
  {
    ReachableIsSafe(cfg, actions);
    var sh := Outcome(cfg, INITIAL, actions).shared;
    assert Paid(sh);
    Fewer(sh.launches, sh.reserved.Keys);
    FewElements(sh.payers);
    assert sh.reserved.Keys == set x | x in sh.payers;
    var charged := PayersIn(sh.charges, sh.payers, from, from + WINDOW);
    Fewer(sh.launches * charged, charged);
    HourlyLimit(sh.charges, cfg.maxStarts, from);
  }

  lemma Fewer(a: set<JobId>, b: set<JobId>)
    requires a <= b
    ensures |a| <= |b|
  {
    assert b == a + (b - a);
  }

  // ---- One shared monotone clock, lifetimes of at most 900 seconds ----

  ghost predicate TimedSafe(cfg: Config, s: State) {
    && Safe(cfg, s)
    && Guarded(s.shared)
    && (forall i :: i in s.invocations ==> TimedPc(s.shared, s.invocations[i]))
  }

  lemma OtherActionsTimed(cfg: Config, s: State, a: Action)
    requires TimedSafe(cfg, s) && Enabled(s, a) && Timely(s, a) && !a.Step?
    ensures Guarded(Apply(cfg, s, a).shared)
    ensures forall i :: TimedGrows(i, s.shared, Apply(cfg, s, a).shared)
  {
    var s' := Apply(cfg, s, a);
    assert forall w :: s'.shared.History(w) == s.shared.History(w);
    RecordStep(cfg, s.shared, s'.shared);
  }

  lemma ApplyTimed(cfg: Config, s: State, a: Action)
    requires TimedSafe(cfg, s) && Enabled(s, a) && Timely(s, a)
    ensures TimedSafe(cfg, Apply(cfg, s, a))
  {
    var s' := Apply(cfg, s, a);
    ApplyKeeps(cfg, s, a);
    if a.Step? {
      NextTimed(cfg, a.id, s.invocations[a.id], s.shared, a.env);
    } else {
      OtherActionsTimed(cfg, s, a);
    }
    forall i | i in s'.invocations ensures TimedPc(s'.shared, s'.invocations[i]) {
      if i in s.invocations && (a.Step? ==> i != a.id) {
        TimedIsStable(cfg, if a.Step? then a.id else i + 1, s.shared, s'.shared, i, s.invocations[i]);
      }
    }
  }

  lemma {:induction false} TimelyRunKeeps(cfg: Config, s: State, actions: seq<Action>)
    requires TimedSafe(cfg, s) && TimelyRuns(cfg, s, actions)
    ensures Runs(cfg, s, actions) && TimedSafe(cfg, Outcome(cfg, s, actions))
    decreases |actions|
  {
    if actions != [] {
      ApplyTimed(cfg, s, actions[0]);
      TimelyRunKeeps(cfg, Apply(cfg, s, actions[0]), actions[1..]);
    }
  }

  lemma TimelyReachable(cfg: Config, actions: seq<Action>)
    requires TimelyRuns(cfg, INITIAL, actions)
    ensures Runs(cfg, INITIAL, actions) && TimedSafe(cfg, Outcome(cfg, INITIAL, actions))
  {
    InitialIsSafe(cfg);
    TimelyRunKeeps(cfg, INITIAL, actions);
  }

  /** An attempt that any version of its record marks as denied was never launched. */
  lemma DeniedWasNeverLaunched(cfg: Config, actions: seq<Action>, w: WorkId, k: nat)
    requires TimelyRuns(cfg, INITIAL, actions)
    requires Runs(cfg, INITIAL, actions) && k < |Outcome(cfg, INITIAL, actions).shared.History(w)|
    requires Outcome(cfg, INITIAL, actions).shared.History(w)[k].value.admissionDenied
    ensures var sh := Outcome(cfg, INITIAL, actions).shared;
            sh.History(w)[k].value.stored.jobId !in sh.launches
  {
    TimelyReachable(cfg, actions);
    var sh := Outcome(cfg, INITIAL, actions).shared;
    OrderlyHistory(cfg, sh, w);
    var job := sh.History(w)[k].value.stored.jobId;
    assert DeniedIn(sh.History(job.work), job);
  }

  /** No job is charged twice: each reserved job, and so each launched one, owns one charge. */
  lemma ChargedOnce(cfg: Config, actions: seq<Action>, job: JobId) returns (k: nat)
    requires TimelyRuns(cfg, INITIAL, actions) && Runs(cfg, INITIAL, actions)
    requires job in Outcome(cfg, INITIAL, actions).shared.reserved
    ensures var sh := Outcome(cfg, INITIAL, actions).shared;
            && k < |sh.charges| && |sh.payers| == |sh.charges|
            && forall j :: 0 <= j < |sh.payers| ==> (sh.payers[j] == job <==> j == k)
  {
    TimelyReachable(cfg, actions);
    var sh := Outcome(cfg, INITIAL, actions).shared;
    assert job in sh.payers;
    k :| 0 <= k < |sh.payers| && sh.payers[k] == job;
  }

  /** Every launch was paid for by a committed reservation, and a reservation outlives its
      launch deadline by 900 seconds. */
  lemma LaunchIsReserved(cfg: Config, actions: seq<Action>, job: JobId)
    requires TimelyRuns(cfg, INITIAL, actions) && Runs(cfg, INITIAL, actions)
    requires job in Outcome(cfg, INITIAL, actions).shared.launches
    ensures var sh := Outcome(cfg, INITIAL, actions).shared;
            && job in sh.reserved
            && Deadline(sh, job, sh.reserved[job])
            && (Held(sh, job) || sh.time > sh.reserved[job] + LIFETIME)
  {
    TimelyReachable(cfg, actions);
    var sh := Outcome(cfg, INITIAL, actions).shared;
    var p :| p in sh.cleared && p.0 == job;
  }
}
