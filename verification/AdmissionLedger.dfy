/** The global admission ledger of `reserve_worker`: one pass that prunes released slots and
    old charges, then admits or refuses one job. */
module AdmissionLedger {
  import opened Wrappers
  import opened JobTypes
  import opened U64

  const WINDOW: nat := 3600
  const MAX_RESERVATIONS: nat := 2048
  const MAX_STARTS: nat := 1024

  datatype Reservation = Reservation(jobId: JobId, launchUntil: nat, startedAt: Option<nat>)

  datatype Ledger = Ledger(reservations: seq<Reservation>, starts: seq<nat>, observedAt: nat)

  const EMPTY_LEDGER := Ledger([], [], 0)

  datatype Admission =
    | Refused
    | AlreadyHeld
    | Proposed(ledger: Ledger, denied: bool)

  /** Cost-only retention when no worker limit is set; otherwise the launcher's proof of
      absence, which every implementation refuses up to `launchUntil + 900`. */
  predicate Released(cfg: Config, slot: Reservation, now: nat, proven: set<JobId>) {
    if cfg.maxActive == 0 then
      var accounted := SatAdd(if slot.startedAt.Some? then slot.startedAt.value else slot.launchUntil, WINDOW);
      var fenced := SatAdd(slot.launchUntil, 900);
      now > (if accounted > fenced then accounted else fenced)
    else
      now > SatAdd(slot.launchUntil, 900) && slot.jobId in proven
  }

  function Unreleased(cfg: Config, slots: seq<Reservation>, now: nat, proven: set<JobId>): seq<Reservation> {
    if slots == [] then []
    else
      var rest := Unreleased(cfg, slots[..|slots| - 1], now, proven);
      if Released(cfg, slots[|slots| - 1], now, proven) then rest else rest + [slots[|slots| - 1]]
  }

  function Recent(starts: seq<nat>, now: nat): seq<nat> {
    if starts == [] then []
    else
      var rest := Recent(starts[..|starts| - 1], now);
      var last := starts[|starts| - 1];
      if now < last || now - last <= WINDOW then rest + [last] else rest
  }

  function SlotOf(slots: seq<Reservation>, job: JobId): (slot: Option<Reservation>)
    ensures slot.None? <==> forall i :: 0 <= i < |slots| ==> slots[i].jobId != job
    ensures slot.Some? ==> slot.value in slots && slot.value.jobId == job
  {
    if slots == [] then None
    else if slots[0].jobId == job then Some(slots[0])
    else
      var slot := SlotOf(slots[1..], job);
      assert slots == [slots[0]] + slots[1..];
      slot
  }

  predicate Denied(cfg: Config, slots: seq<Reservation>, starts: seq<nat>) {
    || (cfg.maxActive > 0 && |slots| >= cfg.maxActive)
    || |starts| >= cfg.maxStarts
    || |slots| >= MAX_RESERVATIONS
  }

  /** One reading of the ledger at clock reading `now`, up to its compare-and-swap. */
  function Admit(cfg: Config, l: Ledger, now: nat, job: JobId, until: nat, proven: set<JobId>): Admission {
    if |l.reservations| > MAX_RESERVATIONS || |l.starts| > MAX_STARTS then Refused
    else if now == 0 || now < l.observedAt || exists i :: 0 <= i < |l.starts| && l.starts[i] > now then Refused
    else
      match SlotOf(l.reservations, job)
      case Some(slot) => if slot.launchUntil == until then AlreadyHeld else Refused
      case None =>
        var slots := Unreleased(cfg, l.reservations, now, proven);
        var starts := Recent(l.starts, now);
        if Denied(cfg, slots, starts) then Proposed(Ledger(slots, starts, now), true)
        else Proposed(Ledger(slots + [Reservation(job, until, Some(now))], starts + [now], now), false)
  }

  // ---- The loops of `reserve_worker` compute exactly this ----

  class LedgerDraft {
    var reservations: seq<Reservation>
    var starts: seq<nat>
    var observedAt: nat

    constructor (l: Ledger)
      ensures View() == l
    {
      reservations, starts, observedAt := l.reservations, l.starts, l.observedAt;
    }

    function View(): Ledger
      reads this
    {
      Ledger(reservations, starts, observedAt)
    }

    /** The body of one retry, in place. On a proposal the object holds the proposed ledger;
        otherwise nothing is written back to the store. */
    method Reserve(cfg: Config, now: nat, job: JobId, until: nat, proven: set<JobId>) returns (outcome: Admission)
      modifies this
      ensures outcome == Admit(cfg, old(View()), now, job, until, proven)
      ensures outcome.Proposed? ==> View() == outcome.ledger
      ensures !outcome.Proposed? ==> reservations == old(reservations) && starts == old(starts)
    {
      if |reservations| > MAX_RESERVATIONS || |starts| > MAX_STARTS {
        return Refused;
      }
      if now == 0 || now < observedAt || exists i :: 0 <= i < |starts| && starts[i] > now {
        return Refused;
      }
      observedAt := now;
      var slot := SlotOf(reservations, job);
      if slot.Some? {
        return if slot.value.launchUntil == until then AlreadyHeld else Refused;
      }
      var retained: seq<Reservation> := [];
      var k := 0;
      while k < |reservations|
        invariant 0 <= k <= |reservations|
        invariant reservations == old(reservations) && starts == old(starts) && observedAt == now
        invariant retained == Unreleased(cfg, reservations[..k], now, proven)
      {
        assert reservations[..k + 1][..k] == reservations[..k];
        if !Released(cfg, reservations[k], now, proven) {
          retained := retained + [reservations[k]];
        }
        k := k + 1;
      }
      assert reservations[..k] == reservations;
      reservations := retained;
      var recent: seq<nat> := [];
      k := 0;
      while k < |starts|
        invariant 0 <= k <= |starts|
        invariant reservations == retained && starts == old(starts) && observedAt == now
        invariant recent == Recent(starts[..k], now)
      {
        assert starts[..k + 1][..k] == starts[..k];
        if now < starts[k] || now - starts[k] <= WINDOW {
          recent := recent + [starts[k]];
        }
        k := k + 1;
      }
      assert starts[..k] == starts;
      starts := recent;
      var denied := Denied(cfg, reservations, starts);
      if !denied {
        starts := starts + [now];
        reservations := reservations + [Reservation(job, until, Some(now))];
      }
      outcome := Proposed(View(), denied);
    }
  }

  // ---- What the pruned ledger remembers of the whole history of charges ----

  predicate Ascending(s: seq<nat>) {
    forall i, j :: 0 <= i < j < |s| ==> s[i] <= s[j]
  }

  predicate Distinct(slots: seq<Reservation>) {
    forall i, j :: 0 <= i < j < |slots| ==> slots[i].jobId != slots[j].jobId
  }

  /** Any `max + 1` successive charges span more than an hour. */
  predicate Spaced(charges: seq<nat>, max: nat) {
    forall k :: max <= k < |charges| ==> charges[k] - charges[k - max] > WINDOW
  }

  /** `starts` is a suffix of the history, and what was cut off is over an hour old. */
  predicate Remembers(l: Ledger, charges: seq<nat>) {
    && |l.starts| <= |charges|
    && l.starts == charges[|charges| - |l.starts|..]
    && (forall i :: 0 <= i < |charges| - |l.starts| ==> charges[i] + WINDOW < l.observedAt)
    && (forall i :: 0 <= i < |charges| ==> charges[i] <= l.observedAt)
  }

  predicate Accounted(cfg: Config, l: Ledger, charges: seq<nat>) {
    && Ascending(charges)
    && Remembers(l, charges)
    && Spaced(charges, cfg.maxStarts)
    && Distinct(l.reservations)
    && (cfg.maxActive > 0 ==> |l.reservations| <= cfg.maxActive)
    && |l.starts| <= cfg.maxStarts && |l.reservations| <= MAX_RESERVATIONS
  }

  /** On an ascending list the age filter keeps a suffix. */
  lemma {:induction false} RecentIsSuffix(starts: seq<nat>, now: nat)
    requires Ascending(starts)
    requires forall i :: 0 <= i < |starts| ==> starts[i] <= now
    ensures |Recent(starts, now)| <= |starts|
    ensures Recent(starts, now) == starts[|starts| - |Recent(starts, now)|..]
    ensures forall i :: 0 <= i < |starts| - |Recent(starts, now)| ==> starts[i] + WINDOW < now
  {
    hide Recent, Ascending;
    if starts == [] {
      NoneRecent(starts, now);
    } else if now - starts[|starts| - 1] <= WINDOW {
      var init, last := starts[..|starts| - 1], starts[|starts| - 1];
      AscendingInit(starts);
      RecentIsSuffix(init, now);
      RecentStep(starts, now);
      var k := |init| - |Recent(init, now)|;
      assert starts[k..] == init[k..] + [last];
    } else {
      AscendingInit(starts);
      NoneRecent(starts, now);
    }
  }

  lemma AscendingInit(s: seq<nat>)
    requires Ascending(s) && s != []
    ensures Ascending(s[..|s| - 1]) && forall i :: 0 <= i < |s| ==> s[i] <= s[|s| - 1]
  {
  }

  lemma RecentStep(starts: seq<nat>, now: nat)
    requires starts != [] && now - starts[|starts| - 1] <= WINDOW
    ensures Recent(starts, now) == Recent(starts[..|starts| - 1], now) + [starts[|starts| - 1]]
  {
  }

  lemma {:induction false} NoneRecent(starts: seq<nat>, now: nat)
    requires forall i :: 0 <= i < |starts| ==> starts[i] + WINDOW < now
    ensures Recent(starts, now) == []
  {
    if starts != [] {
      NoneRecent(starts[..|starts| - 1], now);
    }
  }

  /** Pruning keeps exactly the slots that are not released, in order. */
  lemma {:induction false} UnreleasedSlots(cfg: Config, slots: seq<Reservation>, now: nat, proven: set<JobId>)
    ensures var r := Unreleased(cfg, slots, now, proven);
            && (forall x :: x in r <==> x in slots && !Released(cfg, x, now, proven))
            && |r| <= |slots|
  {
    if slots != [] {
      var init, last := slots[..|slots| - 1], slots[|slots| - 1];
      UnreleasedSlots(cfg, init, now, proven);
      assert slots == init + [last];
    }
  }

  lemma {:induction false} UnreleasedDistinct(cfg: Config, slots: seq<Reservation>, now: nat, proven: set<JobId>)
    requires Distinct(slots)
    ensures Distinct(Unreleased(cfg, slots, now, proven))
  {
    if slots != [] {
      var init, last := slots[..|slots| - 1], slots[|slots| - 1];
      assert forall i :: 0 <= i < |init| ==> init[i] == slots[i];
      UnreleasedDistinct(cfg, init, now, proven);
      UnreleasedSlots(cfg, init, now, proven);
      var r := Unreleased(cfg, init, now, proven);
      forall i | 0 <= i < |r| ensures r[i].jobId != last.jobId {
        assert r[i] in init;
      }
    }
  }

  lemma AppendCharge(charges: seq<nat>, recent: seq<nat>, now: nat, max: nat)
    requires Ascending(charges) && Spaced(charges, max)
    requires forall i :: 0 <= i < |charges| ==> charges[i] <= now
    requires |recent| <= |charges| && |recent| < max
    requires forall i :: 0 <= i < |charges| - |recent| ==> charges[i] + WINDOW < now
    ensures Ascending(charges + [now]) && Spaced(charges + [now], max)
  {
    var longer := charges + [now];
    forall k | max <= k < |longer| ensures longer[k] - longer[k - max] > WINDOW {
      if k == |charges| {
        assert k - max < |charges| - |recent|;
      }
    }
  }

  lemma PruneKeepsHistory(l: Ledger, charges: seq<nat>, now: nat)
    requires Ascending(charges) && Remembers(l, charges) && l.observedAt <= now
    ensures Remembers(Ledger([], Recent(l.starts, now), now), charges)
  {
    hide Recent;
    var cut := |charges| - |l.starts|;
    assert forall i :: 0 <= i < |l.starts| ==> l.starts[i] == charges[cut + i];
    RecentIsSuffix(l.starts, now);
    var recent := Recent(l.starts, now);
    var at := |charges| - |recent|;
    assert charges[at..] == l.starts[at - cut..];
    forall i | 0 <= i < at ensures charges[i] + WINDOW < now {
      if i >= cut {
        assert charges[i] == l.starts[i - cut];
      }
    }
  }

  lemma {:induction false} FewerRecent(starts: seq<nat>, now: nat)
    ensures |Recent(starts, now)| <= |starts|
  {
    if starts != [] {
      FewerRecent(starts[..|starts| - 1], now);
    }
  }

  lemma AdmitKeepsSlots(cfg: Config, l: Ledger, now: nat, job: JobId, until: nat, proven: set<JobId>)
    requires Distinct(l.reservations)
    requires cfg.maxActive > 0 ==> |l.reservations| <= cfg.maxActive
    requires |l.reservations| <= MAX_RESERVATIONS && |l.starts| <= cfg.maxStarts
    ensures var a := Admit(cfg, l, now, job, until, proven);
            a.Proposed? ==>
              && Distinct(a.ledger.reservations)
              && (cfg.maxActive > 0 ==> |a.ledger.reservations| <= cfg.maxActive)
              && |a.ledger.reservations| <= MAX_RESERVATIONS && |a.ledger.starts| <= cfg.maxStarts
  {
    UnreleasedSlots(cfg, l.reservations, now, proven);
    UnreleasedDistinct(cfg, l.reservations, now, proven);
    FewerRecent(l.starts, now);
    var r := Unreleased(cfg, l.reservations, now, proven);
    assert SlotOf(l.reservations, job).None? ==>
        forall i :: 0 <= i < |r| ==> r[i] in l.reservations && r[i].jobId != job;
  }

  /** A slot of a proposal: another job's that was there, or the admitted job's new one. */
  predicate Admitted(l: Ledger, slot: Reservation, job: JobId, until: nat, denied: bool) {
    || (slot in l.reservations && slot.jobId != job)
    || (!denied && slot.jobId == job && slot.launchUntil == until)
  }

  /** A proposal adds no slot but its own job's, and an admitted job holds one. */
  lemma AdmitSlots(cfg: Config, l: Ledger, now: nat, job: JobId, until: nat, proven: set<JobId>)
    ensures var a := Admit(cfg, l, now, job, until, proven);
            && (a.AlreadyHeld? ==> exists slot :: slot in l.reservations && slot.jobId == job)
            && (a.Proposed? ==> forall slot :: slot in a.ledger.reservations ==>
                Admitted(l, slot, job, until, a.denied))
  {
    UnreleasedSlots(cfg, l.reservations, now, proven);
    var slot := SlotOf(l.reservations, job);
    assert slot.Some? ==> slot.value in l.reservations;
  }

  /** Every ledger that an admission proposes is accounted for by the history that its
      compare-and-swap would commit. */
  lemma AdmitKeepsAccounts(cfg: Config, l: Ledger, charges: seq<nat>, now: nat, job: JobId, until: nat,
                           proven: set<JobId>)
    requires Accounted(cfg, l, charges)
    ensures var a := Admit(cfg, l, now, job, until, proven);
            a.Proposed? ==> Accounted(cfg, a.ledger, if a.denied then charges else charges + [now])
  {
    hide Recent, SlotOf, Unreleased;
    var a := Admit(cfg, l, now, job, until, proven);
    if a.Proposed? {
      AdmitKeepsSlots(cfg, l, now, job, until, proven);
      PruneKeepsHistory(l, charges, now);
      var recent := Recent(l.starts, now);
      if !a.denied {
        AppendCharge(charges, recent, now, cfg.maxStarts);
        var at := |charges| - |recent|;
        assert (charges + [now])[at..] == charges[at..] + [now];
      }
    }
  }

  // ---- The hourly limit over the whole history ----

  function CountIn(charges: seq<nat>, from: nat, to: nat): nat {
    if charges == [] then 0
    else CountIn(charges[..|charges| - 1], from, to)
         + (if from <= charges[|charges| - 1] <= to then 1 else 0)
  }

  /** In an ascending history the charges of a window are a contiguous run, ending at `k`. */
  lemma {:induction false} WindowIsRun(charges: seq<nat>, from: nat, to: nat) returns (k: int)
    requires Ascending(charges)
    ensures var n := CountIn(charges, from, to);
            n > 0 ==> n - 1 <= k < |charges| && charges[k] <= to && charges[k - (n - 1)] >= from
  {
    k := -1;
    if charges != [] {
      var init, last := charges[..|charges| - 1], charges[|charges| - 1];
      assert forall i :: 0 <= i < |init| ==> init[i] == charges[i];
      k := WindowIsRun(init, from, to);
      var m := CountIn(init, from, to);
      if from <= last <= to {
        assert m > 0 ==> charges[|init| - m] >= charges[k - (m - 1)];
        k := |init|;
      }
    }
  }

  /** No closed window of 3600 seconds ever holds more charges than the policy allows. */
  lemma HourlyLimit(charges: seq<nat>, max: nat, from: nat)
    requires Ascending(charges) && Spaced(charges, max)
    ensures CountIn(charges, from, from + WINDOW) <= max
  {
    var n := CountIn(charges, from, from + WINDOW);
    var k := WindowIsRun(charges, from, from + WINDOW);
    if n > 0 {
      assert k < max || charges[k] - charges[k - max] > WINDOW;
    }
  }
}
