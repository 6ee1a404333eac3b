/** The production entry point: the event stream selects and orders the resolved claims, which
    are then allocated and committed to. */
module Settlement {
  import opened Sorting
  import opened Allocation
  import opened Merkle
  import opened ClaimSet

  // ---- Resolving claims against the stream ----

  /** The last registration of each claim. */
  function Registrations(events: seq<Event>): (m: map<nat, Event>)
    ensures m.Keys == Registered(events)
    ensures forall id :: id in m ==> m[id].id == id
  {
    if events == [] then map[]
    else
      var e := events[|events| - 1];
      var m := Registrations(events[..|events| - 1]);
      if e.kind.Register? then m[e.id := e] else m
  }

  predicate Matches(e: Event, c: Claim) {
    e.user == c.user && e.amount == c.escrow && e.scoreToSpend == c.scoreToSpend && e.boosterAmount == c.boosterAmount
  }

  predicate DistinctIds(claims: seq<Claim>) {
    forall i, j :: 0 <= i < j < |claims| ==> claims[i].id != claims[j].id
  }

  predicate Live(events: seq<Event>, id: nat) {
    id in Registered(events) && id !in Cancelled(events)
  }

  /** The resolved claims are the live registrations, field for field. */
  predicate Resolves(claims: seq<Claim>, events: seq<Event>) {
    && DistinctIds(claims)
    && (forall k :: 0 <= k < |claims| ==> Live(events, claims[k].id))
    && (forall k :: 0 <= k < |claims| ==>
        claims[k].id in Registered(events) && Matches(Registrations(events)[claims[k].id], claims[k]))
    && (forall id :: id in Registered(events) && Live(events, id) ==> HasClaim(claims, id))
  }

  predicate HasClaim(claims: seq<Claim>, id: nat) {
    exists k :: 0 <= k < |claims| && claims[k].id == id
  }

  datatype Error =
    | Stream(error: EventError)
    | DuplicateResolvedClaim(id: nat) | UnexpectedResolvedClaim(id: nat)
    | MissingResolvedClaim(id: nat) | ResolvedClaimMismatch(id: nat)
    | BadPolicy | DuplicateInputUser | Overflow

  datatype Result<T> = Ok(value: T) | Err(error: Error)

  /** The second pass over the stream. After a successful replay none of its errors can occur. */
  method SecondPass(events: seq<Event>)
    returns (error: set<EventError>, registrations: map<nat, Event>, order: seq<nat>, cancelled: set<nat>)
    requires WellOrdered(events)
    ensures error == {} && registrations == Registrations(events)
    ensures order == RegistrationOrder(events) && cancelled == Cancelled(events)
  {
    error, registrations, order, cancelled := {}, map[], [], {};
    for k := 0 to |events|
      invariant registrations == Registrations(events[..k]) && order == RegistrationOrder(events[..k])
      invariant cancelled == Cancelled(events[..k])
    {
      var event := events[k];
      StreamStep(events, k);
      assert Fault(events[..k], event) == {};
      if event.kind.Register? {
        if event.id in registrations {
          error := {DuplicateRegistration(event.id)};
          return;
        }
        registrations := registrations[event.id := event];
        order := order + [event.id];
      } else {
        if event.id !in registrations {
          error := {UnknownCancellation(event.id)};
          return;
        }
        if event.id in cancelled {
          error := {DuplicateCancellation(event.id)};
          return;
        }
        cancelled := cancelled + {event.id};
      }
    }
    assert events[..|events|] == events;
  }

  /** Every resolved claim is new and live. */
  method CollectResolved(claims: seq<Claim>, events: seq<Event>, registrations: map<nat, Event>, cancelled: set<nat>)
    returns (r: Result<map<nat, Claim>>)
    requires registrations == Registrations(events) && cancelled == Cancelled(events)
    ensures r.Ok? <==> DistinctIds(claims) && forall k :: 0 <= k < |claims| ==> Live(events, claims[k].id)
    ensures r.Ok? ==> forall k :: 0 <= k < |claims| ==> claims[k].id in r.value && r.value[claims[k].id] == claims[k]
    ensures r.Ok? ==> forall id :: id in r.value ==> HasClaim(claims, id)
  {
    var resolved: map<nat, Claim> := map[];
    for k := 0 to |claims|
      invariant DistinctIds(claims[..k]) && forall i :: 0 <= i < k ==> Live(events, claims[i].id)
      invariant forall i :: 0 <= i < k ==> claims[i].id in resolved && resolved[claims[i].id] == claims[i]
      invariant forall id :: id in resolved ==> exists i :: 0 <= i < k && claims[i].id == id
    {
      var claim := claims[k];
      if claim.id in resolved {
        return Err(DuplicateResolvedClaim(claim.id));
      }
      resolved := resolved[claim.id := claim];
      if claim.id !in registrations || claim.id in cancelled {
        return Err(UnexpectedResolvedClaim(claim.id));
      }
    }
    assert claims[..|claims|] == claims;
    r := Ok(resolved);
  }

  /** Every claim of `ids` that is not `gone` is resolved and matches its registration. */
  predicate AllMatched(ids: seq<nat>, gone: set<nat>, registrations: map<nat, Event>, resolved: map<nat, Claim>) {
    forall i :: 0 <= i < |ids| && ids[i] !in gone ==>
      ids[i] in registrations && ids[i] in resolved && Matches(registrations[ids[i]], resolved[ids[i]])
  }

  function Ordered(ids: seq<nat>, gone: set<nat>, resolved: map<nat, Claim>): seq<Claim> {
    if ids == [] then []
    else
      var last := ids[|ids| - 1];
      Ordered(ids[..|ids| - 1], gone, resolved) + if last in gone || last !in resolved then [] else [resolved[last]]
  }

  method OrderClaims(order: seq<nat>, cancelled: set<nat>, registrations: map<nat, Event>, resolved: map<nat, Claim>)
    returns (r: Result<seq<Claim>>)
    requires forall i :: 0 <= i < |order| ==> order[i] in registrations
    ensures r.Ok? <==> AllMatched(order, cancelled, registrations, resolved)
    ensures r.Ok? ==> r.value == Ordered(order, cancelled, resolved)
  {
    var claims: seq<Claim> := [];
    for k := 0 to |order|
      invariant AllMatched(order[..k], cancelled, registrations, resolved)
      invariant claims == Ordered(order[..k], cancelled, resolved)
    {
      var id := order[k];
      assert order[..k + 1][..k] == order[..k];
      if id !in cancelled {
        if id !in resolved {
          return Err(MissingResolvedClaim(id));
        }
        var registered, claim := registrations[id], resolved[id];
        if registered.user != claim.user || registered.amount != claim.escrow
           || registered.scoreToSpend != claim.scoreToSpend || registered.boosterAmount != claim.boosterAmount {
          return Err(ResolvedClaimMismatch(id));
        }
        claims := claims + [resolved[id]];
      }
    }
    assert order[..|order|] == order;
    r := Ok(claims);
  }

  lemma {:induction false} OrderIsRegistered(events: seq<Event>)
    ensures forall id :: id in RegistrationOrder(events) <==> id in Registered(events)
  {
    if events != [] {
      OrderIsRegistered(events[..|events| - 1]);
    }
  }

  lemma {:induction false} OrderedFollows(ids: seq<nat>, gone: set<nat>, resolved: map<nat, Claim>)
    requires forall i :: 0 <= i < |ids| && ids[i] !in gone ==> ids[i] in resolved && resolved[ids[i]].id == ids[i]
    ensures var live, claims := Without(ids, gone), Ordered(ids, gone, resolved);
            && |claims| == |live|
            && forall k :: 0 <= k < |live| ==>
              claims[k].id == live[k] && live[k] in resolved && claims[k] == resolved[live[k]]
  {
    if ids != [] {
      OrderedFollows(ids[..|ids| - 1], gone, resolved);
    }
  }

  /** The claims of the live registrations, in registration order. */
  predicate FollowsRegistrations(ordered: seq<Claim>, claims: seq<Claim>, events: seq<Event>) {
    && |ordered| == |LiveIds(events)|
    && forall k :: 0 <= k < |ordered| ==> ordered[k].id == LiveIds(events)[k] && ordered[k] in claims
  }

  /** Whatever the order of the input, the rows come in registration order. */
  lemma InputOrderIsIrrelevant(claims: seq<Claim>, claims': seq<Claim>, events: seq<Event>, ordered: seq<Claim>,
                               ordered': seq<Claim>)
    requires DistinctIds(claims) && multiset(claims) == multiset(claims')
    requires FollowsRegistrations(ordered, claims, events) && FollowsRegistrations(ordered', claims', events)
    ensures ordered == ordered'
  {
    SameLength(claims, claims');
    forall k | 0 <= k < |ordered| ensures ordered[k] == ordered'[k] {
      assert ordered'[k] in claims;
      var i, j :| 0 <= i < |claims| && 0 <= j < |claims| && claims[i] == ordered[k] && claims[j] == ordered'[k];
      assert i == j;
    }
  }

  lemma MatchedMeansResolved(claims: seq<Claim>, events: seq<Event>, resolved: map<nat, Claim>)
    requires DistinctIds(claims) && forall k :: 0 <= k < |claims| ==> Live(events, claims[k].id)
    requires forall k :: 0 <= k < |claims| ==> claims[k].id in resolved && resolved[claims[k].id] == claims[k]
    requires forall id :: id in resolved ==> HasClaim(claims, id)
    ensures AllMatched(RegistrationOrder(events), Cancelled(events), Registrations(events), resolved) <==>
              Resolves(claims, events)
  {
    hide Registrations, Registered, Cancelled, RegistrationOrder;
    var order := RegistrationOrder(events);
    OrderIsRegistered(events);
    RegistrationsCover(events);
    if AllMatched(order, Cancelled(events), Registrations(events), resolved) {
      forall k | 0 <= k < |claims|
        ensures claims[k].id in Registered(events) && Matches(Registrations(events)[claims[k].id], claims[k])
      {
        assert Live(events, claims[k].id);
        var i :| 0 <= i < |order| && order[i] == claims[k].id;
      }
      forall id | id in Registered(events) && Live(events, id) ensures HasClaim(claims, id) {
        var i :| 0 <= i < |order| && order[i] == id;
      }
    }
    if Resolves(claims, events) {
      forall i | 0 <= i < |order| && order[i] !in Cancelled(events)
        ensures order[i] in resolved && Matches(Registrations(events)[order[i]], resolved[order[i]])
      {
        assert order[i] in order;
        assert Live(events, order[i]);
        var k :| 0 <= k < |claims| && claims[k].id == order[i];
      }
    }
  }

  lemma RegistrationsCover(events: seq<Event>)
    ensures Registrations(events).Keys == Registered(events)
  {
  }

  /** Up to the call of `allocate`: it is reached exactly when the stream is well ordered (in
      256-bit words) and the resolved claims are its live registrations. */
  method OrderedInput(K: Keccak, claims: seq<Claim>, events: seq<Event>) returns (r: Result<seq<Claim>>)
    ensures r.Ok? <==> WellOrdered(events) && EventsFit(events) && Resolves(claims, events)
    ensures r.Ok? ==> FollowsRegistrations(r.value, claims, events)
  {
    hide Fault, Registrations, Registered, Cancelled, RegistrationOrder, Without, Ordered, Rolling;
    var replay := ReplayClaimSet(K, events);
    if replay.Rejected? {
      return Err(Stream(replay.error));
    }
    var error, registrations, order, cancelled := SecondPass(events);
    OrderIsRegistered(events);
    RegistrationsCover(events);
    var resolved := CollectResolved(claims, events, registrations, cancelled);
    if resolved.Err? {
      return Err(resolved.error);
    }
    MatchedMeansResolved(claims, events, resolved.value);
    assert forall i :: 0 <= i < |order| ==> order[i] in order;
    r := OrderClaims(order, cancelled, registrations, resolved.value);
    if r.Ok? {
      ResolvedHoldsClaims(claims, resolved.value);
      OrderedFollows(order, cancelled, resolved.value);
    }
  }

  lemma ResolvedHoldsClaims(claims: seq<Claim>, resolved: map<nat, Claim>)
    requires forall k :: 0 <= k < |claims| ==> claims[k].id in resolved && resolved[claims[k].id] == claims[k]
    requires forall id :: id in resolved ==> HasClaim(claims, id)
    ensures forall id :: id in resolved ==> resolved[id].id == id && resolved[id] in claims
  {
  }
}
