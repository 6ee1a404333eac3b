/** The register/cancel stream of a settlement: when it is well ordered, which claims it leaves
    live, and the rolling hash that commits to it. */
module ClaimSet {
  import opened Merkle
  import opened MerkleBinding

  datatype Kind = Register | Cancel

  datatype Event = Event(
    kind: Kind, id: nat, user: nat, amount: nat, scoreToSpend: nat, boosterAmount: nat, block: nat, index: nat)

  datatype EventError =
    | EventOrder | DuplicateRegistration(id: nat) | UnknownCancellation(id: nat) | DuplicateCancellation(id: nat)
    | WordOverflow

  predicate Earlier(a: Event, b: Event) {
    a.block < b.block || (a.block == b.block && a.index < b.index)
  }

  // ---- What a stream says ----

  function Registered(events: seq<Event>): set<nat> {
    if events == [] then {}
    else
      var e := events[|events| - 1];
      Registered(events[..|events| - 1]) + if e.kind.Register? then {e.id} else {}
  }

  function Cancelled(events: seq<Event>): set<nat> {
    if events == [] then {}
    else
      var e := events[|events| - 1];
      Cancelled(events[..|events| - 1]) + if e.kind.Cancel? then {e.id} else {}
  }

  function RegistrationOrder(events: seq<Event>): seq<nat> {
    if events == [] then []
    else
      var e := events[|events| - 1];
      RegistrationOrder(events[..|events| - 1]) + if e.kind.Register? then [e.id] else []
  }

  function Without(ids: seq<nat>, gone: set<nat>): seq<nat> {
    if ids == [] then []
    else
      var last := ids[|ids| - 1];
      Without(ids[..|ids| - 1], gone) + if last in gone then [] else [last]
  }

  /** The live claims, in registration order. */
  function LiveIds(events: seq<Event>): seq<nat> {
    Without(RegistrationOrder(events), Cancelled(events))
  }

  /** The first fault of event `e` after `before`, if any. */
  function Fault(before: seq<Event>, e: Event): (error: set<EventError>) {
    if before != [] && !Earlier(before[|before| - 1], e) then {EventOrder}
    else if e.kind.Register? then if e.id in Registered(before) then {DuplicateRegistration(e.id)} else {}
    else if e.id !in Registered(before) then {UnknownCancellation(e.id)}
    else if e.id in Cancelled(before) then {DuplicateCancellation(e.id)}
    else {}
  }

  /** Positions strictly increase, every claim is registered once, and cancelled at most once and
      only after its registration. */
  predicate WellOrdered(events: seq<Event>) {
    forall k :: 0 <= k < |events| ==> Fault(events[..k], events[k]) == {}
  }

  predicate EventFits(e: Event) {
    e.id < WORD_LIMIT
    && (e.kind.Register? ==> e.amount < WORD_LIMIT && e.scoreToSpend < WORD_LIMIT && e.boosterAmount < WORD_LIMIT)
  }

  predicate EventsFit(events: seq<Event>) {
    forall k :: 0 <= k < |events| ==> EventFits(events[k])
  }

  // ---- The rolling hash ----

  function EventWords(accumulator: nat, e: Event): seq<nat> {
    if e.kind.Register? then [accumulator, e.id, e.user, e.amount, e.scoreToSpend, e.boosterAmount]
    else [accumulator, e.id]
  }

  function Rolling(K: Keccak, events: seq<Event>): nat {
    if events == [] then 0
    else K(EventWords(Rolling(K, events[..|events| - 1]), events[|events| - 1]))
  }

  datatype HashResult = Hash(value: nat) | HashOverflow

  method ClaimSetHash(K: Keccak, events: seq<Event>) returns (r: HashResult)
    ensures r == if EventsFit(events) then Hash(Rolling(K, events)) else HashOverflow
  {
    var accumulator := 0;
    for k := 0 to |events|
      invariant accumulator == Rolling(K, events[..k]) && EventsFit(events[..k])
    {
      if !EventFits(events[k]) {
        return HashOverflow;
      }
      assert events[..k + 1][..k] == events[..k];
      accumulator := K(EventWords(accumulator, events[k]));
    }
    assert events[..|events|] == events;
    r := Hash(accumulator);
  }

  /** The fields that the rolling hash covers: a cancellation only names its claim, and positions
      are not hashed. */
  predicate SameCommitted(a: Event, b: Event) {
    && a.kind == b.kind && a.id == b.id
    && (a.kind.Register? ==> a.user == b.user && a.amount == b.amount && a.scoreToSpend == b.scoreToSpend
                             && a.boosterAmount == b.boosterAmount)
  }

  ghost predicate NeverZero(K: Keccak) {
    forall x: seq<nat> :: K(x) != 0
  }

  lemma EventWordsBind(h: nat, a: Event, h': nat, b: Event)
    requires EventWords(h, a) == EventWords(h', b)
    ensures h == h' && SameCommitted(a, b)
  {
    var w, w' := EventWords(h, a), EventWords(h', b);
    assert |w| == |w'| && w[0] == w'[0] && w[1] == w'[1];
    if a.kind.Register? {
      assert w[2] == w'[2] && w[3] == w'[3] && w[4] == w'[4] && w[5] == w'[5];
    }
  }

  /** Equal rolling hashes mean equal streams in every hashed field. */
  lemma {:induction false} EqualHashesEqualStreams(K: Keccak, x: seq<Event>, y: seq<Event>)
    requires Injective(K) && NeverZero(K) && Rolling(K, x) == Rolling(K, y)
    ensures |x| == |y| && forall k :: 0 <= k < |x| ==> SameCommitted(x[k], y[k])
  {
    hide Injective;
    if x != [] && y != [] {
      var h, h' := Rolling(K, x[..|x| - 1]), Rolling(K, y[..|y| - 1]);
      SameInput(K, EventWords(h, x[|x| - 1]), EventWords(h', y[|y| - 1]));
      EventWordsBind(h, x[|x| - 1], h', y[|y| - 1]);
      EqualHashesEqualStreams(K, x[..|x| - 1], y[..|y| - 1]);
    }
  }

  // ---- The hypotheses on the hash can be met ----

  function Doubled(c: nat, times: nat): (d: nat)
    ensures c > 0 ==> d > 0
  {
    if times == 0 then c else 2 * Doubled(c, times - 1)
  }

  /** A list as a positive number: the last element counts the factors of two. */
  function Code(s: seq<nat>): (c: nat)
    ensures c > 0
  {
    if s == [] then 1 else Doubled(2 * Code(s[..|s| - 1]) + 1, s[|s| - 1])
  }

  lemma {:induction false} OddPart(x: nat, a: nat, y: nat, b: nat)
    requires Doubled(2 * a + 1, x) == Doubled(2 * b + 1, y)
    ensures x == y && a == b
  {
    if x > 0 && y > 0 {
      OddPart(x - 1, a, y - 1, b);
    }
  }

  lemma {:induction false} CodeIsInjective(s: seq<nat>, t: seq<nat>)
    requires Code(s) == Code(t)
    ensures s == t
  {
    if s != [] && t != [] {
      OddPart(s[|s| - 1], Code(s[..|s| - 1]), t[|t| - 1], Code(t[..|t| - 1]));
      CodeIsInjective(s[..|s| - 1], t[..|t| - 1]);
      assert s == s[..|s| - 1] + [s[|s| - 1]] && t == t[..|t| - 1] + [t[|t| - 1]];
    }
  }

  lemma CollisionFreeHashExists()
    ensures exists K: Keccak :: Injective(K) && NeverZero(K)
  {
    var K: Keccak := (s: seq<nat>) => Code(s);
    forall x: seq<nat>, y: seq<nat> | K(x) == K(y) ensures x == y {
      CodeIsInjective(x, y);
    }
    assert Injective(K) && NeverZero(K);
  }

  // ---- Replaying it ----

  datatype Replay = Replayed(hash: nat, live: seq<nat>) | Rejected(error: EventError)

  method FilterLive(order: seq<nat>, cancelled: set<nat>) returns (live: seq<nat>)
    ensures live == Without(order, cancelled)
  {
    live := [];
    for k := 0 to |order|
      invariant live == Without(order[..k], cancelled)
    {
      assert order[..k + 1][..k] == order[..k];
      if order[k] !in cancelled {
        live := live + [order[k]];
      }
    }
    assert order[..|order|] == order;
  }

  lemma StreamStep(events: seq<Event>, k: nat)
    requires k < |events|
    ensures events[..k + 1][..k] == events[..k] && events[..k + 1][k] == events[k]
  {
  }

  /** `replay_claim_set`: exactly the well-ordered streams of 256-bit words are accepted; a rejected
      stream's error is the fault of its first faulty event. */
  method ReplayClaimSet(K: Keccak, events: seq<Event>) returns (r: Replay)
    ensures r.Replayed? <==> WellOrdered(events) && EventsFit(events)
    ensures r.Replayed? ==> r.hash == Rolling(K, events) && r.live == LiveIds(events)
    ensures r.Rejected? && r.error != WordOverflow ==>
              exists k :: 0 <= k < |events| && WellOrdered(events[..k]) && Fault(events[..k], events[k]) == {r.error}
  {
    var registrations: set<nat>, order: seq<nat>, cancelled: set<nat> := {}, [], {};
    for k := 0 to |events|
      invariant registrations == Registered(events[..k]) && cancelled == Cancelled(events[..k])
      invariant order == RegistrationOrder(events[..k])
      invariant WellOrderedUpTo(events, k)
    {
      var event := events[k];
      StreamStep(events, k);
      UpToIsPrefix(events, k);
      if k > 0 && (event.block < events[k - 1].block
                   || (event.block == events[k - 1].block && event.index <= events[k - 1].index)) {
        assert events[..k][k - 1] == events[k - 1];
        assert Fault(events[..k], event) == {EventOrder};
        return Rejected(EventOrder);
      }
      if event.kind.Register? {
        if event.id in registrations {
          assert Fault(events[..k], event) == {DuplicateRegistration(event.id)};
          return Rejected(DuplicateRegistration(event.id));
        }
        registrations := registrations + {event.id};
        order := order + [event.id];
      } else {
        if event.id !in registrations {
          assert Fault(events[..k], event) == {UnknownCancellation(event.id)};
          return Rejected(UnknownCancellation(event.id));
        }
        if event.id in cancelled {
          assert Fault(events[..k], event) == {DuplicateCancellation(event.id)};
          return Rejected(DuplicateCancellation(event.id));
        }
        cancelled := cancelled + {event.id};
      }
    }
    assert events[..|events|] == events;
    var live := FilterLive(order, cancelled);
    var hash := ClaimSetHash(K, events);
    r := match hash case Hash(value) => Replayed(value, live) case HashOverflow => Rejected(WordOverflow);
  }

  predicate WellOrderedUpTo(events: seq<Event>, n: nat)
    requires n <= |events|
  {
    forall k :: 0 <= k < n ==> Fault(events[..k], events[k]) == {}
  }

  lemma UpToIsPrefix(events: seq<Event>, n: nat)
    requires n <= |events|
    ensures WellOrderedUpTo(events, n) <==> WellOrdered(events[..n])
  {
    assert forall k :: 0 <= k < n ==> events[..n][..k] == events[..k];
  }
}
