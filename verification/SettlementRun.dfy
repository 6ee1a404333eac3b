/** The whole settlement: ordered claims, allocation, and the three commitments. */
module SettlementRun {
  import opened Sorting
  import opened Allocation
  import opened AllocationMeaning
  import opened Allocator
  import opened Merkle
  import opened MerkleBinding
  import opened ClaimSet
  import opened Settlement

  // ---- The settlement input hash ----

  datatype Scored = Scored(user: nat, score: nat)

  const BY_USER: (Scored, Scored) -> bool := (a: Scored, b: Scored) => a.user < b.user

  predicate DistinctUsers(rows: seq<Scored>) {
    forall i, j :: 0 <= i < j < |rows| ==> rows[i].user != rows[j].user
  }

  predicate ScoresFit(rows: seq<Scored>) {
    forall k :: 0 <= k < |rows| ==> rows[k].score < WORD_LIMIT
  }

  function UserOf(row: Scored): nat { row.user }

  function ScoreOf(row: Scored): nat { row.score }

  /** Two ABI-encoded arrays: their offsets, then each with its length. */
  function InputWords(rows: seq<Scored>): seq<nat> {
    [64, 96 + 32 * |rows|, |rows|] + Map(UserOf, rows) + [|rows|] + Map(ScoreOf, rows)
  }

  function InputHash(K: Keccak, rows: seq<Scored>): nat {
    K(InputWords(Sort(BY_USER, rows)))
  }

  lemma SameUsersSameCount(s: seq<Scored>, t: seq<Scored>)
    requires multiset(s) == multiset(t) && DistinctUsers(s)
    ensures DistinctUsers(t)
  {
    KeysStayDistinct((row: Scored) => row.user, s, t);
  }

  /** In a list ordered by user, equal users are neighbours. */
  lemma AdjacentSuffices(rows: seq<Scored>)
    requires InPlace(BY_USER, rows)
    ensures DistinctUsers(rows) <==> forall k :: 0 < k < |rows| ==> rows[k - 1].user != rows[k].user
  {
    if forall k :: 0 < k < |rows| ==> rows[k - 1].user != rows[k].user {
      forall i, j | 0 <= i < j < |rows| ensures rows[i].user < rows[j].user {
        UsersClimb(rows, i, j);
      }
    }
  }

  lemma {:induction false} UsersClimb(rows: seq<Scored>, i: nat, j: nat)
    requires InPlace(BY_USER, rows) && i < j < |rows|
    requires forall k :: 0 < k < |rows| ==> rows[k - 1].user != rows[k].user
    ensures rows[i].user < rows[j].user
  {
    assert !BY_USER(rows[j], rows[j - 1]);
    if i < j - 1 {
      UsersClimb(rows, i, j - 1);
    }
  }

  method NeighboursDiffer(rows: seq<Scored>) returns (differ: bool)
    ensures differ <==> forall k :: 0 < k < |rows| ==> rows[k - 1].user != rows[k].user
  {
    var k := 1;
    while k < |rows|
      invariant forall i :: 0 < i < k && i < |rows| ==> rows[i - 1].user != rows[i].user
    {
      if rows[k - 1].user == rows[k].user {
        return false;
      }
      k := k + 1;
    }
    differ := true;
  }

  method WordsFit(rows: seq<Scored>) returns (fit: bool)
    ensures fit <==> ScoresFit(rows)
  {
    for k := 0 to |rows|
      invariant forall i :: 0 <= i < k ==> rows[i].score < WORD_LIMIT
    {
      if rows[k].score >= WORD_LIMIT {
        return false;
      }
    }
    fit := true;
  }

  lemma SortedInput(rows: seq<Scored>)
    ensures var s := Sort(BY_USER, rows);
            InPlace(BY_USER, s) && (DistinctUsers(s) <==> DistinctUsers(rows)) && (ScoresFit(s) <==> ScoresFit(rows))
  {
    SortKeeps(BY_USER, rows);
    var s := Sort(BY_USER, rows);
    SameLength(s, rows);
    if DistinctUsers(rows) {
      SameUsersSameCount(rows, s);
    }
    if DistinctUsers(s) {
      SameUsersSameCount(s, rows);
    }
    SameFit(rows, s);
    SameFit(s, rows);
  }

  lemma SameFit(s: seq<Scored>, t: seq<Scored>)
    requires forall x :: x in t ==> x in s
    ensures ScoresFit(s) ==> ScoresFit(t)
  {
    if ScoresFit(s) {
      forall k | 0 <= k < |t| ensures t[k].score < WORD_LIMIT {
        assert t[k] in s;
      }
    }
  }

  /** Succeeds exactly when no user appears twice and every score is a 256-bit word. */
  method SettlementInputHash(K: Keccak, rows: seq<Scored>) returns (r: Result<nat>)
    ensures r.Ok? <==> DistinctUsers(rows) && ScoresFit(rows)
    ensures r.Ok? ==> r.value == InputHash(K, rows)
  {
    hide Sort, InPlace, InputWords, DistinctUsers, ScoresFit;
    var canonical := Sort(BY_USER, rows);
    SortedInput(rows);
    AdjacentSuffices(canonical);
    var distinct := NeighboursDiffer(canonical);
    if !distinct {
      return Err(DuplicateInputUser);
    }
    var fit := WordsFit(canonical);
    if !fit {
      return Err(Overflow);
    }
    r := Ok(K(InputWords(canonical)));
  }

  /** The input hash does not depend on the order of the rows. */
  lemma InputHashIgnoresOrder(K: Keccak, rows: seq<Scored>, rows': seq<Scored>)
    requires DistinctUsers(rows) && multiset(rows) == multiset(rows')
    ensures InputHash(K, rows) == InputHash(K, rows')
  {
    hide Sort;
    SortKeeps(BY_USER, rows);
    SortKeeps(BY_USER, rows');
    SameUsersSameCount(rows, Sort(BY_USER, rows));
    UsersBreakTies(Sort(BY_USER, rows));
    OrderIsUnique(BY_USER, Sort(BY_USER, rows), Sort(BY_USER, rows'));
  }

  lemma UsersBreakTies(s: seq<Scored>)
    requires DistinctUsers(s)
    ensures TiesAreEqual(BY_USER, s)
  {
    forall a, b | a in s && b in s && !BY_USER(a, b) && !BY_USER(b, a) ensures a == b {
      var i, j :| 0 <= i < |s| && 0 <= j < |s| && s[i] == a && s[j] == b;
      assert i == j;
    }
  }

  lemma InputWordsBind(s: seq<Scored>, t: seq<Scored>)
    requires InputWords(s) == InputWords(t)
    ensures s == t
  {
    hide Map;
    var w, w' := InputWords(s), InputWords(t);
    assert w[2] == |s| && w'[2] == |t|;
    var n := |s|;
    assert w[3..3 + n] == Map(UserOf, s) && w'[3..3 + n] == Map(UserOf, t);
    assert w[4 + n..] == Map(ScoreOf, s) && w'[4 + n..] == Map(ScoreOf, t);
    forall k | 0 <= k < n ensures s[k] == t[k] {
      assert Map(UserOf, s)[k] == Map(UserOf, t)[k] && Map(ScoreOf, s)[k] == Map(ScoreOf, t)[k];
    }
  }

  /** Equal input hashes: the same users with the same scores. */
  lemma EqualInputHashesEqualRows(K: Keccak, rows: seq<Scored>, rows': seq<Scored>)
    requires Injective(K) && InputHash(K, rows) == InputHash(K, rows')
    ensures multiset(rows) == multiset(rows')
  {
    hide Injective, InputWords;
    SameInput(K, InputWords(Sort(BY_USER, rows)), InputWords(Sort(BY_USER, rows')));
    InputWordsBind(Sort(BY_USER, rows), Sort(BY_USER, rows'));
    SortKeeps(BY_USER, rows);
    SortKeeps(BY_USER, rows');
  }

  // ---- The whole settlement ----

  function ScoredOf(row: Row): Scored { Scored(row.user, row.grossEarned) }

  function MerkleRowOf(row: Row): MerkleRow {
    MerkleRow(row.claimId, row.user, row.amounts, row.scoreSpent, row.boosted, row.eligible, row.eligibleBooster)
  }

  /** How the allocator alone would register its claims. */
  function RegistrationOf(c: Claim): Event {
    Event(Register, c.id, c.user, c.escrow, c.scoreToSpend, c.boosterAmount, 0, 0)
  }

  lemma {:induction false} RegistrationsFit(events: seq<Event>, id: nat)
    requires EventsFit(events) && id in Registered(events)
    ensures Registrations(events)[id].kind.Register? && EventFits(Registrations(events)[id])
  {
    if events[|events| - 1].kind.Cancel? || events[|events| - 1].id != id {
      RegistrationsFit(events[..|events| - 1], id);
    }
  }

  /** The allocator's own claim-set words always fit: they are those of accepted registrations. */
  lemma OrderedClaimsFit(ordered: seq<Claim>, claims: seq<Claim>, events: seq<Event>)
    requires EventsFit(events) && Resolves(claims, events) && FollowsRegistrations(ordered, claims, events)
    ensures EventsFit(Map(RegistrationOf, ordered))
  {
    hide Registrations, Registered, Cancelled, LiveIds;
    forall k | 0 <= k < |ordered| ensures EventFits(RegistrationOf(ordered[k])) {
      var i :| 0 <= i < |claims| && claims[i] == ordered[k];
      assert Live(events, claims[i].id);
      RegistrationsFit(events, claims[i].id);
      RegistrationsNamed(events);
    }
  }

  lemma RegistrationsNamed(events: seq<Event>)
    ensures Registrations(events).Keys == Registered(events)
    ensures forall id :: id in Registrations(events) ==> Registrations(events)[id].id == id
  {
  }

  datatype Settled = Settled(
    rows: seq<Row>, poolPayouts: seq<nat>, claimSetHash: nat, inputHash: nat, root: nat, proofs: map<nat, seq<nat>>)

  predicate Committable(incident: nat, rows: seq<Row>) {
    && DistinctUsers(Map(ScoredOf, rows)) && ScoresFit(Map(ScoredOf, rows))
    && AllFit(incident, Map(MerkleRowOf, rows))
  }

  /** What a settlement commits to. */
  ghost predicate Commits(K: Keccak, incident: nat, events: seq<Event>, s: Settled) {
    var rows := Map(MerkleRowOf, s.rows);
    && s.claimSetHash == Rolling(K, events)
    && s.inputHash == InputHash(K, Map(ScoredOf, s.rows))
    && if rows == [] then s.root == 0 && s.proofs == map[]
       else
         && s.root == Root(K, incident, rows) && s.proofs.Keys == ClaimIds(rows)
         && Proves(K, incident, rows, s.root, s.proofs)
  }

  lemma OrderedIdsDistinct(ordered: seq<Claim>, claims: seq<Claim>, events: seq<Event>)
    requires WellOrdered(events) && FollowsRegistrations(ordered, claims, events)
    ensures DistinctIds(ordered)
  {
    LiveIdsDistinct(events);
  }

  lemma {:induction false} OrderDistinct(events: seq<Event>)
    requires WellOrdered(events)
    ensures NoRepeats(RegistrationOrder(events))
  {
    if events != [] {
      var init := events[..|events| - 1];
      UpToIsPrefix(events, |events| - 1);
      OrderDistinct(init);
      OrderIsRegistered(init);
      assert Fault(events[..|events| - 1], events[|events| - 1]) == {};
    }
  }

  lemma {:induction false} WithoutDistinct(ids: seq<nat>, gone: set<nat>)
    requires NoRepeats(ids)
    ensures NoRepeats(Without(ids, gone)) && forall id :: id in Without(ids, gone) ==> id in ids
  {
    if ids != [] {
      var init, last := ids[..|ids| - 1], ids[|ids| - 1];
      WithoutDistinct(init, gone);
      forall id | id in init ensures id != last {
        var k :| 0 <= k < |init| && init[k] == id;
        assert ids[k] == id;
      }
      var kept := Without(init, gone);
      forall i | 0 <= i < |kept| ensures kept[i] != last {
        assert kept[i] in kept;
      }
    }
  }

  lemma LiveIdsDistinct(events: seq<Event>)
    requires WellOrdered(events)
    ensures NoRepeats(LiveIds(events))
  {
    OrderDistinct(events);
    WithoutDistinct(RegistrationOrder(events), Cancelled(events));
  }

  lemma RowsHaveDistinctClaims(policy: Policy, pools: seq<Pool>, ordered: seq<Claim>)
    requires policy.feeBps <= MAX_PROTOCOL_FEE_BPS && DistinctIds(ordered)
    ensures DistinctClaims(Map(MerkleRowOf, Rows(policy, pools, ordered)))
  {
    var rows := Rows(policy, pools, ordered);
    var merkle := Map(MerkleRowOf, rows);
    forall i, j | 0 <= i < j < |merkle| ensures merkle[i].claimId != merkle[j].claimId {
      assert merkle[i].claimId == ordered[i].id && merkle[j].claimId == ordered[j].id;
    }
  }

  /** The commitments over finished rows. */
  method Commit(K: Keccak, incident: nat, rows: seq<Row>, poolPayouts: seq<nat>, events: seq<Event>)
    returns (r: Result<Settled>)
    requires EventsFit(events) && DistinctClaims(Map(MerkleRowOf, rows))
    ensures r.Ok? <==> Committable(incident, rows)
    ensures r.Ok? ==>
              && r.value.rows == rows && r.value.poolPayouts == poolPayouts
              && Commits(K, incident, events, r.value)
  {
    hide Rolling, InputHash, Root, Proves, Map, RowFits;
    var inputHash := SettlementInputHash(K, Map(ScoredOf, rows));
    if inputHash.Err? {
      return Err(inputHash.error);
    }
    var root, proofs := 0, map[];
    var merkle := Map(MerkleRowOf, rows);
    if merkle != [] {
      var tree := BuildTree(K, incident, merkle);
      if !tree.Tree? {
        return Err(Overflow);
      }
      root, proofs := tree.root, tree.proofs;
    }
    var claimSet := ClaimSetHash(K, events);
    r := Ok(Settled(rows, poolPayouts, claimSet.value, inputHash.value, root, proofs));
  }

  /** `allocate_with_events`. It succeeds exactly when the stream is well ordered, the resolved
      claims are its live registrations, the policy is valid, no user has two live claims and the
      committed words fit; the result is the allocation of the live claims in registration order. */
  method Settle(K: Keccak, incident: nat, policy: Policy, pools: seq<Pool>, claims: seq<Claim>, events: seq<Event>)
    returns (r: Result<Settled>, ghost ordered: seq<Claim>)
    ensures WellOrdered(events) && EventsFit(events) && Resolves(claims, events) ==>
              FollowsRegistrations(ordered, claims, events)
    ensures r.Ok? <==>
              && WellOrdered(events) && EventsFit(events) && Resolves(claims, events) && ValidPolicy(policy, pools)
              && Committable(incident, Rows(policy, pools, ordered))
    ensures r.Ok? ==> r.value.rows == Rows(policy, pools, ordered) && |r.value.poolPayouts| == |pools|
    ensures r.Ok? ==> forall p :: 0 <= p < |pools| ==>
              r.value.poolPayouts[p] == PoolPayout(r.value.rows, p, UserShare(policy))
    ensures r.Ok? ==>
              && Fair(policy, pools, ordered, r.value.rows)
              && PaidInFull(policy, pools, r.value.rows, r.value.poolPayouts)
    ensures r.Ok? ==> Commits(K, incident, events, r.value)
  {
    hide Fault, Registered, Cancelled, LiveIds, Rows, PoolPayout, Fair, PaidInFull, Committable, Commits, Map,
         WellOrdered, EventsFit,
         Resolves, FollowsRegistrations;
    ordered := [];
    var input := OrderedInput(K, claims, events);
    if input.Err? {
      return Err(input.error), [];
    }
    ordered := input.value;
    var allocation := Allocate(policy, pools, input.value);
    if allocation.InvalidPolicy? {
      return Err(BadPolicy), ordered;
    }
    OrderedClaimsFit(input.value, claims, events);
    var own := ClaimSetHash(K, Map(RegistrationOf, input.value));
    if own == HashOverflow {
      return Err(Overflow), ordered;
    }
    OrderedIdsDistinct(input.value, claims, events);
    RowsHaveDistinctClaims(policy, pools, input.value);
    r := Commit(K, incident, allocation.rows, allocation.poolPayouts, events);
  }
}
