/** The root and the proofs do not depend on the order of the rows, and an equal root means equal
    rows, as far as the hash is collision-free. */
module MerkleBinding {
  import opened Sorting
  import opened Merkle

  // ---- Order independence ----

  function HashOf(l: Leaf): nat { l.hash }

  function LeafOf(K: Keccak, incident: nat): MerkleRow -> Leaf {
    (row: MerkleRow) => Leaf(LeafHash(K, incident, row), row.claimId)
  }

  lemma HashesMapped(leaves: seq<Leaf>)
    ensures Hashes(leaves) == Map(HashOf, leaves)
  {
  }

  lemma LeavesMapped(K: Keccak, incident: nat, rows: seq<MerkleRow>)
    ensures Leaves(K, incident, rows) == Map(LeafOf(K, incident), rows)
  {
  }

  /** The leaves of reordered rows are the same, in some order. */
  lemma LeavesIgnoreOrder(K: Keccak, incident: nat, rows: seq<MerkleRow>, rows': seq<MerkleRow>)
    requires multiset(rows) == multiset(rows')
    ensures multiset(SortedLeaves(K, incident, rows)) == multiset(SortedLeaves(K, incident, rows'))
    ensures multiset(Leaves(K, incident, rows)) == multiset(SortedLeaves(K, incident, rows))
    ensures InPlace(BY_HASH, SortedLeaves(K, incident, rows)) && InPlace(BY_HASH, SortedLeaves(K, incident, rows'))
  {
    LeavesMapped(K, incident, rows);
    LeavesMapped(K, incident, rows');
    MapIgnoresOrder(LeafOf(K, incident), rows, rows');
    hide Leaves, Map, LeafOf;
    SortKeeps(BY_HASH, Leaves(K, incident, rows));
    SortKeeps(BY_HASH, Leaves(K, incident, rows'));
  }

  const ASCENDING: (nat, nat) -> bool := (a: nat, b: nat) => a < b

  lemma HashesInPlace(leaves: seq<Leaf>)
    requires InPlace(BY_HASH, leaves)
    ensures InPlace(ASCENDING, Hashes(leaves))
  {
    forall i, j | 0 <= i < j < |leaves| ensures !ASCENDING(Hashes(leaves)[j], Hashes(leaves)[i]) {
      assert !BY_HASH(leaves[j], leaves[i]);
    }
  }

  /** The root does not depend on the order of the rows. */
  lemma RootIgnoresOrder(K: Keccak, incident: nat, rows: seq<MerkleRow>, rows': seq<MerkleRow>)
    requires rows != [] && multiset(rows) == multiset(rows')
    ensures rows' != [] && Root(K, incident, rows) == Root(K, incident, rows')
  {
    SameLength(rows, rows');
    SortedLength(K, incident, rows);
    SortedLength(K, incident, rows');
    LeavesIgnoreOrder(K, incident, rows, rows');
    hide Sort, SortedLeaves, Hashes, Map;
    var s, s' := SortedLeaves(K, incident, rows), SortedLeaves(K, incident, rows');
    HashesMapped(s);
    HashesMapped(s');
    MapIgnoresOrder(HashOf, s, s');
    HashesInPlace(s);
    HashesInPlace(s');
    OrderIsUnique(ASCENDING, Hashes(s), Hashes(s'));
  }

  lemma LocatedIsUnique(K: Keccak, leaves: seq<Leaf>, proofs: map<nat, seq<nat>>, proofs': map<nat, seq<nat>>)
    requires Located(K, leaves, proofs) && Located(K, leaves, proofs')
    ensures proofs == proofs'
  {
    hide Proof;
    forall c | c in proofs ensures c in proofs' && proofs[c] == proofs'[c] {
      assert c in ClaimsOf(leaves);
      var j :| 0 <= j < |leaves| && leaves[j].claimId == c;
      assert LocatedAt(K, leaves, proofs, j) && LocatedAt(K, leaves, proofs', j);
    }
    assert proofs.Keys == proofs'.Keys;
  }

  /** No two different claims share a leaf hash. */
  ghost predicate NoCollision(K: Keccak, incident: nat, rows: seq<MerkleRow>) {
    TiesAreEqual(BY_HASH, Leaves(K, incident, rows))
  }

  lemma TiesSurvive(s: seq<Leaf>, t: seq<Leaf>)
    requires multiset(s) == multiset(t) && TiesAreEqual(BY_HASH, s)
    ensures TiesAreEqual(BY_HASH, t)
  {
    SameLength(s, t);
  }

  /** Nor do the proofs, unless two claims' leaves collide. */
  lemma ProofsIgnoreOrder(K: Keccak, incident: nat, rows: seq<MerkleRow>, rows': seq<MerkleRow>,
                          proofs: map<nat, seq<nat>>, proofs': map<nat, seq<nat>>)
    requires multiset(rows) == multiset(rows') && NoCollision(K, incident, rows)
    requires Located(K, SortedLeaves(K, incident, rows), proofs)
    requires Located(K, SortedLeaves(K, incident, rows'), proofs')
    ensures proofs == proofs'
  {
    LeavesIgnoreOrder(K, incident, rows, rows');
    hide Located, Sort, SortedLeaves, Leaves, TiesAreEqual;
    var s, s' := SortedLeaves(K, incident, rows), SortedLeaves(K, incident, rows');
    TiesSurvive(Leaves(K, incident, rows), s);
    OrderIsUnique(BY_HASH, s, s');
    LocatedIsUnique(K, s, proofs, proofs');
  }

  // ---- Binding ----

  /** Collision-freedom, as a hypothesis of the binding results only. Leaves hash one word and
      nodes two, so it also separates leaves from nodes. */
  ghost predicate Injective(K: Keccak) {
    forall x: seq<nat>, y: seq<nat> :: K(x) == K(y) ==> x == y
  }

  lemma SameInput(K: Keccak, x: seq<nat>, y: seq<nat>)
    requires Injective(K) && K(x) == K(y)
    ensures x == y
  {
  }

  /** The leaf hash determines every field of the row, and the incident. */
  lemma LeafBinds(K: Keccak, incident: nat, row: MerkleRow, incident': nat, row': MerkleRow)
    requires Injective(K) && LeafHash(K, incident, row) == LeafHash(K, incident', row')
    ensures incident == incident' && row == row'
  {
    hide Injective;
    var w, w' := LeafWords(incident, row), LeafWords(incident', row');
    SameInput(K, [K(w)], [K(w')]);
    assert [K(w)][0] == [K(w')][0];
    SameInput(K, w, w');
    assert w[0] == incident && w'[0] == incident';
    assert w[1] == row.claimId && w[2] == row.user && w[4] == row.scoreSpent && w[5] == row.boosted;
    assert w[6] == row.eligible && w[7] == row.eligibleBooster && w[8] == |row.amounts|;
    assert w'[1] == row'.claimId && w'[2] == row'.user && w'[4] == row'.scoreSpent && w'[5] == row'.boosted;
    assert w'[6] == row'.eligible && w'[7] == row'.eligibleBooster && w'[8] == |row'.amounts|;
    assert w[9..] == row.amounts && w'[9..] == row'.amounts;
  }

  lemma InjectiveAvoidsCollisions(K: Keccak, incident: nat, rows: seq<MerkleRow>)
    requires Injective(K)
    ensures NoCollision(K, incident, rows)
  {
    var leaves := Leaves(K, incident, rows);
    forall a, b | a in leaves && b in leaves && !BY_HASH(a, b) && !BY_HASH(b, a) ensures a == b {
      var i, j :| 0 <= i < |leaves| && 0 <= j < |leaves| && leaves[i] == a && leaves[j] == b;
      LeafBinds(K, incident, rows[i], incident, rows[j]);
    }
  }

  /** Under a collision-free hash the proofs never depend on the order of the rows. */
  lemma BindingProofsIgnoreOrder(K: Keccak, incident: nat, rows: seq<MerkleRow>, rows': seq<MerkleRow>,
                                 proofs: map<nat, seq<nat>>, proofs': map<nat, seq<nat>>)
    requires multiset(rows) == multiset(rows') && Injective(K)
    requires Located(K, SortedLeaves(K, incident, rows), proofs)
    requires Located(K, SortedLeaves(K, incident, rows'), proofs')
    ensures proofs == proofs'
  {
    hide Injective, NoCollision, Located;
    InjectiveAvoidsCollisions(K, incident, rows);
    ProofsIgnoreOrder(K, incident, rows, rows', proofs, proofs');
  }

  ghost predicate IsLeafHash(K: Keccak, h: nat) {
    exists x: nat :: h == K([x])
  }

  ghost predicate AllLeafHashes(K: Keccak, leaves: seq<nat>) {
    forall k :: 0 <= k < |leaves| ==> IsLeafHash(K, leaves[k])
  }

  function LeavesUnder(leaves: seq<nat>, i: nat): set<nat>
    requires i < 2 * |leaves| - 1
    decreases 2 * |leaves| - i
  {
    if i >= |leaves| - 1 then {leaves[2 * |leaves| - 2 - i]}
    else LeavesUnder(leaves, 2 * i + 1) + LeavesUnder(leaves, 2 * i + 2)
  }

  lemma NodeIsNotLeaf(K: Keccak, a: nat, b: nat, h: nat)
    requires Injective(K) && IsLeafHash(K, h)
    ensures NodeHash(K, a, b) != h
  {
    var x :| h == K([x]);
    var pair := if a <= b then [a, b] else [b, a];
    assert |pair| != |[x]|;
  }

  /** A node's hash determines its two children, up to their order. */
  lemma NodeBinds(K: Keccak, a: nat, b: nat, c: nat, d: nat)
    requires Injective(K) && NodeHash(K, a, b) == NodeHash(K, c, d)
    ensures (a == c && b == d) || (a == d && b == c)
  {
    hide Injective;
    var p, q := if a <= b then [a, b] else [b, a], if c <= d then [c, d] else [d, c];
    SameInput(K, p, q);
    assert p[0] == q[0] && p[1] == q[1];
  }

  lemma {:induction false} EqualNodesEqualLeaves(K: Keccak, s: seq<nat>, i: nat, t: seq<nat>, j: nat)
    requires Injective(K) && AllLeafHashes(K, s) && AllLeafHashes(K, t)
    requires i < 2 * |s| - 1 && j < 2 * |t| - 1 && NodeAt(K, s, i) == NodeAt(K, t, j)
    ensures LeavesUnder(s, i) == LeavesUnder(t, j)
    decreases 2 * |s| - i
  {
    hide Injective, NodeHash, IsLeafHash;
    if i < |s| - 1 && j < |t| - 1 {
      var a, b := NodeAt(K, s, 2 * i + 1), NodeAt(K, s, 2 * i + 2);
      var c, d := NodeAt(K, t, 2 * j + 1), NodeAt(K, t, 2 * j + 2);
      NodeBinds(K, a, b, c, d);
      if a == c && b == d {
        EqualNodesEqualLeaves(K, s, 2 * i + 1, t, 2 * j + 1);
        EqualNodesEqualLeaves(K, s, 2 * i + 2, t, 2 * j + 2);
      } else {
        EqualNodesEqualLeaves(K, s, 2 * i + 1, t, 2 * j + 2);
        EqualNodesEqualLeaves(K, s, 2 * i + 2, t, 2 * j + 1);
      }
    } else if i < |s| - 1 {
      NodeIsNotLeaf(K, NodeAt(K, s, 2 * i + 1), NodeAt(K, s, 2 * i + 2), t[2 * |t| - 2 - j]);
    } else if j < |t| - 1 {
      NodeIsNotLeaf(K, NodeAt(K, t, 2 * j + 1), NodeAt(K, t, 2 * j + 2), s[2 * |s| - 2 - i]);
    }
  }

  lemma {:induction false} UnderIsLeaf(leaves: seq<nat>, i: nat)
    requires i < 2 * |leaves| - 1
    ensures forall h :: h in LeavesUnder(leaves, i) ==> h in leaves
    decreases 2 * |leaves| - i
  {
    if i < |leaves| - 1 {
      UnderIsLeaf(leaves, 2 * i + 1);
      UnderIsLeaf(leaves, 2 * i + 2);
    }
  }

  lemma {:induction false} UnderRoot(leaves: seq<nat>, i: nat)
    requires i < 2 * |leaves| - 1
    ensures LeavesUnder(leaves, i) <= LeavesUnder(leaves, 0)
  {
    if i > 0 {
      var p := ParentIndex(i);
      assert i == 2 * p + 1 || i == 2 * p + 2;
      assert LeavesUnder(leaves, i) <= LeavesUnder(leaves, p);
      UnderRoot(leaves, p);
    }
  }

  /** The root covers exactly the leaves. */
  lemma RootCovers(leaves: seq<nat>)
    requires leaves != []
    ensures forall h :: h in LeavesUnder(leaves, 0) <==> h in leaves
  {
    UnderIsLeaf(leaves, 0);
    forall h | h in leaves ensures h in LeavesUnder(leaves, 0) {
      var k :| 0 <= k < |leaves| && leaves[k] == h;
      UnderRoot(leaves, 2 * |leaves| - 2 - k);
      assert LeavesUnder(leaves, 2 * |leaves| - 2 - k) == {h};
    }
  }

  lemma LeafHashIsOne(K: Keccak, incident: nat, row: MerkleRow)
    ensures IsLeafHash(K, LeafHash(K, incident, row))
  {
    var x := K(LeafWords(incident, row));
    assert LeafHash(K, incident, row) == K([x]);
  }

  lemma RowOfHash(K: Keccak, incident: nat, rows: seq<MerkleRow>, i: nat) returns (k: nat)
    requires i < |SortedLeaves(K, incident, rows)|
    ensures k < |rows| && LeafHash(K, incident, rows[k]) == Hashes(SortedLeaves(K, incident, rows))[i]
  {
    hide LeafHash;
    SortedLength(K, incident, rows);
    var leaves, unsorted := SortedLeaves(K, incident, rows), Leaves(K, incident, rows);
    assert leaves[i] in unsorted;
    k :| 0 <= k < |unsorted| && unsorted[k] == leaves[i];
  }

  lemma SortedHashes(K: Keccak, incident: nat, rows: seq<MerkleRow>)
    ensures var s := Hashes(SortedLeaves(K, incident, rows));
            && |s| == |rows| && AllLeafHashes(K, s)
            && (forall k :: 0 <= k < |rows| ==> LeafHash(K, incident, rows[k]) in s)
            && (forall h :: h in s ==> exists k :: 0 <= k < |rows| && LeafHash(K, incident, rows[k]) == h)
  {
    SortedLength(K, incident, rows);
    hide LeafHash, IsLeafHash, SortedLeaves;
    var leaves := SortedLeaves(K, incident, rows);
    var s := Hashes(leaves);
    forall i | 0 <= i < |s|
      ensures IsLeafHash(K, s[i])
      ensures exists k :: 0 <= k < |rows| && LeafHash(K, incident, rows[k]) == s[i]
    {
      var k := RowOfHash(K, incident, rows, i);
      LeafHashIsOne(K, incident, rows[k]);
    }
    forall k | 0 <= k < |rows| ensures LeafHash(K, incident, rows[k]) in s {
      var i := PlaceOf(K, incident, rows, k);
      assert s[i] == leaves[i].hash;
    }
  }

  lemma RowIsFound(K: Keccak, incident: nat, rows: seq<MerkleRow>, incident': nat, rows': seq<MerkleRow>, k: nat)
    requires Injective(K) && k < |rows|
    requires forall h :: h in Hashes(SortedLeaves(K, incident, rows)) ==> h in Hashes(SortedLeaves(K, incident', rows'))
    ensures incident == incident' && rows[k] in rows'
  {
    hide Injective, LeafHash, SortedLeaves, Hashes;
    SortedHashes(K, incident, rows);
    SortedHashes(K, incident', rows');
    var h := LeafHash(K, incident, rows[k]);
    var j :| 0 <= j < |rows'| && LeafHash(K, incident', rows'[j]) == h;
    LeafBinds(K, incident, rows[k], incident', rows'[j]);
  }

  /** Equal roots: the same incident and the same rows. */
  lemma EqualRootsEqualRows(K: Keccak, incident: nat, rows: seq<MerkleRow>, incident': nat, rows': seq<MerkleRow>)
    requires Injective(K) && rows != [] && rows' != []
    requires Root(K, incident, rows) == Root(K, incident', rows')
    ensures incident == incident' && forall row :: row in rows <==> row in rows'
  {
    SortedLength(K, incident, rows);
    SortedLength(K, incident', rows');
    hide Injective, SortedLeaves, Hashes, NodeAt, LeavesUnder, AllLeafHashes;
    var s, t := Hashes(SortedLeaves(K, incident, rows)), Hashes(SortedLeaves(K, incident', rows'));
    SortedHashes(K, incident, rows);
    SortedHashes(K, incident', rows');
    EqualNodesEqualLeaves(K, s, 0, t, 0);
    RootCovers(s);
    RootCovers(t);
    RowIsFound(K, incident, rows, incident', rows', 0);
    forall row | row in rows ensures row in rows' {
      var k :| 0 <= k < |rows| && rows[k] == row;
      RowIsFound(K, incident, rows, incident', rows', k);
    }
    forall row | row in rows' ensures row in rows {
      var k :| 0 <= k < |rows'| && rows'[k] == row;
      RowIsFound(K, incident', rows', incident, rows, k);
    }
  }
}
