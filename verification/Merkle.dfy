/** The settlement commitment: a Merkle tree kept in a flat array, its proofs, and what an equal
    root binds. `K` is the hash, on lists of 256-bit words; hashes are words of their own. */
module Merkle {
  import opened Sorting

  const WORD_LIMIT: nat := 0x1_0000000000000000_0000000000000000_0000000000000000_0000000000000000

  type Keccak = seq<nat> -> nat

  datatype MerkleRow = MerkleRow(
    claimId: nat, user: nat, amounts: seq<nat>, scoreSpent: nat, boosted: nat, eligible: nat, eligibleBooster: nat)

  /** A leaf's hash, with the claim it belongs to. */
  datatype Leaf = Leaf(hash: nat, claimId: nat)

  datatype TreeResult =
    | Tree(root: nat, proofs: map<nat, seq<nat>>)
    | EmptyTree | DuplicateClaim(claimId: nat) | Uint256Overflow

  /** The ABI encoding of a row, word by word: eight head words, then the amounts. */
  function LeafWords(incident: nat, row: MerkleRow): seq<nat> {
    [incident, row.claimId, row.user, 256, row.scoreSpent, row.boosted, row.eligible, row.eligibleBooster,
     |row.amounts|]
    + row.amounts
  }

  predicate RowFits(incident: nat, row: MerkleRow) {
    && incident < WORD_LIMIT && row.claimId < WORD_LIMIT && row.scoreSpent < WORD_LIMIT && row.boosted < WORD_LIMIT
    && row.eligible < WORD_LIMIT && row.eligibleBooster < WORD_LIMIT
    && forall k :: 0 <= k < |row.amounts| ==> row.amounts[k] < WORD_LIMIT
  }

  function LeafHash(K: Keccak, incident: nat, row: MerkleRow): nat {
    K([K(LeafWords(incident, row))])
  }

  function NodeHash(K: Keccak, a: nat, b: nat): nat {
    if a <= b then K([a, b]) else K([b, a])
  }

  function SiblingIndex(index: nat): nat
    requires index > 0
  {
    if index % 2 == 0 then index - 1 else index + 1
  }

  function ParentIndex(index: nat): nat
    requires index > 0
  {
    (index - 1) / 2
  }

  // ---- The tree over an ordered list of leaf hashes ----

  /** Leaves fill the array from its end; every other cell hashes its two children. */
  function NodeAt(K: Keccak, leaves: seq<nat>, i: nat): nat
    requires i < 2 * |leaves| - 1
    decreases 2 * |leaves| - i
  {
    if i >= |leaves| - 1 then leaves[2 * |leaves| - 2 - i]
    else NodeHash(K, NodeAt(K, leaves, 2 * i + 1), NodeAt(K, leaves, 2 * i + 2))
  }

  function Proof(K: Keccak, leaves: seq<nat>, i: nat): seq<nat>
    requires i < 2 * |leaves| - 1
  {
    if i == 0 then []
    else [NodeAt(K, leaves, SiblingIndex(i))] + Proof(K, leaves, ParentIndex(i))
  }

  /** What a verifier computes from a leaf and its proof. */
  function Fold(K: Keccak, hash: nat, proof: seq<nat>): nat
    decreases |proof|
  {
    if proof == [] then hash else Fold(K, NodeHash(K, hash, proof[0]), proof[1..])
  }

  lemma {:induction false} FoldReachesRoot(K: Keccak, leaves: seq<nat>, i: nat)
    requires i < 2 * |leaves| - 1
    ensures Fold(K, NodeAt(K, leaves, i), Proof(K, leaves, i)) == NodeAt(K, leaves, 0)
  {
    if i > 0 {
      var p := ParentIndex(i);
      assert i == 2 * p + 1 || i == 2 * p + 2;
      assert NodeAt(K, leaves, p) == NodeHash(K, NodeAt(K, leaves, i), NodeAt(K, leaves, SiblingIndex(i)));
      FoldReachesRoot(K, leaves, p);
    }
  }

  // ---- Building it ----

  const BY_HASH: (Leaf, Leaf) -> bool := (a: Leaf, b: Leaf) => a.hash < b.hash

  function Leaves(K: Keccak, incident: nat, rows: seq<MerkleRow>): (s: seq<Leaf>)
    ensures |s| == |rows|
    ensures forall k :: 0 <= k < |rows| ==> s[k] == Leaf(LeafHash(K, incident, rows[k]), rows[k].claimId)
  {
    if rows == [] then []
    else Leaves(K, incident, rows[..|rows| - 1])
         + [Leaf(LeafHash(K, incident, rows[|rows| - 1]), rows[|rows| - 1].claimId)]
  }

  function Hashes(leaves: seq<Leaf>): (s: seq<nat>)
    ensures |s| == |leaves|
    ensures forall k :: 0 <= k < |leaves| ==> s[k] == leaves[k].hash
  {
    if leaves == [] then [] else Hashes(leaves[..|leaves| - 1]) + [leaves[|leaves| - 1].hash]
  }

  predicate DistinctClaims(rows: seq<MerkleRow>) {
    forall i, j :: 0 <= i < j < |rows| ==> rows[i].claimId != rows[j].claimId
  }

  predicate AllFit(incident: nat, rows: seq<MerkleRow>) {
    forall k :: 0 <= k < |rows| ==> RowFits(incident, rows[k])
  }

  function SortedLeaves(K: Keccak, incident: nat, rows: seq<MerkleRow>): seq<Leaf> {
    Sort(BY_HASH, Leaves(K, incident, rows))
  }

  function Root(K: Keccak, incident: nat, rows: seq<MerkleRow>): nat
    requires rows != []
  {
    SortedLength(K, incident, rows);
    NodeAt(K, Hashes(SortedLeaves(K, incident, rows)), 0)
  }

  lemma SortedLength(K: Keccak, incident: nat, rows: seq<MerkleRow>)
    ensures |SortedLeaves(K, incident, rows)| == |rows|
    ensures forall l :: l in SortedLeaves(K, incident, rows) <==> l in Leaves(K, incident, rows)
  {
    SortKeeps(BY_HASH, Leaves(K, incident, rows));
    SameLength(SortedLeaves(K, incident, rows), Leaves(K, incident, rows));
  }

  function ClaimIds(rows: seq<MerkleRow>): set<nat> {
    set row <- rows :: row.claimId
  }

  lemma OneMoreLeaf(K: Keccak, incident: nat, rows: seq<MerkleRow>, k: nat)
    requires k < |rows|
    ensures Leaves(K, incident, rows[..k + 1]) ==
              Leaves(K, incident, rows[..k]) + [Leaf(LeafHash(K, incident, rows[k]), rows[k].claimId)]
  {
    hide LeafHash;
    assert rows[..k + 1][..k] == rows[..k];
  }

  lemma OneMoreFits(incident: nat, rows: seq<MerkleRow>, k: nat)
    requires k < |rows|
    ensures AllFit(incident, rows[..k + 1]) <==> AllFit(incident, rows[..k]) && RowFits(incident, rows[k])
  {
    hide RowFits;
    var before, after := rows[..k], rows[..k + 1];
    assert after[k] == rows[k] && forall i :: 0 <= i < k ==> after[i] == before[i];
  }

  lemma OneMoreClaim(rows: seq<MerkleRow>, k: nat)
    requires k < |rows|
    ensures ClaimIds(rows[..k + 1]) == ClaimIds(rows[..k]) + {rows[k].claimId}
    ensures DistinctClaims(rows[..k + 1]) <==> DistinctClaims(rows[..k]) && rows[k].claimId !in ClaimIds(rows[..k])
  {
    var before, after := rows[..k], rows[..k + 1];
    assert after == before + [rows[k]];
    IdsFound(before, rows[k].claimId);
  }

  lemma IdsFound(rows: seq<MerkleRow>, id: nat)
    ensures id in ClaimIds(rows) <==> exists i :: 0 <= i < |rows| && rows[i].claimId == id
  {
  }

  lemma PrefixesHold(incident: nat, rows: seq<MerkleRow>, k: nat)
    requires k <= |rows|
    ensures DistinctClaims(rows) ==> DistinctClaims(rows[..k])
    ensures AllFit(incident, rows) ==> AllFit(incident, rows[..k])
  {
    hide RowFits;
  }

  method CollectLeaves(K: Keccak, incident: nat, rows: seq<MerkleRow>) returns (error: TreeResult, leaves: seq<Leaf>)
    ensures error.Tree? <==> DistinctClaims(rows) && AllFit(incident, rows)
    ensures error.Tree? ==> leaves == Leaves(K, incident, rows)
    ensures !error.EmptyTree?
  {
    hide RowFits, LeafHash, DistinctClaims, AllFit, ClaimIds, Leaves;
    NoRows(K, incident);
    var claims: set<nat> := {};
    leaves := [];
    error := Tree(0, map[]);
    assert rows[..0] == [];
    for k := 0 to |rows|
      invariant error.Tree? && leaves == Leaves(K, incident, rows[..k]) && claims == ClaimIds(rows[..k])
      invariant DistinctClaims(rows[..k]) && AllFit(incident, rows[..k])
    {
      OneMoreClaim(rows, k);
      OneMoreFits(incident, rows, k);
      OneMoreLeaf(K, incident, rows, k);
      PrefixesHold(incident, rows, k + 1);
      if rows[k].claimId in claims {
        return DuplicateClaim(rows[k].claimId), [];
      }
      claims := claims + {rows[k].claimId};
      if !RowFits(incident, rows[k]) {
        return Uint256Overflow, [];
      }
      leaves := leaves + [Leaf(LeafHash(K, incident, rows[k]), rows[k].claimId)];
    }
    assert rows[..|rows|] == rows;
  }

  lemma NoRows(K: Keccak, incident: nat)
    ensures DistinctClaims([]) && AllFit(incident, []) && ClaimIds([]) == {} && Leaves(K, incident, []) == []
  {
  }

  lemma LeafCell(K: Keccak, leaves: seq<nat>, i: nat)
    requires |leaves| - 1 <= i < 2 * |leaves| - 1
    ensures NodeAt(K, leaves, i) == leaves[2 * |leaves| - 2 - i]
  {
  }

  lemma InnerCell(K: Keccak, leaves: seq<nat>, i: nat)
    requires i < |leaves| - 1
    ensures NodeAt(K, leaves, i) == NodeHash(K, NodeAt(K, leaves, 2 * i + 1), NodeAt(K, leaves, 2 * i + 2))
  {
  }

  /** The two filling loops. */
  method FillTree(K: Keccak, leaves: seq<nat>) returns (tree: array<nat>)
    requires leaves != []
    ensures tree.Length == 2 * |leaves| - 1
    ensures forall i :: 0 <= i < tree.Length ==> tree[i] == NodeAt(K, leaves, i)
  {
    hide NodeAt, NodeHash;
    var cells := 2 * |leaves| - 1;
    tree := new nat[cells](_ => 0);
    for k := 0 to |leaves|
      invariant forall i :: cells - k <= i < cells ==> tree[i] == NodeAt(K, leaves, i)
    {
      tree[cells - 1 - k] := leaves[k];
      LeafCell(K, leaves, cells - 1 - k);
    }
    var index := cells - |leaves|;
    while index > 0
      invariant 0 <= index <= |leaves| - 1
      invariant forall i :: index <= i < cells ==> tree[i] == NodeAt(K, leaves, i)
    {
      index := index - 1;
      InnerCell(K, leaves, index);
      tree[index] := NodeHash(K, tree[2 * index + 1], tree[2 * index + 2]);
    }
  }

  lemma StepFits(i: nat, n: nat)
    requires 0 < i < 2 * n - 1
    ensures SiblingIndex(i) < 2 * n - 1 && ParentIndex(i) < i
  {
  }

  lemma ProofUnfolds(K: Keccak, leaves: seq<nat>, i: nat)
    requires 0 < i < 2 * |leaves| - 1 && SiblingIndex(i) < 2 * |leaves| - 1 && ParentIndex(i) < i
    ensures Proof(K, leaves, i) == [NodeAt(K, leaves, SiblingIndex(i))] + Proof(K, leaves, ParentIndex(i))
  {
    hide NodeAt, Fold, NodeHash, SiblingIndex, ParentIndex;
  }

  lemma ProofStep(K: Keccak, leaves: seq<nat>, done: seq<nat>, i: nat)
    requires 0 < i < 2 * |leaves| - 1
    ensures SiblingIndex(i) < 2 * |leaves| - 1 && ParentIndex(i) < i
    ensures done + [NodeAt(K, leaves, SiblingIndex(i))] + Proof(K, leaves, ParentIndex(i)) == done + Proof(K, leaves, i)
  {
    hide *;
    StepFits(i, |leaves|);
    ProofUnfolds(K, leaves, i);
    var sibling, rest := NodeAt(K, leaves, SiblingIndex(i)), Proof(K, leaves, ParentIndex(i));
    assert done + [sibling] + rest == done + ([sibling] + rest);
  }

  /** The walk from a leaf to the root. */
  method WalkUp(K: Keccak, leaves: seq<nat>, tree: array<nat>, from: nat) returns (proof: seq<nat>)
    requires tree.Length == 2 * |leaves| - 1 && from < tree.Length
    requires forall i :: 0 <= i < tree.Length ==> tree[i] == NodeAt(K, leaves, i)
    ensures proof == Proof(K, leaves, from)
  {
    hide NodeAt, Proof, SiblingIndex, ParentIndex;
    NoProof(K, leaves);
    proof := [];
    var index: nat := from;
    while index > 0
      invariant index < tree.Length && proof + Proof(K, leaves, index) == Proof(K, leaves, from)
    {
      ProofStep(K, leaves, proof, index);
      proof := proof + [tree[SiblingIndex(index)]];
      index := ParentIndex(index);
    }
  }

  lemma NoProof(K: Keccak, leaves: seq<nat>)
    requires leaves != []
    ensures Proof(K, leaves, 0) == []
  {
  }

  function ClaimsOf(leaves: seq<Leaf>): set<nat> {
    set l <- leaves :: l.claimId
  }

  predicate DistinctLeaves(leaves: seq<Leaf>) {
    forall i, j :: 0 <= i < j < |leaves| ==> leaves[i].claimId != leaves[j].claimId
  }

  /** Where a claim's proof starts: at its leaf's place in the sorted list. */
  ghost predicate Located(K: Keccak, leaves: seq<Leaf>, proofs: map<nat, seq<nat>>) {
    && proofs.Keys == ClaimsOf(leaves)
    && forall j :: 0 <= j < |leaves| ==> LocatedAt(K, leaves, proofs, j)
  }

  predicate LocatedAt(K: Keccak, leaves: seq<Leaf>, proofs: map<nat, seq<nat>>, j: nat)
    requires j < |leaves|
  {
    var id := leaves[j].claimId;
    id in proofs && proofs[id] == Proof(K, Hashes(leaves), 2 * |leaves| - 2 - j)
  }

  method AllProofs(K: Keccak, leaves: seq<Leaf>, tree: array<nat>) returns (proofs: map<nat, seq<nat>>)
    requires DistinctLeaves(leaves) && tree.Length == 2 * |leaves| - 1
    requires forall i :: 0 <= i < tree.Length ==> tree[i] == NodeAt(K, Hashes(leaves), i)
    ensures Located(K, leaves, proofs)
  {
    hide NodeAt, Proof;
    proofs := map[];
    for k := 0 to |leaves|
      invariant forall c :: c in proofs ==> c in ClaimsOf(leaves)
      invariant forall j :: 0 <= j < k ==> LocatedAt(K, leaves, proofs, j)
    {
      var proof := WalkUp(K, Hashes(leaves), tree, tree.Length - 1 - k);
      ghost var before := proofs;
      assert leaves[k] in leaves;
      proofs := proofs[leaves[k].claimId := proof];
      forall j | 0 <= j < k ensures LocatedAt(K, leaves, proofs, j) {
        assert LocatedAt(K, leaves, before, j);
      }
    }
    forall c | c in ClaimsOf(leaves) ensures c in proofs {
      var j :| 0 <= j < |leaves| && leaves[j].claimId == c;
      assert LocatedAt(K, leaves, proofs, j);
    }
  }

  /** Every row's proof folds its leaf hash to the root. */
  ghost predicate Proves(K: Keccak, incident: nat, rows: seq<MerkleRow>, root: nat, proofs: map<nat, seq<nat>>) {
    forall k :: 0 <= k < |rows| ==>
      rows[k].claimId in proofs && Fold(K, LeafHash(K, incident, rows[k]), proofs[rows[k].claimId]) == root
  }

  /** Building succeeds exactly on nonempty rows of distinct claims whose words fit; then there is
      one proof for each claim, and it folds to the root. */
  method BuildTree(K: Keccak, incident: nat, rows: seq<MerkleRow>) returns (r: TreeResult)
    ensures r.Tree? <==> rows != [] && DistinctClaims(rows) && AllFit(incident, rows)
    ensures r == EmptyTree <==> rows == []
    ensures r.Tree? ==> r.root == Root(K, incident, rows) && r.proofs.Keys == ClaimIds(rows)
    ensures r.Tree? ==> Proves(K, incident, rows, r.root, r.proofs)
    ensures r.Tree? ==> Located(K, SortedLeaves(K, incident, rows), r.proofs)
  {
    if rows == [] {
      return EmptyTree;
    }
    var error, unsorted := CollectLeaves(K, incident, rows);
    if !error.Tree? {
      return error;
    }
    hide Sort, Located, Proves, NodeAt, ClaimIds, Leaves;
    SortedLength(K, incident, rows);
    SortedClaimsDistinct(K, incident, rows);
    var leaves := Sort(BY_HASH, unsorted);
    var tree := FillTree(K, Hashes(leaves));
    var proofs := AllProofs(K, leaves, tree);
    ProofsFold(K, incident, rows, proofs);
    r := Tree(tree[0], proofs);
  }

  lemma LeavesAreDistinct(K: Keccak, incident: nat, rows: seq<MerkleRow>)
    requires DistinctClaims(rows)
    ensures DistinctLeaves(Leaves(K, incident, rows))
  {
  }

  lemma SortedClaimsDistinct(K: Keccak, incident: nat, rows: seq<MerkleRow>)
    requires DistinctClaims(rows)
    ensures DistinctLeaves(SortedLeaves(K, incident, rows))
  {
    LeavesAreDistinct(K, incident, rows);
    SortKeeps(BY_HASH, Leaves(K, incident, rows));
    hide Leaves, Sort;
    KeysStayDistinct((l: Leaf) => l.claimId, Leaves(K, incident, rows), SortedLeaves(K, incident, rows));
  }

  lemma PlaceOf(K: Keccak, incident: nat, rows: seq<MerkleRow>, k: nat) returns (j: nat)
    requires k < |rows|
    ensures j < |SortedLeaves(K, incident, rows)|
    ensures SortedLeaves(K, incident, rows)[j] == Leaf(LeafHash(K, incident, rows[k]), rows[k].claimId)
  {
    SortedLength(K, incident, rows);
    var leaves, unsorted := SortedLeaves(K, incident, rows), Leaves(K, incident, rows);
    assert unsorted[k] in leaves;
    j :| 0 <= j < |leaves| && leaves[j] == unsorted[k];
  }

  lemma RowProofFolds(K: Keccak, incident: nat, rows: seq<MerkleRow>, proofs: map<nat, seq<nat>>, k: nat)
    requires k < |rows| && Located(K, SortedLeaves(K, incident, rows), proofs)
    ensures rows[k].claimId in proofs
    ensures Fold(K, LeafHash(K, incident, rows[k]), proofs[rows[k].claimId]) == Root(K, incident, rows)
  {
    hide NodeAt, Proof, Fold, SortedLeaves, LeafHash;
    SortedLength(K, incident, rows);
    var j := PlaceOf(K, incident, rows, k);
    var leaves := SortedLeaves(K, incident, rows);
    FoldReachesRoot(K, Hashes(leaves), 2 * |leaves| - 2 - j);
    LeafCell(K, Hashes(leaves), 2 * |leaves| - 2 - j);
    assert LocatedAt(K, leaves, proofs, j);
  }

  lemma ProofsFold(K: Keccak, incident: nat, rows: seq<MerkleRow>, proofs: map<nat, seq<nat>>)
    requires rows != [] && Located(K, SortedLeaves(K, incident, rows), proofs)
    ensures proofs.Keys == ClaimIds(rows) && Proves(K, incident, rows, Root(K, incident, rows), proofs)
  {
    forall k | 0 <= k < |rows|
      ensures rows[k].claimId in proofs
      ensures Fold(K, LeafHash(K, incident, rows[k]), proofs[rows[k].claimId]) == Root(K, incident, rows)
    {
      RowProofFolds(K, incident, rows, proofs, k);
    }
    SameClaims(K, incident, rows);
  }

  lemma SameClaims(K: Keccak, incident: nat, rows: seq<MerkleRow>)
    ensures ClaimsOf(SortedLeaves(K, incident, rows)) == ClaimIds(rows)
  {
    SortedLength(K, incident, rows);
    var leaves, unsorted := SortedLeaves(K, incident, rows), Leaves(K, incident, rows);
    forall row | row in rows ensures row.claimId in ClaimsOf(leaves) {
      var k :| 0 <= k < |rows| && rows[k] == row;
      assert unsorted[k] in leaves;
    }
    forall l | l in leaves ensures l.claimId in ClaimIds(rows) {
      var k :| 0 <= k < |unsorted| && unsorted[k] == l;
      assert rows[k] in rows;
    }
  }
}
