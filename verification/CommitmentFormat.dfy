/** What the three commitments are to an independent reader: words of a standard ABI encoding, a tree
    whose shape fixes its root, and proofs that a contract can follow. */
module CommitmentFormat {
  import opened Sorting
  import opened Allocation
  import opened Merkle
  import opened MerkleBinding
  import opened ClaimSet
  import opened SettlementRun

  // ---- Proofs ----

  /** The hash of a pair, the lesser first. */
  ghost predicate PairHash(K: Keccak, a: nat, b: nat, h: nat) {
    (a <= b && h == K([a, b])) || (b <= a && h == K([b, a]))
  }

  lemma NodeIsPair(K: Keccak, a: nat, b: nat, h: nat)
    ensures PairHash(K, a, b, h) <==> h == NodeHash(K, a, b)
  {
  }

  /** Hashing in one proof element after the other leads from `hash` to `root`. */
  ghost predicate Leads(K: Keccak, hash: nat, proof: seq<nat>, root: nat)
    decreases |proof|
  {
    if proof == [] then hash == root
    else exists next: nat :: PairHash(K, hash, proof[0], next) && Leads(K, next, proof[1..], root)
  }

  lemma {:induction false} FoldLeads(K: Keccak, hash: nat, proof: seq<nat>, root: nat)
    ensures Leads(K, hash, proof, root) <==> Fold(K, hash, proof) == root
    decreases |proof|
  {
    hide PairHash;
    if proof != [] {
      forall next: nat ensures PairHash(K, hash, proof[0], next) <==> next == NodeHash(K, hash, proof[0]) {
        NodeIsPair(K, hash, proof[0], next);
      }
      FoldLeads(K, NodeHash(K, hash, proof[0]), proof[1..], root);
    }
  }

  // ---- Encoded arguments ----

  /** An array argument: its head word is the offset in bytes of its length, and its values follow. */
  predicate ArrayAt(words: seq<nat>, head: nat, values: seq<nat>) {
    && head < |words| && words[head] % 32 == 0
    && var at := words[head] / 32;
       && at + 1 + |values| <= |words| && words[at] == |values|
       && words[at + 1..at + 1 + |values|] == values
  }

  /** A row's arguments: the incident, the claim, its user, the amounts, the score spent, the boosted
      score, what was eligible and the eligible booster. */
  predicate RowArguments(words: seq<nat>, incident: nat, row: MerkleRow) {
    && |words| == 9 + |row.amounts|
    && words[0] == incident && words[1] == row.claimId && words[2] == row.user && ArrayAt(words, 3, row.amounts)
    && words[4] == row.scoreSpent && words[5] == row.boosted && words[6] == row.eligible
    && words[7] == row.eligibleBooster && words[3] == 8 * 32
  }

  /** A leaf is the hash of the hash of a row's encoded arguments. */
  ghost predicate IsLeaf(K: Keccak, incident: nat, row: MerkleRow, h: nat) {
    exists words: seq<nat> :: RowArguments(words, incident, row) && h == K([K(words)])
  }

  lemma LeafIsEncoding(K: Keccak, incident: nat, row: MerkleRow)
    ensures forall h: nat :: IsLeaf(K, incident, row, h) <==> h == LeafHash(K, incident, row)
  {
    var words := LeafWords(incident, row);
    assert words[9..] == row.amounts;
    assert RowArguments(words, incident, row);
    forall other: seq<nat> | RowArguments(other, incident, row) ensures other == words {
      assert other[9..] == row.amounts;
      assert other == other[..9] + other[9..];
      assert other[..9] == words[..9];
    }
  }

  // ---- The tree ----

  predicate Ascends(s: seq<nat>) {
    forall i, j :: 0 <= i < j < |s| ==> s[i] <= s[j]
  }

  /** A complete binary tree in an array: the leaves, ascending, from the last cell backwards, and
      each other cell the hash of the two at twice its index plus one and plus two. */
  ghost predicate IsTree(K: Keccak, leaves: seq<nat>, cells: seq<nat>) {
    && |cells| == 2 * |leaves| - 1
    && (forall j :: 0 <= j < |leaves| ==> cells[2 * |leaves| - 2 - j] == leaves[j])
    && (forall i :: 0 <= i < |leaves| - 1 ==> PairHash(K, cells[2 * i + 1], cells[2 * i + 2], cells[i]))
  }

  ghost predicate LeafEach(K: Keccak, incident: nat, rows: seq<MerkleRow>, hashes: seq<nat>) {
    |hashes| == |rows| && forall k :: 0 <= k < |rows| ==> IsLeaf(K, incident, rows[k], hashes[k])
  }

  /** The leaves of the rows, in ascending order. */
  ghost predicate LeavesOf(K: Keccak, incident: nat, rows: seq<MerkleRow>, leaves: seq<nat>) {
    && Ascends(leaves)
    && exists hashes: seq<nat> :: LeafEach(K, incident, rows, hashes) && multiset(hashes) == multiset(leaves)
  }

  lemma UnsortedEach(K: Keccak, incident: nat, rows: seq<MerkleRow>)
    ensures LeafEach(K, incident, rows, Hashes(Leaves(K, incident, rows)))
  {
    hide IsLeaf, LeafHash;
    forall k | 0 <= k < |rows| ensures IsLeaf(K, incident, rows[k], Hashes(Leaves(K, incident, rows))[k]) {
      LeafIsEncoding(K, incident, rows[k]);
    }
  }

  lemma EachIsUnique(K: Keccak, incident: nat, rows: seq<MerkleRow>, hashes: seq<nat>)
    requires LeafEach(K, incident, rows, hashes)
    ensures hashes == Hashes(Leaves(K, incident, rows))
  {
    hide IsLeaf, LeafHash;
    forall k | 0 <= k < |rows| ensures hashes[k] == LeafHash(K, incident, rows[k]) {
      LeafIsEncoding(K, incident, rows[k]);
    }
  }

  lemma SortHashes(leaves: seq<Leaf>)
    ensures var s := Hashes(Sort(BY_HASH, leaves));
            Ascends(s) && InPlace(ASCENDING, s) && multiset(s) == multiset(Hashes(leaves))
  {
    var sorted := Sort(BY_HASH, leaves);
    SortKeeps(BY_HASH, leaves);
    HashesInPlace(sorted);
    HashesMapped(leaves);
    HashesMapped(sorted);
    MapIgnoresOrder(HashOf, leaves, sorted);
    hide Map, Sort, Hashes;
    var s := Hashes(sorted);
    forall i, j | 0 <= i < j < |s| ensures s[i] <= s[j] {
      assert !ASCENDING(s[j], s[i]);
    }
  }

  lemma SortedAscend(K: Keccak, incident: nat, rows: seq<MerkleRow>)
    ensures LeavesOf(K, incident, rows, Hashes(SortedLeaves(K, incident, rows)))
  {
    hide LeafEach, Ascends, Sort, Leaves, InPlace;
    UnsortedEach(K, incident, rows);
    SortHashes(Leaves(K, incident, rows));
  }

  lemma LeavesAreUnique(K: Keccak, incident: nat, rows: seq<MerkleRow>, leaves: seq<nat>)
    requires LeavesOf(K, incident, rows, leaves)
    ensures leaves == Hashes(SortedLeaves(K, incident, rows))
  {
    hide LeafEach, Sort, Leaves;
    var hashes: seq<nat> :| LeafEach(K, incident, rows, hashes) && multiset(hashes) == multiset(leaves);
    EachIsUnique(K, incident, rows, hashes);
    SortHashes(Leaves(K, incident, rows));
    OrderIsUnique(ASCENDING, leaves, Hashes(SortedLeaves(K, incident, rows)));
  }

  lemma {:induction false} CellIsNode(K: Keccak, leaves: seq<nat>, cells: seq<nat>, i: nat)
    requires IsTree(K, leaves, cells) && i < 2 * |leaves| - 1
    ensures cells[i] == NodeAt(K, leaves, i)
    decreases 2 * |leaves| - i
  {
    hide PairHash, NodeHash;
    if i < |leaves| - 1 {
      CellIsNode(K, leaves, cells, 2 * i + 1);
      CellIsNode(K, leaves, cells, 2 * i + 2);
      NodeIsPair(K, cells[2 * i + 1], cells[2 * i + 2], cells[i]);
    } else {
      assert cells[2 * |leaves| - 2 - (2 * |leaves| - 2 - i)] == leaves[2 * |leaves| - 2 - i];
    }
  }

  /** The root is the first cell of the one tree over the rows' leaves; there is one. */
  lemma RootIsOfTree(K: Keccak, incident: nat, rows: seq<MerkleRow>)
    requires rows != []
    ensures forall leaves, cells :: LeavesOf(K, incident, rows, leaves) && IsTree(K, leaves, cells) ==>
              |cells| > 0 && cells[0] == Root(K, incident, rows)
    ensures exists leaves, cells :: LeavesOf(K, incident, rows, leaves) && IsTree(K, leaves, cells)
  {
    SortedLength(K, incident, rows);
    SortedAscend(K, incident, rows);
    hide LeavesOf, IsTree, SortedLeaves, NodeAt;
    var sorted := Hashes(SortedLeaves(K, incident, rows));
    forall leaves, cells | LeavesOf(K, incident, rows, leaves) && IsTree(K, leaves, cells)
      ensures |cells| > 0 && cells[0] == Root(K, incident, rows)
    {
      TreeLength(K, leaves, cells);
      LeavesAreUnique(K, incident, rows, leaves);
      CellIsNode(K, leaves, cells, 0);
    }
    NodesAreTree(K, sorted);
  }

  lemma TreeLength(K: Keccak, leaves: seq<nat>, cells: seq<nat>)
    requires IsTree(K, leaves, cells)
    ensures |cells| == 2 * |leaves| - 1
  {
  }

  lemma NodesAreTree(K: Keccak, leaves: seq<nat>)
    requires leaves != []
    ensures exists cells :: IsTree(K, leaves, cells)
  {
    hide PairHash, NodeHash;
    var cells := seq(2 * |leaves| - 1, i requires 0 <= i < 2 * |leaves| - 1 => NodeAt(K, leaves, i));
    forall i | 0 <= i < |leaves| - 1 ensures PairHash(K, cells[2 * i + 1], cells[2 * i + 2], cells[i]) {
      NodeIsPair(K, cells[2 * i + 1], cells[2 * i + 2], cells[i]);
    }
    assert IsTree(K, leaves, cells);
  }

  // ---- The settlement's commitments ----

  /** What a settled row must say to the contract. */
  predicate SaysRow(words: seq<nat>, incident: nat, row: Row) {
    && |words| == 9 + |row.amounts|
    && words[0] == incident && words[1] == row.claimId && words[2] == row.user && ArrayAt(words, 3, row.amounts)
    && words[4] == row.scoreSpent && words[5] == row.boosted && words[6] == row.eligible
    && words[7] == row.eligibleBooster
  }

  /** Each row of a settlement is proved by its claim's proof: the hash of the hash of its arguments
      leads to the committed root. */
  lemma RowIsProvable(K: Keccak, incident: nat, events: seq<Event>, s: Settled, k: nat) returns (words: seq<nat>)
    requires Commits(K, incident, events, s) && k < |s.rows|
    ensures SaysRow(words, incident, s.rows[k]) && s.rows[k].claimId in s.proofs
    ensures Leads(K, K([K(words)]), s.proofs[s.rows[k].claimId], s.root)
  {
    hide Root, Fold, Leads, IsLeaf, Map, ClaimIds, Rolling, InputHash;
    var rows := Map(MerkleRowOf, s.rows);
    var row := rows[k];
    LeafIsEncoding(K, incident, row);
    var h := LeafHash(K, incident, row);
    FoldLeads(K, h, s.proofs[row.claimId], s.root);
    words := LeafArguments(K, incident, row, h);
  }

  lemma LeafArguments(K: Keccak, incident: nat, row: MerkleRow, h: nat) returns (words: seq<nat>)
    requires IsLeaf(K, incident, row, h)
    ensures RowArguments(words, incident, row) && h == K([K(words)])
  {
    words :| RowArguments(words, incident, row) && h == K([K(words)]);
  }

  /** The users with their gross earned scores, in any order. */
  ghost predicate ScoresOf(rows: seq<Row>, scored: seq<Scored>) {
    exists each: seq<Scored> ::
      && |each| == |rows| && multiset(scored) == multiset(each)
      && forall k :: 0 <= k < |rows| ==> each[k] == Scored(rows[k].user, rows[k].grossEarned)
  }

  /** Two array arguments: users in ascending order, and at the same places their scores. */
  predicate ScoreArguments(words: seq<nat>, scored: seq<Scored>) {
    && |words| == 4 + 2 * |scored|
    && (forall i, j :: 0 <= i < j < |scored| ==> scored[i].user <= scored[j].user)
    && ArrayAt(words, 0, seq(|scored|, k requires 0 <= k < |scored| => scored[k].user))
    && ArrayAt(words, 1, seq(|scored|, k requires 0 <= k < |scored| => scored[k].score))
    && words[0] < words[1]
  }

  /** The input hash is that of the users and their earned scores. */
  lemma InputIsEncoding(K: Keccak, incident: nat, events: seq<Event>, s: Settled)
    returns (scored: seq<Scored>, words: seq<nat>)
    requires Commits(K, incident, events, s)
    ensures ScoresOf(s.rows, scored) && ScoreArguments(words, scored) && s.inputHash == K(words)
  {
    hide Root, Proves, ClaimIds, Rolling, Sort;
    var input := Map(ScoredOf, s.rows);
    SortKeeps(BY_USER, input);
    scored := Sort(BY_USER, input);
    assert ScoresOf(s.rows, scored);
    words := InputWords(scored);
    InputArguments(scored);
  }

  lemma InputArguments(scored: seq<Scored>)
    requires InPlace(BY_USER, scored)
    ensures ScoreArguments(InputWords(scored), scored)
  {
    hide Map;
    var words, n := InputWords(scored), |scored|;
    var users := seq(n, k requires 0 <= k < n => scored[k].user);
    var scores := seq(n, k requires 0 <= k < n => scored[k].score);
    assert Map(UserOf, scored) == users && Map(ScoreOf, scored) == scores;
    assert words[3..3 + n] == users && words[4 + n..4 + n + n] == scores;
    assert words[1] / 32 == 3 + n && words[3 + n] == n;
    forall i, j | 0 <= i < j < n ensures scored[i].user <= scored[j].user {
      assert !BY_USER(scored[j], scored[i]);
    }
  }

  /** The claim-set hash rolls over the events: a registration adds its claim, user, amount, score to
      spend and booster to the hash so far, a cancellation its claim. */
  lemma RollingIsChain(K: Keccak, events: seq<Event>, e: Event)
    ensures Rolling(K, []) == 0
    ensures e.kind == Register ==>
              Rolling(K, events + [e]) ==
                K([Rolling(K, events), e.id, e.user, e.amount, e.scoreToSpend, e.boosterAmount])
    ensures e.kind == Cancel ==> Rolling(K, events + [e]) == K([Rolling(K, events), e.id])
  {
    var longer := events + [e];
    assert longer[..|longer| - 1] == events;
  }
}
