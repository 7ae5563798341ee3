/** The meta Merkle tree over all tip distribution accounts (meta_merkle_tree/src/meta_merkle_tree.rs)
    and the check the ballot box makes against its root (core/src/ballot_box.rs). The hash of a node's
    fields is one more parameter, `record`. */
module MetaMerkleTreeSpec {
  import opened Common
  import opened MerkleTreeSpec

  /** The hashed fields of a node; the proof is filled in later and is not hashed. */
  datatype Record = Record(account: Key, validatorRoot: Digest, maxTotalClaim: U64, maxNumNodes: U64)

  datatype TreeNode = TreeNode(record: Record, proof: Option<seq<Digest>>)

  datatype MetaTree = MetaTree(root: Digest, numNodes: nat, nodes: seq<TreeNode>)

  type RecordHash = Record -> Digest

  const MAX_NODES: nat := 0xFFFF_FFFF

  function HashOf(record: RecordHash, n: TreeNode): Digest {
    record(n.record)
  }

  function Hashes(record: RecordHash, nodes: seq<TreeNode>): (r: seq<Digest>)
    ensures |r| == |nodes|
  {
    seq(|nodes|, i requires 0 <= i < |nodes| => HashOf(record, nodes[i]))
  }

  /** `sort_by_key` is stable: a node goes behind the nodes with the same hash. */
  function Insert(record: RecordHash, sorted: seq<TreeNode>, n: TreeNode): (r: seq<TreeNode>)
    ensures |r| == |sorted| + 1
  {
    if sorted == [] || HashOf(record, sorted[|sorted| - 1]) <= HashOf(record, n) then sorted + [n]
    else Insert(record, sorted[..|sorted| - 1], n) + [sorted[|sorted| - 1]]
  }

  function SortByHash(record: RecordHash, nodes: seq<TreeNode>): (r: seq<TreeNode>)
    ensures |r| == |nodes|
  {
    if nodes == [] then []
    else Insert(record, SortByHash(record, nodes[..|nodes| - 1]), nodes[|nodes| - 1])
  }

  /** The leaves of the tree over a node list: node hashes are the tree's items, and are hashed again. */
  function NodeLeaves(h: Hasher<Digest>, record: RecordHash, nodes: seq<TreeNode>): (r: seq<Digest>)
    ensures |r| == |nodes|
  {
    Leaves(h, Hashes(record, nodes))
  }

  function WithProofs(h: Hasher<Digest>, leaves: seq<Digest>, nodes: seq<TreeNode>): (r: seq<TreeNode>)
    requires |leaves| == |nodes|
    ensures |r| == |nodes|
  {
    seq(|nodes|, i requires 0 <= i < |nodes| => nodes[i].(proof := Some(ProofOf(h, leaves, i))))
  }

  function Accounts(nodes: seq<TreeNode>): set<Key> {
    set i | 0 <= i < |nodes| :: nodes[i].record.account
  }

  predicate LeafVerifies(h: Hasher<Digest>, leaves: seq<Digest>, root: Digest, i: nat)
    requires i < |leaves|
  {
    Verifies(h, ProofOf(h, leaves, i), root, leaves[i])
  }

  /** The loop over the leaves, from leaf `i` on. */
  predicate AllVerify(h: Hasher<Digest>, leaves: seq<Digest>, root: Digest, i: nat)
    decreases |leaves| - i
  {
    i >= |leaves| || (LeafVerifies(h, leaves, root, i) && AllVerify(h, leaves, root, i + 1))
  }

  /** `verify_proof`: rebuild the tree, compare the root, check every leaf. A different root is an
      assertion failure in the source. */
  function VerifyProof(h: Hasher<Digest>, record: RecordHash, t: MetaTree): Result<()> {
    var leaves := NodeLeaves(h, record, t.nodes);
    if leaves == [] then Err(MerkleValidationError)
    else if Root(h, true, leaves) != t.root then Err(MerkleRootAssertion)
    else if AllVerify(h, leaves, t.root, 0) then Ok(())
    else Err(MerkleValidationError)
  }

  function Validate(h: Hasher<Digest>, record: RecordHash, t: MetaTree): Result<()> {
    if t.numNodes > MAX_NODES then Err(MerkleValidationError)
    else if |t.nodes| != t.numNodes then Err(MerkleValidationError)
    else if |Accounts(t.nodes)| != |t.nodes| then Err(MerkleValidationError)
    else if VerifyProof(h, record, t) == Err(MerkleRootAssertion) then Err(MerkleRootAssertion)
    else if VerifyProof(h, record, t).Err? then Err(MerkleValidationError)
    else Ok(())
  }

  /** `MetaMerkleTree::new`. */
  function NewTree(h: Hasher<Digest>, record: RecordHash, nodes: seq<TreeNode>): Result<MetaTree> {
    var sorted := SortByHash(record, nodes);
    var leaves := NodeLeaves(h, record, sorted);
    if leaves == [] then Err(MerkleRootError)
    else
      var t := MetaTree(Root(h, true, leaves), |sorted|, WithProofs(h, leaves, sorted));
      var _ :- Validate(h, record, t);
      Ok(t)
  }

  /** `BallotBox::verify_merkle_root`: a record is accepted when its leaf climbs to the winning root. */
  predicate VerifyMerkleRoot(h: Hasher<Digest>, record: RecordHash, winningRoot: Digest, r: Record,
                             proof: seq<Digest>) {
    Verifies(h, proof, winningRoot, LeafHash(h, record(r)))
  }
}

module MetaMerkleTreeProofs {
  import opened Common
  import opened MerkleTreeSpec
  import opened MerkleTreeProofs
  import opened MetaMerkleTreeSpec

  // ------------------------------------------------------------------
  // Sorting
  // ------------------------------------------------------------------

  ghost predicate Ascending(s: seq<Digest>) {
    forall i, j :: 0 <= i < j < |s| ==> s[i] <= s[j]
  }

  lemma {:induction false} HashesSnoc(record: RecordHash, nodes: seq<TreeNode>, n: TreeNode)
    ensures Hashes(record, nodes + [n]) == Hashes(record, nodes) + [HashOf(record, n)]
  {
  }

  lemma {:induction false} InsertIsPermutation(record: RecordHash, sorted: seq<TreeNode>, n: TreeNode)
    ensures multiset(Insert(record, sorted, n)) == multiset(sorted) + multiset{n}
  {
    if sorted != [] && HashOf(record, sorted[|sorted| - 1]) > HashOf(record, n) {
      var k := |sorted| - 1;
      InsertIsPermutation(record, sorted[..k], n);
      assert sorted == sorted[..k] + [sorted[k]];
    }
  }

  /** Everything in a list is at most a bound. */
  ghost predicate AtMost(record: RecordHash, nodes: seq<TreeNode>, bound: Digest) {
    forall i :: 0 <= i < |nodes| ==> HashOf(record, nodes[i]) <= bound
  }

  lemma {:induction false} InsertStaysBelow(record: RecordHash, sorted: seq<TreeNode>, n: TreeNode, bound: Digest)
    requires AtMost(record, sorted, bound) && HashOf(record, n) <= bound
    ensures AtMost(record, Insert(record, sorted, n), bound)
  {
    if sorted != [] && HashOf(record, sorted[|sorted| - 1]) > HashOf(record, n) {
      InsertStaysBelow(record, sorted[..|sorted| - 1], n, bound);
    }
  }

  lemma {:induction false} AscendingSnoc(record: RecordHash, nodes: seq<TreeNode>, n: TreeNode)
    requires Ascending(Hashes(record, nodes)) && AtMost(record, nodes, HashOf(record, n))
    ensures Ascending(Hashes(record, nodes + [n]))
  {
    HashesSnoc(record, nodes, n);
  }

  lemma {:induction false} AscendingPrefix(record: RecordHash, nodes: seq<TreeNode>, k: nat)
    requires Ascending(Hashes(record, nodes)) && k < |nodes|
    ensures Ascending(Hashes(record, nodes[..k])) && AtMost(record, nodes[..k], HashOf(record, nodes[k]))
  {
    var hashes := Hashes(record, nodes);
    assert Hashes(record, nodes[..k]) == hashes[..k];
    forall i | 0 <= i < k ensures HashOf(record, nodes[..k][i]) <= HashOf(record, nodes[k]) {
      assert hashes[i] <= hashes[k];
    }
  }

  lemma {:induction false} InsertKeepsOrder(record: RecordHash, sorted: seq<TreeNode>, n: TreeNode)
    requires Ascending(Hashes(record, sorted))
    ensures Ascending(Hashes(record, Insert(record, sorted, n)))
  {
    if sorted == [] {
      AscendingSnoc(record, sorted, n);
    } else {
      var k := |sorted| - 1;
      AscendingPrefix(record, sorted, k);
      if HashOf(record, sorted[k]) <= HashOf(record, n) {
        AscendingSnoc(record, sorted, n);
      } else {
        InsertKeepsOrder(record, sorted[..k], n);
        InsertStaysBelow(record, sorted[..k], n, HashOf(record, sorted[k]));
        AscendingSnoc(record, Insert(record, sorted[..k], n), sorted[k]);
      }
    }
  }

  /** Sorting puts the same nodes in ascending order of hash. */
  lemma {:induction false} SortSorts(record: RecordHash, nodes: seq<TreeNode>)
    ensures Ascending(Hashes(record, SortByHash(record, nodes)))
    ensures multiset(SortByHash(record, nodes)) == multiset(nodes)
  {
    if nodes != [] {
      var k := |nodes| - 1;
      SortSorts(record, nodes[..k]);
      InsertKeepsOrder(record, SortByHash(record, nodes[..k]), nodes[k]);
      InsertIsPermutation(record, SortByHash(record, nodes[..k]), nodes[k]);
      assert nodes == nodes[..k] + [nodes[k]];
    }
  }

  lemma {:induction false} TakeOut<T>(s: seq<T>, j: nat)
    requires j < |s|
    ensures multiset(s[..j] + s[j + 1..]) == multiset(s) - multiset{s[j]}
  {
    assert s == s[..j] + [s[j]] + s[j + 1..];
  }

  lemma {:induction false} TakeOutHash(record: RecordHash, nodes: seq<TreeNode>, j: nat)
    requires j < |nodes|
    ensures multiset(Hashes(record, nodes[..j] + nodes[j + 1..]))
         == multiset(Hashes(record, nodes)) - multiset{HashOf(record, nodes[j])}
    ensures HashOf(record, nodes[j]) in multiset(Hashes(record, nodes))
  {
    var hashes := Hashes(record, nodes);
    assert Hashes(record, nodes[..j] + nodes[j + 1..]) == hashes[..j] + hashes[j + 1..];
    TakeOut(hashes, j);
    assert hashes[j] in multiset(hashes);
  }

  lemma {:induction false} Restored<T>(a: multiset<T>, b: multiset<T>, x: T)
    requires x in a && x in b && a - multiset{x} == b - multiset{x}
    ensures a == b
  {
    assert a == (a - multiset{x}) + multiset{x};
  }

  /** The partner of the first node, and that the rest still has the same nodes. */
  lemma {:induction false} Partner(a: seq<TreeNode>, b: seq<TreeNode>) returns (j: nat)
    requires multiset(a) == multiset(b) && a != []
    ensures j < |b| && b[j] == a[0]
    ensures multiset(a[..0] + a[1..]) == multiset(b[..j] + b[j + 1..])
  {
    assert a[0] in multiset(b);
    j :| 0 <= j < |b| && b[j] == a[0];
    TakeOut(a, 0);
    TakeOut(b, j);
  }

  lemma {:induction false} HashesOfNone(record: RecordHash, a: seq<TreeNode>, b: seq<TreeNode>)
    requires multiset(a) == multiset(b) && a == []
    ensures b == [] && Hashes(record, a) == Hashes(record, b)
  {
    assert |multiset(b)| == |b|;
  }

  /** Equal lists up to order hash to equal lists up to order. */
  lemma {:induction false} SameNodesSameHashes(record: RecordHash, a: seq<TreeNode>, b: seq<TreeNode>)
    requires multiset(a) == multiset(b)
    ensures multiset(Hashes(record, a)) == multiset(Hashes(record, b))
    decreases |a|
  {
    if a == [] {
      HashesOfNone(record, a, b);
    } else {
      var j := Partner(a, b);
      SameNodesSameHashes(record, a[..0] + a[1..], b[..j] + b[j + 1..]);
      TakeOutHash(record, a, 0);
      TakeOutHash(record, b, j);
      Restored(multiset(Hashes(record, a)), multiset(Hashes(record, b)), HashOf(record, a[0]));
    }
  }

  lemma {:induction false} LargestIsLast(s: seq<Digest>, x: Digest)
    requires Ascending(s) && s != [] && x in s
    ensures x <= s[|s| - 1]
  {
  }

  lemma {:induction false} SameLast(a: seq<Digest>, b: seq<Digest>)
    requires Ascending(a) && Ascending(b) && multiset(a) == multiset(b) && a != [] && b != []
    ensures a[|a| - 1] == b[|b| - 1]
  {
    assert a[|a| - 1] in multiset(a) && b[|b| - 1] in multiset(b);
    LargestIsLast(b, a[|a| - 1]);
    LargestIsLast(a, b[|b| - 1]);
  }

  lemma {:induction false} WithoutLast(a: seq<Digest>)
    requires a != []
    ensures multiset(a[..|a| - 1]) == multiset(a) - multiset{a[|a| - 1]}
  {
    assert a == a[..|a| - 1] + [a[|a| - 1]];
  }

  lemma {:induction false} AscendingWithoutLast(a: seq<Digest>)
    requires Ascending(a) && a != []
    ensures Ascending(a[..|a| - 1])
  {
  }

  lemma {:induction false} SameWithoutLast(a: seq<Digest>, b: seq<Digest>)
    requires Ascending(a) && Ascending(b) && multiset(a) == multiset(b) && a != []
    ensures |a| == |b| && a[|a| - 1] == b[|a| - 1]
    ensures Ascending(a[..|a| - 1]) && Ascending(b[..|a| - 1]) && multiset(a[..|a| - 1]) == multiset(b[..|a| - 1])
  {
    assert |multiset(a)| == |a| && |multiset(b)| == |b|;
    SameLast(a, b);
    WithoutLast(a);
    WithoutLast(b);
    AscendingWithoutLast(a);
    AscendingWithoutLast(b);
  }

  lemma {:induction false} SameWithLast(a: seq<Digest>, b: seq<Digest>, k: nat)
    requires |a| == |b| == k + 1 && a[..k] == b[..k] && a[k] == b[k]
    ensures a == b
  {
    assert a == a[..k] + [a[k]] && b == b[..k] + [b[k]];
  }

  /** Two ascending lists of the same values are the same list. */
  lemma {:induction false} AscendingIsCanonical(a: seq<Digest>, b: seq<Digest>)
    requires Ascending(a) && Ascending(b) && multiset(a) == multiset(b)
    ensures a == b
    decreases |a|
  {
    if a == [] {
      assert |multiset(b)| == |b|;
    } else {
      var k := |a| - 1;
      SameWithoutLast(a, b);
      AscendingIsCanonical(a[..k], b[..k]);
      SameWithLast(a, b, k);
    }
  }

  /** The order of the nodes does not reach the tree: every permutation has the same leaves. */
  lemma {:induction false} LeavesAreOrderFree(h: Hasher<Digest>, record: RecordHash, a: seq<TreeNode>, b: seq<TreeNode>)
    requires multiset(a) == multiset(b)
    ensures NodeLeaves(h, record, SortByHash(record, a)) == NodeLeaves(h, record, SortByHash(record, b))
  {
    SortSorts(record, a);
    SortSorts(record, b);
    SameNodesSameHashes(record, SortByHash(record, a), SortByHash(record, b));
    AscendingIsCanonical(Hashes(record, SortByHash(record, a)), Hashes(record, SortByHash(record, b)));
  }

  // ------------------------------------------------------------------
  // When a tree is built
  // ------------------------------------------------------------------

  ghost predicate DistinctAccounts(nodes: seq<TreeNode>) {
    forall i, j :: 0 <= i < j < |nodes| ==> nodes[i].record.account != nodes[j].record.account
  }

  lemma {:induction false} AccountsSnoc(nodes: seq<TreeNode>, n: TreeNode)
    ensures Accounts(nodes + [n]) == Accounts(nodes) + {n.record.account}
  {
    var all := nodes + [n];
    forall k | k in Accounts(nodes) ensures k in Accounts(all) {
      var i :| 0 <= i < |nodes| && nodes[i].record.account == k;
      assert all[i] == nodes[i];
    }
    assert all[|nodes|] == n;
  }

  /** The set of accounts is as large as the list exactly when no account repeats. */
  lemma {:induction false} AccountsCount(nodes: seq<TreeNode>)
    ensures |Accounts(nodes)| <= |nodes|
    ensures |Accounts(nodes)| == |nodes| <==> DistinctAccounts(nodes)
  {
    if nodes == [] {
      assert Accounts(nodes) == {};
    } else {
      var k := |nodes| - 1;
      assert nodes == nodes[..k] + [nodes[k]];
      AccountsCount(nodes[..k]);
      AccountsSnoc(nodes[..k], nodes[k]);
      if DistinctAccounts(nodes) {
        assert nodes[k].record.account !in Accounts(nodes[..k]);
      } else if nodes[k].record.account !in Accounts(nodes[..k]) {
        assert forall i :: 0 <= i < k ==> nodes[..k][i].record.account in Accounts(nodes[..k]);
      }
    }
  }

  lemma {:induction false} SameNodesSameAccounts(a: seq<TreeNode>, b: seq<TreeNode>)
    requires multiset(a) == multiset(b)
    ensures Accounts(a) == Accounts(b) && |a| == |b|
  {
    assert |multiset(a)| == |a| && |multiset(b)| == |b|;
    forall k | k in Accounts(a) ensures k in Accounts(b) {
      var i :| 0 <= i < |a| && a[i].record.account == k;
      assert a[i] in multiset(b);
    }
    forall k | k in Accounts(b) ensures k in Accounts(a) {
      var i :| 0 <= i < |b| && b[i].record.account == k;
      assert b[i] in multiset(a);
    }
  }

  /** Filling in proofs changes neither hashes nor accounts. */
  lemma {:induction false} ProofsAreNotHashed(h: Hasher<Digest>, record: RecordHash, leaves: seq<Digest>,
                                              nodes: seq<TreeNode>)
    requires |leaves| == |nodes|
    ensures Hashes(record, WithProofs(h, leaves, nodes)) == Hashes(record, nodes)
    ensures Accounts(WithProofs(h, leaves, nodes)) == Accounts(nodes)
  {
    var filled := WithProofs(h, leaves, nodes);
    forall k | k in Accounts(nodes) ensures k in Accounts(filled) {
      var i :| 0 <= i < |nodes| && nodes[i].record.account == k;
      assert filled[i].record == nodes[i].record;
    }
    assert forall i :: 0 <= i < |nodes| ==> filled[i].record == nodes[i].record;
  }

  lemma {:induction false} AllVerifyMeans(h: Hasher<Digest>, leaves: seq<Digest>, root: Digest, i: nat)
    ensures AllVerify(h, leaves, root, i) <==> forall j :: i <= j < |leaves| ==> LeafVerifies(h, leaves, root, j)
    decreases |leaves| - i
  {
    if i < |leaves| {
      AllVerifyMeans(h, leaves, root, i + 1);
    }
  }

  /** `verify_proof` succeeds exactly when there is a node and the stored root is the nodes' root; with
      another root it aborts. */
  lemma {:induction false} VerifyProofExactly(h: Hasher<Digest>, record: RecordHash, t: MetaTree)
    ensures VerifyProof(h, record, t).Ok?
       <==> t.nodes != [] && t.root == Root(h, true, NodeLeaves(h, record, t.nodes))
    ensures VerifyProof(h, record, t) == Err(MerkleRootAssertion)
       <==> t.nodes != [] && t.root != Root(h, true, NodeLeaves(h, record, t.nodes))
  {
    var leaves := NodeLeaves(h, record, t.nodes);
    forall i | 0 <= i < |leaves| ensures LeafVerifies(h, leaves, Root(h, true, leaves), i) {
      ClimbsToRoot(h, leaves, i);
    }
    if leaves != [] {
      AllVerifyMeans(h, leaves, Root(h, true, leaves), 0);
    }
  }

  /** A stored tree is valid exactly when it counts its nodes, no more than 2^32 - 1 of them, lists no
      account twice, and has the root of its nodes; one that has another root makes the check abort. */
  lemma {:induction false} ValidateExactly(h: Hasher<Digest>, record: RecordHash, t: MetaTree)
    ensures Validate(h, record, t).Ok? <==>
      && 0 < |t.nodes| == t.numNodes <= 0xFFFF_FFFF
      && DistinctAccounts(t.nodes)
      && t.root == Root(h, true, NodeLeaves(h, record, t.nodes))
    ensures Validate(h, record, t) == Err(MerkleRootAssertion) <==>
      && 0 < |t.nodes| == t.numNodes <= 0xFFFF_FFFF
      && DistinctAccounts(t.nodes)
      && t.root != Root(h, true, NodeLeaves(h, record, t.nodes))
  {
    VerifyProofExactly(h, record, t);
    AccountsCount(t.nodes);
  }

  /** A tree is built exactly for a non-empty list of at most 2^32 - 1 nodes with distinct accounts;
      then it holds the same records, sorted, under the root of their leaves, and every node carries
      a proof that its leaf is accepted with. */
  lemma {:induction false} NewTreeExactly(h: Hasher<Digest>, record: RecordHash, nodes: seq<TreeNode>)
    ensures NewTree(h, record, nodes).Ok? <==> 0 < |nodes| <= 0xFFFF_FFFF && DistinctAccounts(nodes)
    ensures NewTree(h, record, nodes).Ok? ==>
      var t, sorted := NewTree(h, record, nodes).value, SortByHash(record, nodes);
      var leaves := NodeLeaves(h, record, sorted);
      && t.root == Root(h, true, leaves) && t.numNodes == |nodes|
      && t.nodes == WithProofs(h, leaves, sorted)
      && VerifyProof(h, record, t).Ok? && Validate(h, record, t).Ok?
  {
    var sorted := SortByHash(record, nodes);
    var leaves := NodeLeaves(h, record, sorted);
    SortSorts(record, nodes);
    SameNodesSameAccounts(sorted, nodes);
    AccountsCount(nodes);
    if nodes != [] {
      ProofsAreNotHashed(h, record, leaves, sorted);
      VerifyProofExactly(h, record, MetaTree(Root(h, true, leaves), |sorted|, WithProofs(h, leaves, sorted)));
    }
  }

  /** Order-free root: every permutation of the nodes gives a tree or gives none, and the root is the
      same. */
  lemma {:induction false} RootIsOrderFree(h: Hasher<Digest>, record: RecordHash, a: seq<TreeNode>, b: seq<TreeNode>)
    requires multiset(a) == multiset(b)
    ensures NewTree(h, record, a).Ok? <==> NewTree(h, record, b).Ok?
    ensures NewTree(h, record, a).Ok? ==> NewTree(h, record, a).value.root == NewTree(h, record, b).value.root
  {
    SameNodesSameAccounts(a, b);
    AccountsCount(a);
    AccountsCount(b);
    NewTreeExactly(h, record, a);
    NewTreeExactly(h, record, b);
    LeavesAreOrderFree(h, record, a, b);
  }

  // ------------------------------------------------------------------
  // From the list of nodes to the on-chain check
  // ------------------------------------------------------------------

  /** Where the node ends up that was at position `i` of the list. */
  lemma {:induction false} SortedPosition(record: RecordHash, nodes: seq<TreeNode>, i: nat) returns (j: nat)
    requires i < |nodes|
    ensures j < |nodes| && SortByHash(record, nodes)[j] == nodes[i]
  {
    SortSorts(record, nodes);
    assert nodes[i] in multiset(SortByHash(record, nodes));
    j :| 0 <= j < |SortByHash(record, nodes)| && SortByHash(record, nodes)[j] == nodes[i];
  }

  /** Every node that went into the tree can be claimed on chain with the proof the tree gave it. */
  lemma {:induction false} ListedRecordIsAccepted(h: Hasher<Digest>, record: RecordHash, nodes: seq<TreeNode>, i: nat)
    returns (j: nat)
    requires NewTree(h, record, nodes).Ok? && i < |nodes|
    ensures var t := NewTree(h, record, nodes).value;
      && j < |t.nodes| && t.nodes[j].record == nodes[i].record && t.nodes[j].proof.Some?
      && VerifyMerkleRoot(h, record, t.root, nodes[i].record, t.nodes[j].proof.value)
  {
    NewTreeExactly(h, record, nodes);
    j := SortedPosition(record, nodes, i);
    var leaves := NodeLeaves(h, record, SortByHash(record, nodes));
    ClimbsToRoot(h, leaves, j);
  }

  ghost predicate Lists(nodes: seq<TreeNode>, r: Record) {
    exists i :: 0 <= i < |nodes| && nodes[i].record == r
  }

  /** Nothing else can: if a record is accepted with a proof of any length, it was in the list, unless
      two of the inputs actually hashed collide. */
  lemma {:induction false} AcceptedRecordIsListed(h: Hasher<Digest>, record: RecordHash, nodes: seq<TreeNode>,
                                                  r: Record, proof: seq<Digest>)
    requires NewTree(h, record, nodes).Ok?
    requires VerifyMerkleRoot(h, record, NewTree(h, record, nodes).value.root, r, proof)
    requires forall i :: 0 <= i < |nodes| && record(nodes[i].record) == record(r) ==> nodes[i].record == r
    requires CollisionFree(h, TreePreimages(h, Hashes(record, SortByHash(record, nodes))) + [OfItem(record(r))]
                              + ProofPreimages(h, proof, h.leaf(record(r))))
    ensures Lists(nodes, r)
  {
    var sorted := SortByHash(record, nodes);
    NewTreeExactly(h, record, nodes);
    SortSorts(record, nodes);
    AcceptedItemIsInTree(h, Hashes(record, sorted), proof, record(r));
    var j :| 0 <= j < |sorted| && Hashes(record, sorted)[j] == record(r);
    assert sorted[j] in multiset(nodes);
    var i :| 0 <= i < |nodes| && nodes[i] == sorted[j];
  }
}

/** The constructor and its checks as the source runs them. */
module MetaMerkleTreeLoops {
  import opened Common
  import opened MerkleTreeSpec
  import MerkleTreeLoops
  import opened MetaMerkleTreeSpec

  /** Checks one leaf with the proof the tree gives for it. */
  method VerifyLeaf(h: Hasher<Digest>, hash: Digest, tree: Tree, root: Digest, ghost leaves: seq<Digest>, i: nat)
    returns (ok: bool)
    requires tree == Tree(|leaves|, Levels(h, true, leaves)) && i < |leaves| && leaves[i] == LeafHash(h, hash)
    ensures ok == LeafVerifies(h, leaves, root, i)
  {
    var proof := MerkleTreeLoops.ProofAt(tree, i, h, leaves);
    ok := MerkleTreeLoops.Verify(h, proof, root, LeafHash(h, hash));
  }

  method VerifyLeaves(h: Hasher<Digest>, hashes: seq<Digest>, tree: Tree, root: Digest, ghost leaves: seq<Digest>)
    returns (ok: bool)
    requires leaves == Leaves(h, hashes) && tree == Tree(|leaves|, Levels(h, true, leaves))
    ensures ok == AllVerify(h, leaves, root, 0)
  {
    for i := 0 to |hashes|
      invariant AllVerify(h, leaves, root, i) == AllVerify(h, leaves, root, 0)
    {
      assert leaves[i] == LeafHash(h, hashes[i]);
      var verified := VerifyLeaf(h, hashes[i], tree, root, leaves, i);
      if !verified {
        return false;
      }
    }
    return true;
  }

  method VerifyProof(h: Hasher<Digest>, record: RecordHash, t: MetaTree) returns (r: Result<()>)
    ensures r == MetaMerkleTreeSpec.VerifyProof(h, record, t)
  {
    var hashes := Hashes(record, t.nodes);
    var tree, root := MerkleTreeLoops.Build(h, hashes);
    if root.None? {
      return Err(MerkleValidationError);
    }
    if root.value != t.root {
      return Err(MerkleRootAssertion);
    }
    var ok := VerifyLeaves(h, hashes, tree, t.root, Leaves(h, hashes));
    return if ok then Ok(()) else Err(MerkleValidationError);
  }

  method Validate(h: Hasher<Digest>, record: RecordHash, t: MetaTree) returns (r: Result<()>)
    ensures r == MetaMerkleTreeSpec.Validate(h, record, t)
  {
    if t.numNodes > MAX_NODES || |t.nodes| != t.numNodes {
      return Err(MerkleValidationError);
    }
    var accounts: set<Key> := {};
    for i := 0 to |t.nodes|
      invariant accounts == Accounts(t.nodes[..i])
    {
      assert Accounts(t.nodes[..i + 1]) == Accounts(t.nodes[..i]) + {t.nodes[i].record.account} by {
        assert forall j :: 0 <= j < i ==> t.nodes[..i + 1][j] == t.nodes[..i][j];
        assert t.nodes[..i + 1][i] == t.nodes[i];
      }
      accounts := accounts + {t.nodes[i].record.account};
    }
    assert t.nodes[..|t.nodes|] == t.nodes;
    if |accounts| != |t.nodes| {
      return Err(MerkleValidationError);
    }
    var verified := VerifyProof(h, record, t);
    if verified.Err? {
      return Err(if verified.error == MerkleRootAssertion then MerkleRootAssertion else MerkleValidationError);
    }
    return Ok(());
  }

  /** The loop that stores each node's proof. */
  method FillProofs(h: Hasher<Digest>, nodes: seq<TreeNode>, tree: Tree, ghost leaves: seq<Digest>)
    returns (r: seq<TreeNode>)
    requires |leaves| == |nodes| && tree == Tree(|leaves|, Levels(h, true, leaves))
    ensures r == WithProofs(h, leaves, nodes)
  {
    r := nodes;
    for i := 0 to |nodes|
      invariant |r| == |nodes|
      invariant forall j :: 0 <= j < i ==> r[j] == nodes[j].(proof := Some(ProofOf(h, leaves, j)))
      invariant forall j :: i <= j < |nodes| ==> r[j] == nodes[j]
    {
      var proof := MerkleTreeLoops.ProofAt(tree, i, h, leaves);
      r := r[i := r[i].(proof := Some(proof))];
    }
  }

  /** `MetaMerkleTree::new`: sort, build, then one proof per node in place. */
  method New(h: Hasher<Digest>, record: RecordHash, nodes: seq<TreeNode>) returns (r: Result<MetaTree>)
    ensures r == NewTree(h, record, nodes)
  {
    var treeNodes := SortByHash(record, nodes);
    var hashes := Hashes(record, treeNodes);
    ghost var leaves := Leaves(h, hashes);
    var tree, root := MerkleTreeLoops.Build(h, hashes);
    treeNodes := FillProofs(h, treeNodes, tree, leaves);
    if root.None? {
      return Err(MerkleRootError);
    }
    var t := MetaTree(root.value, |treeNodes|, treeNodes);
    var valid := Validate(h, record, t);
    if valid.Err? {
      return Err(valid.error);
    }
    return Ok(t);
  }
}
