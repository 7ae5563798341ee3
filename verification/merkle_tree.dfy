/** The Merkle tree kept as one flat list of levels (meta_merkle_tree/src/merkle_tree.rs), and the
    two proof checks that go with it. The hash function is a parameter. */
module MerkleTreeSpec {
  import opened Common

  /** The two prefixed uses of the hash: on an item, and on a pair of hashes. */
  datatype Hasher<!T> = Hasher(leaf: T -> Digest, node: (Digest, Digest) -> Digest)

  /** `hash_intermediate` on a pair; sorted hashing puts the smaller hash first. */
  function Parent<T>(h: Hasher<T>, sorted: bool, left: Digest, right: Digest): Digest {
    if sorted && left > right then h.node(right, left) else h.node(left, right)
  }

  /** The right member of the pair at `2 * i`; the last entry of an odd level is its own partner. */
  function Right(level: seq<Digest>, i: nat): Digest
    requires 2 * i < |level|
  {
    if 2 * i + 1 < |level| then level[2 * i + 1] else level[2 * i]
  }

  function NextLevel<T>(h: Hasher<T>, sorted: bool, level: seq<Digest>): (r: seq<Digest>)
    ensures |r| == (|level| + 1) / 2
  {
    seq((|level| + 1) / 2, i requires 0 <= i < (|level| + 1) / 2 => Parent(h, sorted, level[2 * i], Right(level, i)))
  }

  /** A level followed by all levels above it. */
  function Levels<T>(h: Hasher<T>, sorted: bool, level: seq<Digest>): seq<Digest>
    decreases |level|
  {
    if |level| <= 1 then level else level + Levels(h, sorted, NextLevel(h, sorted, level))
  }

  /** The hash at the top of the tree over a level. */
  function Root<T>(h: Hasher<T>, sorted: bool, level: seq<Digest>): Digest
    requires level != []
    decreases |level|
  {
    if |level| == 1 then level[0] else Root(h, sorted, NextLevel(h, sorted, level))
  }

  /** `hash_leaf`. */
  function LeafHash<T>(h: Hasher<T>, item: T): Digest {
    h.leaf(item)
  }

  function Leaves<T>(h: Hasher<T>, items: seq<T>): (r: seq<Digest>)
    ensures |r| == |items|
  {
    seq(|items|, i requires 0 <= i < |items| => LeafHash(h, items[i]))
  }

  datatype Tree = Tree(leafCount: nat, nodes: seq<Digest>)

  function TreeOf<T>(h: Hasher<T>, sorted: bool, items: seq<T>): Tree {
    Tree(|items|, Levels(h, sorted, Leaves(h, items)))
  }

  /** `get_root`: the last node. */
  function GetRoot(t: Tree): Option<Digest> {
    if t.nodes == [] then None else Some(t.nodes[|t.nodes| - 1])
  }

  lemma {:induction false} LastIsRoot<T>(h: Hasher<T>, sorted: bool, level: seq<Digest>)
    requires level != []
    ensures var nodes := Levels(h, sorted, level); nodes != [] && nodes[|nodes| - 1] == Root(h, sorted, level)
    decreases |level|
  {
    if |level| > 1 {
      LastIsRoot(h, sorted, NextLevel(h, sorted, level));
    }
  }

  function NextLevelLen(n: nat): nat {
    if n == 1 then 0 else (n + 1) / 2
  }

  /** One step of a path: the node reached, and the sibling it was reached with. */
  datatype ProofEntry = ProofEntry(target: Digest, left: Option<Digest>, right: Option<Digest>) {
    function Sibling(): Digest
      requires left.Some? || right.Some?
    {
      if left.Some? then left.value else right.value
    }
  }

  function LeftSibling(level: seq<Digest>, i: nat): Option<Digest>
    requires i < |level|
  {
    if i % 2 == 0 then None else Some(level[i - 1])
  }

  function RightSibling(level: seq<Digest>, i: nat): Option<Digest>
    requires i < |level|
  {
    if i % 2 == 1 then None else if i + 1 < |level| then Some(level[i + 1]) else Some(level[i])
  }

  /** The first step from an entry of a level. */
  function Entry<T>(h: Hasher<T>, sorted: bool, level: seq<Digest>, i: nat): ProofEntry
    requires i < |level|
  {
    ProofEntry(NextLevel(h, sorted, level)[i / 2], LeftSibling(level, i), RightSibling(level, i))
  }

  /** The path from an entry of a level to the root. */
  function Path<T>(h: Hasher<T>, sorted: bool, level: seq<Digest>, i: nat): (r: seq<ProofEntry>)
    requires i < |level|
    ensures forall k :: 0 <= k < |r| ==> (r[k].left.Some? != r[k].right.Some?)
    decreases |level|
  {
    if |level| == 1 then [] else [Entry(h, sorted, level, i)] + Path(h, sorted, NextLevel(h, sorted, level), i / 2)
  }

  lemma {:induction false} PathUnfolds<T>(h: Hasher<T>, sorted: bool, level: seq<Digest>, i: nat)
    requires i < |level| && |level| > 1
    ensures var path := Path(h, sorted, level, i);
      && path != [] && path[0] == Entry(h, sorted, level, i)
      && path[1..] == Path(h, sorted, NextLevel(h, sorted, level), i / 2)
  {
  }

  /** `get_proof`: only the siblings. */
  function Siblings(path: seq<ProofEntry>): (r: seq<Digest>)
    requires forall k :: 0 <= k < |path| ==> path[k].left.Some? || path[k].right.Some?
    ensures |r| == |path|
  {
    seq(|path|, k requires 0 <= k < |path| => path[k].Sibling())
  }

  /** What `get_proof` returns for one leaf. */
  function ProofOf<T>(h: Hasher<T>, leaves: seq<Digest>, i: nat): seq<Digest>
    requires i < |leaves|
  {
    Siblings(Path(h, true, leaves, i))
  }

  /** The fold of `verify::verify`. */
  function Climb<T>(h: Hasher<T>, proof: seq<Digest>, hash: Digest): Digest
    decreases |proof|
  {
    if proof == [] then hash else Climb(h, proof[1..], Parent(h, true, hash, proof[0]))
  }

  predicate Verifies<T>(h: Hasher<T>, proof: seq<Digest>, root: Digest, leaf: Digest) {
    Climb(h, proof, leaf) == root
  }

  function OrElse(o: Option<Digest>, d: Digest): Digest {
    if o.Some? then o.value else d
  }

  /** The fold of `Proof::verify`: every step must reach the recorded node. */
  predicate PathVerifies<T>(h: Hasher<T>, path: seq<ProofEntry>, candidate: Digest)
    decreases |path|
  {
    path == []
    || (var hash := h.node(OrElse(path[0].left, candidate), OrElse(path[0].right, candidate));
        hash == path[0].target && PathVerifies(h, path[1..], hash))
  }
}

/** What the checks accept. */
module MerkleTreeProofs {
  import opened Common
  import opened MerkleTreeSpec

  // ------------------------------------------------------------------
  // Completeness
  // ------------------------------------------------------------------

  /** Sorted hashing does not see which side a hash is on. */
  lemma {:induction false} ParentIsSymmetric<T>(h: Hasher<T>, a: Digest, b: Digest)
    ensures Parent(h, true, a, b) == Parent(h, true, b, a)
  {
  }

  /** The level above, hash by hash: the pairs of the level in order, an odd last entry paired with
      itself, and with sorted hashing the smaller of the two first. */
  lemma {:induction false} LevelAbove<T>(h: Hasher<T>, sorted: bool, level: seq<Digest>, i: nat)
    requires 2 * i < |level|
    ensures NextLevel(h, sorted, level)[i] ==
      if 2 * i + 1 == |level| then h.node(level[2 * i], level[2 * i])
      else if sorted && level[2 * i + 1] < level[2 * i] then h.node(level[2 * i + 1], level[2 * i])
      else h.node(level[2 * i], level[2 * i + 1])
  {
  }

  /** The check hashes the same way, whichever of the two hashes the proof carries. */
  lemma {:induction false} ClimbOrders<T>(h: Hasher<T>, sibling: Digest, rest: seq<Digest>, hash: Digest)
    ensures Climb(h, [sibling] + rest, hash)
         == Climb(h, rest, if hash < sibling then h.node(hash, sibling) else h.node(sibling, hash))
  {
    assert ([sibling] + rest)[1..] == rest;
  }

  /** One step up: an entry and its sibling hash to the node above, whichever side they are on. */
  lemma {:induction false} SortedStep<T>(h: Hasher<T>, level: seq<Digest>, i: nat)
    requires i < |level|
    ensures var e := Entry(h, true, level, i); Parent(h, true, level[i], e.Sibling()) == e.target
  {
    if i % 2 == 1 {
      ParentIsSymmetric(h, level[i], level[i - 1]);
    }
  }

  lemma {:induction false} SiblingsUnfold(path: seq<ProofEntry>)
    requires path != [] && forall k :: 0 <= k < |path| ==> path[k].left.Some? || path[k].right.Some?
    ensures Siblings(path)[0] == path[0].Sibling() && Siblings(path)[1..] == Siblings(path[1..])
  {
  }

  lemma {:induction false} ClimbsToRoot<T>(h: Hasher<T>, level: seq<Digest>, i: nat)
    requires i < |level|
    ensures Climb(h, Siblings(Path(h, true, level, i)), level[i]) == Root(h, true, level)
    decreases |level|
  {
    if |level| > 1 {
      SortedStep(h, level, i);
      PathUnfolds(h, true, level, i);
      SiblingsUnfold(Path(h, true, level, i));
      ClimbsToRoot(h, NextLevel(h, true, level), i / 2);
    }
  }

  /** Completeness, sorted hashing: the proof of every item is accepted against the root. */
  lemma {:induction false} EveryItemVerifies<T>(h: Hasher<T>, items: seq<T>, i: nat)
    requires i < |items|
    ensures var leaves := Leaves(h, items);
      && GetRoot(TreeOf(h, true, items)) == Some(Root(h, true, leaves))
      && Verifies(h, Siblings(Path(h, true, leaves, i)), Root(h, true, leaves), h.leaf(items[i]))
  {
    LastIsRoot(h, true, Leaves(h, items));
    ClimbsToRoot(h, Leaves(h, items), i);
  }

  lemma {:induction false} UnsortedStep<T>(h: Hasher<T>, level: seq<Digest>, i: nat)
    requires i < |level|
    ensures var e := Entry(h, false, level, i); h.node(OrElse(e.left, level[i]), OrElse(e.right, level[i])) == e.target
  {
  }

  /** Completeness, unsorted hashing: the path of every entry is accepted. */
  lemma {:induction false} EveryPathVerifies<T>(h: Hasher<T>, level: seq<Digest>, i: nat)
    requires i < |level|
    ensures PathVerifies(h, Path(h, false, level, i), level[i])
    decreases |level|
  {
    if |level| > 1 {
      UnsortedStep(h, level, i);
      PathUnfolds(h, false, level, i);
      EveryPathVerifies(h, NextLevel(h, false, level), i / 2);
    }
  }

  /** The path check accepts a candidate exactly when it is the entry itself, provided the candidate
      does not collide with it in the first hash. A tree of one leaf has an empty path, and an empty
      path accepts anything. */
  lemma {:induction false} PathAcceptsExactly<T>(h: Hasher<T>, level: seq<Digest>, i: nat, candidate: Digest)
    requires i < |level|
    requires var e := Entry(h, false, level, i);
      h.node(OrElse(e.left, candidate), OrElse(e.right, candidate)) == e.target ==> candidate == level[i]
    ensures PathVerifies(h, Path(h, false, level, i), candidate) <==> |level| == 1 || candidate == level[i]
  {
    EveryPathVerifies(h, level, i);
    if |level| > 1 {
      PathUnfolds(h, false, level, i);
    }
  }

  // ------------------------------------------------------------------
  // Soundness
  // ------------------------------------------------------------------

  /** What a hash was computed from. The prefixes of the source keep the two kinds apart. */
  datatype Preimage<T> = OfItem(item: T) | OfPair(left: Digest, right: Digest)

  function Hashed<T>(h: Hasher<T>, p: Preimage<T>): Digest {
    match p
    case OfItem(item) => h.leaf(item)
    case OfPair(left, right) => h.node(left, right)
  }

  /** The pair a sorted parent is computed from. */
  function Pair<T>(a: Digest, b: Digest): Preimage<T> {
    if a > b then OfPair(b, a) else OfPair(a, b)
  }

  function LevelPairs<T>(level: seq<Digest>): (r: seq<Preimage<T>>)
    ensures |r| == (|level| + 1) / 2
  {
    seq((|level| + 1) / 2, i requires 0 <= i < (|level| + 1) / 2 => Pair(level[2 * i], Right(level, i)))
  }

  /** All pairs hashed above a level. */
  function PairsAbove<T>(h: Hasher<T>, level: seq<Digest>): seq<Preimage<T>>
    decreases |level|
  {
    if |level| <= 1 then [] else LevelPairs(level) + PairsAbove(h, NextLevel(h, true, level))
  }

  function ItemPreimages<T>(items: seq<T>): (r: seq<Preimage<T>>)
    ensures |r| == |items|
  {
    seq(|items|, i requires 0 <= i < |items| => OfItem(items[i]))
  }

  /** Everything hashed while building the sorted tree over some items, node by node. */
  function TreePreimages<T>(h: Hasher<T>, items: seq<T>): seq<Preimage<T>> {
    ItemPreimages(items) + PairsAbove(h, Leaves(h, items))
  }

  /** Everything hashed while checking a proof. */
  function ProofPreimages<T>(h: Hasher<T>, proof: seq<Digest>, hash: Digest): seq<Preimage<T>>
    decreases |proof|
  {
    if proof == [] then []
    else [Pair(hash, proof[0])] + ProofPreimages(h, proof[1..], Parent(h, true, hash, proof[0]))
  }

  /** No two different inputs among these hash to the same value. */
  ghost predicate CollisionFree<T(!new)>(h: Hasher<T>, ps: seq<Preimage<T>>) {
    forall p, q :: p in ps && q in ps && Hashed(h, p) == Hashed(h, q) ==> p == q
  }

  /** `nodes` lists the hashes of `ps` one for one, and every pair in `ps` is of two nodes. */
  ghost predicate Explains<T>(h: Hasher<T>, nodes: seq<Digest>, ps: seq<Preimage<T>>) {
    && |nodes| == |ps|
    && (forall k :: 0 <= k < |ps| ==> nodes[k] == Hashed(h, ps[k]))
    && (forall k :: 0 <= k < |ps| && ps[k].OfPair? ==> ps[k].left in nodes && ps[k].right in nodes)
  }

  /** The hashes of a list of inputs. */
  function HashedAll<T>(h: Hasher<T>, ps: seq<Preimage<T>>): (r: seq<Digest>)
    ensures |r| == |ps|
  {
    seq(|ps|, k requires 0 <= k < |ps| => Hashed(h, ps[k]))
  }

  lemma {:induction false} HashedConcat<T>(h: Hasher<T>, a: seq<Preimage<T>>, b: seq<Preimage<T>>)
    ensures HashedAll(h, a + b) == HashedAll(h, a) + HashedAll(h, b)
  {
  }

  lemma {:induction false} LevelPairsHash<T>(h: Hasher<T>, level: seq<Digest>)
    ensures HashedAll(h, LevelPairs(level)) == NextLevel(h, true, level)
  {
  }

  /** The levels are a level and then the hashes of all pairs above it. */
  lemma {:induction false} LevelsAreHashes<T>(h: Hasher<T>, level: seq<Digest>)
    ensures Levels(h, true, level) == level + HashedAll(h, PairsAbove(h, level))
    decreases |level|
  {
    if |level| <= 1 {
      assert HashedAll<T>(h, []) == [];
    } else {
      var next := NextLevel(h, true, level);
      LevelsAreHashes(h, next);
      LevelPairsHash(h, level);
      HashedConcat(h, LevelPairs(level), PairsAbove(h, next));
    }
  }

  ghost predicate PairsOf<T>(ps: seq<Preimage<T>>, nodes: seq<Digest>) {
    forall k :: 0 <= k < |ps| ==> ps[k].OfPair? && ps[k].left in nodes && ps[k].right in nodes
  }

  lemma {:induction false} LevelPairsOf<T>(level: seq<Digest>)
    ensures PairsOf<T>(LevelPairs(level), level)
  {
    var ps: seq<Preimage<T>> := LevelPairs(level);
    forall k | 0 <= k < |ps|
      ensures ps[k].OfPair? && ps[k].left in level && ps[k].right in level
    {
      assert level[2 * k] in level && Right(level, k) in level;
    }
  }

  /** Every pair hashed above a level is of two nodes. */
  lemma {:induction false} PairsAboveOf<T>(h: Hasher<T>, level: seq<Digest>)
    ensures PairsOf(PairsAbove(h, level), Levels(h, true, level))
    decreases |level|
  {
    if |level| > 1 {
      var next := NextLevel(h, true, level);
      PairsAboveOf(h, next);
      LevelPairsOf<T>(level);
      PairsOfMore<T>(LevelPairs(level), level, PairsAbove(h, next), Levels(h, true, next));
    }
  }

  lemma {:induction false} PairsOfMore<T>(ps: seq<Preimage<T>>, nodes: seq<Digest>, qs: seq<Preimage<T>>,
                                          more: seq<Digest>)
    requires PairsOf(ps, nodes) && PairsOf(qs, more)
    ensures PairsOf(ps + qs, nodes + more)
  {
  }

  lemma {:induction false} PreimagesExplainTree<T>(h: Hasher<T>, items: seq<T>)
    ensures Explains(h, TreeOf(h, true, items).nodes, TreePreimages(h, items))
    ensures forall k :: 0 <= k < |TreePreimages(h, items)| ==>
      if k < |items| then TreePreimages(h, items)[k] == OfItem(items[k]) else TreePreimages(h, items)[k].OfPair?
  {
    var leaves := Leaves(h, items);
    LevelsAreHashes(h, leaves);
    PairsAboveOf(h, leaves);
    assert HashedAll(h, ItemPreimages(items)) == leaves;
    ExplainedBy(h, items, PairsAbove(h, leaves), TreeOf(h, true, items).nodes);
  }

  lemma {:induction false} ItemThenPair<T>(items: seq<T>, pairs: seq<Preimage<T>>, nodes: seq<Digest>, k: nat)
    requires PairsOf(pairs, nodes) && k < |items| + |pairs|
    ensures var p := (ItemPreimages(items) + pairs)[k];
      if k < |items| then p == OfItem(items[k]) else p.OfPair? && p.left in nodes && p.right in nodes
  {
  }

  lemma {:induction false} ExplainedBy<T>(h: Hasher<T>, items: seq<T>, pairs: seq<Preimage<T>>, nodes: seq<Digest>)
    requires nodes == HashedAll(h, ItemPreimages(items)) + HashedAll(h, pairs) && PairsOf(pairs, nodes)
    ensures Explains(h, nodes, ItemPreimages(items) + pairs)
    ensures forall k :: 0 <= k < |items| + |pairs| ==>
      if k < |items| then (ItemPreimages(items) + pairs)[k] == OfItem(items[k])
      else (ItemPreimages(items) + pairs)[k].OfPair?
  {
    var ps := ItemPreimages(items) + pairs;
    HashedConcat(h, ItemPreimages(items), pairs);
    assert nodes == HashedAll(h, ps);
    forall k | 0 <= k < |ps|
      ensures nodes[k] == Hashed(h, ps[k])
      ensures
        if k < |items| then ps[k] == OfItem(items[k])
        else ps[k].OfPair? && ps[k].left in nodes && ps[k].right in nodes
    {
      ItemThenPair(items, pairs, nodes, k);
    }
  }

  /** Going back down: if the hash a proof climbs to is a node, so is the hash it started from. */
  lemma {:induction false} ClimbStartsInTree<T(!new)>(h: Hasher<T>, nodes: seq<Digest>, ps: seq<Preimage<T>>,
                                               all: seq<Preimage<T>>, proof: seq<Digest>, hash: Digest)
    requires Explains(h, nodes, ps)
    requires CollisionFree(h, all)
    requires forall p :: p in ps ==> p in all
    requires forall p :: p in ProofPreimages(h, proof, hash) ==> p in all
    requires Climb(h, proof, hash) in nodes
    ensures hash in nodes
    decreases |proof|
  {
    if proof != [] {
      var parent := Parent(h, true, hash, proof[0]);
      var rest := ProofPreimages(h, proof[1..], parent);
      var step: Preimage<T> := Pair(hash, proof[0]);
      assert ProofPreimages(h, proof, hash) == [step] + rest;
      assert forall p :: p in rest ==> p in [step] + rest;
      ClimbStartsInTree(h, nodes, ps, all, proof[1..], parent);
      var k :| 0 <= k < |nodes| && nodes[k] == parent;
      assert step in [step] + rest && ps[k] in ps;
      assert Hashed(h, ps[k]) == Hashed(h, step);
    }
  }

  /** A leaf hash among the nodes, with no collisions, is the hash of an item of the tree. */
  lemma {:induction false} LeafIsItem<T(!new)>(h: Hasher<T>, items: seq<T>, all: seq<Preimage<T>>, item: T)
    requires CollisionFree(h, all) && OfItem(item) in all
    requires forall p :: p in TreePreimages(h, items) ==> p in all
    requires h.leaf(item) in TreeOf(h, true, items).nodes
    ensures item in items
  {
    var nodes, ps := TreeOf(h, true, items).nodes, TreePreimages(h, items);
    PreimagesExplainTree(h, items);
    var k :| 0 <= k < |nodes| && nodes[k] == h.leaf(item);
    assert ps[k] in all && Hashed(h, ps[k]) == Hashed(h, OfItem(item));
    assert ps[k] == OfItem(items[k]);
  }

  /** Soundness: if a proof of any length is accepted against the root of a sorted tree, the item is
      in the tree, unless two of the inputs actually hashed (building the tree, or checking the
      proof) collide. */
  lemma {:induction false} AcceptedItemIsInTree<T(!new)>(h: Hasher<T>, items: seq<T>, proof: seq<Digest>, item: T)
    requires items != []
    requires CollisionFree(h, TreePreimages(h, items) + [OfItem(item)] + ProofPreimages(h, proof, h.leaf(item)))
    requires Verifies(h, proof, Root(h, true, Leaves(h, items)), h.leaf(item))
    ensures item in items
  {
    var ps := TreePreimages(h, items);
    var all := ps + [OfItem(item)] + ProofPreimages(h, proof, h.leaf(item));
    assert OfItem(item) in ps + [OfItem(item)];
    PreimagesExplainTree(h, items);
    LastIsRoot(h, true, Leaves(h, items));
    ClimbStartsInTree(h, TreeOf(h, true, items).nodes, ps, all, proof, h.leaf(item));
    LeafIsItem(h, items, all, item);
  }
}

/** The loops of the source. */
module MerkleTreeLoops {
  import opened Common
  import opened MerkleTreeSpec

  /** A level comes first, then the levels above it. */
  lemma {:induction false} LevelFirst<T>(h: Hasher<T>, sorted: bool, level: seq<Digest>)
    ensures |Levels(h, sorted, level)| >= |level|
    ensures Levels(h, sorted, level)[..|level|] == level
    ensures |level| > 1 ==> Levels(h, sorted, level)[|level|..] == Levels(h, sorted, NextLevel(h, sorted, level))
  {
  }

  /** One pass of the outer loop of `new`: hash the pairs of the level that ends the vector. */
  method PushLevel<T>(h: Hasher<T>, sorted: bool, start: nat, nodes: seq<Digest>) returns (r: seq<Digest>)
    requires start <= |nodes|
    ensures r == nodes + NextLevel(h, sorted, nodes[start..])
  {
    var prevLen: nat := |nodes| - start;
    ghost var prev := nodes[start..];
    ghost var next := NextLevel(h, sorted, prev);
    r := nodes;
    for i := 0 to (prevLen + 1) / 2
      invariant r == nodes + next[..i]
    {
      var left := r[start + 2 * i];
      var right := if 2 * i + 1 < prevLen then r[start + 2 * i + 1] else r[start + 2 * i];
      assert left == prev[2 * i] && right == Right(prev, i);
      var hash: Digest;
      if sorted {
        if left <= right {
          hash := h.node(left, right);
        } else {
          hash := h.node(right, left);
        }
      } else {
        hash := h.node(left, right);
      }
      assert hash == next[i] && next[..i + 1] == next[..i] + [next[i]];
      r := r + [hash];
    }
  }

  lemma {:induction false} Regroup(a: seq<Digest>, b: seq<Digest>, c: seq<Digest>)
    ensures a + (b + c) == (a + b) + c
  {
  }

  /** Pushing a level leaves the vector standing for the same tree. */
  lemma {:induction false} OneLevelUp<T>(h: Hasher<T>, sorted: bool, nodes: seq<Digest>, nodes': seq<Digest>,
                                         start: nat)
    requires start + 1 < |nodes| && nodes' == nodes + NextLevel(h, sorted, nodes[start..])
    ensures nodes'[..|nodes|] + Levels(h, sorted, nodes'[|nodes|..])
         == nodes[..start] + Levels(h, sorted, nodes[start..])
  {
    var prev := nodes[start..];
    var next := NextLevel(h, sorted, prev);
    assert nodes'[..|nodes|] == nodes[..start] + prev && nodes'[|nodes|..] == next;
    Regroup(nodes[..start], prev, Levels(h, sorted, next));
  }

  /** The loop over the items. */
  method PushLeaves<T>(h: Hasher<T>, items: seq<T>) returns (nodes: seq<Digest>)
    ensures nodes == Leaves(h, items)
  {
    nodes := [];
    for i := 0 to |items|
      invariant nodes == Leaves(h, items)[..i]
    {
      nodes := nodes + [LeafHash(h, items[i])];
    }
  }

  /** The loop invariant of `new`: the levels done, and all that the last one leads to, are the tree. */
  ghost predicate Building<T>(h: Hasher<T>, sorted: bool, leaves: seq<Digest>, nodes: seq<Digest>, prevStart: nat,
                              levelLen: nat) {
    && prevStart <= |nodes|
    && levelLen == NextLevelLen(|nodes| - prevStart)
    && nodes[..prevStart] + Levels(h, sorted, nodes[prevStart..]) == Levels(h, sorted, leaves)
  }

  lemma {:induction false} BuildingStarts<T>(h: Hasher<T>, sorted: bool, leaves: seq<Digest>)
    ensures Building(h, sorted, leaves, leaves, 0, NextLevelLen(|leaves|))
  {
    assert leaves[0..] == leaves && leaves[..0] == [];
  }

  lemma {:induction false} BuildingStep<T>(h: Hasher<T>, sorted: bool, leaves: seq<Digest>, nodes: seq<Digest>,
                                           nodes': seq<Digest>,
                                           prevStart: nat, levelLen: nat)
    requires levelLen > 0 && Building(h, sorted, leaves, nodes, prevStart, levelLen)
    requires nodes' == nodes + NextLevel(h, sorted, nodes[prevStart..])
    ensures |nodes'| == |nodes| + levelLen && levelLen < |nodes| - prevStart
    ensures Building(h, sorted, leaves, nodes', |nodes|, NextLevelLen(levelLen))
  {
    OneLevelUp(h, sorted, nodes, nodes', prevStart);
  }

  lemma {:induction false} BuildingEnds<T>(h: Hasher<T>, sorted: bool, leaves: seq<Digest>, nodes: seq<Digest>,
                                           prevStart: nat)
    requires Building(h, sorted, leaves, nodes, prevStart, 0)
    ensures nodes == Levels(h, sorted, leaves)
  {
    assert nodes == nodes[..prevStart] + nodes[prevStart..];
  }

  /** `MerkleTree::new`: leaves first, then level after level pushed onto the same vector. */
  method New<T>(h: Hasher<T>, items: seq<T>, sorted: bool) returns (t: Tree)
    ensures t == TreeOf(h, sorted, items)
  {
    ghost var leaves := Leaves(h, items);
    var nodes := PushLeaves(h, items);
    var levelLen: nat := NextLevelLen(|items|);
    var levelStart: nat := |items|;
    var prevStart: nat := 0;
    BuildingStarts(h, sorted, leaves);
    while levelLen > 0
      invariant levelStart == |nodes| && Building(h, sorted, leaves, nodes, prevStart, levelLen)
      decreases levelLen
    {
      ghost var before := nodes;
      nodes := PushLevel(h, sorted, prevStart, nodes);
      BuildingStep(h, sorted, leaves, before, nodes, prevStart, levelLen);
      prevStart := levelStart;
      levelStart := levelStart + levelLen;
      levelLen := NextLevelLen(levelLen);
    }
    BuildingEnds(h, sorted, leaves, nodes, prevStart);
    t := Tree(|items|, nodes);
  }

  /** Where a walk up the tree stands: at `index` of `level`, which starts the rest of the vector. */
  ghost predicate At<T>(t: Tree, h: Hasher<T>, sorted: bool, start: nat, level: seq<Digest>, index: nat) {
    && start <= |t.nodes| && index < |level|
    && t.nodes[start..] == Levels(h, sorted, level)
  }

  lemma {:induction false} LevelAt<T>(t: Tree, h: Hasher<T>, sorted: bool, start: nat, level: seq<Digest>, index: nat)
    requires At(t, h, sorted, start, level, index)
    ensures start + |level| <= |t.nodes| && t.nodes[start..start + |level|] == level
    ensures |level| > 1 ==> At(t, h, sorted, start + |level|, NextLevel(h, sorted, level), index / 2)
  {
    LevelFirst(h, sorted, level);
    assert t.nodes[start..][..|level|] == t.nodes[start..start + |level|];
    assert t.nodes[start..][|level|..] == t.nodes[start + |level|..];
  }

  /** The entry that the next iteration will push, once it knows its target. */
  ghost function Pending(level: seq<Digest>, index: nat, left: Option<Digest>, right: Option<Digest>): seq<ProofEntry>
    requires index < |level|
  {
    if left.Some? || right.Some? then [ProofEntry(level[index], left, right)] else []
  }

  /** One step of the walk: the siblings at this level complete the entry of the next. */
  lemma {:induction false} NextEntry<T>(h: Hasher<T>, sorted: bool, entries: seq<ProofEntry>, level: seq<Digest>,
                                        index: nat)
    requires index < |level| && |level| > 1
    ensures var next := NextLevel(h, sorted, level);
      entries + Path(h, sorted, level, index)
      == entries + Pending(next, index / 2, LeftSibling(level, index), RightSibling(level, index))
         + Path(h, sorted, next, index / 2)
  {
    var e := Entry(h, sorted, level, index);
    var rest := Path(h, sorted, NextLevel(h, sorted, level), index / 2);
    assert entries + ([e] + rest) == entries + [e] + rest;
  }

  /** The siblings of one entry of one level of the vector. */
  method SiblingsAt(nodes: seq<Digest>, start: nat, len: nat, index: nat)
    returns (left: Option<Digest>, right: Option<Digest>)
    requires start + len <= |nodes| && index < len
    ensures left == LeftSibling(nodes[start..start + len], index)
    ensures right == RightSibling(nodes[start..start + len], index)
  {
    var level := nodes[start..start + len];
    if index % 2 == 0 {
      left := None;
      right := if index + 1 < |level| then Some(level[index + 1]) else Some(level[index]);
    } else {
      left := Some(level[index - 1]);
      right := None;
    }
  }

  /** Completes the entry left by the level below, now that its target is known. */
  method PushEntry(nodes: seq<Digest>, start: nat, len: nat, index: nat, entries: seq<ProofEntry>,
                   left: Option<Digest>, right: Option<Digest>)
    returns (r: seq<ProofEntry>)
    requires start + len <= |nodes| && index < len
    ensures r == entries + Pending(nodes[start..start + len], index, left, right)
  {
    r := entries;
    if left.Some? || right.Some? {
      r := r + [ProofEntry(nodes[start..start + len][index], left, right)];
    }
  }

  /** What the walk has collected, and what is still to come, make up the whole path. */
  ghost predicate Collected<T>(h: Hasher<T>, sorted: bool, entries: seq<ProofEntry>, level: seq<Digest>, index: nat,
                               left: Option<Digest>, right: Option<Digest>, whole: seq<ProofEntry>) {
    && index < |level|
    && entries + Pending(level, index, left, right) + Path(h, sorted, level, index) == whole
  }

  lemma {:induction false} CollectedNext<T>(h: Hasher<T>, sorted: bool, entries: seq<ProofEntry>, level: seq<Digest>,
                                            index: nat,
                                            left: Option<Digest>, right: Option<Digest>, whole: seq<ProofEntry>)
    requires Collected(h, sorted, entries, level, index, left, right, whole)
    ensures var entries' := entries + Pending(level, index, left, right);
      && (|level| == 1 ==> entries' == whole)
      && (|level| > 1 ==> Collected(h, sorted, entries', NextLevel(h, sorted, level), index / 2,
                                    LeftSibling(level, index), RightSibling(level, index), whole))
  {
    if |level| > 1 {
      NextEntry(h, sorted, entries + Pending(level, index, left, right), level, index);
    }
  }

  /** The loop invariant of `find_path`. */
  ghost predicate Walking<T>(t: Tree, h: Hasher<T>, sorted: bool, level: seq<Digest>, start: nat, len: nat, index: nat,
                             entries: seq<ProofEntry>, left: Option<Digest>, right: Option<Digest>,
                             whole: seq<ProofEntry>) {
    if len == 0 then entries == whole
    else
      && |level| == len && At(t, h, sorted, start, level, index)
      && Collected(h, sorted, entries, level, index, left, right, whole)
  }

  lemma {:induction false} WalkStep<T>(t: Tree, h: Hasher<T>, sorted: bool, level: seq<Digest>, start: nat, len: nat,
                                       index: nat,
                                       entries: seq<ProofEntry>, left: Option<Digest>, right: Option<Digest>,
                                       whole: seq<ProofEntry>)
    requires len > 0 && Walking(t, h, sorted, level, start, len, index, entries, left, right, whole)
    ensures start + len <= |t.nodes| && index < len && t.nodes[start..start + len] == level
    ensures Walking(t, h, sorted, if len > 1 then NextLevel(h, sorted, level) else [], start + len, NextLevelLen(len),
                    index / 2,
                    entries + Pending(level, index, left, right), LeftSibling(level, index), RightSibling(level, index),
                    whole)
  {
    LevelAt(t, h, sorted, start, level, index);
    CollectedNext(h, sorted, entries, level, index, left, right, whole);
  }

  lemma {:induction false} WalkStart<T>(t: Tree, h: Hasher<T>, sorted: bool, leaves: seq<Digest>, index: nat)
    requires t.nodes == Levels(h, sorted, leaves) && index < |leaves|
    ensures Walking(t, h, sorted, leaves, 0, |leaves|, index, [], None, None, Path(h, sorted, leaves, index))
  {
    assert t.nodes[0..] == t.nodes;
    assert [] + [] + Path(h, sorted, leaves, index) == Path(h, sorted, leaves, index);
  }

  /** `find_path`: walks the levels with a running start, length and index. The ghost arguments say
      which tree this is. */
  method FindPath<T>(t: Tree, index: nat, ghost h: Hasher<T>, ghost sorted: bool, ghost leaves: seq<Digest>)
    returns (path: Option<seq<ProofEntry>>)
    requires t.leafCount == |leaves| && t.nodes == Levels(h, sorted, leaves)
    ensures path == if index < |leaves| then Some(Path(h, sorted, leaves, index)) else None
  {
    if index >= t.leafCount {
      return None;
    }
    var entries: seq<ProofEntry> := [];
    var levelLen: nat, levelStart: nat, nodeIndex: nat := t.leafCount, 0, index;
    var left: Option<Digest>, right: Option<Digest> := None, None;
    ghost var level := leaves;
    ghost var whole := Path(h, sorted, leaves, index);
    WalkStart(t, h, sorted, leaves, index);
    while levelLen > 0
      invariant Walking(t, h, sorted, level, levelStart, levelLen, nodeIndex, entries, left, right, whole)
      decreases levelLen
    {
      WalkStep(t, h, sorted, level, levelStart, levelLen, nodeIndex, entries, left, right, whole);
      entries := PushEntry(t.nodes, levelStart, levelLen, nodeIndex, entries, left, right);
      left, right := SiblingsAt(t.nodes, levelStart, levelLen, nodeIndex);
      level := if levelLen > 1 then NextLevel(h, sorted, level) else [];
      nodeIndex := nodeIndex / 2;
      levelStart := levelStart + levelLen;
      levelLen := NextLevelLen(levelLen);
    }
    return Some(entries);
  }

  /** `get_proof`: pushes one sibling per entry. */
  method GetProof(path: seq<ProofEntry>) returns (proof: seq<Digest>)
    requires forall k :: 0 <= k < |path| ==> path[k].left.Some? || path[k].right.Some?
    ensures proof == Siblings(path)
  {
    proof := [];
    for k := 0 to |path|
      invariant proof == Siblings(path)[..k]
    {
      if path[k].left.Some? {
        proof := proof + [path[k].left.value];
      } else {
        proof := proof + [path[k].right.value];
      }
    }
  }

  /** `verify::verify`: one running hash. */
  method Verify<T>(h: Hasher<T>, proof: seq<Digest>, root: Digest, leaf: Digest) returns (ok: bool)
    ensures ok == Verifies(h, proof, root, leaf)
  {
    var computed := leaf;
    for k := 0 to |proof|
      invariant Climb(h, proof[k..], computed) == Climb(h, proof, leaf)
    {
      ghost var rest := proof[k..];
      assert rest[0] == proof[k] && rest[1..] == proof[k + 1..];
      if computed <= proof[k] {
        computed := h.node(computed, proof[k]);
      } else {
        computed := h.node(proof[k], computed);
      }
    }
    return computed == root;
  }
  /** Builds the sorted tree over some items and reads its root. */
  method Build<T>(h: Hasher<T>, items: seq<T>) returns (tree: Tree, root: Option<Digest>)
    ensures var leaves := Leaves(h, items);
      && tree == Tree(|leaves|, Levels(h, true, leaves))
      && root == if items == [] then None else Some(Root(h, true, leaves))
  {
    tree := New(h, items, true);
    root := GetRoot(tree);
    if items != [] {
      LastIsRoot(h, true, Leaves(h, items));
    }
  }

  /** The sibling hashes of one leaf. */
  method ProofAt<T>(tree: Tree, i: nat, ghost h: Hasher<T>, ghost leaves: seq<Digest>) returns (proof: seq<Digest>)
    requires tree == Tree(|leaves|, Levels(h, true, leaves)) && i < |leaves|
    ensures proof == ProofOf(h, leaves, i)
  {
    var path := FindPath(tree, i, h, true, leaves);
    proof := GetProof(path.value);
  }
}
