/**
 * The transparency log: the incremental node store and its roots and inclusion proofs
 * (internal/merkle/merkle.go, internal/adapter/postgres/ledger.go) against the recursive tree hash
 * and audit path of section 2.1 of RFC 6962.
 */
module Merkle {
  import opened Prelude

  // ---- section 2.1 of RFC 6962 ----

  function LeafText(metaHash: Bytes, bodyHash: Bytes): Bytes {
    [0] + metaHash + bodyHash
  }

  function LeafHash(sha: Bytes -> Digest, metaHash: Bytes, bodyHash: Bytes): Digest {
    sha(LeafText(metaHash, bodyHash))
  }

  function NodeText(l: Digest, r: Digest): Bytes {
    [1] + l + r
  }

  function HashChildren(sha: Bytes -> Digest, l: Digest, r: Digest): Digest {
    sha(NodeText(l, r))
  }

  function Pow2(l: nat): (p: nat)
    ensures p >= 1
  {
    if l == 0 then 1 else 2 * Pow2(l - 1)
  }

  /** The level l with 2^l < n <= 2^(l+1). */
  function SplitLevel(n: nat): (l: nat)
    requires n >= 2
    ensures Pow2(l) < n <= 2 * Pow2(l)
  {
    if n == 2 then 0 else 1 + SplitLevel((n + 1) / 2)
  }

  /** The largest power of two smaller than n. */
  function Split(n: nat): (k: nat)
    requires n >= 2
    ensures 0 < k < n
  {
    Pow2(SplitLevel(n))
  }

  /** The Merkle tree hash of a list of leaf hashes. */
  function TreeHash(sha: Bytes -> Digest, leaves: seq<Digest>): Digest
    decreases |leaves|
  {
    if leaves == [] then sha([])
    else if |leaves| == 1 then leaves[0]
    else
      var k := Split(|leaves|);
      HashChildren(sha, TreeHash(sha, leaves[..k]), TreeHash(sha, leaves[k..]))
  }

  /** The audit path of section 2.1.1, leaf end first. */
  function AuditPath(sha: Bytes -> Digest, m: nat, leaves: seq<Digest>): seq<Digest>
    requires m < |leaves|
    decreases |leaves|
  {
    if |leaves| == 1 then []
    else
      var k := Split(|leaves|);
      if m < k then AuditPath(sha, m, leaves[..k]) + [TreeHash(sha, leaves[k..])]
      else AuditPath(sha, m - k, leaves[k..]) + [TreeHash(sha, leaves[..k])]
  }

  /** The root an auditor computes from a leaf and a path; None when the path has the wrong length. */
  function RootFromPath(sha: Bytes -> Digest, m: nat, n: nat, leaf: Digest, path: seq<Digest>): Option<Digest>
    requires m < n
    decreases n
  {
    if n == 1 then if path == [] then Some(leaf) else None
    else if path == [] then None
    else
      var k := Split(n);
      var rest, last := path[..|path| - 1], path[|path| - 1];
      if m < k then
        match RootFromPath(sha, m, k, leaf, rest)
        case None => None
        case Some(r) => Some(HashChildren(sha, r, last))
      else
        match RootFromPath(sha, m - k, n - k, leaf, rest)
        case None => None
        case Some(r) => Some(HashChildren(sha, last, r))
  }

  /** A path is checked to the end exactly when it is as long as the audit path of that place in that tree. */
  lemma {:induction false} PathFits(sha: Bytes -> Digest, m: nat, leaves: seq<Digest>, leaf: Digest,
      path: seq<Digest>)
    requires m < |leaves|
    ensures RootFromPath(sha, m, |leaves|, leaf, path).Some? <==> |path| == |AuditPath(sha, m, leaves)|
    decreases |leaves|
  {
    hide TreeHash, HashChildren, SplitLevel;
    if |leaves| > 1 && path != [] {
      var k := Split(|leaves|);
      if m < k {
        PathFits(sha, m, leaves[..k], leaf, path[..|path| - 1]);
      } else {
        PathFits(sha, m - k, leaves[k..], leaf, path[..|path| - 1]);
      }
    }
  }

  // ---- arithmetic of the level/index coordinates ----

  lemma {:induction false} SplitIs(n: nat, l: nat)
    requires n >= 2 && Pow2(l) < n <= 2 * Pow2(l)
    ensures SplitLevel(n) == l
  {
    if n > 2 {
      assert l > 0;
      SplitIs((n + 1) / 2, l - 1);
    }
  }

  /** The leaves below node (level, index) end at this leaf count. */
  function End(level: nat, index: nat): nat {
    (index + 1) * Pow2(level)
  }

  function Start(level: nat, index: nat): nat {
    index * Pow2(level)
  }

  lemma {:induction false} Spans(level: nat, index: nat)
    ensures End(level, index) == Start(level, index) + Pow2(level)
    ensures Start(level + 1, index) == Start(level, 2 * index)
    ensures End(level + 1, index) == End(level, 2 * index + 1)
    ensures Start(level, index + 1) == End(level, index)
  {
    var p := Pow2(level);
    assert Pow2(level + 1) == 2 * p;
    assert index * (2 * p) == (2 * index) * p;
    assert (index + 1) * (2 * p) == (2 * index + 2) * p;
    assert (index + 1) * p == index * p + p;
  }

  /** Node (level + 1, index) and its right child end together; an even index ends no parent. */
  lemma {:induction false} EvenEndsNoParent(level: nat, index: nat, l: nat, i: nat)
    requires l > level && End(l, i) == End(level, index)
    ensures index % 2 == 1
    decreases l
  {
    Spans(l - 1, i);
    if l - 1 > level {
      EvenEndsNoParent(level, index, l - 1, 2 * i + 1);
    } else {
      EndIsInjective(level, 2 * i + 1, index);
    }
  }

  lemma {:induction false} ProductsKeepOrder(a: nat, b: nat, p: nat)
    requires a < b && p >= 1
    ensures a * p < b * p
  {
    assert b * p == a * p + (b - a) * p;
  }

  lemma {:induction false} EndOrder(level: nat, i: nat, j: nat)
    ensures i < j ==> End(level, i) < End(level, j)
  {
    if i < j {
      ProductsKeepOrder(i + 1, j + 1, Pow2(level));
    }
  }

  lemma {:induction false} EndIsInjective(level: nat, i: nat, j: nat)
    requires End(level, i) == End(level, j)
    ensures i == j
  {
    EndOrder(level, i, j);
    EndOrder(level, j, i);
  }

  lemma {:induction false} EndGrows(level: nat, i: nat)
    ensures End(level, i) >= i + 1
  {
    assert (i + 1) * Pow2(level) >= i + 1;
  }

  // ---- the node store ----

  type NodeID = (nat, nat)

  type Store = map<NodeID, Digest>

  datatype StoredNode = StoredNode(id: NodeID, hash: Digest)

  function Below(leaves: seq<Digest>, level: nat, index: nat): seq<Digest>
    requires End(level, index) <= |leaves|
  {
    Spans(level, index);
    leaves[Start(level, index)..End(level, index)]
  }

  /** The store holds exactly the complete subtrees, each with its tree hash. */
  ghost predicate StoreOk(sha: Bytes -> Digest, store: Store, leaves: seq<Digest>) {
    forall l: nat, i: nat :: NodeOk(sha, store, leaves, l, i)
  }

  ghost predicate NodeOk(sha: Bytes -> Digest, store: Store, leaves: seq<Digest>, l: nat, i: nat) {
    && ((l, i) in store <==> End(l, i) <= |leaves|)
    && ((l, i) in store ==> store[(l, i)] == TreeHash(sha, Below(leaves, l, i)))
  }

  lemma {:induction false} Halves(leaves: seq<Digest>, level: nat, index: nat)
    requires End(level + 1, index) <= |leaves|
    ensures End(level, 2 * index) <= |leaves| && End(level, 2 * index + 1) <= |leaves|
    ensures var b, p := Below(leaves, level + 1, index), Pow2(level);
      && p >= 1 && |b| == 2 * p
      && b[..p] == Below(leaves, level, 2 * index) && b[p..] == Below(leaves, level, 2 * index + 1)
  {
    hide TreeHash;
    Spans(level, index);
    Spans(level, 2 * index);
    Spans(level, 2 * index + 1);
    Spans(level + 1, index);
    assert Pow2(level + 1) == 2 * Pow2(level);
  }

  lemma {:induction false} HashHalves(sha: Bytes -> Digest, b: seq<Digest>, level: nat)
    requires Pow2(level) >= 1 && |b| == 2 * Pow2(level)
    ensures TreeHash(sha, b) == HashChildren(sha, TreeHash(sha, b[..Pow2(level)]), TreeHash(sha, b[Pow2(level)..]))
  {
    hide HashChildren, SplitLevel;
    SplitIs(|b|, level);
    assert Split(|b|) == Pow2(level);
  }

  /** A complete subtree is hashed from its two halves. */
  lemma {:induction false} PerfectHash(sha: Bytes -> Digest, leaves: seq<Digest>, level: nat, index: nat)
    requires End(level + 1, index) <= |leaves|
    ensures End(level, 2 * index) <= |leaves| && End(level, 2 * index + 1) <= |leaves|
    ensures TreeHash(sha, Below(leaves, level + 1, index)) ==
      HashChildren(sha, TreeHash(sha, Below(leaves, level, 2 * index)),
        TreeHash(sha, Below(leaves, level, 2 * index + 1)))
  {
    hide TreeHash, HashChildren;
    Halves(leaves, level, index);
    HashHalves(sha, Below(leaves, level + 1, index), level);
  }

  lemma {:induction false} BelowStays(leaves: seq<Digest>, more: seq<Digest>, level: nat, index: nat)
    requires leaves <= more && End(level, index) <= |leaves|
    ensures Below(leaves, level, index) == Below(more, level, index)
  {
  }

  /** The nodes a new leaf completes: leaf first, one per level while the index is odd. */
  ghost predicate Completed(sha: Bytes -> Digest, leaves: seq<Digest>, out: seq<StoredNode>) {
    forall j :: 0 <= j < |out| ==>
      && out[j].id.0 == j && End(j, out[j].id.1) == |leaves|
      && out[j].hash == TreeHash(sha, Below(leaves, j, out[j].id.1))
  }

  /**
   * ParentsToStore. No fetch misses, and the result is exactly the subtrees completed by the leaf,
   * none of which is stored yet.
   */
  method ParentsToStore(sha: Bytes -> Digest, store: Store, ghost leaves: seq<Digest>, index: nat, leaf: Digest)
    returns (r: Result<seq<StoredNode>, NodeID>)
    requires StoreOk(sha, store, leaves) && index == |leaves|
    ensures r.Ok? && Completed(sha, leaves + [leaf], r.value)
    ensures forall l: nat, i: nat :: End(l, i) == index + 1 ==> l < |r.value| && r.value[l].id == (l, i)
    ensures forall j :: 0 <= j < |r.value| ==> r.value[j].id !in store
  {
    hide TreeHash;
    ghost var more := leaves + [leaf];
    var out := [StoredNode((0, index), leaf)];
    var level: nat, idx, hash := 0, index, leaf;
    LeafIsComplete(sha, leaves, leaf);
    while idx % 2 == 1
      invariant |out| == level + 1 && out[level] == StoredNode((level, idx), hash)
      invariant End(level, idx) == |more|
      invariant Completed(sha, more, out)
      decreases idx
    {
      SiblingIsStored(sha, store, leaves, leaf, level, idx);
      var left := (level, idx - 1);
      if left !in store {
        return Err(left);
      }
      hash := HashChildren(sha, store[left], hash);
      Spans(level, idx / 2);
      level, idx := level + 1, idx / 2;
      out := out + [StoredNode((level, idx), hash)];
    }
    OnlyThese(sha, more, out, level, idx);
    NoneStored(sha, store, leaves, leaf, out);
    return Ok(out);
  }

  lemma {:induction false} LeafIsComplete(sha: Bytes -> Digest, leaves: seq<Digest>, leaf: Digest)
    ensures End(0, |leaves|) == |leaves| + 1
    ensures Completed(sha, leaves + [leaf], [StoredNode((0, |leaves|), leaf)])
  {
    Spans(0, |leaves|);
    assert Below(leaves + [leaf], 0, |leaves|) == [leaf];
  }

  /** The left sibling of an odd node on the right edge is complete, hence stored, and gives the parent hash. */
  lemma {:induction false} SiblingIsStored(sha: Bytes -> Digest, store: Store, leaves: seq<Digest>, leaf: Digest,
      level: nat, idx: nat)
    requires StoreOk(sha, store, leaves) && idx % 2 == 1 && End(level, idx) == |leaves| + 1
    ensures (level, idx - 1) in store
    ensures End(level + 1, idx / 2) == |leaves| + 1
    ensures TreeHash(sha, Below(leaves + [leaf], level + 1, idx / 2)) ==
      HashChildren(sha, store[(level, idx - 1)], TreeHash(sha, Below(leaves + [leaf], level, idx)))
  {
    hide TreeHash;
    assert 2 * (idx / 2) == idx - 1;
    Spans(level, idx / 2);
    Spans(level, idx - 1);
    Spans(level, idx);
    assert NodeOk(sha, store, leaves, level, idx - 1);
    PerfectHash(sha, leaves + [leaf], level, idx / 2);
    BelowStays(leaves, leaves + [leaf], level, idx - 1);
  }

  lemma {:induction false} OnlyThese(sha: Bytes -> Digest, more: seq<Digest>, out: seq<StoredNode>, level: nat,
      idx: nat)
    requires Completed(sha, more, out) && |out| == level + 1 && out[level].id == (level, idx) && idx % 2 == 0
    ensures forall l: nat, i: nat :: End(l, i) == |more| ==> l < |out| && out[l].id == (l, i)
  {
    hide TreeHash, Below;
    forall l: nat, i: nat | End(l, i) == |more| ensures l < |out| && out[l].id == (l, i) {
      if l < |out| {
        EndIsInjective(l, i, out[l].id.1);
      } else {
        EvenEndsNoParent(level, idx, l, i);
      }
    }
  }

  lemma {:induction false} NoneStored(sha: Bytes -> Digest, store: Store, leaves: seq<Digest>, leaf: Digest,
      out: seq<StoredNode>)
    requires StoreOk(sha, store, leaves) && Completed(sha, leaves + [leaf], out)
    ensures forall j :: 0 <= j < |out| ==> out[j].id !in store
  {
    hide TreeHash, Below;
    forall j | 0 <= j < |out| ensures out[j].id !in store {
      assert NodeOk(sha, store, leaves, j, out[j].id.1);
      assert out[j].id == (j, out[j].id.1);
    }
  }

  function AddNodes(store: Store, nodes: seq<StoredNode>): Store {
    if nodes == [] then store
    else AddNodes(store, nodes[..|nodes| - 1])[nodes[|nodes| - 1].id := nodes[|nodes| - 1].hash]
  }

  lemma {:induction false} AddedNode(store: Store, nodes: seq<StoredNode>, id: NodeID)
    requires forall j :: 0 <= j < |nodes| ==> nodes[j].id.0 == j
    ensures var added := id.0 < |nodes| && nodes[id.0].id == id;
      && (id in AddNodes(store, nodes) <==> id in store || added)
      && (id in AddNodes(store, nodes) ==> AddNodes(store, nodes)[id] == if added then nodes[id.0].hash else store[id])
  {
    if nodes != [] {
      var n := |nodes| - 1;
      AddedNode(store, nodes[..n], id);
      assert forall j :: 0 <= j < n ==> nodes[..n][j] == nodes[j];
    }
  }

  lemma {:induction false} StoreExtends(sha: Bytes -> Digest, store: Store, leaves: seq<Digest>, leaf: Digest,
      nodes: seq<StoredNode>)
    requires StoreOk(sha, store, leaves) && Completed(sha, leaves + [leaf], nodes)
    requires forall l: nat, i: nat :: End(l, i) == |leaves| + 1 ==> l < |nodes| && nodes[l].id == (l, i)
    ensures StoreOk(sha, AddNodes(store, nodes), leaves + [leaf])
  {
    hide TreeHash;
    var more, s := leaves + [leaf], AddNodes(store, nodes);
    forall l: nat, i: nat ensures NodeOk(sha, s, more, l, i) {
      assert NodeOk(sha, store, leaves, l, i);
      AddedNode(store, nodes, (l, i));
      if End(l, i) <= |leaves| {
        BelowStays(leaves, more, l, i);
      }
    }
  }

  /** The ledger's Merkle side: the leaf column and the node table, grown by each appended record. */
  class NodeStore {
    const sha: Bytes -> Digest
    var leaves: seq<Digest>
    var nodes: Store

    ghost predicate Valid()
      reads this
    {
      StoreOk(sha, nodes, leaves)
    }

    constructor (sha: Bytes -> Digest)
      ensures Valid() && leaves == [] && this.sha == sha
    {
      this.sha := sha;
      leaves, nodes := [], map[];
      new;
      forall l: nat, i: nat ensures NodeOk(sha, nodes, leaves, l, i) {
        EndGrows(l, i);
      }
    }

    /** The Merkle part of one iteration of Append: every insert is of a new node. */
    method AppendRecord(metaHash: Bytes, bodyHash: Bytes)
      requires Valid()
      modifies this
      ensures Valid() && leaves == old(leaves) + [LeafHash(sha, metaHash, bodyHash)]
    {
      hide StoreOk;
      var leaf := LeafHash(sha, metaHash, bodyHash);
      var r := ParentsToStore(sha, nodes, leaves, |leaves|, leaf);
      var inserted := InsertAll(nodes, r.value);
      StoreExtends(sha, nodes, leaves, leaf, r.value);
      leaves, nodes := leaves + [leaf], inserted;
    }
  }

  method InsertAll(store: Store, nodes: seq<StoredNode>) returns (s: Store)
    requires forall j :: 0 <= j < |nodes| ==> nodes[j].id !in store && nodes[j].id.0 == j
    ensures s == AddNodes(store, nodes)
  {
    s := store;
    for i := 0 to |nodes|
      invariant s == AddNodes(store, nodes[..i])
    {
      assert nodes[..i + 1][..i] == nodes[..i];
      AddedNode(store, nodes[..i], nodes[i].id);
      assert nodes[i].id !in s;  // the table has no such row yet
      s := s[nodes[i].id := nodes[i].hash];
    }
    assert nodes[..|nodes|] == nodes;
  }

  // ---- roots from the store ----

  function BitLength(n: nat): (t: nat)
    ensures n < Pow2(t)
  {
    if n == 0 then 0 else 1 + BitLength(n / 2)
  }

  /** The complete subtrees that cover n leaves from Start(t, q), largest first. */
  function RangeNodes(q: nat, n: nat, t: nat): seq<NodeID>
    requires n < Pow2(t)
    decreases t
  {
    if t == 0 then []
    else if n >= Pow2(t - 1) then [(t - 1, 2 * q)] + RangeNodes(2 * q + 1, n - Pow2(t - 1), t - 1)
    else RangeNodes(2 * q, n, t - 1)
  }

  /** Hashes subtree roots together from the right. */
  function FoldRight(sha: Bytes -> Digest, hashes: seq<Digest>): Digest
    requires hashes != []
  {
    if |hashes| == 1 then hashes[0] else HashChildren(sha, hashes[0], FoldRight(sha, hashes[1..]))
  }

  ghost predicate AllStored(store: Store, ids: seq<NodeID>) {
    forall j :: 0 <= j < |ids| ==> ids[j] in store
  }

  function Lookup(store: Store, ids: seq<NodeID>): seq<Digest>
    requires AllStored(store, ids)
  {
    seq(|ids|, j requires 0 <= j < |ids| => store[ids[j]])
  }

  /** The leaves of a stretch that starts on a level-t boundary. */
  function Stretch(leaves: seq<Digest>, q: nat, n: nat, t: nat): seq<Digest>
    requires Start(t, q) + n <= |leaves|
  {
    leaves[Start(t, q)..Start(t, q) + n]
  }

  /** The covering nodes are stored and fold to the tree hash of the stretch. */
  lemma {:induction false} CoverHash(sha: Bytes -> Digest, store: Store, leaves: seq<Digest>, q: nat, n: nat, t: nat)
    requires StoreOk(sha, store, leaves) && 0 < n < Pow2(t) && Start(t, q) + n <= |leaves|
    ensures RangeNodes(q, n, t) != [] && AllStored(store, RangeNodes(q, n, t))
    ensures FoldRight(sha, Lookup(store, RangeNodes(q, n, t))) == TreeHash(sha, Stretch(leaves, q, n, t))
    decreases t
  {
    hide TreeHash, StoreOk;
    var p := Pow2(t - 1);
    Spans(t - 1, q);
    if n < p {
      CoverHash(sha, store, leaves, 2 * q, n, t - 1);
      return;
    }
    Spans(t - 1, 2 * q);
    var ids := RangeNodes(q, n, t);
    FirstNode(sha, store, leaves, q, n, t);
    if n == p {
      EmptyCover(2 * q + 1, t - 1);
      assert ids == [(t - 1, 2 * q)];
      assert Stretch(leaves, q, n, t) == Below(leaves, t - 1, 2 * q);
    } else {
      CoverHash(sha, store, leaves, 2 * q + 1, n - p, t - 1);
      var rest := RangeNodes(2 * q + 1, n - p, t - 1);
      assert ids == [(t - 1, 2 * q)] + rest;
      assert Lookup(store, ids)[1..] == Lookup(store, rest);
      SplitHash(sha, leaves, q, n, t);
    }
  }

  lemma {:induction false} EmptyCover(q: nat, t: nat)
    ensures RangeNodes(q, 0, t) == []
    decreases t
  {
    if t > 0 {
      EmptyCover(2 * q, t - 1);
    }
  }

  lemma {:induction false} FirstNode(sha: Bytes -> Digest, store: Store, leaves: seq<Digest>, q: nat, n: nat, t: nat)
    requires StoreOk(sha, store, leaves) && t > 0 && Pow2(t - 1) <= n < Pow2(t) && Start(t, q) + n <= |leaves|
    ensures End(t - 1, 2 * q) <= |leaves| && (t - 1, 2 * q) in store
    ensures store[(t - 1, 2 * q)] == TreeHash(sha, Below(leaves, t - 1, 2 * q))
  {
    hide TreeHash;
    Spans(t - 1, q);
    Spans(t - 1, 2 * q);
    assert NodeOk(sha, store, leaves, t - 1, 2 * q);
  }

  lemma {:induction false} SplitStretch(leaves: seq<Digest>, q: nat, n: nat, t: nat)
    requires t > 0 && Pow2(t - 1) < n <= Pow2(t) && Start(t, q) + n <= |leaves|
    ensures End(t - 1, 2 * q) <= |leaves| && Start(t - 1, 2 * q + 1) + (n - Pow2(t - 1)) <= |leaves|
    ensures Split(n) == Pow2(t - 1)
    ensures Stretch(leaves, q, n, t)[..Pow2(t - 1)] == Below(leaves, t - 1, 2 * q)
    ensures Stretch(leaves, q, n, t)[Pow2(t - 1)..] == Stretch(leaves, 2 * q + 1, n - Pow2(t - 1), t - 1)
  {
    hide Pow2, Start, End, SplitLevel;
    HalfOf(t);
    Spans(t - 1, q);
    Spans(t - 1, 2 * q);
    SplitIs(n, t - 1);
  }

  lemma {:induction false} HalfOf(t: nat)
    requires t > 0
    ensures Pow2(t) == 2 * Pow2(t - 1)
  {
  }

  /** A stretch longer than half its level is hashed from a complete subtree and the rest. */
  lemma {:induction false} SplitHash(sha: Bytes -> Digest, leaves: seq<Digest>, q: nat, n: nat, t: nat)
    requires t > 0 && Pow2(t - 1) < n <= Pow2(t) && Start(t, q) + n <= |leaves|
    ensures End(t - 1, 2 * q) <= |leaves| && Start(t - 1, 2 * q + 1) + (n - Pow2(t - 1)) <= |leaves|
    ensures TreeHash(sha, Stretch(leaves, q, n, t)) == HashChildren(sha,
      TreeHash(sha, Below(leaves, t - 1, 2 * q)), TreeHash(sha, Stretch(leaves, 2 * q + 1, n - Pow2(t - 1), t - 1)))
  {
    hide Pow2, Start, End, Split, Below, HashChildren;
    SplitStretch(leaves, q, n, t);
    TreeSplit(sha, Stretch(leaves, q, n, t));
  }

  lemma {:induction false} TreeSplit(sha: Bytes -> Digest, leaves: seq<Digest>)
    requires |leaves| >= 2
    ensures TreeHash(sha, leaves) ==
      HashChildren(sha, TreeHash(sha, leaves[..Split(|leaves|)]), TreeHash(sha, leaves[Split(|leaves|)..]))
  {
  }

  /** Root. For every size up to the log's length it is the tree hash of that many leaves, and no fetch misses. */
  method Root(sha: Bytes -> Digest, store: Store, ghost leaves: seq<Digest>,
      size: nat) returns (r: Result<Digest, NodeID>)
    requires StoreOk(sha, store, leaves) && size <= |leaves|
    ensures r == Ok(TreeHash(sha, leaves[..size]))
  {
    hide TreeHash, StoreOk;
    if size == 0 {
      EmptyHash(sha, leaves[..size]);
      return Ok(sha([]));
    }
    var ids := RangeNodes(0, size, BitLength(size));
    Spans(BitLength(size), 0);
    CoverHash(sha, store, leaves, 0, size, BitLength(size));
    assert Stretch(leaves, 0, size, BitLength(size)) == leaves[..size];
    var hashes: seq<Digest> := [];
    for i := 0 to |ids|
      invariant hashes == Lookup(store, ids)[..i]
    {
      var id := ids[i];
      if id !in store {
        return Err(id);
      }
      hashes := hashes + [store[id]];
    }
    assert hashes == Lookup(store, ids);
    var hash := FoldPeaks(sha, hashes);
    return Ok(hash);
  }

  lemma {:induction false} EmptyHash(sha: Bytes -> Digest, leaves: seq<Digest>)
    requires leaves == []
    ensures TreeHash(sha, leaves) == sha([])
  {
  }

  method FoldPeaks(sha: Bytes -> Digest, hashes: seq<Digest>) returns (hash: Digest)
    requires hashes != []
    ensures hash == FoldRight(sha, hashes)
  {
    var i := |hashes| - 1;
    hash := hashes[i];
    while i > 0
      invariant 0 <= i < |hashes| && hash == FoldRight(sha, hashes[i..])
    {
      i := i - 1;
      assert hashes[i..][1..] == hashes[i + 1..];
      hash := HashChildren(sha, hashes[i], hash);
    }
    assert hashes[0..] == hashes;
  }

  // ---- inclusion proofs ----

  /** The hash of a stretch of at most 2^t leaves, from the store. */
  function StretchHash(sha: Bytes -> Digest, store: Store, q: nat, n: nat, t: nat): Option<Digest>
    requires 0 < n <= Pow2(t)
  {
    if n == Pow2(t) then if (t, q) in store then Some(store[(t, q)]) else None
    else
      var ids := RangeNodes(q, n, t);
      if ids != [] && forall j :: 0 <= j < |ids| ==> ids[j] in store then Some(FoldRight(sha, Lookup(store, ids)))
      else None
  }

  /** The proof for leaf m of a stretch, sibling by sibling from the store. */
  function StorePath(sha: Bytes -> Digest, store: Store, m: nat, q: nat, n: nat, t: nat): Option<seq<Digest>>
    requires m < n <= Pow2(t)
    decreases t
  {
    if n == 1 then Some([])
    else
      var p := Pow2(t - 1);
      if n <= p then StorePath(sha, store, m, 2 * q, n, t - 1)
      else if m < p then
        Snoc(StorePath(sha, store, m, 2 * q, p, t - 1), StretchHash(sha, store, 2 * q + 1, n - p, t - 1))
      else
        Snoc(StorePath(sha, store, m - p, 2 * q + 1, n - p, t - 1), StretchHash(sha, store, 2 * q, p, t - 1))
  }

  function Snoc(path: Option<seq<Digest>>, h: Option<Digest>): Option<seq<Digest>> {
    if path.Some? && h.Some? then Some(path.value + [h.value]) else None
  }

  /** The inclusion proof for leaf index in the tree of the first size leaves. */
  function InclusionProof(sha: Bytes -> Digest, store: Store, index: nat, size: nat): Option<seq<Digest>>
    requires index < size
  {
    StorePath(sha, store, index, 0, size, BitLength(size))
  }

  lemma {:induction false} StretchHashIs(sha: Bytes -> Digest, store: Store, leaves: seq<Digest>, q: nat, n: nat,
      t: nat)
    requires StoreOk(sha, store, leaves) && 0 < n <= Pow2(t) && Start(t, q) + n <= |leaves|
    ensures StretchHash(sha, store, q, n, t) == Some(TreeHash(sha, Stretch(leaves, q, n, t)))
  {
    hide TreeHash, FoldRight;
    if n == Pow2(t) {
      Spans(t, q);
      assert NodeOk(sha, store, leaves, t, q);
      assert Stretch(leaves, q, n, t) == Below(leaves, t, q);
    } else {
      CoverHash(sha, store, leaves, q, n, t);
    }
  }

  lemma {:induction false} StorePathIs(sha: Bytes -> Digest, store: Store, leaves: seq<Digest>, m: nat, q: nat,
      n: nat, t: nat)
    requires StoreOk(sha, store, leaves) && m < n <= Pow2(t) && Start(t, q) + n <= |leaves|
    ensures StorePath(sha, store, m, q, n, t) == Some(AuditPath(sha, m, Stretch(leaves, q, n, t)))
    decreases t
  {
    hide TreeHash, StoreOk, StretchHash, AuditPath, Start, Pow2, Split, Below;
    var s := Stretch(leaves, q, n, t);
    if n == 1 {
      OneLeafPath(sha, s);
    } else {
      HalfOfLevel(n, t);
      var p := Pow2(t - 1);
      HalfOf(t);
      Spans(t - 1, q);
      Spans(t - 1, 2 * q);
      if n <= p {
        StorePathIs(sha, store, leaves, m, 2 * q, n, t - 1);
      } else {
        SplitStretch(leaves, q, n, t);
        AuditSplit(sha, m, s);
        BelowIsStretch(leaves, t - 1, 2 * q);
        if m < p {
          StorePathIs(sha, store, leaves, m, 2 * q, p, t - 1);
          StretchHashIs(sha, store, leaves, 2 * q + 1, n - p, t - 1);
        } else {
          StorePathIs(sha, store, leaves, m - p, 2 * q + 1, n - p, t - 1);
          StretchHashIs(sha, store, leaves, 2 * q, p, t - 1);
        }
      }
    }
  }

  lemma {:induction false} HalfOfLevel(n: nat, t: nat)
    requires 1 < n <= Pow2(t)
    ensures t > 0
  {
  }

  lemma {:induction false} BelowIsStretch(leaves: seq<Digest>, t: nat, q: nat)
    requires End(t, q) <= |leaves|
    ensures Start(t, q) + Pow2(t) <= |leaves| && Below(leaves, t, q) == Stretch(leaves, q, Pow2(t), t)
  {
    Spans(t, q);
  }

  lemma {:induction false} OneLeafPath(sha: Bytes -> Digest, leaves: seq<Digest>)
    requires |leaves| == 1
    ensures AuditPath(sha, 0, leaves) == []
  {
  }

  lemma {:induction false} AuditSplit(sha: Bytes -> Digest, m: nat, leaves: seq<Digest>)
    requires m < |leaves| && |leaves| >= 2
    ensures var k := Split(|leaves|);
      AuditPath(sha, m, leaves) ==
        if m < k then AuditPath(sha, m, leaves[..k]) + [TreeHash(sha, leaves[k..])]
        else AuditPath(sha, m - k, leaves[k..]) + [TreeHash(sha, leaves[..k])]
  {
  }

  lemma {:induction false} RootSnoc(sha: Bytes -> Digest, m: nat, n: nat, leaf: Digest, rest: seq<Digest>, last: Digest)
    requires m < n && n >= 2
    ensures var k := Split(n);
      var r := if m < k then RootFromPath(sha, m, k, leaf, rest) else RootFromPath(sha, m - k, n - k, leaf, rest);
      RootFromPath(sha, m, n, leaf, rest + [last]) ==
        if r.None? then None
        else Some(if m < k then HashChildren(sha, r.value, last) else HashChildren(sha, last, r.value))
  {
    hide HashChildren, SplitLevel;
    assert (rest + [last])[..|rest|] == rest;
  }

  lemma {:induction false} PathLeadsToRoot(sha: Bytes -> Digest, m: nat, leaves: seq<Digest>)
    requires m < |leaves|
    ensures RootFromPath(sha, m, |leaves|, leaves[m], AuditPath(sha, m, leaves)) == Some(TreeHash(sha, leaves))
    decreases |leaves|
  {
    hide HashChildren, SplitLevel, TreeHash, AuditPath, RootFromPath;
    if |leaves| == 1 {
      SingleLeaf(sha, leaves);
    } else {
      var k := Split(|leaves|);
      TreeSplit(sha, leaves);
      AuditSplit(sha, m, leaves);
      if m < k {
        PathLeadsToRoot(sha, m, leaves[..k]);
        RootSnoc(sha, m, |leaves|, leaves[m], AuditPath(sha, m, leaves[..k]), TreeHash(sha, leaves[k..]));
      } else {
        PathLeadsToRoot(sha, m - k, leaves[k..]);
        RootSnoc(sha, m, |leaves|, leaves[m], AuditPath(sha, m - k, leaves[k..]), TreeHash(sha, leaves[..k]));
      }
    }
  }

  lemma {:induction false} SingleLeaf(sha: Bytes -> Digest, leaves: seq<Digest>)
    requires |leaves| == 1
    ensures RootFromPath(sha, 0, 1, leaves[0], AuditPath(sha, 0, leaves)) == Some(TreeHash(sha, leaves))
  {
  }

  /**
   * Every inclusion proof built from the store, for any leaf of any earlier or present size, is the
   * RFC 6962 audit path and leads that leaf to that size's root.
   */
  lemma {:induction false} ProofsAreComplete(sha: Bytes -> Digest, store: Store, leaves: seq<Digest>, index: nat,
      size: nat)
    requires StoreOk(sha, store, leaves) && index < size <= |leaves|
    ensures InclusionProof(sha, store, index, size) == Some(AuditPath(sha, index, leaves[..size]))
    ensures RootFromPath(sha, index, size, leaves[index], AuditPath(sha, index, leaves[..size])) ==
      Some(TreeHash(sha, leaves[..size]))
  {
    hide TreeHash, StoreOk, AuditPath, RootFromPath, StorePath;
    Spans(BitLength(size), 0);
    assert Stretch(leaves, 0, size, BitLength(size)) == leaves[..size];
    StorePathIs(sha, store, leaves, index, 0, size, BitLength(size));
    PathLeadsToRoot(sha, index, leaves[..size]);
  }

  // ---- soundness ----

  /** x is hashed while computing the tree hash of the leaves. */
  ghost predicate TreeInput(sha: Bytes -> Digest, leaves: seq<Digest>, x: Bytes)
    decreases |leaves|
  {
    |leaves| >= 2 && var k := Split(|leaves|);
      || x == NodeText(TreeHash(sha, leaves[..k]), TreeHash(sha, leaves[k..]))
      || TreeInput(sha, leaves[..k], x)
      || TreeInput(sha, leaves[k..], x)
  }

  /** x is hashed while checking a path. */
  ghost predicate PathInput(sha: Bytes -> Digest, m: nat, n: nat, leaf: Digest, path: seq<Digest>, x: Bytes)
    requires m < n
    decreases n
  {
    n >= 2 && path != [] &&
    var k, rest, last := Split(n), path[..|path| - 1], path[|path| - 1];
    if m < k then
      var r := RootFromPath(sha, m, k, leaf, rest);
      (r.Some? && x == NodeText(r.value, last)) || PathInput(sha, m, k, leaf, rest, x)
    else
      var r := RootFromPath(sha, m - k, n - k, leaf, rest);
      (r.Some? && x == NodeText(last, r.value)) || PathInput(sha, m - k, n - k, leaf, rest, x)
  }

  lemma {:induction false} SplitNodeText(l: Digest, r: Digest, l': Digest, r': Digest)
    requires NodeText(l, r) == NodeText(l', r')
    ensures l == l' && r == r'
  {
    var t, t' := NodeText(l, r), NodeText(l', r');
    assert |t| == 65;
    assert l == t[1..33] && l' == t'[1..33];
    assert r == t[33..] && r' == t'[33..];
  }

  /** An accepted path proves its leaf, or exhibits two different hashed inputs with one digest. */
  lemma {:induction false} ProofsAreSound(sha: Bytes -> Digest, m: nat, leaves: seq<Digest>, leaf: Digest,
      path: seq<Digest>)
    returns (x: Bytes, y: Bytes)
    requires m < |leaves|
    requires RootFromPath(sha, m, |leaves|, leaf, path) == Some(TreeHash(sha, leaves))
    ensures leaf == leaves[m]
      || (Collision(sha, x, y) && PathInput(sha, m, |leaves|, leaf, path, x) && TreeInput(sha, leaves, y))
    decreases |leaves|
  {
    hide TreeHash, RootFromPath, PathInput, TreeInput, NodeText, SplitLevel;
    x, y := [], [];
    if |leaves| == 1 {
      LonePath(sha, leaves, leaf, path);
    } else {
      var k := Split(|leaves|);
      var a, b := TreeHash(sha, leaves[..k]), TreeHash(sha, leaves[k..]);
      TreeSplit(sha, leaves);
      y := NodeText(a, b);
      var r, rest, last := PathTop(sha, m, |leaves|, leaf, path);
      TreeInputs(sha, leaves);
      if m < k {
        x := NodeText(r, last);
        if x == y {
          SplitNodeText(r, last, a, b);
          x, y := ProofsAreSound(sha, m, leaves[..k], leaf, rest);
        }
      } else {
        x := NodeText(last, r);
        if x == y {
          SplitNodeText(last, r, a, b);
          x, y := ProofsAreSound(sha, m - k, leaves[k..], leaf, rest);
        }
      }
    }
  }

  lemma {:induction false} LonePath(sha: Bytes -> Digest, leaves: seq<Digest>, leaf: Digest, path: seq<Digest>)
    requires |leaves| == 1 && RootFromPath(sha, 0, 1, leaf, path) == Some(TreeHash(sha, leaves))
    ensures leaf == leaves[0]
  {
  }

  lemma {:induction false} TreeInputs(sha: Bytes -> Digest, leaves: seq<Digest>)
    requires |leaves| >= 2
    ensures var k := Split(|leaves|);
      && TreeInput(sha, leaves, NodeText(TreeHash(sha, leaves[..k]), TreeHash(sha, leaves[k..])))
      && (forall x :: TreeInput(sha, leaves[..k], x) || TreeInput(sha, leaves[k..], x) ==> TreeInput(sha, leaves, x))
  {
    hide NodeText, TreeHash, SplitLevel;
  }

  /** The last step of a successful path check. */
  lemma {:induction false} PathTop(sha: Bytes -> Digest, m: nat, n: nat, leaf: Digest, path: seq<Digest>)
    returns (r: Digest, rest: seq<Digest>, last: Digest)
    requires m < n && n >= 2 && RootFromPath(sha, m, n, leaf, path).Some?
    ensures path == rest + [last]
    ensures var k := Split(n);
      if m < k then
        && RootFromPath(sha, m, k, leaf, rest) == Some(r)
        && RootFromPath(sha, m, n, leaf, path) == Some(sha(NodeText(r, last)))
        && PathInput(sha, m, n, leaf, path, NodeText(r, last))
        && (forall x :: PathInput(sha, m, k, leaf, rest, x) ==> PathInput(sha, m, n, leaf, path, x))
      else
        && RootFromPath(sha, m - k, n - k, leaf, rest) == Some(r)
        && RootFromPath(sha, m, n, leaf, path) == Some(sha(NodeText(last, r)))
        && PathInput(sha, m, n, leaf, path, NodeText(last, r))
        && (forall x :: PathInput(sha, m - k, n - k, leaf, rest, x) ==> PathInput(sha, m, n, leaf, path, x))
  {
    hide NodeText, SplitLevel;
    rest, last := path[..|path| - 1], path[|path| - 1];
    var k := Split(n);
    r := if m < k then RootFromPath(sha, m, k, leaf, rest).value else RootFromPath(sha, m - k, n - k, leaf, rest).value;
  }

  // ---- bundles ----

  /** The hash part of a bundle; checkpoint is the signed root for size leaves. */
  datatype Bundle = Bundle(index: nat, size: nat, leaf: Digest, metaHash: Bytes, bodyHash: Bytes, path: seq<Digest>,
    root: Digest)

  predicate BundleVerifies(sha: Bytes -> Digest, b: Bundle) {
    && LeafHash(sha, b.metaHash, b.bodyHash) == b.leaf
    && b.index < b.size && RootFromPath(sha, b.index, b.size, b.leaf, b.path) == Some(b.root)
  }

  /** The sealed hashes of a record. */
  datatype Sealed = Sealed(meta: Digest, body: Digest)

  function Leaves(sha: Bytes -> Digest, records: seq<Sealed>): seq<Digest> {
    seq(|records|, i requires 0 <= i < |records| => LeafHash(sha, records[i].meta, records[i].body))
  }

  ghost predicate BundleInput(sha: Bytes -> Digest, b: Bundle, x: Bytes) {
    x == LeafText(b.metaHash, b.bodyHash) || (b.index < b.size && PathInput(sha, b.index, b.size, b.leaf, b.path, x))
  }

  ghost predicate LogInput(sha: Bytes -> Digest, records: seq<Sealed>, y: Bytes) {
    || (exists i :: 0 <= i < |records| && y == LeafText(records[i].meta, records[i].body))
    || TreeInput(sha, Leaves(sha, records), y)
  }

  /**
   * A verified bundle under the log's own root carries the record's meta and body hashes run
   * together, or exhibits a collision. The boundary between the two hashes is not bound: the bundle
   * names exactly the record's hashes if and only if its meta hash is 32 bytes long.
   */
  lemma {:induction false} BundleBindsRecord(sha: Bytes -> Digest, b: Bundle,
      records: seq<Sealed>) returns (x: Bytes, y: Bytes)
    requires BundleVerifies(sha, b) && b.size == |records| && b.root == TreeHash(sha, Leaves(sha, records))
    ensures (Collision(sha, x, y) && BundleInput(sha, b, x) && LogInput(sha, records, y))
      || (b.metaHash + b.bodyHash == records[b.index].meta + records[b.index].body
          && (b.metaHash == records[b.index].meta && b.bodyHash == records[b.index].body <==> |b.metaHash| == 32))
  {
    hide TreeHash, RootFromPath, PathInput, TreeInput;
    var leaves, r := Leaves(sha, records), records[b.index];
    x, y := ProofsAreSound(sha, b.index, leaves, b.leaf, b.path);
    if b.leaf == leaves[b.index] {
      x, y := LeafText(b.metaHash, b.bodyHash), LeafText(r.meta, r.body);
      if x == y {
        assert x[1..] == b.metaHash + b.bodyHash && y[1..] == r.meta + r.body;
        if |b.metaHash| == 32 {
          assert b.metaHash == x[1..][..32] && r.meta == y[1..][..32];
          assert b.bodyHash == x[1..][32..] && r.body == y[1..][32..];
        }
      }
    }
  }

  /** A bundle whose boundary is shifted verifies too: one byte moved from the body hash to the meta hash. */
  lemma {:induction false} ShiftedBundleVerifies(sha: Bytes -> Digest, r: Sealed)
    ensures var leaf := LeafHash(sha, r.meta, r.body);
      var b := Bundle(0, 1, leaf, r.meta + [r.body[0]], r.body[1..], [], leaf);
      BundleVerifies(sha, b) && b.root == TreeHash(sha, Leaves(sha, [r])) && b.metaHash != r.meta
  {
    assert LeafText(r.meta + [r.body[0]], r.body[1..]) == LeafText(r.meta, r.body);
    assert Leaves(sha, [r]) == [LeafHash(sha, r.meta, r.body)];
    assert |r.meta + [r.body[0]]| == 33;
  }
}
