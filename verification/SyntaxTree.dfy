/**
 * Carrying a syntax tree across the wasm boundary: the cursor walk that dumps it in preorder with
 * depths (internal/adapter/treesitter/csrc/keelage_ts.c) and the depth stack that rebuilds it
 * (internal/adapter/treesitter/treesitter.go).
 */
module SyntaxTrees {

  /** What a dumped record says about a node besides its depth. */
  datatype Tag = Tag(symbol: nat, field: nat, start: nat, end: nat, flags: nat)

  datatype Tree = Node(tag: Tag, children: seq<Tree>)

  datatype Record = Record(depth: nat, tag: Tag)

  function Preorder(t: Tree, d: nat): seq<Record>
    decreases t, 1
  {
    [Record(d, t.tag)] + PreorderAll(t.children, d + 1)
  }

  function PreorderAll(ts: seq<Tree>, d: nat): seq<Record>
    decreases ts, 0
  {
    if ts == [] then [] else Preorder(ts[0], d) + PreorderAll(ts[1..], d)
  }

  // ---- the dump ----

  /** One level of the cursor: the siblings and which of them it is on. */
  datatype Frame = Frame(siblings: seq<Tree>, at: nat)

  type Cursor = seq<Frame>

  predicate ValidCursor(c: Cursor) {
    c != [] && forall i :: 0 <= i < |c| ==> c[i].at < |c[i].siblings|
  }

  function Current(c: Cursor): Tree
    requires ValidCursor(c)
  {
    c[|c| - 1].siblings[c[|c| - 1].at]
  }

  /** The records after the current node's subtree. */
  function Rest(c: Cursor): seq<Record>
    requires forall i :: 0 <= i < |c| ==> c[i].at < |c[i].siblings|
  {
    if c == [] then []
    else
      var top := c[|c| - 1];
      PreorderAll(top.siblings[top.at + 1..], |c| - 1) + Rest(c[..|c| - 1])
  }

  /** The records from the current node on. */
  function Todo(c: Cursor): seq<Record>
    requires ValidCursor(c)
  {
    Preorder(Current(c), |c| - 1) + Rest(c)
  }

  function FirstChild(c: Cursor): Cursor
    requires ValidCursor(c)
  {
    c + [Frame(Current(c).children, 0)]
  }

  function NextSibling(c: Cursor): Cursor
    requires ValidCursor(c)
  {
    c[..|c| - 1] + [c[|c| - 1].(at := c[|c| - 1].at + 1)]
  }

  lemma {:induction false} FirstChildTodo(c: Cursor)
    requires ValidCursor(c) && Current(c).children != []
    ensures ValidCursor(FirstChild(c))
    ensures Todo(c) == [Record(|c| - 1, Current(c).tag)] + Todo(FirstChild(c))
  {
    hide PreorderAll;
    var t, c' := Current(c), FirstChild(c);
    assert c'[..|c'| - 1] == c;
    PreorderAllCons(t.children, |c|);
    PreorderOf(t, |c| - 1);
    hide Preorder;
    assert Rest(c') == PreorderAll(t.children[1..], |c|) + Rest(c);
  }

  lemma {:induction false} PreorderOf(t: Tree, d: nat)
    ensures Preorder(t, d) == [Record(d, t.tag)] + PreorderAll(t.children, d + 1)
  {
  }

  lemma {:induction false} LeafTodo(c: Cursor)
    requires ValidCursor(c) && Current(c).children == []
    ensures Todo(c) == [Record(|c| - 1, Current(c).tag)] + Rest(c)
  {
    assert Preorder(Current(c), |c| - 1) == [Record(|c| - 1, Current(c).tag)];
  }

  lemma {:induction false} NextSiblingTodo(c: Cursor)
    requires ValidCursor(c) && c[|c| - 1].at + 1 < |c[|c| - 1].siblings|
    ensures ValidCursor(NextSibling(c)) && Todo(NextSibling(c)) == Rest(c)
  {
    hide Preorder, PreorderAll, Rest;
    var top, c' := c[|c| - 1], NextSibling(c);
    assert c'[..|c'| - 1] == c[..|c| - 1];
    var more := top.siblings[top.at + 1..];
    assert more[0] == Current(c') && more[1..] == top.siblings[top.at + 2..];
    PreorderAllCons(more, |c| - 1);
    RestOf(c);
    RestOf(c');
  }

  lemma {:induction false} RestOf(c: Cursor)
    requires ValidCursor(c)
    ensures ValidCursor(c[..|c| - 1]) || |c| == 1
    ensures Rest(c) == PreorderAll(c[|c| - 1].siblings[c[|c| - 1].at + 1..], |c| - 1) + Rest(c[..|c| - 1])
  {
  }

  lemma {:induction false} PreorderAllCons(ts: seq<Tree>, d: nat)
    requires ts != []
    ensures PreorderAll(ts, d) == Preorder(ts[0], d) + PreorderAll(ts[1..], d)
  {
  }

  lemma {:induction false} ParentRest(c: Cursor)
    requires ValidCursor(c) && c[|c| - 1].at + 1 == |c[|c| - 1].siblings|
    ensures Rest(c) == Rest(c[..|c| - 1])
  {
    assert c[|c| - 1].siblings[c[|c| - 1].at + 1..] == [];
  }

  /** The walk: it ends, its depth is never negative, and it emits the preorder of the tree. */
  method Dump(root: Tree) returns (out: seq<Record>)
    ensures out == Preorder(root, 0)
  {
    hide Preorder, PreorderAll, Rest;
    var c: Cursor := [Frame([root], 0)];
    var depth: nat := 0;
    out := [];
    StartTodo(root);
    while true
      invariant ValidCursor(c) && depth == |c| - 1
      invariant out + Todo(c) == Preorder(root, 0)
      decreases |Preorder(root, 0)| - |out|
    {
      ghost var todo := Todo(c);
      TodoIsLonger(c);
      out := out + [Record(depth, Current(c).tag)];
      if Current(c).children != [] {
        FirstChildTodo(c);
        c, depth := FirstChild(c), depth + 1;
        continue;
      }
      LeafTodo(c);
      while true
        invariant ValidCursor(c) && depth == |c| - 1
        invariant out + Rest(c) == Preorder(root, 0)
        decreases |c|
      {
        var top := c[|c| - 1];
        if top.at + 1 < |top.siblings| {
          NextSiblingTodo(c);
          c := NextSibling(c);
          break;
        }
        ParentRest(c);
        if |c| == 1 {
          EmptyRest();
          return;
        }
        c, depth := c[..|c| - 1], depth - 1;
      }
    }
  }

  lemma {:induction false} StartTodo(root: Tree)
    ensures Todo([Frame([root], 0)]) == Preorder(root, 0)
  {
    var c := [Frame([root], 0)];
    assert c[..0] == [] && [root][1..] == [];
    assert Rest(c) == PreorderAll([], 0) + Rest([]);
  }

  lemma {:induction false} TodoIsLonger(c: Cursor)
    requires ValidCursor(c)
    ensures |Todo(c)| > 0
  {
  }

  lemma {:induction false} EmptyRest()
    ensures Rest([]) == []
  {
  }

  // ---- the rebuild ----

  /** A node of the rebuilt tree; the parent is -1 at the root. */
  datatype NodeRecord = NodeRecord(tag: Tag, depth: nat, parent: int, children: seq<nat>)

  /** The nodes that name j as their parent, in order. */
  function Kids(nodes: seq<NodeRecord>, j: int): seq<nat> {
    if nodes == [] then []
    else Kids(nodes[..|nodes| - 1], j) + (if nodes[|nodes| - 1].parent == j then [|nodes| - 1] else [])
  }

  /** A dump starts at depth 0 and goes down one level at a time. */
  ghost predicate WellNested(recs: seq<Record>) {
    forall i :: 0 <= i < |recs| ==> recs[i].depth <= (if i == 0 then 0 else recs[i - 1].depth + 1)
  }

  /** The parent of record i is the last earlier record one level up, none at depth 0. */
  ghost predicate ParentOk(recs: seq<Record>, i: nat, parent: int)
    requires i < |recs|
  {
    if recs[i].depth == 0 then parent == -1
    else
      && 0 <= parent < i && recs[parent].depth == recs[i].depth - 1
      && forall k :: parent < k < i ==> recs[k].depth >= recs[i].depth
  }

  /** The rebuilt nodes: records copied, children lists the ordered inverse of parent. */
  ghost predicate Linked(recs: seq<Record>, nodes: seq<NodeRecord>) {
    && |nodes| <= |recs|
    && (forall i :: 0 <= i < |nodes| ==> nodes[i].tag == recs[i].tag && nodes[i].depth == recs[i].depth)
    && (forall i :: 0 <= i < |nodes| ==> -1 <= nodes[i].parent < i)
    && (forall j :: 0 <= j < |nodes| ==> nodes[j].children == Kids(nodes, j))
  }

  /** stack[d] is the last record of depth d and nothing shallower came after it. */
  ghost predicate StackOk(recs: seq<Record>, i: nat, stack: seq<nat>) {
    && i <= |recs|
    && |stack| == (if i == 0 then 0 else recs[i - 1].depth + 1)
    && (forall d :: 0 <= d < |stack| ==> StackEntryOk(recs, i, d, stack[d]))
  }

  ghost predicate StackEntryOk(recs: seq<Record>, i: nat, d: nat, j: nat)
    requires i <= |recs|
  {
    j < i && recs[j].depth == d && forall k :: j < k < i ==> recs[k].depth > d
  }

  /** Links one more node below the top of the stack. */
  function Link(nodes: seq<NodeRecord>, r: Record, parent: int): seq<NodeRecord>
    requires -1 <= parent < |nodes|
  {
    var linked := if parent == -1 then nodes
      else nodes[parent := nodes[parent].(children := nodes[parent].children + [|nodes|])];
    linked + [NodeRecord(r.tag, r.depth, parent, [])]
  }

  lemma {:induction false} KidsIgnoreChildren(a: seq<NodeRecord>, b: seq<NodeRecord>, j: int)
    requires |a| == |b| && forall i :: 0 <= i < |a| ==> a[i].parent == b[i].parent
    ensures Kids(a, j) == Kids(b, j)
  {
    if a != [] {
      KidsIgnoreChildren(a[..|a| - 1], b[..|b| - 1], j);
    }
  }

  lemma {:induction false} NoKids(nodes: seq<NodeRecord>, j: int)
    requires forall i :: 0 <= i < |nodes| ==> nodes[i].parent != j
    ensures Kids(nodes, j) == []
  {
    if nodes != [] {
      NoKids(nodes[..|nodes| - 1], j);
    }
  }

  lemma {:induction false} LinkKeeps(recs: seq<Record>, nodes: seq<NodeRecord>, parent: int)
    requires Linked(recs, nodes) && |nodes| < |recs| && -1 <= parent < |nodes|
    ensures Linked(recs, Link(nodes, recs[|nodes|], parent))
  {
    hide Kids;
    var n, out := |nodes|, Link(nodes, recs[|nodes|], parent);
    forall j | 0 <= j < |out| ensures out[j].children == Kids(out, j) {
      LinkedKids(nodes, recs[n], parent, j);
      if j == n {
        NoKids(nodes, j);
      }
    }
  }

  lemma {:induction false} LinkedKids(nodes: seq<NodeRecord>, r: Record, parent: int, j: int)
    requires -1 <= parent < |nodes|
    ensures Kids(Link(nodes, r, parent), j) == Kids(nodes, j) + (if parent == j then [|nodes|] else [])
  {
    var n, out := |nodes|, Link(nodes, r, parent);
    KidsIgnoreChildren(out[..n], nodes, j);
  }

  /**
   * The rebuild loop. For any dump the children are the ordered inverse of the parents; for a nested one
   * the parents are right.
   */
  method Rebuild(recs: seq<Record>) returns (nodes: seq<NodeRecord>)
    ensures |nodes| == |recs| && Linked(recs, nodes)
    ensures WellNested(recs) ==> forall i :: 0 <= i < |recs| ==> ParentOk(recs, i, nodes[i].parent)
  {
    hide Linked, ParentOk, StackOk;
    nodes := [];
    var stack: seq<nat> := [];
    Unlinked(recs);
    for i := 0 to |recs|
      invariant |nodes| == i && Linked(recs, nodes)
      invariant forall d :: 0 <= d < |stack| ==> stack[d] < i
      invariant WellNested(recs) ==> StackOk(recs, i, stack)
      invariant WellNested(recs) ==> forall k :: 0 <= k < i ==> ParentOk(recs, k, nodes[k].parent)
    {
      ghost var before, prior := stack, nodes;
      stack := PopTo(stack, recs[i].depth);
      var parent: int := if |stack| > 0 then stack[|stack| - 1] else -1;
      LinkKeeps(recs, nodes, parent);
      if WellNested(recs) {
        StackStep(recs, i, before, stack, parent);
      }
      nodes := Link(nodes, recs[i], parent);
      assert forall k :: 0 <= k < i ==> nodes[k].parent == prior[k].parent;
      stack := stack + [i];
    }
  }

  lemma {:induction false} Unlinked(recs: seq<Record>)
    ensures Linked(recs, []) && StackOk(recs, 0, [])
  {
  }

  /** Drops the stack to at most depth entries. */
  method PopTo(stack: seq<nat>, depth: nat) returns (s: seq<nat>)
    ensures s == if |stack| > depth then stack[..depth] else stack
  {
    s := stack;
    while |s| > depth
      invariant |s| <= |stack| && s == stack[..|s|]
      invariant if |stack| <= depth then s == stack else |s| >= depth
    {
      s := s[..|s| - 1];
    }
  }

  lemma {:induction false} StackStep(recs: seq<Record>, i: nat, before: seq<nat>, stack: seq<nat>, parent: int)
    requires WellNested(recs) && i < |recs| && StackOk(recs, i, before)
    requires |stack| <= |before| && stack == before[..|stack|] && |stack| <= recs[i].depth
    requires |before| >= recs[i].depth ==> |stack| >= recs[i].depth
    requires parent == if |stack| > 0 then stack[|stack| - 1] else -1
    ensures ParentOk(recs, i, parent) && StackOk(recs, i + 1, stack + [i])
  {
    var d := recs[i].depth;
    assert |stack| == d;
    forall k | 0 <= k < d ensures StackEntryOk(recs, i + 1, k, stack[k]) {
      assert StackEntryOk(recs, i, k, before[k]);
    }
    if d > 0 {
      assert StackEntryOk(recs, i, d - 1, before[d - 1]);
    }
  }

  // ---- round trip ----

  /** Reads the tree back from the linked nodes. */
  function Decode(nodes: seq<NodeRecord>, i: nat): Tree
    requires ChildrenLater(nodes) && i < |nodes|
    decreases |nodes| - i, 1, 0
  {
    Node(nodes[i].tag, DecodeAll(nodes, i, nodes[i].children))
  }

  function DecodeAll(nodes: seq<NodeRecord>, i: nat, ids: seq<nat>): seq<Tree>
    requires ChildrenLater(nodes) && i < |nodes| && forall j :: 0 <= j < |ids| ==> i < ids[j] < |nodes|
    decreases |nodes| - i, 0, |ids|
  {
    if ids == [] then [] else [Decode(nodes, ids[0])] + DecodeAll(nodes, i, ids[1..])
  }

  ghost predicate ChildrenLater(nodes: seq<NodeRecord>) {
    forall i, j :: 0 <= i < |nodes| && 0 <= j < |nodes[i].children| ==> i < nodes[i].children[j] < |nodes|
  }

  lemma {:induction false} KidsLater(nodes: seq<NodeRecord>, j: nat)
    requires forall i :: 0 <= i < |nodes| ==> nodes[i].parent < i
    ensures forall k :: 0 <= k < |Kids(nodes, j)| ==> j < Kids(nodes, j)[k] < |nodes|
  {
    if nodes != [] {
      KidsLater(nodes[..|nodes| - 1], j);
    }
  }

  /** The positions where the subtrees of a forest dumped from position a start. */
  function Starts(ts: seq<Tree>, a: nat): seq<nat> {
    if ts == [] then [] else [a] + Starts(ts[1..], a + |Preorder(ts[0], 0)|)
  }

  /** The tree is dumped at position a with depth d, and what follows is no deeper. */
  ghost predicate DumpedAt(recs: seq<Record>, a: nat, t: Tree, d: nat) {
    var n := |Preorder(t, d)|;
    a + n <= |recs| && recs[a..a + n] == Preorder(t, d) && (a + n < |recs| ==> recs[a + n].depth <= d)
  }

  ghost predicate ForestAt(recs: seq<Record>, a: nat, ts: seq<Tree>, d: nat) {
    var n := |PreorderAll(ts, d)|;
    a + n <= |recs| && recs[a..a + n] == PreorderAll(ts, d) && (a + n < |recs| ==> recs[a + n].depth <= d)
  }

  /** The depth of the first record does not change how long a dump is. */
  lemma {:induction false} SameLength(t: Tree, d: nat, e: nat)
    ensures |Preorder(t, d)| == |Preorder(t, e)|
    decreases t, 1
  {
    SameLengthAll(t.children, d + 1, e + 1);
  }

  lemma {:induction false} SameLengthAll(ts: seq<Tree>, d: nat, e: nat)
    ensures |PreorderAll(ts, d)| == |PreorderAll(ts, e)|
    decreases ts, 0
  {
    if ts != [] {
      SameLength(ts[0], d, e);
      SameLengthAll(ts[1..], d, e);
    }
  }

  lemma {:induction false} DepthsBelow(t: Tree, d: nat)
    ensures forall i :: 0 < i < |Preorder(t, d)| ==> Preorder(t, d)[i].depth > d
    decreases t, 1
  {
    DepthsBelowAll(t.children, d + 1);
  }

  lemma {:induction false} DepthsBelowAll(ts: seq<Tree>, d: nat)
    ensures forall i :: 0 <= i < |PreorderAll(ts, d)| ==> PreorderAll(ts, d)[i].depth >= d
    decreases ts, 0
  {
    if ts != [] {
      DepthsBelow(ts[0], d);
      DepthsBelowAll(ts[1..], d);
      assert Preorder(ts[0], d)[0].depth == d;
    }
  }

  lemma {:induction false} StepsDown(t: Tree, d: nat)
    ensures forall i :: 0 < i < |Preorder(t, d)| ==> Preorder(t, d)[i].depth <= Preorder(t, d)[i - 1].depth + 1
    decreases t, 1
  {
    var p, q := Preorder(t, d), PreorderAll(t.children, d + 1);
    StepsDownAll(t.children, d + 1);
    forall i | 0 < i < |p| ensures p[i].depth <= p[i - 1].depth + 1 {
      assert p[i] == q[i - 1];
      assert i > 1 ==> p[i - 1] == q[i - 2];
    }
  }

  lemma {:induction false} StepsDownAll(ts: seq<Tree>, d: nat)
    ensures forall i :: 0 < i < |PreorderAll(ts, d)| ==>
      PreorderAll(ts, d)[i].depth <= PreorderAll(ts, d)[i - 1].depth + 1
    ensures PreorderAll(ts, d) != [] ==> PreorderAll(ts, d)[0].depth == d
    decreases ts, 0
  {
    if ts != [] {
      var p, a, b := PreorderAll(ts, d), Preorder(ts[0], d), PreorderAll(ts[1..], d);
      StepsDown(ts[0], d);
      StepsDownAll(ts[1..], d);
      DepthsBelow(ts[0], d);
      assert a[0].depth == d;
      forall i | 0 < i < |p| ensures p[i].depth <= p[i - 1].depth + 1 {
        if i >= |a| {
          assert p[i] == b[i - |a|];
          assert i > |a| ==> p[i - 1] == b[i - 1 - |a|];
        } else {
          assert p[i] == a[i] && p[i - 1] == a[i - 1];
        }
      }
    }
  }

  /** Rebuilt nodes whose parents are right. */
  ghost predicate Rebuilt(recs: seq<Record>, nodes: seq<NodeRecord>) {
    |nodes| == |recs| && Linked(recs, nodes) && forall i :: 0 <= i < |recs| ==> ParentOk(recs, i, nodes[i].parent)
  }

  lemma {:induction false} KidsSkip(nodes: seq<NodeRecord>, j: int, lo: nat, hi: nat)
    requires lo <= hi <= |nodes| && forall i :: lo <= i < hi ==> nodes[i].parent != j
    ensures Kids(nodes[..hi], j) == Kids(nodes[..lo], j)
    decreases hi
  {
    if lo < hi {
      assert nodes[..hi][..hi - 1] == nodes[..hi - 1];
      KidsSkip(nodes, j, lo, hi - 1);
    }
  }

  lemma {:induction false} ForestHead(recs: seq<Record>, s: nat, ts: seq<Tree>, d: nat)
    requires ForestAt(recs, s, ts, d) && ts != []
    ensures DumpedAt(recs, s, ts[0], d)
    ensures ForestAt(recs, s + |Preorder(ts[0], d)|, ts[1..], d)
  {
    hide Preorder, PreorderAll;
    PreorderAllCons(ts, d);
    var a, b := Preorder(ts[0], d), PreorderAll(ts[1..], d);
    var f := recs[s..s + |a| + |b|];
    assert f == a + b;
    assert recs[s..s + |a|] == f[..|a|] && recs[s + |a|..s + |a| + |b|] == f[|a|..];
    if b != [] {
      StepsDownAll(ts[1..], d);
      assert recs[s + |a|] == f[|a|] == b[0];
    }
  }

  lemma {:induction false} TreeForest(recs: seq<Record>, a: nat, t: Tree, d: nat)
    requires DumpedAt(recs, a, t, d)
    ensures a < |recs| && recs[a] == Record(d, t.tag)
    ensures ForestAt(recs, a + 1, t.children, d + 1)
    ensures a + 1 + |PreorderAll(t.children, d + 1)| == a + |Preorder(t, d)|
  {
    hide PreorderAll;
    var n, p := |Preorder(t, d)|, recs[a..a + |Preorder(t, d)|];
    assert p[0] == recs[a];
    assert recs[a + 1..a + n] == p[1..];
  }

  /** Only the heads of the child subtrees name the tree's root as their parent. */
  lemma {:induction false} ChildParents(recs: seq<Record>, nodes: seq<NodeRecord>, a: nat, d: nat, s: nat, t: Tree)
    requires Rebuilt(recs, nodes) && a < s && DumpedAt(recs, s, t, d + 1) && recs[a].depth == d
    requires forall k :: a < k < s ==> recs[k].depth > d
    ensures nodes[s].parent == a
    ensures forall i :: s < i < s + |Preorder(t, d + 1)| ==> recs[i].depth > d + 1 && nodes[i].parent != a
  {
    hide Preorder, Linked;
    TreeForest(recs, s, t, d + 1);
    DepthsBelow(t, d + 1);
    var n, p := |Preorder(t, d + 1)|, Preorder(t, d + 1);
    assert ParentOk(recs, s, nodes[s].parent);
    forall i | s < i < s + n ensures recs[i].depth > d + 1 && nodes[i].parent != a {
      assert recs[i] == recs[s..s + n][i - s] == p[i - s];
      assert ParentOk(recs, i, nodes[i].parent);
    }
  }

  lemma {:induction false} KidsForest(recs: seq<Record>, nodes: seq<NodeRecord>, a: nat, d: nat, s: nat, ts: seq<Tree>)
    requires Rebuilt(recs, nodes) && a < s && ForestAt(recs, s, ts, d + 1) && a < |recs| && recs[a].depth == d
    requires forall k :: a < k < s ==> recs[k].depth > d
    ensures Kids(nodes[..s + |PreorderAll(ts, d + 1)|], a) == Kids(nodes[..s], a) + Starts(ts, s)
    ensures forall k :: a < k < s + |PreorderAll(ts, d + 1)| ==> recs[k].depth > d
    decreases |ts|
  {
    hide Rebuilt, Preorder, PreorderAll, ForestAt, DumpedAt;
    RebuiltLength(recs, nodes);
    ForestFits(recs, s, ts, d + 1);
    if ts == [] {
      NoRecords(d + 1);
    } else {
      PreorderAllCons(ts, d + 1);
      var n := |Preorder(ts[0], d + 1)|;
      ForestHead(recs, s, ts, d + 1);
      ChildParents(recs, nodes, a, d, s, ts[0]);
      TreeForest(recs, s, ts[0], d + 1);
      assert nodes[..s + 1][..s] == nodes[..s];
      KidsSkip(nodes, a, s + 1, s + n);
      SameLength(ts[0], d + 1, 0);
      KidsForest(recs, nodes, a, d, s + n, ts[1..]);
    }
  }

  lemma {:induction false} NoRecords(d: nat)
    ensures PreorderAll([], d) == []
  {
  }

  lemma {:induction false} ForestFits(recs: seq<Record>, s: nat, ts: seq<Tree>, d: nat)
    requires ForestAt(recs, s, ts, d)
    ensures s + |PreorderAll(ts, d)| <= |recs|
  {
  }

  lemma {:induction false} RebuiltLength(recs: seq<Record>, nodes: seq<NodeRecord>)
    requires Rebuilt(recs, nodes)
    ensures |nodes| == |recs|
  {
  }

  /** The children of a dumped tree's root are where its subtrees were dumped. */
  lemma {:induction false} KidsAreStarts(recs: seq<Record>, nodes: seq<NodeRecord>, a: nat, t: Tree, d: nat)
    requires Rebuilt(recs, nodes) && DumpedAt(recs, a, t, d)
    ensures a < |nodes| && nodes[a].children == Starts(t.children, a + 1)
  {
    hide Preorder, PreorderAll, Starts, ParentOk, ForestAt, Kids;
    TreeForest(recs, a, t, d);
    NoKids(nodes[..a + 1], a);
    KidsForest(recs, nodes, a, d, a + 1, t.children);
    var e := a + |Preorder(t, d)|;
    NoLaterKids(recs, nodes, a, d, e);
    KidsSkip(nodes, a, e, |nodes|);
    assert nodes[..|nodes|] == nodes;
  }

  /** Past a record no deeper than d, nothing has a parent of depth d before that record. */
  lemma {:induction false} NoLaterKids(recs: seq<Record>, nodes: seq<NodeRecord>, a: nat, d: nat, e: nat)
    requires Rebuilt(recs, nodes) && a < e <= |recs| && recs[a].depth == d && (e < |recs| ==> recs[e].depth <= d)
    ensures forall i :: e <= i < |nodes| ==> nodes[i].parent != a
  {
    hide Linked;
    forall i | e <= i < |nodes| ensures nodes[i].parent != a {
      assert ParentOk(recs, i, nodes[i].parent);
    }
  }

  lemma {:induction false} ChildrenAreLater(recs: seq<Record>, nodes: seq<NodeRecord>)
    requires Rebuilt(recs, nodes)
    ensures ChildrenLater(nodes)
  {
    forall i | 0 <= i < |nodes|
      ensures forall j :: 0 <= j < |nodes[i].children| ==> i < nodes[i].children[j] < |nodes| {
      KidsLater(nodes, i);
    }
  }

  lemma {:induction false} DecodeIs(recs: seq<Record>, nodes: seq<NodeRecord>, a: nat, t: Tree, d: nat)
    requires Rebuilt(recs, nodes) && ChildrenLater(nodes) && DumpedAt(recs, a, t, d)
    ensures a < |nodes| && Decode(nodes, a) == t
    decreases t, 1
  {
    hide Rebuilt, Starts, Preorder, DumpedAt, ForestAt;
    KidsAreStarts(recs, nodes, a, t, d);
    TreeForest(recs, a, t, d);
    TagAt(recs, nodes, a);
    DecodeForest(recs, nodes, a, t.children, a + 1, d + 1);
  }

  lemma {:induction false} TagAt(recs: seq<Record>, nodes: seq<NodeRecord>, a: nat)
    requires Rebuilt(recs, nodes) && a < |nodes|
    ensures a < |recs| && nodes[a].tag == recs[a].tag
  {
  }

  lemma {:induction false} DecodeForest(recs: seq<Record>, nodes: seq<NodeRecord>, i: nat, ts: seq<Tree>, s: nat,
      d: nat)
    requires Rebuilt(recs, nodes) && ChildrenLater(nodes) && ForestAt(recs, s, ts, d) && i < |nodes|
    requires forall j :: 0 <= j < |Starts(ts, s)| ==> i < Starts(ts, s)[j] < |nodes|
    ensures DecodeAll(nodes, i, Starts(ts, s)) == ts
    decreases ts, 0
  {
    hide Rebuilt, Preorder, ForestAt;
    if ts != [] {
      ForestHead(recs, s, ts, d);
      SameLength(ts[0], d, 0);
      var n := |Preorder(ts[0], 0)|;
      assert Starts(ts, s)[0] == s && Starts(ts, s)[1..] == Starts(ts[1..], s + n);
      var starts := Starts(ts[1..], s + n);
      forall j | 0 <= j < |starts| ensures i < starts[j] < |nodes| {
        assert starts[j] == Starts(ts, s)[j + 1];
      }
      DecodeIs(recs, nodes, s, ts[0], d);
      DecodeForest(recs, nodes, i, ts[1..], s + n, d);
    }
  }

  /** Whatever the tree, its dump is well nested and the rebuilt nodes read back as the same tree. */
  lemma {:induction false} RoundTrip(t: Tree, nodes: seq<NodeRecord>)
    requires Rebuilt(Preorder(t, 0), nodes)
    ensures ChildrenLater(nodes) && |nodes| > 0 && Decode(nodes, 0) == t
  {
    hide Rebuilt, Preorder, Decode;
    var recs := Preorder(t, 0);
    assert recs[0..0 + |recs|] == recs;
    ChildrenAreLater(recs, nodes);
    DecodeIs(recs, nodes, 0, t, 0);
  }

  lemma {:induction false} DumpIsNested(t: Tree)
    ensures WellNested(Preorder(t, 0))
  {
    StepsDown(t, 0);
  }

  /** Parse's dump and rebuild, end to end. */
  method Transfer(t: Tree) returns (nodes: seq<NodeRecord>)
    ensures ChildrenLater(nodes) && |nodes| > 0 && Decode(nodes, 0) == t
  {
    hide Preorder, Decode, ParentOk, Linked;
    var recs := Dump(t);
    nodes := Rebuild(recs);
    DumpIsNested(t);
    RoundTrip(t, nodes);
  }
}
