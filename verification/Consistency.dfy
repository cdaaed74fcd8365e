/**
 * Consistency between two sizes of the transparency log (internal/merkle/merkle.go): the proof of
 * section 2.1.2 of RFC 6962, built from the node store and checked by an auditor.
 */
module Consistency {
  import opened Prelude
  import opened Merkle

  /** SUBPROOF of section 2.1.2, leaf end first; known says that the auditor has the old root already. */
  function ConsistencyPath(sha: Bytes -> Digest, m: nat, leaves: seq<Digest>, known: bool): seq<Digest>
    requires 0 < m <= |leaves|
    decreases |leaves|
  {
    if m == |leaves| then if known then [] else [TreeHash(sha, leaves)]
    else
      var k := Split(|leaves|);
      if m <= k then ConsistencyPath(sha, m, leaves[..k], known) + [TreeHash(sha, leaves[k..])]
      else ConsistencyPath(sha, m - k, leaves[k..], false) + [TreeHash(sha, leaves[..k])]
  }

  /** The roots of the first m and of all n leaves, as an auditor computes them from a path. */
  datatype Roots = Roots(older: Digest, newer: Digest)

  function RootsFromPath(sha: Bytes -> Digest, m: nat, n: nat, path: seq<Digest>, known: bool,
      seed: Digest): Option<Roots>
    requires 0 < m <= n
    decreases n
  {
    if m == n then
      if known then if path == [] then Some(Roots(seed, seed)) else None
      else if |path| == 1 then Some(Roots(path[0], path[0])) else None
    else if path == [] then None
    else
      var k, rest, last := Split(n), path[..|path| - 1], path[|path| - 1];
      if m <= k then
        match RootsFromPath(sha, m, k, rest, known, seed)
        case None => None
        case Some(r) => Some(Roots(r.older, HashChildren(sha, r.newer, last)))
      else
        match RootsFromPath(sha, m - k, n - k, rest, false, seed)
        case None => None
        case Some(r) => Some(Roots(HashChildren(sha, last, r.older), HashChildren(sha, last, r.newer)))
  }

  /** VerifyConsistency for two sizes, the older not zero. */
  predicate ConsistencyVerifies(sha: Bytes -> Digest, m: nat, n: nat, path: seq<Digest>, older: Digest, newer: Digest)
    requires 0 < m <= n
  {
    RootsFromPath(sha, m, n, path, true, older) == Some(Roots(older, newer))
  }

  // ---- completeness ----

  /** The last step of a path check on a longer tree. */
  lemma {:induction false} RootsSnoc(sha: Bytes -> Digest, m: nat, n: nat, rest: seq<Digest>, last: Digest,
      known: bool, seed: Digest)
    requires 0 < m < n
    ensures var k := Split(n);
      var r := if m <= k then RootsFromPath(sha, m, k, rest, known, seed)
        else RootsFromPath(sha, m - k, n - k, rest, false, seed);
      RootsFromPath(sha, m, n, rest + [last], known, seed) ==
        if r.None? then None
        else if m <= k then Some(Roots(r.value.older, HashChildren(sha, r.value.newer, last)))
        else Some(Roots(HashChildren(sha, last, r.value.older), HashChildren(sha, last, r.value.newer)))
  {
    hide HashChildren, SplitLevel;
    assert (rest + [last])[..|rest|] == rest;
  }

  lemma {:induction false} PathSplit(sha: Bytes -> Digest, m: nat, leaves: seq<Digest>, known: bool)
    requires 0 < m < |leaves|
    ensures var k := Split(|leaves|);
      ConsistencyPath(sha, m, leaves, known) ==
        if m <= k then ConsistencyPath(sha, m, leaves[..k], known) + [TreeHash(sha, leaves[k..])]
        else ConsistencyPath(sha, m - k, leaves[k..], false) + [TreeHash(sha, leaves[..k])]
  {
    hide TreeHash, SplitLevel;
  }

  /** A path is checked to the end exactly when it is as long as the consistency path of the two sizes. */
  lemma {:induction false} PathFits(sha: Bytes -> Digest, m: nat, leaves: seq<Digest>, path: seq<Digest>, known: bool,
      seed: Digest)
    requires 0 < m <= |leaves|
    ensures RootsFromPath(sha, m, |leaves|, path, known, seed).Some? <==>
      |path| == |ConsistencyPath(sha, m, leaves, known)|
    decreases |leaves|
  {
    hide TreeHash, HashChildren, SplitLevel;
    if m < |leaves| && path != [] {
      var k := Split(|leaves|);
      if m <= k {
        PathFits(sha, m, leaves[..k], path[..|path| - 1], known, seed);
      } else {
        PathFits(sha, m - k, leaves[k..], path[..|path| - 1], false, seed);
      }
    }
  }

  /** A prefix that reaches past the split is hashed from the same left half. */
  lemma {:induction false} PrefixSplit(sha: Bytes -> Digest, m: nat, leaves: seq<Digest>)
    requires |leaves| >= 2 && Split(|leaves|) < m <= |leaves|
    ensures var k := Split(|leaves|);
      TreeHash(sha, leaves[..m]) == HashChildren(sha, TreeHash(sha, leaves[..k]), TreeHash(sha, leaves[k..][..m - k]))
  {
    hide TreeHash, HashChildren;
    var k := Split(|leaves|);
    SplitIs(m, SplitLevel(|leaves|));
    TreeSplit(sha, leaves[..m]);
    assert leaves[..m][..k] == leaves[..k] && leaves[..m][k..] == leaves[k..][..m - k];
  }

  lemma {:induction false} WholeLeads(sha: Bytes -> Digest, leaves: seq<Digest>, known: bool, seed: Digest)
    requires leaves != [] && (known ==> seed == TreeHash(sha, leaves))
    ensures RootsFromPath(sha, |leaves|, |leaves|, ConsistencyPath(sha, |leaves|, leaves, known), known, seed) ==
      Some(Roots(TreeHash(sha, leaves), TreeHash(sha, leaves)))
  {
    hide TreeHash, HashChildren;
  }

  /** The path of section 2.1.2 leads to the roots of both sizes. */
  lemma {:induction false} PathLeadsToRoots(sha: Bytes -> Digest, m: nat, leaves: seq<Digest>, known: bool,
      seed: Digest)
    requires 0 < m <= |leaves| && (known ==> seed == TreeHash(sha, leaves[..m]))
    ensures RootsFromPath(sha, m, |leaves|, ConsistencyPath(sha, m, leaves, known), known, seed) ==
      Some(Roots(TreeHash(sha, leaves[..m]), TreeHash(sha, leaves)))
    decreases |leaves|
  {
    hide TreeHash, HashChildren, SplitLevel, RootsFromPath, ConsistencyPath;
    if m == |leaves| {
      assert leaves[..m] == leaves;
      WholeLeads(sha, leaves, known, seed);
    } else {
      var k := Split(|leaves|);
      TreeSplit(sha, leaves);
      PathSplit(sha, m, leaves, known);
      if m <= k {
        assert leaves[..k][..m] == leaves[..m];
        PathLeadsToRoots(sha, m, leaves[..k], known, seed);
        RootsSnoc(sha, m, |leaves|, ConsistencyPath(sha, m, leaves[..k], known), TreeHash(sha, leaves[k..]), known,
          seed);
      } else {
        PathLeadsToRoots(sha, m - k, leaves[k..], false, seed);
        PrefixSplit(sha, m, leaves);
        RootsSnoc(sha, m, |leaves|, ConsistencyPath(sha, m - k, leaves[k..], false), TreeHash(sha, leaves[..k]), known,
          seed);
      }
    }
  }

  /** The proof for the first m leaves of a stretch, subtree by subtree from the store. */
  function StoreConsistency(sha: Bytes -> Digest, store: Store, m: nat, q: nat, n: nat, t: nat, known: bool)
    : Option<seq<Digest>>
    requires 0 < m <= n <= Pow2(t)
    decreases t
  {
    if m == n then if known then Some([]) else Snoc(Some([]), StretchHash(sha, store, q, n, t))
    else
      var p := Pow2(t - 1);
      if n <= p then StoreConsistency(sha, store, m, 2 * q, n, t - 1, known)
      else if m <= p then
        Snoc(StoreConsistency(sha, store, m, 2 * q, p, t - 1, known), StretchHash(sha, store, 2 * q + 1, n - p, t - 1))
      else
        Snoc(StoreConsistency(sha, store, m - p, 2 * q + 1, n - p, t - 1, false),
          StretchHash(sha, store, 2 * q, p, t - 1))
  }

  function ConsistencyProof(sha: Bytes -> Digest, store: Store, m: nat, n: nat): Option<seq<Digest>>
    requires 0 < m <= n
  {
    StoreConsistency(sha, store, m, 0, n, BitLength(n), true)
  }

  lemma {:induction false} WholePath(sha: Bytes -> Digest, leaves: seq<Digest>, known: bool)
    requires leaves != []
    ensures ConsistencyPath(sha, |leaves|, leaves, known) == if known then [] else [TreeHash(sha, leaves)]
  {
  }

  lemma {:induction false} StoreConsistencyIs(sha: Bytes -> Digest, store: Store, leaves: seq<Digest>, m: nat,
      q: nat, n: nat, t: nat, known: bool)
    requires StoreOk(sha, store, leaves) && 0 < m <= n <= Pow2(t) && Start(t, q) + n <= |leaves|
    ensures StoreConsistency(sha, store, m, q, n, t, known) ==
      Some(ConsistencyPath(sha, m, Stretch(leaves, q, n, t), known))
    decreases t
  {
    hide TreeHash, StoreOk, StretchHash, ConsistencyPath, Start, Pow2, Split, Below;
    var s := Stretch(leaves, q, n, t);
    if m == n {
      WholePath(sha, s, known);
      StretchHashIs(sha, store, leaves, q, n, t);
      assert [] + [TreeHash(sha, s)] == [TreeHash(sha, s)];
    } else {
      HalfOfLevel(n, t);
      var p := Pow2(t - 1);
      HalfOf(t);
      Spans(t - 1, q);
      Spans(t - 1, 2 * q);
      if n <= p {
        StoreConsistencyIs(sha, store, leaves, m, 2 * q, n, t - 1, known);
      } else {
        SplitStretch(leaves, q, n, t);
        PathSplit(sha, m, s, known);
        BelowIsStretch(leaves, t - 1, 2 * q);
        if m <= p {
          StoreConsistencyIs(sha, store, leaves, m, 2 * q, p, t - 1, known);
          StretchHashIs(sha, store, leaves, 2 * q + 1, n - p, t - 1);
        } else {
          StoreConsistencyIs(sha, store, leaves, m - p, 2 * q + 1, n - p, t - 1, false);
          StretchHashIs(sha, store, leaves, 2 * q, p, t - 1);
        }
      }
    }
  }

  /**
   * Every consistency proof built from the store, between any two sizes of the log, is the path of
   * section 2.1.2 of RFC 6962 and is accepted with the roots of the two sizes.
   */
  lemma {:induction false} ConsistencyIsComplete(sha: Bytes -> Digest, store: Store, leaves: seq<Digest>, m: nat,
      n: nat)
    requires StoreOk(sha, store, leaves) && 0 < m <= n <= |leaves|
    ensures ConsistencyProof(sha, store, m, n) == Some(ConsistencyPath(sha, m, leaves[..n], true))
    ensures ConsistencyVerifies(sha, m, n, ConsistencyPath(sha, m, leaves[..n], true),
      TreeHash(sha, leaves[..m]), TreeHash(sha, leaves[..n]))
  {
    hide TreeHash, StoreOk, ConsistencyPath, RootsFromPath, StoreConsistency;
    Spans(BitLength(n), 0);
    assert Stretch(leaves, 0, n, BitLength(n)) == leaves[..n];
    StoreConsistencyIs(sha, store, leaves, m, 0, n, BitLength(n), true);
    assert leaves[..n][..m] == leaves[..m];
    PathLeadsToRoots(sha, m, leaves[..n], true, TreeHash(sha, leaves[..m]));
  }

  // ---- soundness ----

  /** x is hashed into the newer root while a path is checked. */
  ghost predicate NewerInput(sha: Bytes -> Digest, m: nat, n: nat, path: seq<Digest>, known: bool, seed: Digest,
      x: Bytes)
    requires 0 < m <= n
    decreases n
  {
    m < n && path != [] &&
    var k, rest, last := Split(n), path[..|path| - 1], path[|path| - 1];
    if m <= k then
      var r := RootsFromPath(sha, m, k, rest, known, seed);
      (r.Some? && x == NodeText(r.value.newer, last)) || NewerInput(sha, m, k, rest, known, seed, x)
    else
      var r := RootsFromPath(sha, m - k, n - k, rest, false, seed);
      (r.Some? && x == NodeText(last, r.value.newer)) || NewerInput(sha, m - k, n - k, rest, false, seed, x)
  }

  /** The last step of a successful check. */
  lemma {:induction false} RootsTop(sha: Bytes -> Digest, m: nat, n: nat, path: seq<Digest>, known: bool, seed: Digest)
    returns (r: Roots, rest: seq<Digest>, last: Digest)
    requires 0 < m < n && RootsFromPath(sha, m, n, path, known, seed).Some?
    ensures path == rest + [last]
    ensures var k := Split(n);
      if m <= k then
        && RootsFromPath(sha, m, k, rest, known, seed) == Some(r)
        && RootsFromPath(sha, m, n, path, known, seed) == Some(Roots(r.older, sha(NodeText(r.newer, last))))
        && NewerInput(sha, m, n, path, known, seed, NodeText(r.newer, last))
        && (forall x :: NewerInput(sha, m, k, rest, known, seed, x) ==> NewerInput(sha, m, n, path, known, seed, x))
      else
        && RootsFromPath(sha, m - k, n - k, rest, false, seed) == Some(r)
        && RootsFromPath(sha, m, n, path, known, seed) ==
             Some(Roots(sha(NodeText(last, r.older)), sha(NodeText(last, r.newer))))
        && NewerInput(sha, m, n, path, known, seed, NodeText(last, r.newer))
        && (forall x :: NewerInput(sha, m - k, n - k, rest, false, seed, x) ==>
          NewerInput(sha, m, n, path, known, seed, x))
  {
    hide NodeText, SplitLevel;
    rest, last := path[..|path| - 1], path[|path| - 1];
    var k := Split(n);
    r := if m <= k then RootsFromPath(sha, m, k, rest, known, seed).value
         else RootsFromPath(sha, m - k, n - k, rest, false, seed).value;
  }

  lemma {:induction false} WholeRoots(sha: Bytes -> Digest, n: nat, path: seq<Digest>, known: bool, seed: Digest)
    requires n > 0 && RootsFromPath(sha, n, n, path, known, seed).Some?
    ensures var r := RootsFromPath(sha, n, n, path, known, seed).value; r.older == r.newer
  {
  }

  /** A path that leads to the newer root computes the older one from the prefix, or a collision is exhibited. */
  lemma {:induction false} PathBindsPrefix(sha: Bytes -> Digest, m: nat, leaves: seq<Digest>, path: seq<Digest>,
      known: bool, seed: Digest) returns (x: Bytes, y: Bytes)
    requires 0 < m <= |leaves| && RootsFromPath(sha, m, |leaves|, path, known, seed).Some?
    requires RootsFromPath(sha, m, |leaves|, path, known, seed).value.newer == TreeHash(sha, leaves)
    ensures RootsFromPath(sha, m, |leaves|, path, known, seed).value.older == TreeHash(sha, leaves[..m])
      || (Collision(sha, x, y) && NewerInput(sha, m, |leaves|, path, known, seed, x) && TreeInput(sha, leaves, y))
    decreases |leaves|
  {
    hide TreeHash, RootsFromPath, NewerInput, TreeInput, NodeText, SplitLevel;
    x, y := [], [];
    if m == |leaves| {
      WholeRoots(sha, m, path, known, seed);
      assert leaves[..m] == leaves;
    } else {
      var k := Split(|leaves|);
      var a, b := TreeHash(sha, leaves[..k]), TreeHash(sha, leaves[k..]);
      TreeSplit(sha, leaves);
      TreeInputs(sha, leaves);
      y := NodeText(a, b);
      var r, rest, last := RootsTop(sha, m, |leaves|, path, known, seed);
      if m <= k {
        x := NodeText(r.newer, last);
        if x == y {
          SplitNodeText(r.newer, last, a, b);
          x, y := PathBindsPrefix(sha, m, leaves[..k], rest, known, seed);
          assert leaves[..k][..m] == leaves[..m];
        }
      } else {
        x := NodeText(last, r.newer);
        if x == y {
          SplitNodeText(last, r.newer, a, b);
          x, y := PathBindsPrefix(sha, m - k, leaves[k..], rest, false, seed);
          PrefixSplit(sha, m, leaves);
        }
      }
    }
  }

  /** The tree hash binds the leaves of a list of known length, or a collision is exhibited. */
  lemma {:induction false} RootBindsLeaves(sha: Bytes -> Digest, a: seq<Digest>, b: seq<Digest>)
    returns (x: Bytes, y: Bytes)
    requires |a| == |b| > 0 && TreeHash(sha, a) == TreeHash(sha, b)
    ensures a == b || (Collision(sha, x, y) && TreeInput(sha, a, x) && TreeInput(sha, b, y))
    decreases |a|
  {
    x, y := [], [];
    if |a| == 1 {
      OneLeaf(sha, a);
      OneLeaf(sha, b);
    } else {
      hide TreeHash, TreeInput, NodeText, SplitLevel;
      var k := Split(|a|);
      TreeSplit(sha, a);
      TreeSplit(sha, b);
      TreeInputs(sha, a);
      TreeInputs(sha, b);
      var al, ar, bl, br := TreeHash(sha, a[..k]), TreeHash(sha, a[k..]), TreeHash(sha, b[..k]), TreeHash(sha, b[k..]);
      x, y := NodeText(al, ar), NodeText(bl, br);
      if x == y {
        SplitNodeText(al, ar, bl, br);
        x, y := RootBindsLeaves(sha, a[..k], b[..k]);
        if a[..k] == b[..k] {
          x, y := RootBindsLeaves(sha, a[k..], b[k..]);
          assert a == a[..k] + a[k..] && b == b[..k] + b[k..];
        }
      }
    }
  }

  lemma {:induction false} OneLeaf(sha: Bytes -> Digest, a: seq<Digest>)
    requires |a| == 1
    ensures a == [TreeHash(sha, a)]
  {
  }

  /** Hashed while computing a root of either log or checking the path. */
  ghost predicate ProofInput(sha: Bytes -> Digest, older: seq<Digest>, leaves: seq<Digest>, path: seq<Digest>, x: Bytes)
    requires 0 < |older| <= |leaves|
  {
    || TreeInput(sha, older, x) || TreeInput(sha, leaves, x) || TreeInput(sha, leaves[..|older|], x)
    || NewerInput(sha, |older|, |leaves|, path, true, TreeHash(sha, older), x)
  }

  /**
   * An accepted consistency proof between the roots of two logs means that the older log is the first
   * part of the newer one, leaf by leaf, or two different hashed inputs with one digest are exhibited.
   */
  lemma {:induction false} ConsistencyIsSound(sha: Bytes -> Digest, older: seq<Digest>, leaves: seq<Digest>,
      path: seq<Digest>)
    returns (x: Bytes, y: Bytes)
    requires 0 < |older| <= |leaves|
    requires ConsistencyVerifies(sha, |older|, |leaves|, path, TreeHash(sha, older), TreeHash(sha, leaves))
    ensures older == leaves[..|older|]
      || (Collision(sha, x, y) && ProofInput(sha, older, leaves, path, x) && ProofInput(sha, older, leaves, path, y))
  {
    hide TreeHash, RootsFromPath, NewerInput, TreeInput;
    var m := |older|;
    x, y := PathBindsPrefix(sha, m, leaves, path, true, TreeHash(sha, older));
    if TreeHash(sha, older) == TreeHash(sha, leaves[..m]) {
      x, y := RootBindsLeaves(sha, older, leaves[..m]);
    }
  }

  /** Conversely, logs of which one is the first part of the other have an accepted proof. */
  lemma {:induction false} PrefixesHaveProofs(sha: Bytes -> Digest, older: seq<Digest>, leaves: seq<Digest>)
    requires 0 < |older| <= |leaves| && older == leaves[..|older|]
    ensures exists path ::
      ConsistencyVerifies(sha, |older|, |leaves|, path, TreeHash(sha, older), TreeHash(sha, leaves))
  {
    hide TreeHash, ConsistencyPath, RootsFromPath;
    PathLeadsToRoots(sha, |older|, leaves, true, TreeHash(sha, older));
    assert ConsistencyVerifies(sha, |older|, |leaves|, ConsistencyPath(sha, |older|, leaves, true),
      TreeHash(sha, older), TreeHash(sha, leaves));
  }

  // ---- one root, one log ----

  /** Hashed while computing the root of these records, the empty log's input included. */
  ghost predicate RootInput(sha: Bytes -> Digest, records: seq<Sealed>, x: Bytes) {
    (records == [] && x == []) || LogInput(sha, records, x)
  }

  /** The root of two or more records is that of two shorter logs, and what they hash it hashes. */
  lemma {:induction false} LogSplits(sha: Bytes -> Digest, records: seq<Sealed>)
    returns (l: seq<Sealed>, r: seq<Sealed>, text: Bytes)
    requires |records| >= 2
    ensures l != [] && r != [] && records == l + r && |l| < |records| && |r| < |records|
    ensures text == NodeText(TreeHash(sha, Leaves(sha, l)), TreeHash(sha, Leaves(sha, r)))
    ensures TreeHash(sha, Leaves(sha, records)) == sha(text) && RootInput(sha, records, text)
    ensures forall x :: RootInput(sha, l, x) || RootInput(sha, r, x) ==> RootInput(sha, records, x)
  {
    hide TreeHash, TreeInput, NodeText, SplitLevel, LeafText;
    var leaves, k := Leaves(sha, records), Split(|records|);
    l, r := records[..k], records[k..];
    assert Leaves(sha, l) == leaves[..k] && Leaves(sha, r) == leaves[k..];
    text := NodeText(TreeHash(sha, leaves[..k]), TreeHash(sha, leaves[k..]));
    TreeSplit(sha, leaves);
    TreeInputs(sha, leaves);
    forall x | RootInput(sha, l, x) || RootInput(sha, r, x) ensures RootInput(sha, records, x) {
      if i :| 0 <= i < |l| && x == LeafText(l[i].meta, l[i].body) {
        assert records[i] == l[i];
      }
      if i :| 0 <= i < |r| && x == LeafText(r[i].meta, r[i].body) {
        assert records[k + i] == r[i];
      }
    }
  }

  lemma {:induction false} ShortLog(sha: Bytes -> Digest, records: seq<Sealed>) returns (text: Bytes)
    requires |records| <= 1
    ensures text == if records == [] then [] else LeafText(records[0].meta, records[0].body)
    ensures TreeHash(sha, Leaves(sha, records)) == sha(text) && RootInput(sha, records, text)
  {
    text := if records == [] then [] else LeafText(records[0].meta, records[0].body);
  }

  /** Nothing hashed for a record is hashed for an inner node or for the empty log. */
  lemma {:induction false} TextsApart(meta: Bytes, body: Bytes, l: Digest, r: Digest)
    ensures LeafText(meta, body) != NodeText(l, r) && LeafText(meta, body) != [] && NodeText(l, r) != []
  {
    assert LeafText(meta, body)[0] != NodeText(l, r)[0];
  }

  lemma {:induction false} OneRecord(a: Sealed, b: Sealed)
    requires LeafText(a.meta, a.body) == LeafText(b.meta, b.body)
    ensures a == b
  {
    var x, y := LeafText(a.meta, a.body), LeafText(b.meta, b.body);
    assert x[1..33] == a.meta && y[1..33] == b.meta && x[33..] == a.body && y[33..] == b.body;
  }

  /**
   * A root binds the whole log, its length included: two logs of any lengths with one root are the
   * same record by record, or two different hashed inputs with one digest are exhibited.
   */
  lemma {:induction false} RootBindsLog(sha: Bytes -> Digest, a: seq<Sealed>, b: seq<Sealed>)
    returns (x: Bytes, y: Bytes)
    requires TreeHash(sha, Leaves(sha, a)) == TreeHash(sha, Leaves(sha, b))
    ensures a == b || (Collision(sha, x, y) && RootInput(sha, a, x) && RootInput(sha, b, y))
    decreases |a|
  {
    hide TreeHash, RootInput, NodeText, LeafText, Leaves;
    if |a| <= 1 && |b| <= 1 {
      x := ShortLog(sha, a);
      y := ShortLog(sha, b);
      if |a| == |b| == 1 {
        if x == y {
          OneRecord(a[0], b[0]);
        }
      } else if a != b {
        var r := if a == [] then b[0] else a[0];
        TextsApart(r.meta, r.body, r.meta, r.body);
      }
    } else if |a| <= 1 {
      var l, r;
      x := ShortLog(sha, a);
      l, r, y := LogSplits(sha, b);
      LongIsNotShort(sha, a, x, l, r, y);
    } else if |b| <= 1 {
      var l, r;
      l, r, x := LogSplits(sha, a);
      y := ShortLog(sha, b);
      LongIsNotShort(sha, b, y, l, r, x);
    } else {
      var al, ar, bl, br;
      al, ar, x := LogSplits(sha, a);
      bl, br, y := LogSplits(sha, b);
      if x == y {
        SplitNodeText(TreeHash(sha, Leaves(sha, al)), TreeHash(sha, Leaves(sha, ar)),
          TreeHash(sha, Leaves(sha, bl)), TreeHash(sha, Leaves(sha, br)));
        x, y := RootBindsLog(sha, al, bl);
        if al == bl {
          x, y := RootBindsLog(sha, ar, br);
        }
      }
    }
  }

  lemma {:induction false} LongIsNotShort(sha: Bytes -> Digest, records: seq<Sealed>, text: Bytes, l: seq<Sealed>,
      r: seq<Sealed>, node: Bytes)
    requires |records| <= 1
    requires text == if records == [] then [] else LeafText(records[0].meta, records[0].body)
    requires node == NodeText(TreeHash(sha, Leaves(sha, l)), TreeHash(sha, Leaves(sha, r)))
    ensures text != node
  {
    hide TreeHash;
    var m := if records == [] then [] else records[0].meta;
    var b := if records == [] then [] else records[0].body;
    TextsApart(m, b, TreeHash(sha, Leaves(sha, l)), TreeHash(sha, Leaves(sha, r)));
  }
}
