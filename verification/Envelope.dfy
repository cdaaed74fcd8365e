/** Ledger records and their hash chain (internal/core/envelope.go). */
module Envelopes {
  import opened Prelude

  datatype ActorKind = Human | Agent | OtherKind(name: string)

  datatype Actor = Actor(kind: ActorKind, id: string, key: string, owner: string) {
    predicate Valid() {
      match kind
      case Human => id != ""
      case Agent => owner != "" && id != ""
      case OtherKind(_) => false
    }
  }

  /** Every valid actor has an id, and a valid agent an owner too; nothing else is valid. */
  lemma {:induction false} ActorsAreNamed(a: Actor)
    ensures a.Valid() <==> a.id != "" && (a.kind.Human? || (a.kind.Agent? && a.owner != ""))
  {
  }

  datatype EventMeta = EventMeta(refs: seq<string>, constraintsHash: string, autonomy: int)

  datatype Origin = Origin(daemon: string, localSeq: int, prevHash: Bytes)

  /** What the meta hash covers. Times are nanoseconds. */
  datatype SealedMeta = SealedMeta(
    stream: string, ver: int, kind: string, v: int, ts: nat, actor: Actor, meta: EventMeta, bodyHash: Bytes)

  datatype Envelope = Envelope(
    seqno: int, stream: string, ver: int, kind: string, v: int, ts: nat, actor: Actor, meta: EventMeta,
    body: Bytes, metaHash: Bytes, bodyHash: Bytes, prevHash: Bytes, hash: Bytes, sig: Bytes,
    idem: string, origin: Option<Origin>)

  /** The two foreign functions of the chain: SHA-256 and the canonical JSON of the sealed meta. */
  datatype Primitives = Primitives(sha: Bytes -> Digest, encodeMeta: SealedMeta -> Bytes)

  function MetaOf(e: Envelope): SealedMeta {
    SealedMeta(e.stream, e.ver, e.kind, e.v, e.ts, e.actor, e.meta, e.bodyHash)
  }

  function MetaText(c: Primitives, e: Envelope): Bytes {
    c.encodeMeta(MetaOf(e))
  }

  function ChainText(prev: Bytes, metaHash: Bytes, bodyHash: Bytes): Bytes {
    prev + metaHash + bodyHash
  }

  /** The hash the source daemon signed. */
  function OriginHash(c: Primitives, e: Envelope): Bytes {
    match e.origin
    case None => e.hash
    case Some(o) => c.sha(ChainText(o.prevHash, e.metaHash, e.bodyHash))
  }

  function Microseconds(ts: nat): nat {
    ts - ts % 1000
  }

  predicate Sealable(e: Envelope) {
    e.stream != "" && e.kind != "" && e.ver > 0
  }

  /** Seal, for an envelope that has a stream, a kind and a positive version. */
  function Seal(c: Primitives, e: Envelope, prev: Bytes): Envelope {
    var e1 := e.(ts := Microseconds(e.ts), bodyHash := c.sha(e.body));
    var e2 := e1.(metaHash := c.sha(MetaText(c, e1)), prevHash := prev);
    e2.(hash := c.sha(ChainText(prev, e2.metaHash, e2.bodyHash)))
  }

  datatype VerifyError = PrevMismatch | BodyMismatch | MetaMismatch | HashMismatch | Gap

  function Verify(c: Primitives, e: Envelope, prev: Bytes): Option<VerifyError> {
    if e.prevHash != prev then Some(PrevMismatch)
    else if c.sha(e.body) != e.bodyHash then Some(BodyMismatch)
    else if c.sha(MetaText(c, e)) != e.metaHash then Some(MetaMismatch)
    else if c.sha(ChainText(e.prevHash, e.metaHash, e.bodyHash)) != e.hash then Some(HashMismatch)
    else None
  }

  function HeadHash(prev: Bytes, evs: seq<Envelope>): Bytes {
    if evs == [] then prev else evs[|evs| - 1].hash
  }

  /** Every record verifies against the one before it and the seqs have no gap. */
  ghost predicate Chain(c: Primitives, prev: Bytes, evs: seq<Envelope>) {
    forall i :: 0 <= i < |evs| ==>
      && Verify(c, evs[i], HeadHash(prev, evs[..i])) == None
      && (i > 0 ==> evs[i].seqno == evs[i - 1].seqno + 1)
  }

  method VerifyChain(c: Primitives, start: Bytes, evs: seq<Envelope>) returns (r: Result<Bytes, VerifyError>)
    ensures r.Ok? <==> Chain(c, start, evs)
    ensures r.Ok? ==> r.value == HeadHash(start, evs)
  {
    hide Verify;
    var prev := start;
    for i := 0 to |evs|
      invariant prev == HeadHash(start, evs[..i])
      invariant forall k :: 0 <= k < i ==>
        && Verify(c, evs[k], HeadHash(start, evs[..k])) == None
        && (k > 0 ==> evs[k].seqno == evs[k - 1].seqno + 1)
    {
      if i > 0 && evs[i].seqno != evs[i - 1].seqno + 1 {
        return Err(Gap);
      }
      var err := Verify(c, evs[i], prev);
      if err.Some? {
        return Err(err.value);
      }
      prev := evs[i].hash;
      assert evs[..i + 1][i] == evs[i];
    }
    assert evs[..|evs|] == evs;
    return Ok(prev);
  }

  /** Sealing fills in hashes and cuts the time to the microsecond before it; nothing else moves. */
  lemma {:induction false} SealVerifies(c: Primitives, e: Envelope, prev: Bytes)
    ensures Verify(c, Seal(c, e, prev), prev) == None
    ensures |Seal(c, e, prev).hash| == 32
    ensures var s := Seal(c, e, prev);
      && s.bodyHash == c.sha(s.body) && s.metaHash == c.sha(MetaText(c, s))
      && s.ts % 1000 == 0 && s.ts <= e.ts < s.ts + 1000
      && s == e.(ts := s.ts, bodyHash := s.bodyHash, metaHash := s.metaHash, prevHash := prev, hash := s.hash)
  {
    var s := Seal(c, e, prev);
    assert Microseconds(e.ts) % 1000 == 0;
    assert MetaOf(s) == SealedMeta(e.stream, e.ver, e.kind, e.v, Microseconds(e.ts), e.actor, e.meta, c.sha(e.body));
  }

  /** A record verifies exactly when sealing it again on that predecessor changes nothing. */
  lemma {:induction false} VerifiedIsSealed(c: Primitives, e: Envelope, prev: Bytes)
    requires e.ts % 1000 == 0
    ensures Verify(c, e, prev) == None <==> Seal(c, e, prev) == e
  {
    hide Verify;
    assert Microseconds(e.ts) == e.ts;
    if Verify(c, e, prev) == None {
      VerifiedFields(c, e, prev);
      assert MetaOf(e.(ts := Microseconds(e.ts), bodyHash := c.sha(e.body))) == MetaOf(e);
    }
    SealVerifies(c, e, prev);
  }

  lemma {:induction false} VerifiedFields(c: Primitives, e: Envelope, prev: Bytes)
    requires Verify(c, e, prev) == None
    ensures e.prevHash == prev && e.bodyHash == c.sha(e.body) && e.metaHash == c.sha(MetaText(c, e))
    ensures e.hash == c.sha(ChainText(prev, e.metaHash, e.bodyHash))
  {
  }

  /** What a failed check reports is the first part of the record that does not fit. */
  lemma {:induction false} VerifyReports(c: Primitives, e: Envelope, prev: Bytes)
    ensures Verify(c, e, prev) == Some(PrevMismatch) <==> e.prevHash != prev
    ensures Verify(c, e, prev) == Some(BodyMismatch) <==> e.prevHash == prev && e.bodyHash != c.sha(e.body)
    ensures Verify(c, e, prev) == Some(MetaMismatch) ==> e.metaHash != c.sha(MetaText(c, e))
    ensures Verify(c, e, prev) != Some(Gap)
    ensures Verify(c, e, prev) == Some(HashMismatch) ==>
      Verify(c, e.(hash := c.sha(ChainText(prev, e.metaHash, e.bodyHash))), prev).None?
  {
  }

  /** x was one of the inputs hashed while verifying the run. */
  ghost predicate Hashed(c: Primitives, evs: seq<Envelope>, x: Bytes) {
    exists i :: 0 <= i < |evs| && (
      || x == evs[i].body
      || x == MetaText(c, evs[i])
      || x == ChainText(evs[i].prevHash, evs[i].metaHash, evs[i].bodyHash))
  }

  ghost predicate SameTexts(c: Primitives, e: Envelope, f: Envelope) {
    e.body == f.body && MetaText(c, e) == MetaText(c, f) && e.hash == f.hash
  }

  ghost predicate SameSealed(c: Primitives, a: seq<Envelope>, b: seq<Envelope>) {
    |a| == |b| && forall i :: 0 <= i < |a| ==> SameTexts(c, a[i], b[i])
  }

  /** The two records agree on everything but their seqs, keys, signatures and origins. */
  ghost predicate SameRecord(e: Envelope, f: Envelope) {
    && e.stream == f.stream && e.ver == f.ver && e.kind == f.kind && e.v == f.v && e.ts == f.ts
    && e.actor == f.actor && e.meta == f.meta && e.body == f.body
    && e.bodyHash == f.bodyHash && e.metaHash == f.metaHash && e.hash == f.hash
  }

  /** Two different sealed metas with one encoding. */
  ghost predicate SameEncoding(c: Primitives, e: Envelope, f: Envelope) {
    MetaOf(e) != MetaOf(f) && c.encodeMeta(MetaOf(e)) == c.encodeMeta(MetaOf(f))
  }

  lemma {:induction false} ChainPrefix(c: Primitives, prev: Bytes, evs: seq<Envelope>, n: nat)
    requires Chain(c, prev, evs) && n <= |evs|
    ensures Chain(c, prev, evs[..n])
  {
    hide Verify, HeadHash;
    forall i | 0 <= i < n ensures evs[..n][..i] == evs[..i] {}
  }

  lemma {:induction false} SplitChainText(p: Bytes, m: Digest, b: Digest, p': Bytes, m': Digest, b': Digest)
    requires ChainText(p, m, b) == ChainText(p', m', b')
    ensures p == p' && m == m' && b == b'
  {
    var t, t' := ChainText(p, m, b), ChainText(p', m', b');
    assert |p| == |t| - 64 == |p'|;
    assert p == t[..|p|] && p' == t'[..|p|];
    assert m == t[|p|..|p| + 32] && m' == t'[|p|..|p| + 32];
    assert b == t[|p| + 32..] && b' == t'[|p| + 32..];
  }

  lemma {:induction false} TextBinding(c: Primitives, e: Envelope, f: Envelope, p: Bytes,
      q: Bytes) returns (x: Bytes, y: Bytes)
    requires Verify(c, e, p) == None && Verify(c, f, q) == None && e.hash == f.hash
    ensures (p == q && SameTexts(c, e, f))
         || (Collision(c.sha, x, y) && Hashed(c, [e], x) && Hashed(c, [f], y))
  {
    x, y := ChainText(p, e.metaHash, e.bodyHash), ChainText(q, f.metaHash, f.bodyHash);
    assert [e][0] == e && [f][0] == f;
    if x == y {
      SplitChainText(p, e.metaHash, e.bodyHash, q, f.metaHash, f.bodyHash);
      if e.body != f.body {
        x, y := e.body, f.body;
      } else {
        x, y := MetaText(c, e), MetaText(c, f);
      }
    }
  }

  /**
   * One record: the same chain hash means the same predecessor, the same body and the same sealed
   * fields one by one, or two different hashed inputs with one digest, or two different sealed metas
   * with one encoding.
   */
  lemma {:induction false} RecordBinding(c: Primitives, e: Envelope, f: Envelope, p: Bytes, q: Bytes)
    returns (x: Bytes, y: Bytes)
    requires Verify(c, e, p) == None && Verify(c, f, q) == None && e.hash == f.hash
    ensures (p == q && SameRecord(e, f)) || SameEncoding(c, e, f)
         || (Collision(c.sha, x, y) && Hashed(c, [e], x) && Hashed(c, [f], y))
  {
    x, y := TextBinding(c, e, f, p, q);
    if p == q && SameTexts(c, e, f) {
      TextsAreFields(c, e, f, p);
    }
  }

  lemma {:induction false} TextsAreFields(c: Primitives, e: Envelope, f: Envelope, p: Bytes)
    requires Verify(c, e, p) == None && Verify(c, f, p) == None && SameTexts(c, e, f)
    ensures SameRecord(e, f) || SameEncoding(c, e, f)
  {
  }

  lemma {:induction false} HashedMore(c: Primitives, one: Envelope, evs: seq<Envelope>, k: nat, x: Bytes)
    requires k < |evs| && evs[k] == one && Hashed(c, [one], x)
    ensures Hashed(c, evs, x)
  {
    assert [one][0] == one;
  }

  lemma {:induction false} HeadBindsTexts(c: Primitives, a: seq<Envelope>, b: seq<Envelope>)
    returns (x: Bytes, y: Bytes)
    requires Chain(c, [], a) && Chain(c, [], b)
    requires HeadHash([], a) == HeadHash([], b) != []
    ensures SameSealed(c, a, b) || (Collision(c.sha, x, y) && Hashed(c, a, x) && Hashed(c, b, y))
    decreases |a|
  {
    var n, m := |a| - 1, |b| - 1;
    var p, q := HeadHash([], a[..n]), HeadHash([], b[..m]);
    x, y := TextBinding(c, a[n], b[m], p, q);
    if p != q || !SameTexts(c, a[n], b[m]) {
      HashedMore(c, a[n], a, n, x);
      HashedMore(c, b[m], b, m, y);
      return;
    }
    HeadIsDigest(c, a, n);
    HeadIsDigest(c, b, m);
    if p != [] {
      ChainPrefix(c, [], a, n);
      ChainPrefix(c, [], b, m);
      x, y := HeadBindsTexts(c, a[..n], b[..m]);
      if !SameSealed(c, a[..n], b[..m]) {
        HashedPrefix(c, a, n, x);
        HashedPrefix(c, b, m, y);
        return;
      }
    }
    SameSealedSnoc(c, a, b);
  }

  /**
   * The head hash binds the whole history: two verified runs from genesis with one non-empty head
   * have the same length and agree record by record on every sealed field and the body, or two
   * different hashed inputs with one digest are exhibited, or two records at one place whose
   * different sealed metas have one encoding.
   */
  lemma {:induction false} HeadBindsHistory(c: Primitives, a: seq<Envelope>, b: seq<Envelope>)
    returns (x: Bytes, y: Bytes)
    requires Chain(c, [], a) && Chain(c, [], b)
    requires HeadHash([], a) == HeadHash([], b) != []
    ensures
      || (|a| == |b| && forall i :: 0 <= i < |a| ==> SameRecord(a[i], b[i]))
      || (|a| == |b| && exists i :: 0 <= i < |a| && SameEncoding(c, a[i], b[i]))
      || (Collision(c.sha, x, y) && Hashed(c, a, x) && Hashed(c, b, y))
  {
    hide SameRecord, SameEncoding, Verify, Hashed;
    x, y := HeadBindsTexts(c, a, b);
    if SameSealed(c, a, b) && !exists i :: 0 <= i < |a| && SameEncoding(c, a[i], b[i]) {
      forall i | 0 <= i < |a| ensures SameRecord(a[i], b[i]) {
        SameHeads(c, a, b, i);
        TextsAreFields(c, a[i], b[i], HeadHash([], a[..i]));
      }
    }
  }

  lemma {:induction false} SameHeads(c: Primitives, a: seq<Envelope>, b: seq<Envelope>, n: nat)
    requires SameSealed(c, a, b) && n <= |a|
    ensures HeadHash([], a[..n]) == HeadHash([], b[..n])
  {
    if n > 0 {
      assert SameTexts(c, a[n - 1], b[n - 1]);
      assert a[..n][n - 1] == a[n - 1] && b[..n][n - 1] == b[n - 1];
    }
  }

  lemma {:induction false} SameSealedSnoc(c: Primitives, a: seq<Envelope>, b: seq<Envelope>)
    requires |a| > 0 && |b| > 0
    requires SameSealed(c, a[..|a| - 1], b[..|b| - 1]) && SameTexts(c, a[|a| - 1], b[|b| - 1])
    ensures SameSealed(c, a, b)
  {
    var n := |a| - 1;
    forall i | 0 <= i < n ensures SameTexts(c, a[i], b[i]) {
      assert a[..n][i] == a[i] && b[..n][i] == b[i];
    }
  }

  lemma {:induction false} HeadIsDigest(c: Primitives, a: seq<Envelope>, n: nat)
    requires Chain(c, [], a) && n <= |a|
    ensures n > 0 ==> |HeadHash([], a[..n])| == 32
  {
    if n > 0 {
      assert Verify(c, a[n - 1], HeadHash([], a[..n - 1])) == None;
      assert a[..n][n - 1] == a[n - 1];
    }
  }

  lemma {:induction false} HashedPrefix(c: Primitives, a: seq<Envelope>, n: nat, x: Bytes)
    requires n <= |a| && Hashed(c, a[..n], x)
    ensures Hashed(c, a, x)
  {
    var i :| 0 <= i < n && (
      || x == a[..n][i].body
      || x == MetaText(c, a[..n][i])
      || x == ChainText(a[..n][i].prevHash, a[..n][i].metaHash, a[..n][i].bodyHash));
    assert a[..n][i] == a[i];
  }
}
