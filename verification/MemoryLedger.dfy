/** The in-memory ledger: one log and three indexes changed in place (internal/adapter/memory/ledger.go). */
module MemoryLedger {
  import opened Prelude
  import opened Envelopes
  import opened Ledgers

  datatype Range = Range(stream: string, fromVer: int, toVer: int, fromSeq: int, toSeq: int)

  datatype Head = Head(seqno: int, hash: Bytes)

  function At(streams: map<string, seq<nat>>, s: string): seq<nat> {
    if s in streams then streams[s] else []
  }

  ghost predicate StreamsAgree(all: Log, streams: map<string, seq<nat>>) {
    forall s :: At(streams, s) == Positions(all, s)
  }

  ghost predicate IdemAgree(all: Log, idem: map<(string, string), nat>) {
    forall s, k :: IdemEntryAgrees(all, idem, s, k)
  }

  ghost predicate IdemEntryAgrees(all: Log, idem: map<(string, string), nat>, s: string, k: string) {
    && ((s, k) in idem <==> k != "" && IdemUsed(all, s, k))
    && ((s, k) in idem ==> idem[(s, k)] < |all| && all[idem[(s, k)]].stream == s && all[idem[(s, k)]].idem == k)
  }

  ghost predicate OriginsAgree(all: Log, origins: map<(string, int), nat>) {
    forall d, n :: OriginEntryAgrees(all, origins, d, n)
  }

  ghost predicate OriginEntryAgrees(all: Log, origins: map<(string, int), nat>, d: string, n: int) {
    && ((d, n) in origins <==> OriginUsed(all, d, n))
    && ((d, n) in origins ==> origins[(d, n)] < |all| && FromOrigin(all[origins[(d, n)]], d, n))
  }

  /** The index updates of one committed record. */
  function IdemWith(idem: map<(string, string), nat>, e: Envelope, idx: nat): map<(string, string), nat> {
    if e.idem != "" then idem[(e.stream, e.idem) := idx] else idem
  }

  function OriginsWith(origins: map<(string, int), nat>, e: Envelope, idx: nat): map<(string, int), nat> {
    if e.origin.Some? then origins[(e.origin.value.daemon, e.origin.value.localSeq) := idx] else origins
  }

  lemma {:induction false} StreamsAgreeSnoc(all: Log, streams: map<string, seq<nat>>, e: Envelope)
    requires StreamsAgree(all, streams)
    ensures StreamsAgree(all + [e], streams[e.stream := At(streams, e.stream) + [|all|]])
  {
    var m := streams[e.stream := At(streams, e.stream) + [|all|]];
    forall s ensures At(m, s) == Positions(all + [e], s) {
      assert At(streams, s) == Positions(all, s);
      StreamOfSnoc(all, e, s);
    }
  }

  lemma {:induction false} IdemAgreeSnoc(all: Log, idem: map<(string, string), nat>, e: Envelope)
    requires IdemAgree(all, idem)
    ensures IdemAgree(all + [e], IdemWith(idem, e, |all|))
  {
    var l, m := all + [e], IdemWith(idem, e, |all|);
    forall s, k ensures IdemEntryAgrees(l, m, s, k) {
      assert IdemEntryAgrees(all, idem, s, k);
      assert IdemUsed(l, s, k) <==> IdemUsed(all, s, k) || (e.stream == s && e.idem == k) by {
        assert l[|all|] == e;
        assert forall i :: 0 <= i < |all| ==> l[i] == all[i];
      }
    }
  }

  lemma {:induction false} OriginsAgreeSnoc(all: Log, origins: map<(string, int), nat>, e: Envelope)
    requires OriginsAgree(all, origins)
    ensures OriginsAgree(all + [e], OriginsWith(origins, e, |all|))
  {
    var l, m := all + [e], OriginsWith(origins, e, |all|);
    forall d, n ensures OriginEntryAgrees(l, m, d, n) {
      assert OriginEntryAgrees(all, origins, d, n);
      assert OriginUsed(l, d, n) <==> OriginUsed(all, d, n) || FromOrigin(e, d, n) by {
        assert l[|all|] == e;
        assert forall i :: 0 <= i < |all| ==> l[i] == all[i];
      }
    }
  }

  lemma {:induction false} SealOnFails(cfg: Config, log: Log, stream: string, evs: seq<Envelope>, k: nat)
    requires k <= |evs| && SealOn(cfg, log, stream, evs[..k]).Err?
    ensures SealOn(cfg, log, stream, evs) == SealOn(cfg, log, stream, evs[..k])
    decreases |evs|
  {
    if k < |evs| {
      var n := |evs| - 1;
      assert evs[..n][..k] == evs[..k];
      SealOnFails(cfg, log, stream, evs[..n], k);
    } else {
      assert evs[..k] == evs;
    }
  }

  class Ledger {
    const cfg: Config
    var all: Log
    var streams: map<string, seq<nat>>
    var idem: map<(string, string), nat>
    var origins: map<(string, int), nat>

    ghost predicate Valid()
      reads this
    {
      && WellFormed(cfg.c, all)
      && StreamsAgree(all, streams) && IdemAgree(all, idem) && OriginsAgree(all, origins)
    }

    constructor (cfg: Config)
      ensures Valid() && this.cfg == cfg && all == []
    {
      this.cfg := cfg;
      all, streams, idem, origins := [], map[], map[], map[];
    }

    method HasIdemClash(stream: string, evs: seq<Envelope>) returns (dup: bool)
      requires Valid()
      ensures dup == IdemClash(all, stream, evs)
    {
      var batch: set<string> := {};
      for i := 0 to |evs|
        invariant forall k :: k in batch <==> k != "" && exists j :: 0 <= j < i && evs[j].idem == k
        invariant forall j :: 0 <= j < i ==> !IdemClashAt(all, stream, evs, j)
      {
        var k := evs[i].idem;
        if k != "" {
          assert IdemEntryAgrees(all, idem, stream, k);
          if (stream, k) in idem || k in batch {
            assert IdemClashAt(all, stream, evs, i);
            return true;
          }
          batch := batch + {k};
        }
      }
      return false;
    }

    method HasOriginClash(evs: seq<Envelope>) returns (dup: bool)
      requires Valid()
      ensures dup == OriginClash(all, evs)
    {
      for i := 0 to |evs|
        invariant forall j :: 0 <= j < i ==> !HasUsedOrigin(all, evs[j])
      {
        if evs[i].origin.Some? {
          var o := evs[i].origin.value;
          assert OriginEntryAgrees(all, origins, o.daemon, o.localSeq);
          if (o.daemon, o.localSeq) in origins {
            assert HasUsedOrigin(all, evs[i]);
            return true;
          }
        }
      }
      return false;
    }

    method CheckAppend(stream: string, expected: int, evs: seq<Envelope>) returns (r: Option<AppendError>)
      requires Valid()
      ensures r == Refusal(all, stream, expected, evs)
    {
      if evs == [] {
        return Some(EmptyAppend);
      }
      var dup := HasIdemClash(stream, evs);
      if dup {
        return Some(DuplicateIdem);
      }
      dup := HasOriginClash(evs);
      if dup {
        return Some(DuplicateOrigin);
      }
      var cur := Version(stream);
      return if expected != ANY_VERSION && expected != cur then Some(VersionConflict) else None;
    }

    method Version(stream: string) returns (cur: nat)
      requires Valid()
      ensures cur == |StreamOf(all, stream)|
    {
      PositionsIndex(all, stream);
      cur := |At(streams, stream)|;
    }

    method Append(stream: string, expected: int, evs: seq<Envelope>) returns (r: Result<Range, AppendError>)
      requires Valid()
      modifies this
      ensures Valid()
      ensures match Ledgers.Append(cfg, old(all), stream, expected, evs)
        case Ok(l) => all == l && r == Ok(RangeOf(old(all), l, stream))
        case Err(e) => r == Err(e) && unchanged(this)
    {
      hide WellFormed, StreamsAgree, IdemAgree, OriginsAgree, SealOn, Refusal;
      var refused := CheckAppend(stream, expected, evs);
      if refused.Some? {
        return Err(refused.value);
      }
      var cur := Version(stream);
      var sealed := SealBatch(cfg, all, stream, cur, evs);
      if sealed.Err? {
        return Err(sealed.error);
      }
      var from := |all|;
      BatchKeeps(cfg, all, stream, expected, evs, sealed.value);
      Commit(stream, sealed.value);
      return Ok(Range(stream, cur + 1, cur + |evs|, from + 1, |all|));
    }

    /** Writes a sealed batch into the log and the three indexes. */
    method Commit(stream: string, sealed: seq<Envelope>)
      requires Valid() && WellFormed(cfg.c, all + sealed)
      requires forall i :: 0 <= i < |sealed| ==> sealed[i].stream == stream
      modifies this
      ensures Valid() && all == old(all) + sealed
    {
      hide WellFormed, StreamsAgree, IdemAgree, OriginsAgree;
      for i := 0 to |sealed|
        invariant all == old(all) + sealed[..i]
        invariant StreamsAgree(all, streams) && IdemAgree(all, idem) && OriginsAgree(all, origins)
      {
        var e, idx := sealed[i], |all|;
        StreamsAgreeSnoc(all, streams, e);
        IdemAgreeSnoc(all, idem, e);
        OriginsAgreeSnoc(all, origins, e);
        all := all + [e];
        streams := streams[stream := At(streams, stream) + [idx]];
        idem := IdemWith(idem, e, idx);
        origins := OriginsWith(origins, e, idx);
      }
      assert sealed[..|sealed|] == sealed;
    }

    /** The stream's records with ver >= from, oldest first. */
    method Read(stream: string, from: int) returns (out: Log)
      requires Valid()
      ensures out == ReadSpec(all, stream, from)
    {
      PositionsIndex(all, stream);
      StreamVersions(cfg.c, all, stream);
      out := Select(all, At(streams, stream), from, StreamOf(all, stream));
    }

    /** At most limit records from fromSeq on; a limit of 0 or less means all of them. */
    method ReadAll(fromSeq: int, limit: int) returns (out: Log)
      ensures out == ReadAllSpec(all, fromSeq, limit)
    {
      var start := if fromSeq < 1 then 0 else fromSeq - 1;
      out := [];
      if start >= |all| {
        return;
      }
      var i := start;
      while i < |all| && !(limit > 0 && |out| >= limit)
        invariant start <= i <= |all| && out == all[start..i]
        invariant limit > 0 ==> |out| <= limit
      {
        out := out + [all[i]];
        i := i + 1;
      }
    }

    method GetHead() returns (h: Head)
      requires Valid()
      ensures h == Head(|all|, HeadHash([], all))
    {
      if |all| == 0 {
        return Head(0, []);
      }
      return Head(|all|, all[|all| - 1].hash);
    }

    /** The seq of the record with this origin, exactly when there is one. */
    method FindOrigin(daemon: string, localSeq: int) returns (r: Option<int>)
      requires Valid()
      ensures r.Some? <==> OriginUsed(all, daemon, localSeq)
      ensures r.Some? ==> 1 <= r.value <= |all| && FromOrigin(all[r.value - 1], daemon, localSeq)
    {
      assert OriginEntryAgrees(all, origins, daemon, localSeq);
      if (daemon, localSeq) !in origins {
        return None;
      }
      var i := origins[(daemon, localSeq)];
      assert Follows(cfg.c, all[..i], all[i]);
      return Some(all[i].seqno);
    }

    /** The one record that carries the key on the stream, exactly when there is one. */
    method Lookup(stream: string, key: string) returns (r: Option<Envelope>)
      requires Valid()
      ensures r.Some? <==> key != "" && IdemUsed(all, stream, key)
      ensures r.Some? ==> r.value in all && r.value.stream == stream && r.value.idem == key
      ensures r.Some? ==> forall e :: e in all && e.stream == stream && e.idem == key ==> e == r.value
    {
      assert IdemEntryAgrees(all, idem, stream, key);
      if (stream, key) !in idem {
        return None;
      }
      r := Some(all[idem[(stream, key)]]);
      forall e | e in all && e.stream == stream && e.idem == key ensures e == r.value {
        var i :| 0 <= i < |all| && all[i] == e;
        var j := idem[(stream, key)];
        KeyUsedOnce(cfg.c, all, i, j);
        KeyUsedOnce(cfg.c, all, j, i);
      }
    }
  }

  function RangeOf(log: Log, l: Log, stream: string): Range {
    Range(stream, |StreamOf(log, stream)| + 1, |StreamOf(l, stream)|, |log| + 1, |l|)
  }

  function ReadSpec(all: Log, stream: string, from: int): Log {
    var k := if from < 1 then 0 else from - 1;
    if k <= |StreamOf(all, stream)| then StreamOf(all, stream)[k..] else []
  }

  /** What is read of a stream is its records from that version on. */
  lemma {:induction false} ReadIsSuffix(c: Primitives, all: Log, stream: string, from: int)
    requires WellFormed(c, all)
    ensures var out, s := ReadSpec(all, stream, from), StreamOf(all, stream);
      && |out| <= |s| && out == s[|s| - |out|..]
      && forall i :: 0 <= i < |s| ==> (s[i].ver >= from <==> i >= |s| - |out|)
  {
    hide WellFormed;
    StreamVersions(c, all, stream);
  }

  /** The first n records of a stream, from that version on. */
  ghost function FromVersion(s: Log, from: int, n: nat): Log
    requires n <= |s|
  {
    var k := if from < 1 then 0 else from - 1;
    if k <= n then s[k..n] else []
  }

  lemma {:induction false} FromVersionSnoc(s: Log, from: int, n: nat)
    requires n < |s|
    ensures FromVersion(s, from, n + 1) == if n + 1 >= from then FromVersion(s, from, n) + [s[n]] else []
    ensures FromVersion(s, from, 0) == [] && (n + 1 < from ==> FromVersion(s, from, n) == [])
  {
  }

  /** The loop of Read over one stream's positions. */
  method Select(all: Log, idxs: seq<nat>, from: int, ghost s: Log) returns (out: Log)
    requires |idxs| == |s|
    requires forall i :: 0 <= i < |s| ==> idxs[i] < |all| && all[idxs[i]] == s[i] && s[i].ver == i + 1
    ensures out == FromVersion(s, from, |s|)
  {
    hide FromVersion;
    out := [];
    NothingSelected(s, from);
    for i := 0 to |idxs|
      invariant out == FromVersion(s, from, i)
    {
      FromVersionSnoc(s, from, i);
      if all[idxs[i]].ver >= from {
        out := out + [all[idxs[i]]];
      }
    }
  }

  lemma {:induction false} NothingSelected(s: Log, from: int)
    ensures FromVersion(s, from, 0) == []
  {
  }

  /** Seals the whole batch before anything is written, so a failure leaves no trace. */
  method SealBatch(cfg: Config, all: Log, stream: string, cur: nat, evs: seq<Envelope>)
    returns (r: Result<seq<Envelope>, AppendError>)
    requires cur == |StreamOf(all, stream)|
    ensures match SealOn(cfg, all, stream, evs)
      case Ok(l) => r.Ok? && l == all + r.value
      case Err(e) => r == Err(e)
  {
    hide SealNext;
    var sealed: seq<Envelope> := [];
    assert all + sealed == all;
    for i := 0 to |evs|
      invariant SealOn(cfg, all, stream, evs[..i]) == Ok(all + sealed)
    {
      SealOnStep(cfg, all, stream, evs, i, all + sealed);
      var next := SealNext(cfg, all + sealed, stream, cur + i + 1, evs[i]);
      if next.Err? {
        SealOnFails(cfg, all, stream, evs, i + 1);
        return Err(next.error);
      }
      assert all + sealed + [next.value] == all + (sealed + [next.value]);
      sealed := sealed + [next.value];
    }
    assert evs[..|evs|] == evs;
    return Ok(sealed);
  }

  lemma {:induction false} SealOnStep(cfg: Config, log: Log, stream: string, evs: seq<Envelope>, i: nat, l: Log)
    requires i < |evs| && SealOn(cfg, log, stream, evs[..i]) == Ok(l)
    ensures SealOn(cfg, log, stream, evs[..i + 1]) ==
      match SealNext(cfg, l, stream, |StreamOf(log, stream)| + i + 1, evs[i])
      case Err(e) => Err(e)
      case Ok(e) => Ok(l + [e])
  {
    hide SealNext;
    SealOnShape(cfg, log, stream, evs[..i]);
    assert evs[..i + 1][..i] == evs[..i];
  }

  lemma {:induction false} BatchKeeps(cfg: Config, log: Log, stream: string, expected: int, evs: seq<Envelope>,
      batch: seq<Envelope>)
    requires WellFormed(cfg.c, log) && Refusal(log, stream, expected, evs).None?
    requires SealOn(cfg, log, stream, evs) == Ok(log + batch)
    ensures WellFormed(cfg.c, log + batch) && |batch| == |evs|
    ensures forall i :: 0 <= i < |batch| ==> batch[i].stream == stream
    ensures |StreamOf(log + batch, stream)| == |StreamOf(log, stream)| + |evs|
  {
    SealOnKeeps(cfg, log, stream, evs, log + batch);
    forall i | 0 <= i < |batch| ensures batch[i].stream == stream {
      assert CopyOn((log + batch)[|log| + i], evs[i], stream);
    }
  }

  function ReadAllSpec(all: Log, fromSeq: int, limit: int): Log {
    var start := if fromSeq < 1 then 0 else fromSeq - 1;
    if start >= |all| then []
    else if limit > 0 && start + limit <= |all| then all[start..start + limit]
    else all[start..]
  }

  /** A page starts at the seq asked for and is as long as the limit, when there is one, and the log allow. */
  lemma {:induction false} ReadAllCuts(all: Log, from: nat, limit: int)
    requires from >= 1
    ensures var page := ReadAllSpec(all, from, limit);
      && (limit <= 0 ==> |page| == if from <= |all| then |all| - from + 1 else 0)
      && (limit > 0 ==> |page| <= limit && (|page| == limit || from + |page| > |all|))
      && (forall k :: 0 <= k < |page| ==> from - 1 + k < |all| && page[k] == all[from - 1 + k])
    ensures ReadAllSpec(all, 0, limit) == ReadAllSpec(all, 1, limit)
  {
  }

  lemma {:induction false} KeyUsedOnce(c: Primitives, log: Log, i: nat, j: nat)
    requires WellFormed(c, log) && i < |log| && j < |log|
    ensures i < j && log[j].idem != "" ==> log[i].stream != log[j].stream || log[i].idem != log[j].idem
  {
    if i < j {
      assert Follows(c, log[..j], log[j]);
      assert log[..j][i] == log[i];
    }
  }
}
