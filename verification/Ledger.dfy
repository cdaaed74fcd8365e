/**
 * The append-only ledger as a value: what one Append does to a log, and what every log written by
 * appends satisfies (internal/port/ledger.go, internal/adapter/memory/ledger.go).
 */
module Ledgers {
  import opened Prelude
  import opened Envelopes

  const ANY_VERSION := -1

  datatype AppendError =
    | EmptyAppend | DuplicateIdem | DuplicateOrigin | VersionConflict | BadEnvelope | SignFailed

  /** The chain primitives and the optional signer; signing may fail. */
  datatype Config = Config(c: Primitives, sign: Option<Bytes -> Option<Bytes>>)

  type Log = seq<Envelope>

  /** The records of one stream, in log order. */
  function StreamOf(log: Log, stream: string): Log {
    if log == [] then []
    else
      var n := |log| - 1;
      StreamOf(log[..n], stream) + (if log[n].stream == stream then [log[n]] else [])
  }

  /** The positions of one stream's records. */
  function Positions(log: Log, stream: string): seq<nat> {
    if log == [] then []
    else
      var n := |log| - 1;
      Positions(log[..n], stream) + (if log[n].stream == stream then [n] else [])
  }

  predicate IdemUsed(log: Log, stream: string, idem: string) {
    exists i :: 0 <= i < |log| && log[i].stream == stream && log[i].idem == idem
  }

  predicate FromOrigin(e: Envelope, daemon: string, localSeq: int) {
    e.origin.Some? && e.origin.value.daemon == daemon && e.origin.value.localSeq == localSeq
  }

  predicate OriginUsed(log: Log, daemon: string, localSeq: int) {
    exists i :: 0 <= i < |log| && FromOrigin(log[i], daemon, localSeq)
  }

  predicate HasUsedOrigin(log: Log, e: Envelope) {
    e.origin.Some? && OriginUsed(log, e.origin.value.daemon, e.origin.value.localSeq)
  }

  /** An idempotency key of the batch is on the stream already or twice in the batch. */
  predicate IdemClash(log: Log, stream: string, evs: seq<Envelope>) {
    exists j :: 0 <= j < |evs| && IdemClashAt(log, stream, evs, j)
  }

  predicate IdemClashAt(log: Log, stream: string, evs: seq<Envelope>, j: nat)
    requires j < |evs|
  {
    evs[j].idem != "" &&
    (IdemUsed(log, stream, evs[j].idem) || exists i :: 0 <= i < j && evs[i].idem == evs[j].idem)
  }

  predicate OriginClash(log: Log, evs: seq<Envelope>) {
    exists j :: 0 <= j < |evs| && HasUsedOrigin(log, evs[j])
  }

  /** Numbers, seals and signs the next record of a log. */
  function SealNext(cfg: Config, log: Log, stream: string, ver: int, e: Envelope): Result<Envelope, AppendError> {
    var e1 := e.(stream := stream, ver := ver, seqno := |log| + 1);
    if !Sealable(e1) then Err(BadEnvelope)
    else
      var s := Seal(cfg.c, e1, HeadHash([], log));
      if cfg.sign.None? || s.sig != [] then Ok(s)
      else
        match cfg.sign.value(s.hash)
        case None => Err(SignFailed)
        case Some(sig) => Ok(s.(sig := sig))
  }

  /** The log after the batch, each record sealed on top of the one before. */
  function SealOn(cfg: Config, log: Log, stream: string, evs: seq<Envelope>): Result<Log, AppendError>
    decreases |evs|
  {
    if evs == [] then Ok(log)
    else
      var n := |evs| - 1;
      match SealOn(cfg, log, stream, evs[..n])
      case Err(e) => Err(e)
      case Ok(l) =>
        match SealNext(cfg, l, stream, |StreamOf(l, stream)| + 1, evs[n])
        case Err(e) => Err(e)
        case Ok(e) => Ok(l + [e])
  }

  /** The checks of Append, in their order. */
  function Refusal(log: Log, stream: string, expected: int, evs: seq<Envelope>): Option<AppendError> {
    if evs == [] then Some(EmptyAppend)
    else if IdemClash(log, stream, evs) then Some(DuplicateIdem)
    else if OriginClash(log, evs) then Some(DuplicateOrigin)
    else if expected != ANY_VERSION && expected != |StreamOf(log, stream)| then Some(VersionConflict)
    else None
  }

  /** What one Append does: the new log, or the reason nothing was written. */
  function Append(cfg: Config, log: Log, stream: string, expected: int, evs: seq<Envelope>): Result<Log, AppendError> {
    match Refusal(log, stream, expected, evs)
    case Some(e) => Err(e)
    case None => SealOn(cfg, log, stream, evs)
  }

  // ---- what every log satisfies ----

  /** e is a proper next record after the log. */
  ghost predicate Follows(c: Primitives, log: Log, e: Envelope) {
    && e.seqno == |log| + 1
    && e.ver == |StreamOf(log, e.stream)| + 1
    && Verify(c, e, HeadHash([], log)) == None
    && Sealable(e) && e.ts % 1000 == 0
    && (e.idem != "" ==> !IdemUsed(log, e.stream, e.idem))
  }

  /** Seqs 1..n, versions 1..k per stream, one hash chain, one record per idempotency key. */
  ghost predicate WellFormed(c: Primitives, log: Log) {
    forall i :: 0 <= i < |log| ==> Follows(c, log[..i], log[i])
  }

  ghost predicate OriginsDistinct(log: Log) {
    forall i, j :: 0 <= i < j < |log| ==> !SameOrigin(log[i], log[j])
  }

  /** The sealed copy keeps everything a caller supplied except ordering, hashes and precision. */
  predicate Copies(s: Envelope, e: Envelope) {
    && s.kind == e.kind && s.v == e.v && s.actor == e.actor && s.meta == e.meta && s.body == e.body
    && s.idem == e.idem && s.origin == e.origin && s.ts == Microseconds(e.ts)
    && (e.sig != [] ==> s.sig == e.sig)
  }

  lemma {:induction false} StreamOfSnoc(log: Log, e: Envelope, stream: string)
    ensures StreamOf(log + [e], stream) == StreamOf(log, stream) + (if e.stream == stream then [e] else [])
    ensures Positions(log + [e], stream) == Positions(log, stream) + (if e.stream == stream then [|log|] else [])
  {
    assert (log + [e])[..|log|] == log;
  }

  lemma {:induction false} PositionsIndex(log: Log, stream: string)
    ensures |Positions(log, stream)| == |StreamOf(log, stream)|
    ensures forall k :: 0 <= k < |Positions(log, stream)| ==>
      Positions(log, stream)[k] < |log| && log[Positions(log, stream)[k]] == StreamOf(log, stream)[k]
  {
    if log != [] {
      PositionsIndex(log[..|log| - 1], stream);
    }
  }

  /** A record is in its stream's list exactly when it is in the log on that stream. */
  lemma {:induction false} StreamOfMembers(log: Log, stream: string, e: Envelope)
    ensures e in StreamOf(log, stream) <==> e in log && e.stream == stream
  {
    if log != [] {
      StreamOfMembers(log[..|log| - 1], stream, e);
      assert log == log[..|log| - 1] + [log[|log| - 1]];
    }
  }

  lemma {:induction false} WellFormedSnoc(c: Primitives, log: Log, e: Envelope)
    requires WellFormed(c, log) && Follows(c, log, e)
    ensures WellFormed(c, log + [e])
  {
    var l := log + [e];
    forall i | 0 <= i < |l| ensures Follows(c, l[..i], l[i]) {
      assert l[..i] == log[..i];
      assert log[..|log|] == log;
    }
  }

  lemma {:induction false} WellFormedPrefix(c: Primitives, log: Log, n: nat)
    requires WellFormed(c, log) && n <= |log|
    ensures WellFormed(c, log[..n])
  {
    forall i | 0 <= i < n ensures Follows(c, log[..n][..i], log[..n][i]) {
      assert log[..n][..i] == log[..i];
    }
  }

  /** l is the log with the batch added at its end on one stream; no other stream moves. */
  ghost predicate Appended(log: Log, l: Log, stream: string, evs: seq<Envelope>) {
    && |l| == |log| + |evs| && l[..|log|] == log
    && (forall i :: 0 <= i < |evs| ==> CopyOn(l[|log| + i], evs[i], stream))
    && StreamOf(l, stream) == StreamOf(log, stream) + l[|log|..]
    && (forall s :: s != stream ==> StreamOf(l, s) == StreamOf(log, s))
  }

  predicate CopyOn(s: Envelope, e: Envelope, stream: string) {
    Copies(s, e) && s.stream == stream
  }

  lemma {:induction false} AppendedSnoc(log: Log, l: Log, stream: string, evs: seq<Envelope>, s: Envelope, e: Envelope)
    requires Appended(log, l, stream, evs) && CopyOn(s, e, stream)
    ensures Appended(log, l + [s], stream, evs + [e])
  {
    var l1 := l + [s];
    assert l1[..|log|] == l[..|log|];
    assert l1[|log|..] == l[|log|..] + [s];
    forall t ensures StreamOf(l1, t) == StreamOf(l, t) + (if t == stream then [s] else []) {
      StreamOfSnoc(l, s, t);
    }
    forall i | 0 <= i < |evs| + 1 ensures CopyOn(l1[|log| + i], (evs + [e])[i], stream) {
      if i < |evs| {
        assert l1[|log| + i] == l[|log| + i];
      }
    }
  }

  lemma {:induction false} SealNextFollows(cfg: Config, log: Log, stream: string, e: Envelope)
    requires SealNext(cfg, log, stream, |StreamOf(log, stream)| + 1, e).Ok?
    ensures var s := SealNext(cfg, log, stream, |StreamOf(log, stream)| + 1, e).value;
      && CopyOn(s, e, stream)
      && ((e.idem != "" ==> !IdemUsed(log, stream, e.idem)) ==> Follows(cfg.c, log, s))
  {
    var ver := |StreamOf(log, stream)| + 1;
    var e1 := e.(stream := stream, ver := ver, seqno := |log| + 1);
    SealVerifies(cfg.c, e1, HeadHash([], log));
    var s := SealNext(cfg, log, stream, ver, e).value;
    assert s == Seal(cfg.c, e1, HeadHash([], log)).(sig := s.sig);
    assert MetaText(cfg.c, s) == MetaText(cfg.c, Seal(cfg.c, e1, HeadHash([], log)));
  }

  /** Unfolds one record of a sealed batch. */
  lemma {:induction false} SealOnSnoc(cfg: Config, log: Log, stream: string, evs: seq<Envelope>)
    returns (l0: Log, s: Envelope)
    requires evs != [] && SealOn(cfg, log, stream, evs).Ok?
    ensures SealOn(cfg, log, stream, evs[..|evs| - 1]) == Ok(l0)
    ensures SealOn(cfg, log, stream, evs).value == l0 + [s]
    ensures CopyOn(s, evs[|evs| - 1], stream)
    ensures (evs[|evs| - 1].idem != "" ==> !IdemUsed(l0, stream, evs[|evs| - 1].idem)) ==> Follows(cfg.c, l0, s)
  {
    var n := |evs| - 1;
    l0 := SealOn(cfg, log, stream, evs[..n]).value;
    s := SealNext(cfg, l0, stream, |StreamOf(l0, stream)| + 1, evs[n]).value;
    SealNextFollows(cfg, l0, stream, evs[n]);
  }

  /** The sealed batch extends the log record by record and keeps what the caller supplied. */
  lemma {:induction false} SealOnShape(cfg: Config, log: Log, stream: string, evs: seq<Envelope>)
    requires SealOn(cfg, log, stream, evs).Ok?
    ensures Appended(log, SealOn(cfg, log, stream, evs).value, stream, evs)
    decreases |evs|
  {
    if evs != [] {
      var n := |evs| - 1;
      var l0, s := SealOnSnoc(cfg, log, stream, evs);
      SealOnShape(cfg, log, stream, evs[..n]);
      AppendedSnoc(log, l0, stream, evs[..n], s, evs[n]);
      assert evs == evs[..n] + [evs[n]];
    } else {
      assert log[|log|..] == [];
    }
  }

  lemma {:induction false} SealOnWellFormed(cfg: Config, log: Log, stream: string, evs: seq<Envelope>)
    requires WellFormed(cfg.c, log) && SealOn(cfg, log, stream, evs).Ok? && !IdemClash(log, stream, evs)
    ensures WellFormed(cfg.c, SealOn(cfg, log, stream, evs).value)
    decreases |evs|
  {
    if evs != [] {
      var n := |evs| - 1;
      forall j | 0 <= j < n ensures !IdemClashAt(log, stream, evs[..n], j) {
        assert !IdemClashAt(log, stream, evs, j);
      }
      var l0, s := SealOnSnoc(cfg, log, stream, evs);
      SealOnWellFormed(cfg, log, stream, evs[..n]);
      SealOnShape(cfg, log, stream, evs[..n]);
      FreshKey(log, l0, stream, evs);
      WellFormedSnoc(cfg.c, l0, s);
    }
  }

  lemma {:induction false} FreshKey(log: Log, l0: Log, stream: string, evs: seq<Envelope>)
    requires evs != [] && !IdemClash(log, stream, evs)
    requires Appended(log, l0, stream, evs[..|evs| - 1])
    ensures evs[|evs| - 1].idem != "" ==> !IdemUsed(l0, stream, evs[|evs| - 1].idem)
  {
    var n := |evs| - 1;
    assert !IdemClashAt(log, stream, evs, n);
    forall i | evs[n].idem != "" && 0 <= i < |l0| ensures !(l0[i].stream == stream && l0[i].idem == evs[n].idem) {
      if i < |log| {
        assert log[i] == l0[i];
      } else {
        assert CopyOn(l0[|log| + (i - |log|)], evs[..n][i - |log|], stream);
        assert evs[..n][i - |log|] == evs[i - |log|];
      }
    }
  }

  lemma {:induction false} AppendSeals(cfg: Config, log: Log, stream: string, expected: int,
      evs: seq<Envelope>) returns (l: Log)
    requires Append(cfg, log, stream, expected, evs).Ok?
    ensures Append(cfg, log, stream, expected, evs) == SealOn(cfg, log, stream, evs) == Ok(l)
    ensures !IdemClash(log, stream, evs) && !OriginClash(log, evs) && evs != []
    ensures expected == ANY_VERSION || expected == |StreamOf(log, stream)|
  {
    l := Append(cfg, log, stream, expected, evs).value;
  }

  lemma {:induction false} SealOnKeeps(cfg: Config, log: Log, stream: string, evs: seq<Envelope>, l: Log)
    requires WellFormed(cfg.c, log) && SealOn(cfg, log, stream, evs) == Ok(l) && !IdemClash(log, stream, evs)
    ensures WellFormed(cfg.c, l) && Appended(log, l, stream, evs)
  {
    SealOnWellFormed(cfg, log, stream, evs);
    SealOnShape(cfg, log, stream, evs);
  }

  /** A successful Append keeps the log well formed, leaves the past alone and adds the batch at the end. */
  lemma {:induction false} AppendKeeps(cfg: Config, log: Log, stream: string, expected: int, evs: seq<Envelope>)
    requires WellFormed(cfg.c, log) && Append(cfg, log, stream, expected, evs).Ok?
    ensures var l := Append(cfg, log, stream, expected, evs).value;
      WellFormed(cfg.c, l) && Appended(log, l, stream, evs)
  {
    var l := AppendSeals(cfg, log, stream, expected, evs);
    SealOnKeeps(cfg, log, stream, evs, l);
  }

  /** Sealing itself never reports a conflict or a duplicate key. */
  lemma {:induction false} SealOnNoRefusal(cfg: Config, log: Log, stream: string, evs: seq<Envelope>)
    ensures SealOn(cfg, log, stream, evs).Err? ==> SealOn(cfg, log, stream, evs).error in {BadEnvelope, SignFailed}
    decreases |evs|
  {
    if evs != [] {
      SealOnNoRefusal(cfg, log, stream, evs[..|evs| - 1]);
    }
  }

  /** The two records come from one place of one daemon. */
  predicate SameOrigin(a: Envelope, b: Envelope) {
    a.origin.Some? && FromOrigin(b, a.origin.value.daemon, a.origin.value.localSeq)
  }

  lemma {:induction false} OriginsAfter(log: Log, l: Log, stream: string, evs: seq<Envelope>)
    requires OriginsDistinct(log) && !OriginClash(log, evs) && Appended(log, l, stream, evs)
    ensures OriginsDistinct(l) <==> OriginsDistinct(evs)
  {
    assert forall i :: 0 <= i < |evs| ==> CopyOn(l[|log| + i], evs[i], stream);
    if OriginsDistinct(evs) {
      forall i, j | 0 <= i < j < |l| ensures !SameOrigin(l[i], l[j]) {
        if j < |log| {
          assert l[i] == log[i] && l[j] == log[j];
        } else {
          var b := evs[j - |log|];
          assert CopyOn(l[|log| + (j - |log|)], b, stream);
          assert !HasUsedOrigin(log, b);
          if i < |log| {
            assert l[i] == log[i];
          } else {
            assert CopyOn(l[|log| + (i - |log|)], evs[i - |log|], stream);
          }
        }
      }
    } else {
      var i, j :| 0 <= i < j < |evs| && SameOrigin(evs[i], evs[j]);
      assert SameOrigin(l[|log| + i], l[|log| + j]);
    }
  }

  /** Origins stay distinct exactly when the batch itself does not repeat one: Append checks the log only. */
  lemma {:induction false} OriginsStayDistinct(cfg: Config, log: Log, stream: string, expected: int, evs: seq<Envelope>)
    requires OriginsDistinct(log) && Append(cfg, log, stream, expected, evs).Ok?
    ensures OriginsDistinct(Append(cfg, log, stream, expected, evs).value) <==> OriginsDistinct(evs)
  {
    SealOnShape(cfg, log, stream, evs);
    OriginsAfter(log, SealOn(cfg, log, stream, evs).value, stream, evs);
  }

  /** A pushed record with the given body, as it arrives before sealing. */
  function Arriving(body: Bytes): Envelope {
    Envelope(0, "", 0, "Judged", 1, 0, Actor(Human, "ada", "", ""), EventMeta([], "", 0), body, [], [], [], [], [], "",
      Some(Origin("laptop", 7, [])))
  }

  /** One batch with one origin twice is accepted on an empty log. */
  lemma {:induction false} RepeatedOriginIsAccepted(c: Primitives)
    ensures var r := Append(Config(c, None), [], "change/1", 0, [Arriving([1]), Arriving([2])]);
      r.Ok? && !OriginsDistinct(r.value)
  {
    var cfg, evs := Config(c, None), [Arriving([1]), Arriving([2])];
    assert !IdemClash([], "change/1", evs) && !OriginClash([], evs);
    assert evs[..1] == [Arriving([1])] && evs[..1][..0] == [];
    assert SealOn(cfg, [], "change/1", evs[..1]).Ok?;
    assert SealOn(cfg, [], "change/1", evs).Ok?;
    OriginsStayDistinct(cfg, [], "change/1", 0, evs);
    assert SameOrigin(evs[0], evs[1]);
  }

  /** One call of Append. */
  datatype Call = Call(stream: string, expected: int, evs: seq<Envelope>)

  /** The log after one call; a failed call changes nothing. */
  function Try(cfg: Config, log: Log, call: Call): Log {
    match Append(cfg, log, call.stream, call.expected, call.evs)
    case Ok(l) => l
    case Err(_) => log
  }

  /** The log after a sequence of calls. */
  function RunCalls(cfg: Config, calls: seq<Call>): Log {
    if calls == [] then [] else Try(cfg, RunCalls(cfg, calls[..|calls| - 1]), calls[|calls| - 1])
  }

  lemma {:induction false} SeqAt(c: Primitives, log: Log, i: nat)
    requires WellFormed(c, log) && i < |log|
    ensures log[i].seqno == i + 1
  {
    assert Follows(c, log[..i], log[i]);
  }

  lemma {:induction false} WellFormedChain(c: Primitives, log: Log)
    requires WellFormed(c, log)
    ensures Chain(c, [], log)
  {
    forall i | 0 <= i < |log|
      ensures Verify(c, log[i], HeadHash([], log[..i])) == None
      ensures i > 0 ==> log[i].seqno == log[i - 1].seqno + 1
    {
      assert Follows(c, log[..i], log[i]);
      if i > 0 {
        assert Follows(c, log[..i - 1], log[i - 1]);
      }
    }
  }

  /** The versions of a stream are 1, 2, ... in log order. */
  lemma {:induction false} StreamVersions(c: Primitives, log: Log, stream: string)
    requires WellFormed(c, log)
    ensures forall k :: 0 <= k < |StreamOf(log, stream)| ==>
      StreamOf(log, stream)[k].ver == k + 1 && StreamOf(log, stream)[k].stream == stream
  {
    if log != [] {
      var n := |log| - 1;
      WellFormedPrefix(c, log, n);
      StreamVersions(c, log[..n], stream);
      assert Follows(c, log[..n], log[n]);
    }
  }

  /**
   * Every sequence of Append calls leaves one verified chain with seqs 1..n, each stream with
   * versions 1..k, and, when no batch repeats an origin, every origin at most once.
   */
  lemma {:induction false} EveryRunIsWellFormed(cfg: Config, calls: seq<Call>)
    ensures var log := RunCalls(cfg, calls);
      && WellFormed(cfg.c, log)
      && Chain(cfg.c, [], log)
      && (forall i :: 0 <= i < |log| ==> log[i].seqno == i + 1)
      && (forall s, k :: 0 <= k < |StreamOf(log, s)| ==> StreamOf(log, s)[k].ver == k + 1)
      && ((forall k :: 0 <= k < |calls| ==> OriginsDistinct(calls[k].evs)) ==> OriginsDistinct(log))
  {
    hide Append, Appended, Follows, SameOrigin;
    var log := RunCalls(cfg, calls);
    if calls != [] {
      var n := |calls| - 1;
      EveryRunIsWellFormed(cfg, calls[..n]);
      var log0 := RunCalls(cfg, calls[..n]);
      if Append(cfg, log0, calls[n].stream, calls[n].expected, calls[n].evs).Ok? {
        AppendKeeps(cfg, log0, calls[n].stream, calls[n].expected, calls[n].evs);
        if forall k :: 0 <= k < |calls| ==> OriginsDistinct(calls[k].evs) {
          assert forall k :: 0 <= k < n ==> calls[..n][k] == calls[k];
          OriginsStayDistinct(cfg, log0, calls[n].stream, calls[n].expected, calls[n].evs);
        }
      } else {
        assert forall k :: 0 <= k < n ==> calls[..n][k] == calls[k];
      }
    }
    RunFacts(cfg.c, log);
  }

  /** A run goes on by its last call; the run of no calls is the empty log. */
  lemma {:induction false} RunGoesOn(cfg: Config, calls: seq<Call>, call: Call)
    ensures RunCalls(cfg, []) == [] && RunCalls(cfg, calls + [call]) == Try(cfg, RunCalls(cfg, calls), call)
  {
    assert (calls + [call])[..|calls|] == calls;
  }

  lemma {:induction false} RunFacts(c: Primitives, log: Log)
    requires WellFormed(c, log)
    ensures Chain(c, [], log)
    ensures forall i :: 0 <= i < |log| ==> log[i].seqno == i + 1
    ensures forall s, k :: 0 <= k < |StreamOf(log, s)| ==> StreamOf(log, s)[k].ver == k + 1
  {
    WellFormedChain(c, log);
    forall i | 0 <= i < |log| ensures log[i].seqno == i + 1 {
      assert Follows(c, log[..i], log[i]);
    }
    forall s ensures forall k :: 0 <= k < |StreamOf(log, s)| ==> StreamOf(log, s)[k].ver == k + 1 {
      StreamVersions(c, log, s);
    }
  }

  // ---- signatures ----

  /** A record keeps a signature it came with; otherwise the signer's, if there is one, of its own hash is on it. */
  ghost predicate SignedAs(cfg: Config, e: Envelope, s: Envelope) {
    if e.sig != [] then s.sig == e.sig
    else if cfg.sign.None? then s.sig == []
    else cfg.sign.value(s.hash) == Some(s.sig)
  }

  lemma {:induction false} SealNextSigns(cfg: Config, log: Log, stream: string, ver: int, e: Envelope)
    requires SealNext(cfg, log, stream, ver, e).Ok?
    ensures SignedAs(cfg, e, SealNext(cfg, log, stream, ver, e).value)
  {
    hide Verify, MetaText;
    SealVerifies(cfg.c, e.(stream := stream, ver := ver, seqno := |log| + 1), HeadHash([], log));
  }

  lemma {:induction false} SealOnSigns(cfg: Config, log: Log, stream: string, evs: seq<Envelope>)
    requires SealOn(cfg, log, stream, evs).Ok?
    ensures var l := SealOn(cfg, log, stream, evs).value;
      |l| == |log| + |evs| && l[..|log|] == log &&
      forall i :: 0 <= i < |evs| ==> SignedAs(cfg, evs[i], l[|log| + i])
    decreases |evs|
  {
    hide SealNext, SignedAs;
    if evs != [] {
      var n := |evs| - 1;
      SealOnSigns(cfg, log, stream, evs[..n]);
      var l0 := SealOn(cfg, log, stream, evs[..n]).value;
      SealNextSigns(cfg, l0, stream, |StreamOf(l0, stream)| + 1, evs[n]);
      var l := SealOn(cfg, log, stream, evs).value;
      forall i | 0 <= i < |evs| ensures SignedAs(cfg, evs[i], l[|log| + i]) {
        if i < n {
          assert SignedAs(cfg, evs[..n][i], l0[|log| + i]);
        }
      }
    }
  }

  /** No record of these calls comes with a signature. */
  ghost predicate Unsigned(calls: seq<Call>) {
    forall i, j :: 0 <= i < |calls| && 0 <= j < |calls[i].evs| ==> calls[i].evs[j].sig == []
  }

  /**
   * After any sequence of append calls with a signer every record carries the signer's signature of
   * its own hash, and without a signer none carries any.
   */
  lemma {:induction false} EveryRecordIsSigned(cfg: Config, calls: seq<Call>)
    requires Unsigned(calls)
    ensures forall s :: s in RunCalls(cfg, calls) ==>
      if cfg.sign.None? then s.sig == [] else cfg.sign.value(s.hash) == Some(s.sig)
  {
    hide SealOn, Refusal;
    if calls != [] {
      var n := |calls| - 1;
      EveryRecordIsSigned(cfg, calls[..n]);
      var log, c, l := RunCalls(cfg, calls[..n]), calls[n], RunCalls(cfg, calls);
      if l != log {
        SealOnSigns(cfg, log, c.stream, c.evs);
        forall s | s in l ensures if cfg.sign.None? then s.sig == [] else cfg.sign.value(s.hash) == Some(s.sig) {
          var i :| 0 <= i < |l| && l[i] == s;
          if i < |log| {
            assert l[..|log|][i] == s;
          } else {
            assert SignedAs(cfg, c.evs[i - |log|], l[|log| + (i - |log|)]);
          }
        }
      }
    }
  }
}
