/**
 * One pipeline serving several aggregate types over one ledger (internal/app/wire.go): each type's
 * streams are legal runs of that type alone, so every read model may rely on them.
 */
module Wiring {
  import opened Prelude
  import opened Envelopes
  import opened Context
  import opened Ledgers
  import opened Team
  import opened Pipelines
  import opened ReadModels
  import opened ScopeKeys
  import Constraints
  import ConstraintIndexes
  import ChangeIndexes
  import ScopeIndexes
  import GateIndexes
  import Gates

  datatype Either<A, B> = Left(a: A) | Right(b: B)

  function ApplyEither<S, T, C, D, X, E, F>(a: Aggregate<S, C, X, E>, b: Aggregate<T, D, X, F>, s: Either<S, T>,
      e: Either<E, F>): Either<S, T> {
    if s.Left? && e.Left? then Left(a.apply(s.a, e.a))
    else if s.Right? && e.Right? then Right(b.apply(s.b, e.b))
    else s
  }

  function Map<E, R>(f: E -> R, events: seq<E>): (r: seq<R>)
    ensures |r| == |events| && forall i :: 0 <= i < |events| ==> r[i] == f(events[i])
  {
    seq(|events|, i requires 0 <= i < |events| => f(events[i]))
  }

  function Lift<E, R>(f: E -> R, d: Decision<E>): Decision<R> {
    match d
    case Emit(events) => Emit(Map(f, events))
    case Reject(code) => Reject(code)
    case Broken => Broken
  }

  function DecideEither<S, T, C, D, X, E, F>(a: Aggregate<S, C, X, E>, b: Aggregate<T, D, X, F>, s: Either<S, T>,
      c: Either<C, D>, x: X): Decision<Either<E, F>> {
    if s.Left? && c.Left? then Lift((e: E) => Left(e), a.decide(s.a, c.a, x))
    else if s.Right? && c.Right? then Lift((e: F) => Right(e), b.decide(s.b, c.b, x))
    else Reject("unknown-command")
  }

  function DecodeEither<S, T, C, D, X, E, F>(a: Aggregate<S, C, X, E>, b: Aggregate<T, D, X, F>,
      p: Payload): Option<Either<E, F>> {
    if a.decode(p).Some? then Some(Left(a.decode(p).value))
    else if b.decode(p).Some? then Some(Right(b.decode(p).value))
    else None
  }

  /** Two registered aggregate types as one; mine says which streams belong to the first. */
  function Both<S, T, C, D, X, E, F>(a: Aggregate<S, C, X, E>, b: Aggregate<T, D, X, F>, mine: string -> bool)
    : Aggregate<Either<S, T>, Either<C, D>, X, Either<E, F>>
  {
    Aggregate(
      (stream: string) => if mine(stream) then Left(a.zero(stream)) else Right(b.zero(stream)),
      (s: Either<S, T>, e: Either<E, F>) => ApplyEither(a, b, s, e),
      (s: Either<S, T>, c: Either<C, D>, x: X) => DecideEither(a, b, s, c, x),
      (c: Either<C, D>) => if c.Left? then a.stream(c.a) else b.stream(c.b),
      (c: Either<C, D>) => if c.Left? then a.key(c.a) else b.key(c.b),
      (e: Either<E, F>) => if e.Left? then a.encode(e.a) else b.encode(e.b),
      (p: Payload) => DecodeEither(a, b, p))
  }

  /** The commands of the two types address different streams. */
  ghost predicate Apart<S, T, C(!new), D(!new), X, E, F>(a: Aggregate<S, C, X, E>, b: Aggregate<T, D, X, F>,
      mine: string -> bool) {
    (forall c :: AddressesMine(a, mine, c)) && (forall d :: !AddressesMine(b, mine, d))
  }

  predicate AddressesMine<S, C, X, E>(agg: Aggregate<S, C, X, E>, mine: string -> bool, c: C) {
    mine(agg.stream(c))
  }

  /** No record reads as an event of both types. */
  ghost predicate KindsApart<S, T, C, D, X, E, F>(a: Aggregate<S, C, X, E>, b: Aggregate<T, D, X, F>) {
    forall p :: a.decode(p).None? || b.decode(p).None?
  }

  lemma {:induction false} BothLawful<S, T, C(!new), D(!new), X, E(!new), F(!new)>(a: Aggregate<S, C, X, E>,
      b: Aggregate<T, D, X, F>, mine: string -> bool)
    requires Lawful(a) && Lawful(b) && KindsApart(a, b)
    ensures Lawful(Both(a, b, mine))
  {
    var both := Both(a, b, mine);
    forall e: Either<E, F> ensures both.decode(both.encode(e)) == Some(e) {
    }
    forall c: Either<C, D> ensures both.stream(c) != REJECTED_STREAM {
    }
  }

  /** Part of a ledger belongs to one aggregate type: its streams are legal, and only they hold its events. */
  ghost predicate PartOf<S, C(!new), X(!new), E>(agg: Aggregate<S, C, X, E>, mine: string -> bool, log: Log) {
    && (forall stream :: mine(stream) ==> Legal(agg, stream, StreamOf(log, stream)))
    && (forall i :: 0 <= i < |log| && agg.decode(PayloadOf(log[i])).Some? ==> mine(log[i].stream))
  }

  // ---- the first type's streams ----

  lemma {:induction false} ReplayLeft<S, T, C, D, X, E, F>(a: Aggregate<S, C, X, E>, b: Aggregate<T, D, X, F>,
      mine: string -> bool, stream: string, envs: Log)
    requires mine(stream) && Replay(a, stream, envs).Some?
    ensures Replay(Both(a, b, mine), stream, envs) == Some(Left(Replay(a, stream, envs).value))
  {
    if envs != [] {
      ReplayLeft(a, b, mine, stream, envs[..|envs| - 1]);
    }
  }

  lemma {:induction false} LegalReplays<S(!new), C(!new), X(!new), E>(agg: Aggregate<S, C, X, E>, stream: string,
      envs: Log)
    requires Legal(agg, stream, envs)
    ensures Replay(agg, stream, envs).Some? && forall i :: 0 <= i < |envs| ==> agg.decode(PayloadOf(envs[i])).Some?
  {
    hide Legal, Replay;
    LegalStreamsKeep(agg, stream, envs, (_: S) => true, (_: E) => true);
  }

  lemma {:induction false} BatchLeft<S, T, C(!new), D(!new), X, E, F>(a: Aggregate<S, C, X, E>,
      b: Aggregate<T, D, X, F>, mine: string -> bool, stream: string, before: Log, batch: Log, c: Either<C, D>,
      x: X)
    requires Apart(a, b, mine) && mine(stream) && Replay(a, stream, before).Some?
    requires Batch(Both(a, b, mine), stream, before, batch, c, x)
    ensures c.Left? && Batch(a, stream, before, batch, c.a, x)
  {
    hide Replay;
    ReplayLeft(a, b, mine, stream, before);
    assert c.Right? ==> !AddressesMine(b, mine, c.b);
    var s := Replay(a, stream, before).value;
    assert c.Left?;
    var events := a.decide(s, c.a, x).events;
    var lifted: seq<Either<E, F>> := Map((e: E) => Left(e), events);
    forall i | 0 <= i < |batch| ensures a.decode(PayloadOf(batch[i])) == Some(events[i]) {
      assert DecodeEither(a, b, PayloadOf(batch[i])) == Some(lifted[i]);
    }
  }

  lemma {:induction false} LegalLeft<S(!new), T, C(!new), D(!new), X(!new), E, F>(a: Aggregate<S, C, X, E>,
      b: Aggregate<T, D, X, F>, mine: string -> bool, stream: string, envs: Log)
    requires Apart(a, b, mine) && mine(stream) && Legal(Both(a, b, mine), stream, envs)
    ensures Legal(a, stream, envs)
    decreases |envs|
  {
    hide Batch, Replay;
    if envs != [] {
      var n, c, x :| 0 <= n < |envs| && Legal(Both(a, b, mine), stream, envs[..n])
        && Batch(Both(a, b, mine), stream, envs[..n], envs[n..], c, x);
      LegalLeft(a, b, mine, stream, envs[..n]);
      LegalReplays(a, stream, envs[..n]);
      BatchLeft(a, b, mine, stream, envs[..n], envs[n..], c, x);
      LegalExtends(a, stream, envs[..n], envs[n..], c.a, x);
      assert envs[..n] + envs[n..] == envs;
    }
  }

  // ---- the second type's streams ----

  /** No record of this stream reads as the first type. */
  ghost predicate Foreign<S, C, X, E>(a: Aggregate<S, C, X, E>, envs: Log) {
    forall i :: 0 <= i < |envs| ==> a.decode(PayloadOf(envs[i])).None?
  }

  lemma {:induction false} ReplayRight<S, T, C, D, X, E, F>(a: Aggregate<S, C, X, E>, b: Aggregate<T, D, X, F>,
      mine: string -> bool, stream: string, envs: Log)
    requires !mine(stream) && Foreign(a, envs) && Replay(b, stream, envs).Some?
    ensures Replay(Both(a, b, mine), stream, envs) == Some(Right(Replay(b, stream, envs).value))
  {
    if envs != [] {
      ReplayRight(a, b, mine, stream, envs[..|envs| - 1]);
    }
  }

  lemma {:induction false} BatchRight<S, T, C(!new), D(!new), X, E, F>(a: Aggregate<S, C, X, E>,
      b: Aggregate<T, D, X, F>, mine: string -> bool, stream: string, before: Log, batch: Log, c: Either<C, D>,
      x: X)
    requires Apart(a, b, mine) && !mine(stream) && Foreign(a, before) && Replay(b, stream, before).Some?
    requires Batch(Both(a, b, mine), stream, before, batch, c, x)
    ensures c.Right? && Batch(b, stream, before, batch, c.b, x) && Foreign(a, batch)
  {
    hide Replay;
    ReplayRight(a, b, mine, stream, before);
    assert c.Left? ==> AddressesMine(a, mine, c.a);
    var s := Replay(b, stream, before).value;
    assert c.Right?;
    var events := b.decide(s, c.b, x).events;
    var lifted: seq<Either<E, F>> := Map((e: F) => Right(e), events);
    forall i | 0 <= i < |batch|
      ensures b.decode(PayloadOf(batch[i])) == Some(events[i]) && a.decode(PayloadOf(batch[i])).None? {
      assert DecodeEither(a, b, PayloadOf(batch[i])) == Some(lifted[i]);
    }
  }

  lemma {:induction false} LegalRight<S(!new), T(!new), C(!new), D(!new), X(!new), E, F>(a: Aggregate<S, C, X, E>,
      b: Aggregate<T, D, X, F>, mine: string -> bool, stream: string, envs: Log)
    requires Apart(a, b, mine) && !mine(stream) && Legal(Both(a, b, mine), stream, envs)
    ensures Legal(b, stream, envs) && Foreign(a, envs)
    decreases |envs|
  {
    hide Batch, Replay;
    if envs != [] {
      var n, c, x :| 0 <= n < |envs| && Legal(Both(a, b, mine), stream, envs[..n])
        && Batch(Both(a, b, mine), stream, envs[..n], envs[n..], c, x);
      LegalRight(a, b, mine, stream, envs[..n]);
      LegalReplays(b, stream, envs[..n]);
      BatchRight(a, b, mine, stream, envs[..n], envs[n..], c, x);
      LegalExtends(b, stream, envs[..n], envs[n..], c.b, x);
      assert envs[..n] + envs[n..] == envs;
      assert forall i :: 0 <= i < n ==> envs[..n][i] == envs[i];
      assert forall i :: n <= i < |envs| ==> envs[n..][i - n] == envs[i];
    }
  }

  lemma {:induction false} RecordSide<S(!new), T(!new), C(!new), D(!new), X(!new), E, F>(a: Aggregate<S, C, X, E>,
      b: Aggregate<T, D, X, F>, mine: string -> bool, log: Log, e: Envelope)
    requires KindsApart(a, b) && e in log
    requires if mine(e.stream) then Legal(a, e.stream, StreamOf(log, e.stream)) else Foreign(a, StreamOf(log, e.stream))
    ensures a.decode(PayloadOf(e)).Some? ==> mine(e.stream)
    ensures b.decode(PayloadOf(e)).Some? ==> !mine(e.stream)
  {
    hide Legal;
    var envs := StreamOf(log, e.stream);
    StreamOfMembers(log, e.stream, e);
    var k :| 0 <= k < |envs| && envs[k] == e;
    if mine(e.stream) {
      LegalReplays(a, e.stream, envs);
    }
    assert a.decode(PayloadOf(envs[k])).None? || b.decode(PayloadOf(envs[k])).None?;
  }

  /** A ledger of both types splits into the part of each. */
  lemma {:induction false} PartsOfBoth<S(!new), T(!new), C(!new), D(!new), X(!new), E, F>(a: Aggregate<S, C, X, E>,
      b: Aggregate<T, D, X, F>, mine: string -> bool, whole: string -> bool, log: Log)
    requires Apart(a, b, mine) && KindsApart(a, b) && PartOf(Both(a, b, mine), whole, log)
    ensures PartOf(a, (s: string) => whole(s) && mine(s), log)
    ensures PartOf(b, (s: string) => whole(s) && !mine(s), log)
  {
    hide Legal;
    var both := Both(a, b, mine);
    forall s | whole(s)
      ensures mine(s) ==> Legal(a, s, StreamOf(log, s))
      ensures !mine(s) ==> Legal(b, s, StreamOf(log, s)) && Foreign(a, StreamOf(log, s))
    {
      if mine(s) {
        LegalLeft(a, b, mine, s, StreamOf(log, s));
      } else {
        LegalRight(a, b, mine, s, StreamOf(log, s));
      }
    }
    forall i | 0 <= i < |log|
      ensures a.decode(PayloadOf(log[i])).Some? ==> whole(log[i].stream) && mine(log[i].stream)
      ensures b.decode(PayloadOf(log[i])).Some? ==> whole(log[i].stream) && !mine(log[i].stream)
    {
      if both.decode(PayloadOf(log[i])).Some? {
        RecordSide(a, b, mine, log, log[i]);
      }
    }
  }

  // ---- from a run of the pipeline to its read models ----

  ghost predicate Addresses<S, C(!new), X, V, E>(agg: Aggregate<S, C, X, E>, ix: Index<S, V, E>) {
    agg.decode == ix.decode && forall c :: AddressesPrefix(agg, ix.prefix, c)
  }

  ghost predicate AddressesPrefix<S, C, X, E>(agg: Aggregate<S, C, X, E>, prefix: string, c: C) {
    exists id :: agg.stream(c) == prefix + id
  }

  lemma {:induction false} LegalIsAddressed<S, C(!new), X(!new), E>(agg: Aggregate<S, C, X, E>, stream: string,
      envs: Log)
    requires Legal(agg, stream, envs) && envs != []
    ensures exists c :: agg.stream(c) == stream
  {
    var n, c, x :| 0 <= n < |envs| && Legal(agg, stream, envs[..n]) && Batch(agg, stream, envs[..n], envs[n..], c, x);
  }

  lemma {:induction false} PartIsWritten<S, C(!new), X(!new), V, E>(agg: Aggregate<S, C, X, E>, ix: Index<S, V, E>,
      mine: string -> bool, log: Log)
    requires Addresses(agg, ix) && PartOf(agg, mine, log) && forall id :: mine(ix.prefix + id)
    ensures PipelineWritten(agg, ix, log)
  {
    hide Legal;
    forall i | 0 <= i < |log| && DecodeAt(ix, log[i]).Some? ensures exists id :: log[i].stream == ix.prefix + id {
      var stream := log[i].stream;
      assert mine(stream);
      StreamOfMembers(log, stream, log[i]);
      LegalIsAddressed(agg, stream, StreamOf(log, stream));
      var c :| agg.stream(c) == stream;
      assert AddressesPrefix(agg, ix.prefix, c);
    }
  }

  /** The Rejected stream holds Rejected records only. */
  ghost predicate RejectedOnly(log: Log) {
    forall i :: 0 <= i < |log| && log[i].stream == REJECTED_STREAM ==> log[i].kind == "Rejected"
  }

  lemma {:induction false} AppendKeepsRejected(cfg: Config, log: Log, stream: string, expected: int, evs: seq<Envelope>)
    requires WellFormed(cfg.c, log) && RejectedOnly(log) && Append(cfg, log, stream, expected, evs).Ok?
    requires stream == REJECTED_STREAM ==> forall i :: 0 <= i < |evs| ==> evs[i].kind == "Rejected"
    ensures RejectedOnly(Append(cfg, log, stream, expected, evs).value)
  {
    hide Append, WellFormed, SealOn, IdemClash, OriginClash, StreamOf;
    var l := AppendSeals(cfg, log, stream, expected, evs);
    SealOnKeeps(cfg, log, stream, evs, l);
    forall i | 0 <= i < |l| && l[i].stream == REJECTED_STREAM ensures l[i].kind == "Rejected" {
      if i < |log| {
        assert l[..|log|][i] == log[i];
      } else {
        assert CopyOn(l[|log| + (i - |log|)], evs[i - |log|], stream);
      }
    }
  }

  lemma {:induction false} ActKeepsRejected<S, C(!new), X, E(!new)>(agg: Aggregate<S, C, X, E>, cfg: Config,
      log: Log, p: Phase<S, C, X, E>, x: X, st: Stamp, rejection: string -> Bytes)
    requires Lawful(agg) && WellFormed(cfg.c, log) && RejectedOnly(log)
    ensures RejectedOnly(Act(agg, cfg, log, p, x, st, rejection).0)
  {
    hide Append, WellFormed, RejectedOnly, Replay;
    if p.Decided? {
      var evs := WrapAll(agg, p.events, agg.key(p.cmd), st);
      if Append(cfg, log, agg.stream(p.cmd), p.version, evs).Ok? {
        AppendKeepsRejected(cfg, log, agg.stream(p.cmd), p.version, evs);
      }
    } else if p.Rejecting? {
      var evs := [RejectedAs(st, agg.stream(p.cmd), rejection(p.code))];
      if Append(cfg, log, REJECTED_STREAM, ANY_VERSION, evs).Ok? {
        AppendKeepsRejected(cfg, log, REJECTED_STREAM, ANY_VERSION, evs);
      }
    }
  }

  lemma {:induction false} RunKeepsRejected<S, C(!new), X(!new), E(!new)>(agg: Aggregate<S, C, X, E>, cfg: Config,
      ms: seq<Machine<S, C, X, E>>, evs: seq<Event<C, X>>, n: nat)
    requires Lawful(agg) && IsRun(agg, cfg, ms, evs) && n < |ms|
    ensures RejectedOnly(ms[n].log)
  {
    hide Act, RejectedOnly, Lawful, WellFormed, AllLegal, PhasesOk;
    if n == 0 {
      NoneRejected();
    } else {
      RunKeepsRejected(agg, cfg, ms, evs, n - 1);
      RunKeeps(agg, cfg, ms, evs, n - 1);
      var ev := evs[n - 1];
      assert ms[n - 1 + 1] == Next(agg, cfg, ms[n - 1], ev);
      if ev.Turn? {
        ActKeepsRejected(agg, cfg, ms[n - 1].log, ms[n - 1].handlers[ev.h], ev.ctx, ev.stamp, ev.rejection);
      }
    }
  }

  lemma {:induction false} NoneRejected()
    ensures RejectedOnly([])
  {
  }

  /** A Rejected record is no aggregate's event. */
  ghost predicate SkipsRejected<S, C, X, E>(agg: Aggregate<S, C, X, E>) {
    forall p: Payload :: p.kind == "Rejected" ==> agg.decode(p).None?
  }

  /** At every moment of every run, the whole ledger but the Rejected stream is the pipeline's part. */
  lemma {:induction false} RunsArePartOf<S(!new), C(!new), X(!new), E(!new)>(agg: Aggregate<S, C, X, E>,
      cfg: Config, ms: seq<Machine<S, C, X, E>>, evs: seq<Event<C, X>>, n: nat)
    requires Lawful(agg) && SkipsRejected(agg) && IsRun(agg, cfg, ms, evs) && n < |ms|
    ensures PartOf(agg, All, ms[n].log)
  {
    hide Legal, Lawful, IsRun, WellFormed, PhasesOk;
    RunKeeps(agg, cfg, ms, evs, n);
    RunKeepsRejected(agg, cfg, ms, evs, n);
    var log := ms[n].log;
    forall i | 0 <= i < |log| && agg.decode(PayloadOf(log[i])).Some? ensures log[i].stream != REJECTED_STREAM {
      assert PayloadOf(log[i]).kind == log[i].kind;
    }
  }

  // ---- one type among others ----

  predicate All(stream: string) {
    stream != REJECTED_STREAM
  }

  lemma {:induction false} BothSkipsRejected<S, T, C, D, X, E, F>(a: Aggregate<S, C, X, E>,
      b: Aggregate<T, D, X, F>, mine: string -> bool)
    requires SkipsRejected(a) && SkipsRejected(b)
    ensures SkipsRejected(Both(a, b, mine))
  {
    forall p: Payload | p.kind == "Rejected" ensures Both(a, b, mine).decode(p).None? {
    }
  }

  /** One aggregate type with its codec, its streams and its index. */
  ghost predicate TypeOk<S, C(!new), X, V, E(!new)>(a: Aggregate<S, C, X, E>, ix: Index<S, V, E>,
      mine: string -> bool) {
    && Lawful(a) && SkipsRejected(a) && Addresses(a, ix)
    && (forall id :: mine(ix.prefix + id) && All(ix.prefix + id)) && forall c :: AddressesMine(a, mine, c)
  }

  /** All the other registered types: they write no stream of the one type and none of its events. */
  ghost predicate OthersOk<S, T, C, D(!new), X, E, F(!new)>(a: Aggregate<S, C, X, E>, others: Aggregate<T, D, X, F>,
      mine: string -> bool) {
    Lawful(others) && SkipsRejected(others) && KindsApart(a, others) && forall d :: !AddressesMine(others, mine, d)
  }

  lemma {:induction false} NoneIsRejected<S, C(!new), X, V, E(!new)>(a: Aggregate<S, C, X, E>, ix: Index<S, V, E>,
      mine: string -> bool, id: string)
    requires TypeOk(a, ix, mine)
    ensures All(ix.prefix + id)
  {
  }

  /**
   * Whatever commands of this type and of any others run concurrently on one pipeline, in whatever
   * interleaving, at every moment each stream of the type is a legal run of it alone, so the
   * theorems about its read model hold of the ledger. The others may be any number of types: two
   * types together are one again.
   */
  lemma {:induction false} RunsFeedTheReadModels<S(!new), T(!new), C(!new), D(!new), X(!new), V, E(!new), F(!new)>(
      a: Aggregate<S, C, X, E>, others: Aggregate<T, D, X, F>, ix: Index<S, V, E>, mine: string -> bool,
      cfg: Config, ms: seq<Machine<Either<S, T>, Either<C, D>, X, Either<E, F>>>, evs: seq<Event<Either<C, D>, X>>,
      n: nat)
    requires TypeOk(a, ix, mine) && OthersOk(a, others, mine)
    requires IsRun(Both(a, others, mine), cfg, ms, evs) && n < |ms|
    ensures PipelineWritten(a, ix, ms[n].log)
  {
    hide Lawful, SkipsRejected, KindsApart, IsRun, PipelineWritten, Both, Legal, Addresses, AddressesMine;
    BothLawful(a, others, mine);
    BothSkipsRejected(a, others, mine);
    RunsArePartOf(Both(a, others, mine), cfg, ms, evs, n);
    PartsOfBoth(a, others, mine, All, ms[n].log);
    forall id ensures All(ix.prefix + id) && mine(ix.prefix + id) {
      NoneIsRejected(a, ix, mine, id);
    }
    PartIsWritten(a, ix, (s: string) => All(s) && mine(s), ms[n].log);
  }

  // ---- a shared pipeline does for each type what its own would ----

  lemma {:induction false} WrapLeft<S, T, C, D, X, E, F>(a: Aggregate<S, C, X, E>, b: Aggregate<T, D, X, F>,
      mine: string -> bool, events: seq<E>, key: string, st: Stamp)
    ensures WrapAll(Both(a, b, mine), Map<E, Either<E, F>>((e: E) => Left(e), events), key, st) ==
      WrapAll(a, events, key, st)
  {
  }

  lemma {:induction false} WrapRight<S, T, C, D, X, E, F>(a: Aggregate<S, C, X, E>, b: Aggregate<T, D, X, F>,
      mine: string -> bool, events: seq<F>, key: string, st: Stamp)
    ensures WrapAll(Both(a, b, mine), Map<F, Either<E, F>>((e: F) => Right(e), events), key, st) ==
      WrapAll(b, events, key, st)
  {
  }

  lemma {:induction false} CallLeft<S, T, C, D, X, E, F>(a: Aggregate<S, C, X, E>, b: Aggregate<T, D, X, F>,
      mine: string -> bool, cfg: Config, log: Log, c: C, actorOk: bool, x: X, st: Stamp,
      rejection: string -> Bytes)
    requires mine(a.stream(c)) && Replay(a, a.stream(c), StreamOf(log, a.stream(c))).Some?
    ensures Handled(Both(a, b, mine), cfg, log, Left(c), actorOk, x, st, rejection) ==
      Handled(a, cfg, log, c, actorOk, x, st, rejection)
  {
    hide Append, Replay, WrapAll, IdemUsed, KeyVersion, Refusing, Map;
    var envs := StreamOf(log, a.stream(c));
    ReplayLeft(a, b, mine, a.stream(c), envs);
    var d := a.decide(Replay(a, a.stream(c), envs).value, c, x);
    if d.Emit? {
      WrapLeft(a, b, mine, d.events, a.key(c), st);
      assert |Map<E, Either<E, F>>((e: E) => Left(e), d.events)| == |d.events|;
    }
  }

  lemma {:induction false} CallRight<S, T, C, D, X, E, F>(a: Aggregate<S, C, X, E>, b: Aggregate<T, D, X, F>,
      mine: string -> bool, cfg: Config, log: Log, c: D, actorOk: bool, x: X, st: Stamp,
      rejection: string -> Bytes)
    requires !mine(b.stream(c)) && Foreign(a, StreamOf(log, b.stream(c)))
    requires Replay(b, b.stream(c), StreamOf(log, b.stream(c))).Some?
    ensures Handled(Both(a, b, mine), cfg, log, Right(c), actorOk, x, st, rejection) ==
      Handled(b, cfg, log, c, actorOk, x, st, rejection)
  {
    hide Append, Replay, WrapAll, IdemUsed, KeyVersion, Refusing, Map;
    var envs := StreamOf(log, b.stream(c));
    ReplayRight(a, b, mine, b.stream(c), envs);
    var d := b.decide(Replay(b, b.stream(c), envs).value, c, x);
    if d.Emit? {
      WrapRight(a, b, mine, d.events, b.key(c), st);
      assert |Map<F, Either<E, F>>((e: F) => Right(e), d.events)| == |d.events|;
    }
  }

  /**
   * On the ledger of any run of the shared pipeline, a call leaves and answers exactly what the
   * pipeline of its own type alone would.
   */
  lemma {:induction false} CallsAreTheTypesOwn<S(!new), T(!new), C(!new), D(!new), X(!new), E(!new), F(!new)>(
      a: Aggregate<S, C, X, E>, b: Aggregate<T, D, X, F>, mine: string -> bool, cfg: Config,
      ms: seq<Machine<Either<S, T>, Either<C, D>, X, Either<E, F>>>, evs: seq<Event<Either<C, D>, X>>, n: nat,
      c: Either<C, D>, actorOk: bool, x: X, st: Stamp, rejection: string -> Bytes)
    requires Lawful(a) && Lawful(b) && KindsApart(a, b) && Apart(a, b, mine)
    requires IsRun(Both(a, b, mine), cfg, ms, evs) && n < |ms|
    ensures var shared := Handled(Both(a, b, mine), cfg, ms[n].log, c, actorOk, x, st, rejection);
      && (c.Left? ==> shared == Handled(a, cfg, ms[n].log, c.a, actorOk, x, st, rejection))
      && (c.Right? ==> shared == Handled(b, cfg, ms[n].log, c.b, actorOk, x, st, rejection))
  {
    hide IsRun, Legal, KindsApart, Both, Foreign, Replay, Handled;
    BothLawful(a, b, mine);
    var log := ms[n].log;
    if c.Left? {
      var stream := a.stream(c.a);
      assert AddressesMine(a, mine, c.a);
      EveryStreamIsLegal(Both(a, b, mine), cfg, ms, evs, n, stream);
      LegalLeft(a, b, mine, stream, StreamOf(log, stream));
      LegalReplays(a, stream, StreamOf(log, stream));
      CallLeft(a, b, mine, cfg, log, c.a, actorOk, x, st, rejection);
    } else {
      var stream := b.stream(c.b);
      assert !AddressesMine(b, mine, c.b);
      EveryStreamIsLegal(Both(a, b, mine), cfg, ms, evs, n, stream);
      LegalRight(a, b, mine, stream, StreamOf(log, stream));
      LegalReplays(b, stream, StreamOf(log, stream));
      CallRight(a, b, mine, cfg, log, c.b, actorOk, x, st, rejection);
    }
  }

  // ---- the daemon's types ----

  predicate IsConstraint(stream: string) {
    "constraint/" <= stream
  }

  predicate IsChange(stream: string) {
    "change/" <= stream
  }

  predicate IsScope(stream: string) {
    "scope/" <= stream
  }

  predicate IsGate(stream: string) {
    "gate/" <= stream
  }

  /** One type's codec: decoding inverts encoding and a Rejected record is not its event. */
  ghost predicate CodecOk<E(!new)>(encode: E -> Payload, decode: Payload -> Option<E>) {
    (forall e :: decode(encode(e)) == Some(e)) && forall p: Payload :: p.kind == "Rejected" ==> decode(p).None?
  }

  lemma {:induction false} Prefixed(prefix: string, id: string)
    ensures prefix <= prefix + id
  {
  }

  lemma {:induction false} ConstraintsWired(pathMatch: ConstraintIndexes.Matcher, encode: ConstraintIndexes.Encoder,
      decode: ConstraintIndexes.Decoder)
    requires CodecOk(encode, decode)
    ensures TypeOk(ConstraintIndexes.TheAggregate(pathMatch, encode, decode), ConstraintIndexes.TheIndex(decode),
      IsConstraint)
  {
    var agg := ConstraintIndexes.TheAggregate(pathMatch, encode, decode);
    forall id: string ensures IsConstraint("constraint/" + id) && "constraint/" + id != REJECTED_STREAM {
      Prefixed("constraint/", id);
      assert ("constraint/" + id)[0] == 'c';
    }
    forall c: Constraints.Command
      ensures agg.stream(c) != REJECTED_STREAM && AddressesPrefix(agg, "constraint/", c)
        && AddressesMine(agg, IsConstraint, c)
    {
      assert agg.stream(c) == "constraint/" + c.id;
    }
  }

  lemma {:induction false} ChangesWired(policy: Policy, encode: ChangeIndexes.Encoder, decode: ChangeIndexes.Decoder)
    requires CodecOk(encode, decode)
    ensures TypeOk(ChangeIndexes.TheAggregate(policy, encode, decode), ChangeIndexes.TheIndex(decode), IsChange)
  {
    var agg := ChangeIndexes.TheAggregate(policy, encode, decode);
    forall id: string ensures IsChange("change/" + id) && "change/" + id != REJECTED_STREAM {
      Prefixed("change/", id);
      assert ("change/" + id)[0] == 'c';
    }
    forall c: ChangeIndexes.Command
      ensures agg.stream(c) != REJECTED_STREAM && AddressesPrefix(agg, "change/", c) && AddressesMine(agg, IsChange, c)
    {
      assert agg.stream(c) == "change/" + c.id;
    }
  }

  lemma {:induction false} ScopesWired(globOk: ScopeIndexes.GlobCheck, encode: ScopeIndexes.Encoder,
      decode: ScopeIndexes.Decoder)
    requires CodecOk(encode, decode)
    ensures TypeOk(ScopeIndexes.TheAggregate(globOk, encode, decode), ScopeIndexes.TheIndex(decode), IsScope)
  {
    hide Str, AddressesPrefix, AddressesMine, IsScope, ScopeIndexes.KeyOf, ScopeIndexes.TrimPrefix;
    var agg := ScopeIndexes.TheAggregate(globOk, encode, decode);
    forall id: string ensures IsScope("scope/" + id) && "scope/" + id != REJECTED_STREAM {
      ScopeNames(id);
    }
    forall c: ScopeIndexes.Command
      ensures agg.stream(c) != REJECTED_STREAM && AddressesPrefix(agg, "scope/", c) && AddressesMine(agg, IsScope, c)
    {
      ScopeAddresses(globOk, encode, decode, c);
    }
  }

  lemma {:induction false} ScopeNames(id: string)
    ensures IsScope("scope/" + id) && "scope/" + id != REJECTED_STREAM
  {
    Prefixed("scope/", id);
    assert ("scope/" + id)[0] == 's';
  }

  lemma {:induction false} ScopeAddresses(globOk: ScopeIndexes.GlobCheck, encode: ScopeIndexes.Encoder,
      decode: ScopeIndexes.Decoder, c: ScopeIndexes.Command)
    ensures var agg := ScopeIndexes.TheAggregate(globOk, encode, decode);
      agg.stream(c) != REJECTED_STREAM && AddressesPrefix(agg, "scope/", c) && AddressesMine(agg, IsScope, c)
  {
    hide Str, IsScope, ScopeIndexes.KeyOf, ScopeIndexes.TrimPrefix;
    ScopeNames(Str(c.body.key));
    assert ScopeIndexes.TheAggregate(globOk, encode, decode).stream(c) == "scope/" + Str(c.body.key);
  }

  /**
   * In every run of constraint commands and commands of any other types, what InForce lists is
   * exactly the human-verified, unretired constraints that contain the target.
   */
  lemma {:induction false} InForceInEveryRun<T(!new), D(!new), F(!new)>(pathMatch: ConstraintIndexes.Matcher,
      encode: ConstraintIndexes.Encoder, decode: ConstraintIndexes.Decoder,
      others: Aggregate<T, D, DecideContext, F>, cfg: Config,
      ms: seq<Machine<Either<Constraints.Constraint, T>, Either<Constraints.Command, D>, DecideContext,
        Either<Constraints.Event, F>>>,
      evs: seq<Event<Either<Constraints.Command, D>, DecideContext>>, n: nat, target: ScopeKey,
      out: seq<ConstraintIndexes.Summary>, id: string)
    requires CodecOk(encode, decode)
    requires OthersOk(ConstraintIndexes.TheAggregate(pathMatch, encode, decode), others, IsConstraint)
    requires IsRun(Both(ConstraintIndexes.TheAggregate(pathMatch, encode, decode), others, IsConstraint), cfg, ms, evs)
    requires n < |ms|
    requires ConstraintIndexes.IsListing(pathMatch, Project(ConstraintIndexes.TheIndex(decode), ms[n].log), target, out)
    ensures (exists e :: e in out && e.id == id) <==>
      && ConstraintIndexes.HumanVerified(decode, StreamOf(ms[n].log, "constraint/" + id))
      && Contains(pathMatch, Current(ConstraintIndexes.TheIndex(decode), ms[n].log, id).scope, target)
  {
    hide CodecOk, TypeOk, OthersOk, IsRun, PipelineWritten, Project, Fold, Contains;
    hide ConstraintIndexes.IsListing, ConstraintIndexes.HumanVerified, ConstraintIndexes.TheAggregate, Both;
    ConstraintsWired(pathMatch, encode, decode);
    var agg, ix := ConstraintIndexes.TheAggregate(pathMatch, encode, decode), ConstraintIndexes.TheIndex(decode);
    RunsFeedTheReadModels(agg, others, ix, IsConstraint, cfg, ms, evs, n);
    ConstraintIndexes.InForceIsExact(pathMatch, encode, decode, ms[n].log, target, out, id);
  }

  /**
   * In every run of scope commands and commands of any other types, the effective level and cap are
   * the narrowest level and the smallest cap of the scope streams that contain the target.
   */
  lemma {:induction false} EffectiveInEveryRun<T(!new), D(!new), F(!new)>(pathMatch: ScopeIndexes.Matcher,
      globOk: ScopeIndexes.GlobCheck, encode: ScopeIndexes.Encoder, decode: ScopeIndexes.Decoder,
      others: Aggregate<T, D, DecideContext, F>, cfg: Config,
      ms: seq<Machine<Either<ScopeIndexes.Scope, T>, Either<ScopeIndexes.Command, D>, DecideContext,
        Either<ScopeIndexes.ScopeEvent, F>>>,
      evs: seq<Event<Either<ScopeIndexes.Command, D>, DecideContext>>, n: nat, target: ScopeKey, level: int, cap: int)
    requires CodecOk(encode, decode)
    requires OthersOk(ScopeIndexes.TheAggregate(globOk, encode, decode), others, IsScope)
    requires IsRun(Both(ScopeIndexes.TheAggregate(globOk, encode, decode), others, IsScope), cfg, ms, evs)
    requires n < |ms|
    requires ScopeIndexes.IsEffective(pathMatch, Project(ScopeIndexes.TheIndex(decode), ms[n].log), target, level, cap)
    ensures ScopeIndexes.EffectiveOnReplays(pathMatch, decode, ms[n].log, target, level, cap)
  {
    hide CodecOk, TypeOk, OthersOk, IsRun, PipelineWritten, Project, Both, ScopeIndexes.TheAggregate;
    hide ScopeIndexes.IsEffective, ScopeIndexes.EffectiveOnReplays;
    ScopesWired(globOk, encode, decode);
    var agg, ix := ScopeIndexes.TheAggregate(globOk, encode, decode), ScopeIndexes.TheIndex(decode);
    RunsFeedTheReadModels(agg, others, ix, IsScope, cfg, ms, evs, n);
    ScopeIndexes.EffectiveIsExact(pathMatch, globOk, encode, decode, ms[n].log, target, level, cap);
  }

  lemma {:induction false} GatesWired(encode: GateIndexes.Encoder, decode: GateIndexes.Decoder)
    requires CodecOk(encode, decode)
    ensures TypeOk(GateIndexes.TheAggregate(encode, decode), GateIndexes.TheIndex(decode), IsGate)
  {
    var agg := GateIndexes.TheAggregate(encode, decode);
    forall id: string ensures IsGate("gate/" + id) && "gate/" + id != REJECTED_STREAM {
      Prefixed("gate/", id);
      assert ("gate/" + id)[0] == 'g';
    }
    forall c: GateIndexes.Command
      ensures agg.stream(c) != REJECTED_STREAM && AddressesPrefix(agg, "gate/", c) && AddressesMine(agg, IsGate, c)
    {
      assert agg.stream(c) == "gate/" + c.id;
    }
  }

  /**
   * In every run of gate commands and commands of any other types, a gate that the index shows as
   * allowed was allowed by the policy when a record of its stream was decided, or by a human with a
   * reason.
   */
  lemma {:induction false} GatesJustifiedInEveryRun<T(!new), D(!new), F(!new)>(encode: GateIndexes.Encoder,
      decode: GateIndexes.Decoder, others: Aggregate<T, D, DecideContext, F>, cfg: Config,
      ms: seq<Machine<Either<Gates.Gate, T>, Either<GateIndexes.Command, D>, DecideContext, Either<Gates.Event, F>>>,
      evs: seq<Event<Either<GateIndexes.Command, D>, DecideContext>>, n: nat, id: string)
    requires CodecOk(encode, decode) && OthersOk(GateIndexes.TheAggregate(encode, decode), others, IsGate)
    requires IsRun(Both(GateIndexes.TheAggregate(encode, decode), others, IsGate), cfg, ms, evs) && n < |ms|
    ensures var log, stream := ms[n].log, "gate/" + id;
      var entries := Project(GateIndexes.TheIndex(decode), log);
      && (id in entries <==> StreamOf(log, stream) != [])
      && (id in entries ==> GateIndexes.Justified(encode, decode, stream, StreamOf(log, stream), entries[id]))
  {
    hide CodecOk, TypeOk, OthersOk, IsRun, PipelineWritten, Project, Both, GateIndexes.TheAggregate, StreamOf;
    hide GateIndexes.Justified, Replay;
    GatesWired(encode, decode);
    var agg, ix := GateIndexes.TheAggregate(encode, decode), GateIndexes.TheIndex(decode);
    RunsFeedTheReadModels(agg, others, ix, IsGate, cfg, ms, evs, n);
    GateIndexes.EntriesAgree(encode, decode, ms[n].log, id);
    GateIndexes.EntriesAreJustified(encode, decode, ms[n].log, id);
  }
}
