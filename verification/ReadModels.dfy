/**
 * In-memory read models: an index that updates one entry per event agrees, entry by entry, with
 * replaying that entry's own stream, however streams are interleaved (internal/app/projection.go).
 */
module ReadModels {
  import opened Prelude
  import opened Envelopes
  import opened Ledgers
  import opened Pipelines

  /** How an index reads events: the aggregate it mirrors, the fields it keeps and the entry an event belongs to. */
  datatype Index<!S, !V, !E> = Index(
    zero: string -> S, apply: (S, E) -> S, view: S -> V, start: E -> V, update: (V, E) -> V, touches: E -> bool,
    id: E -> string, home: (string, S) -> bool, prefix: string, decode: Payload -> Option<E>)

  function DecodeAt<S, V, E>(ix: Index<S, V, E>, e: Envelope): Option<E> {
    ix.decode(PayloadOf(e))
  }

  /** The index's Handle for one ledger record. */
  function Observe<S, V, E>(ix: Index<S, V, E>, entries: map<string, V>, e: Envelope): map<string, V> {
    match DecodeAt(ix, e)
    case None => entries
    case Some(ev) =>
      if !ix.touches(ev) then entries
      else entries[ix.id(ev) := ix.update(if ix.id(ev) in entries then entries[ix.id(ev)] else ix.start(ev), ev)]
  }

  /** The index after a whole log. */
  function Project<S, V, E>(ix: Index<S, V, E>, log: Log): map<string, V> {
    if log == [] then map[] else Observe(ix, Project(ix, log[..|log| - 1]), log[|log| - 1])
  }

  /** The aggregate after one stream. */
  function Fold<S, V, E>(ix: Index<S, V, E>, id: string, envs: Log): S {
    if envs == [] then ix.zero(id)
    else
      match DecodeAt(ix, envs[|envs| - 1])
      case None => Fold(ix, id, envs[..|envs| - 1])
      case Some(ev) => ix.apply(Fold(ix, id, envs[..|envs| - 1]), ev)
  }

  /** On a state at home under the event's id, updating the view is viewing the updated state, which stays at home. */
  ghost predicate CommutesAt<S, V, E>(ix: Index<S, V, E>, id: string, s: S, e: E) {
    ix.home(id, s) && ix.id(e) == id && StartOk(ix, e) ==>
      && ix.home(id, ix.apply(s, e))
      && ix.view(ix.apply(s, e)) == if ix.touches(e) then ix.update(ix.view(s), e) else ix.view(s)
  }

  ghost predicate Commutes<S(!new), V, E(!new)>(ix: Index<S, V, E>) {
    && (forall id :: ix.home(id, ix.zero(id)))
    && forall id, s, e :: CommutesAt(ix, id, s, e)
  }

  /** Every event of this kind names the entry its stream belongs to. */
  ghost predicate Named<S, V, E>(ix: Index<S, V, E>, log: Log) {
    forall i :: 0 <= i < |log| ==> NamedAt(ix, log[i])
  }

  ghost predicate NamedAt<S, V, E>(ix: Index<S, V, E>, e: Envelope) {
    DecodeAt(ix, e).Some? ==> e.stream == ix.prefix + ix.id(DecodeAt(ix, e).value) && StartOk(ix, DecodeAt(ix, e).value)
  }

  /** The entry an event creates is the view of its stream's empty aggregate. */
  predicate StartOk<S, V(==), E>(ix: Index<S, V, E>, ev: E) {
    ix.start(ev) == ix.view(ix.zero(ix.id(ev)))
  }

  predicate Touched<S, V, E>(ix: Index<S, V, E>, envs: Log) {
    exists i :: 0 <= i < |envs| && TouchesAt(ix, envs[i])
  }

  predicate TouchesAt<S, V, E>(ix: Index<S, V, E>, e: Envelope) {
    DecodeAt(ix, e).Some? && ix.touches(DecodeAt(ix, e).value)
  }

  lemma {:induction false} SameId(prefix: string, a: string, b: string)
    requires prefix + a == prefix + b
    ensures a == b
  {
    assert (prefix + a)[|prefix|..] == a && (prefix + b)[|prefix|..] == b;
  }

  /** The entry of one id against the replay of its own stream. */
  ghost predicate EntryAgrees<S, V, E>(ix: Index<S, V, E>, log: Log, id: string) {
    var stream, entries := StreamOf(log, ix.prefix + id), Project(ix, log);
    && (id in entries <==> Touched(ix, stream))
    && ix.home(id, Fold(ix, id, stream))
    && ix.view(Fold(ix, id, stream)) == if id in entries then entries[id] else ix.view(ix.zero(id))
  }

  lemma {:induction false} TouchedSnoc<S, V, E>(ix: Index<S, V, E>, id: string, envs: Log, e: Envelope)
    ensures Touched(ix, envs + [e]) <==> Touched(ix, envs) || TouchesAt(ix, e)
    ensures Fold(ix, id, envs + [e]) == if DecodeAt(ix, e).None? then Fold(ix, id, envs)
      else ix.apply(Fold(ix, id, envs), DecodeAt(ix, e).value)
  {
    assert (envs + [e])[..|envs|] == envs;
    assert (envs + [e])[|envs|] == e;
    assert forall i :: 0 <= i < |envs| ==> (envs + [e])[i] == envs[i];
  }

  lemma {:induction false} EntryStep<S(!new), V, E(!new)>(ix: Index<S, V, E>, log: Log, e: Envelope, id: string)
    requires Commutes(ix) && NamedAt(ix, e) && EntryAgrees(ix, log, id)
    ensures EntryAgrees(ix, log + [e], id)
  {
    hide Touched, Fold;
    var stream := ix.prefix + id;
    StreamOfSnoc(log, e, stream);
    assert (log + [e])[..|log|] == log;
    if e.stream == stream {
      TouchedSnoc(ix, id, StreamOf(log, stream), e);
      if DecodeAt(ix, e).Some? {
        SameId(ix.prefix, id, ix.id(DecodeAt(ix, e).value));
        assert CommutesAt(ix, id, Fold(ix, id, StreamOf(log, stream)), DecodeAt(ix, e).value);
      }
    } else {
      assert StreamOf(log + [e], stream) == StreamOf(log, stream);
    }
  }

  /** On a log whose events name their own streams, every entry is the view of that stream's replay. */
  lemma {:induction false} IndexAgrees<S(!new), V, E(!new)>(ix: Index<S, V, E>, log: Log, id: string)
    requires Commutes(ix) && Named(ix, log)
    ensures EntryAgrees(ix, log, id)
  {
    if log != [] {
      var n := |log| - 1;
      assert log == log[..n] + [log[n]];
      IndexAgrees(ix, log[..n], id);
      EntryStep(ix, log[..n], log[n], id);
    }
  }

  lemma {:induction false} ProjectSnoc<S, V, E>(ix: Index<S, V, E>, log: Log, e: Envelope)
    ensures Project(ix, log + [e]) == Observe(ix, Project(ix, log), e)
  {
    hide Observe;
    assert (log + [e])[..|log|] == log;
  }

  /** A projector: its entries are changed in place, one record at a time. */
  class Projector<S(!new), V, E(!new)> {
    const ix: Index<S, V, E>
    var entries: map<string, V>
    /** The records handed over so far. */
    ghost var seen: Log

    ghost predicate Valid()
      reads this
    {
      entries == Project(ix, seen)
    }

    constructor (ix: Index<S, V, E>)
      ensures Valid() && this.ix == ix && seen == []
    {
      this.ix := ix;
      entries, seen := map[], [];
    }

    /** Only the entry the event names moves. */
    method Handle(e: Envelope)
      requires Valid()
      modifies this
      ensures Valid() && seen == old(seen) + [e]
      ensures forall id :: !(DecodeAt(ix, e).Some? && ix.id(DecodeAt(ix, e).value) == id) ==>
        (id in entries <==> id in old(entries)) && (id in entries ==> entries[id] == old(entries)[id])
    {
      ProjectSnoc(ix, seen, e);
      hide Project;
      var ev := ix.decode(PayloadOf(e));
      if ev.Some? && ix.touches(ev.value) {
        var id := ix.id(ev.value);
        var entry := if id in entries then entries[id] else ix.start(ev.value);
        entries := entries[id := ix.update(entry, ev.value)];
      }
      seen := seen + [e];
    }

    /** Rebuild: a whole log, record by record. */
    method HandleAll(log: Log)
      requires Valid()
      modifies this
      ensures Valid() && seen == old(seen) + log
    {
      for i := 0 to |log|
        invariant Valid() && seen == old(seen) + log[..i]
      {
        Handle(log[i]);
        assert log[..i + 1] == log[..i] + [log[i]];
      }
      assert log[..|log|] == log;
    }

    /** Get: present exactly when the entry's own stream was touched, and then the view of replaying that stream. */
    method Get(id: string) returns (r: Option<V>)
      requires Valid() && Commutes(ix) && Named(ix, seen)
      ensures var stream := StreamOf(seen, ix.prefix + id);
        && (r.Some? <==> Touched(ix, stream))
        && (r.Some? ==> r.value == ix.view(Fold(ix, id, stream)))
    {
      hide Commutes, Named, Touched, Fold;
      IndexAgrees(ix, seen, id);
      r := if id in entries then Some(entries[id]) else None;
    }
  }

  // ---- from legal streams ----

  function FoldEvents<S, C, X, E>(agg: Aggregate<S, C, X, E>, s: S, events: seq<E>): S {
    if events == [] then s else agg.apply(FoldEvents(agg, s, events[..|events| - 1]), events[|events| - 1])
  }

  lemma {:induction false} FoldOne<S, C, X, E>(agg: Aggregate<S, C, X, E>, s: S, e: E)
    ensures FoldEvents(agg, s, [e]) == agg.apply(s, e)
  {
    assert [e][..0] == [];
  }

  /** A core decision as the pipeline sees it. */
  function ToDecision<E>(r: Result<seq<E>, string>): Decision<E> {
    if r.Ok? then Emit(r.value) else Reject(r.error)
  }

  /** A decided batch holds good events only and leaves a good state. */
  ghost predicate GoodBatch<S, C, X, E>(agg: Aggregate<S, C, X, E>, s: S, events: seq<E>, inv: S -> bool,
      good: E -> bool) {
    (forall i :: 0 <= i < |events| ==> good(events[i])) && inv(FoldEvents(agg, s, events))
  }

  /** Decide keeps inv and emits good events on this stream. */
  ghost predicate Preserved<S(!new), C(!new), X(!new), E>(agg: Aggregate<S, C, X, E>, stream: string,
      inv: S -> bool, good: E -> bool) {
    forall s, c, x :: inv(s) && agg.stream(c) == stream && agg.decide(s, c, x).Emit? ==>
      GoodBatch(agg, s, agg.decide(s, c, x).events, inv, good)
  }

  ghost predicate GoodRecords<S, C, X, E>(agg: Aggregate<S, C, X, E>, envs: Log, good: E -> bool) {
    forall i :: 0 <= i < |envs| ==> agg.decode(PayloadOf(envs[i])).Some? && good(agg.decode(PayloadOf(envs[i])).value)
  }

  lemma {:induction false} ReplayBatch<S, C, X, E>(agg: Aggregate<S, C, X, E>, stream: string, before: Log,
      batch: Log, events: seq<E>, s: S)
    requires Replay(agg, stream, before) == Some(s) && |batch| == |events|
    requires forall i :: 0 <= i < |batch| ==> agg.decode(PayloadOf(batch[i])) == Some(events[i])
    ensures Replay(agg, stream, before + batch) == Some(FoldEvents(agg, s, events))
    decreases |batch|
  {
    if batch == [] {
      assert before + batch == before;
    } else {
      var n := |batch| - 1;
      ReplayBatch(agg, stream, before, batch[..n], events[..n], s);
      assert (before + batch)[..|before| + n] == before + batch[..n];
    }
  }

  /** What Decide and Apply keep holds of every legal stream and its replay. */
  lemma {:induction false} LegalStreamsKeep<S(!new), C(!new), X(!new), E>(agg: Aggregate<S, C, X, E>,
      stream: string, envs: Log, inv: S -> bool, good: E -> bool)
    requires Legal(agg, stream, envs) && inv(agg.zero(stream)) && Preserved(agg, stream, inv, good)
    ensures Replay(agg, stream, envs).Some? && inv(Replay(agg, stream, envs).value) && GoodRecords(agg, envs, good)
    decreases |envs|
  {
    hide FoldEvents;
    if envs != [] {
      var n, c, x :| 0 <= n < |envs| && Legal(agg, stream, envs[..n]) && Batch(agg, stream, envs[..n], envs[n..], c, x);
      LegalStreamsKeep(agg, stream, envs[..n], inv, good);
      BatchKeeps(agg, stream, envs, n, c, x, inv, good);
    }
  }

  lemma {:induction false} BatchKeeps<S(!new), C(!new), X(!new), E>(agg: Aggregate<S, C, X, E>, stream: string,
      envs: Log, n: nat, c: C, x: X, inv: S -> bool, good: E -> bool)
    requires n < |envs| && Batch(agg, stream, envs[..n], envs[n..], c, x) && Preserved(agg, stream, inv, good)
    requires Replay(agg, stream, envs[..n]).Some? && inv(Replay(agg, stream, envs[..n]).value)
    requires GoodRecords(agg, envs[..n], good)
    ensures Replay(agg, stream, envs).Some? && inv(Replay(agg, stream, envs).value) && GoodRecords(agg, envs, good)
  {
    hide FoldEvents, Replay;
    var s := Replay(agg, stream, envs[..n]).value;
    var events := agg.decide(s, c, x).events;
    assert GoodBatch(agg, s, events, inv, good);
    ReplayBatch(agg, stream, envs[..n], envs[n..], events, s);
    assert envs[..n] + envs[n..] == envs;
    forall i | 0 <= i < |envs|
      ensures agg.decode(PayloadOf(envs[i])).Some? && good(agg.decode(PayloadOf(envs[i])).value) {
      if i < n {
        assert envs[..n][i] == envs[i];
      } else {
        assert envs[n..][i - n] == envs[i];
        assert good(events[i - n]);
      }
    }
  }

  /** A command that emits at least one event leaves a state with this property. */
  ghost predicate Reaches<S(!new), C(!new), X(!new), E>(agg: Aggregate<S, C, X, E>, stream: string, inv: S -> bool,
      post: S -> bool) {
    forall s, c, x ::
      inv(s) && agg.stream(c) == stream && agg.decide(s, c, x).Emit? && agg.decide(s, c, x).events != [] ==>
      post(FoldEvents(agg, s, agg.decide(s, c, x).events))
  }

  /** What every decided batch reaches holds of every legal stream that is not empty. */
  lemma {:induction false} LegalStreamsReach<S(!new), C(!new), X(!new), E>(agg: Aggregate<S, C, X, E>,
      stream: string, envs: Log, inv: S -> bool, good: E -> bool, post: S -> bool)
    requires Legal(agg, stream, envs) && envs != [] && inv(agg.zero(stream))
    requires Preserved(agg, stream, inv, good) && Reaches(agg, stream, inv, post)
    ensures Replay(agg, stream, envs).Some? && post(Replay(agg, stream, envs).value)
  {
    hide FoldEvents, Replay, Preserved;
    var n, c, x :| 0 <= n < |envs| && Legal(agg, stream, envs[..n]) && Batch(agg, stream, envs[..n], envs[n..], c, x);
    LegalStreamsKeep(agg, stream, envs[..n], inv, good);
    var s := Replay(agg, stream, envs[..n]).value;
    ReplayBatch(agg, stream, envs[..n], envs[n..], agg.decide(s, c, x).events, s);
    assert envs[..n] + envs[n..] == envs;
  }

  /** The pipeline's replay and the index's fold are one computation. */
  lemma {:induction false} ReplayIsFold<S, C, X, V, E>(agg: Aggregate<S, C, X, E>, ix: Index<S, V, E>, id: string,
      envs: Log)
    requires agg.decode == ix.decode && agg.apply == ix.apply && agg.zero(ix.prefix + id) == ix.zero(id)
    requires Replay(agg, ix.prefix + id, envs).Some?
    ensures Replay(agg, ix.prefix + id, envs).value == Fold(ix, id, envs)
  {
    if envs != [] {
      ReplayIsFold(agg, ix, id, envs[..|envs| - 1]);
    }
  }

  /** Every record that decodes is on a stream of this kind. */
  ghost predicate OwnStreams<S, V, E>(ix: Index<S, V, E>, log: Log) {
    forall i :: 0 <= i < |log| && DecodeAt(ix, log[i]).Some? ==> exists id :: log[i].stream == ix.prefix + id
  }

  ghost predicate AllNamed<S, V, E>(ix: Index<S, V, E>, envs: Log, id: string) {
    forall i :: 0 <= i < |envs| && DecodeAt(ix, envs[i]).Some? ==>
      ix.id(DecodeAt(ix, envs[i]).value) == id && StartOk(ix, DecodeAt(ix, envs[i]).value)
  }

  /** When each stream names itself, the whole log does. */
  lemma {:induction false} NamedFromStreams<S, V, E>(ix: Index<S, V, E>, log: Log)
    requires OwnStreams(ix, log) && forall id :: AllNamed(ix, StreamOf(log, ix.prefix + id), id)
    ensures Named(ix, log)
  {
    forall i | 0 <= i < |log| ensures NamedAt(ix, log[i]) {
      if DecodeAt(ix, log[i]).Some? {
        var id :| log[i].stream == ix.prefix + id;
        var envs := StreamOf(log, ix.prefix + id);
        StreamOfMembers(log, ix.prefix + id, log[i]);
        var k :| 0 <= k < |envs| && envs[k] == log[i];
        assert AllNamed(ix, envs, id);
      }
    }
  }

  // ---- an index over a ledger that the pipeline wrote ----

  /** The index decodes, folds and starts as the aggregate does. */
  ghost predicate Mirrors<S, C, X, V, E>(agg: Aggregate<S, C, X, E>, ix: Index<S, V, E>) {
    agg.decode == ix.decode && agg.apply == ix.apply && forall id :: agg.zero(ix.prefix + id) == ix.zero(id)
  }

  /** On the stream of this id, Decide and Apply keep inv and emit good events, and good events name the id. */
  ghost predicate Kept<S(!new), C(!new), X(!new), V, E(!new)>(agg: Aggregate<S, C, X, E>, ix: Index<S, V, E>,
      inv: (string, S) -> bool, good: (string, E) -> bool, id: string) {
    && inv(id, ix.zero(id))
    && Preserved(agg, ix.prefix + id, (s: S) => inv(id, s), (e: E) => good(id, e))
    && forall e :: good(id, e) ==> ix.id(e) == id && StartOk(ix, e)
  }

  /** Every stream of this kind is a legal run, and only these streams hold its events. */
  ghost predicate PipelineWritten<S, C(!new), X(!new), V, E>(agg: Aggregate<S, C, X, E>, ix: Index<S, V, E>, log: Log) {
    OwnStreams(ix, log) && forall id :: Legal(agg, ix.prefix + id, StreamOf(log, ix.prefix + id))
  }

  /** The replay of one id's own stream. */
  function Current<S, V, E>(ix: Index<S, V, E>, log: Log, id: string): S {
    Fold(ix, id, StreamOf(log, ix.prefix + id))
  }

  ghost predicate StreamOk<S, V, E>(ix: Index<S, V, E>, log: Log, inv: (string, S) -> bool,
      good: (string, E) -> bool, id: string) {
    inv(id, Current(ix, log, id)) && AllGood(ix, StreamOf(log, ix.prefix + id), good, id)
  }

  ghost predicate AllGood<S, V, E>(ix: Index<S, V, E>, envs: Log, good: (string, E) -> bool, id: string) {
    forall i :: 0 <= i < |envs| ==> DecodeAt(ix, envs[i]).Some? && good(id, DecodeAt(ix, envs[i]).value)
  }

  lemma {:induction false} StreamReplays<S(!new), C(!new), X(!new), V, E(!new)>(agg: Aggregate<S, C, X, E>,
      ix: Index<S, V, E>, inv: (string, S) -> bool, good: (string, E) -> bool, log: Log, id: string)
    requires Mirrors(agg, ix) && PipelineWritten(agg, ix, log) && Kept(agg, ix, inv, good, id)
    ensures Replay(agg, ix.prefix + id, StreamOf(log, ix.prefix + id)) == Some(Current(ix, log, id))
  {
    hide Legal, Preserved;
    var envs := StreamOf(log, ix.prefix + id);
    LegalStreamsKeep(agg, ix.prefix + id, envs, (s: S) => inv(id, s), (e: E) => good(id, e));
    ReplayIsFold(agg, ix, id, envs);
  }

  lemma {:induction false} StreamKept<S(!new), C(!new), X(!new), V, E(!new)>(agg: Aggregate<S, C, X, E>,
      ix: Index<S, V, E>, inv: (string, S) -> bool, good: (string, E) -> bool, log: Log, id: string)
    requires Mirrors(agg, ix) && PipelineWritten(agg, ix, log) && Kept(agg, ix, inv, good, id)
    ensures StreamOk(ix, log, inv, good, id) && AllNamed(ix, StreamOf(log, ix.prefix + id), id)
  {
    hide Legal, Preserved;
    var stream := ix.prefix + id;
    var envs := StreamOf(log, stream);
    LegalStreamsKeep(agg, stream, envs, (s: S) => inv(id, s), (e: E) => good(id, e));
    ReplayIsFold(agg, ix, id, envs);
  }

  /** Each entry is the view of replaying that id's own stream, which keeps inv and holds good events only. */
  lemma {:induction false} EntryIsReplay<S(!new), C(!new), X(!new), V, E(!new)>(agg: Aggregate<S, C, X, E>,
      ix: Index<S, V, E>, inv: (string, S) -> bool, good: (string, E) -> bool, log: Log, id: string)
    requires Mirrors(agg, ix) && Commutes(ix) && PipelineWritten(agg, ix, log)
    requires forall k :: Kept(agg, ix, inv, good, k)
    ensures EntryAgrees(ix, log, id) && StreamOk(ix, log, inv, good, id)
  {
    hide Kept, StreamOk, EntryAgrees;
    forall k ensures AllNamed(ix, StreamOf(log, ix.prefix + k), k) {
      StreamKept(agg, ix, inv, good, log, k);
    }
    NamedFromStreams(ix, log);
    IndexAgrees(ix, log, id);
    StreamKept(agg, ix, inv, good, log, id);
  }
}
