/**
 * The command pipeline under interleaving (internal/app/pipeline.go): authorize, look up the key,
 * load, decide and append are separate steps of any number of concurrent handlers over one ledger.
 */
module Pipelines {
  import opened Prelude
  import opened Envelopes
  import opened Ledgers
  import opened Team

  datatype Payload = Payload(kind: string, v: int, body: Bytes)

  function PayloadOf(e: Envelope): Payload {
    Payload(e.kind, e.v, e.body)
  }

  datatype Decision<E> = Reject(code: string) | Emit(events: seq<E>) | Broken

  /** An aggregate type with its commands and codec. X is the decide context, clock and actor included. */
  datatype Aggregate<!S, !C, !X, !E> = Aggregate(
    zero: string -> S, apply: (S, E) -> S, decide: (S, C, X) -> Decision<E>,
    stream: C -> string, key: C -> string, encode: E -> Payload, decode: Payload -> Option<E>)

  /** Decoding inverts encoding, and no command addresses the Rejected stream. */
  ghost predicate Lawful<S, C(!new), X, E(!new)>(agg: Aggregate<S, C, X, E>) {
    && (forall e :: agg.decode(agg.encode(e)) == Some(e))
    && (forall c :: agg.stream(c) != REJECTED_STREAM)
  }

  /** The fold of a stream onto the empty aggregate; None when a record does not decode. */
  function Replay<S, C, X, E>(agg: Aggregate<S, C, X, E>, stream: string, envs: Log): Option<S> {
    if envs == [] then Some(agg.zero(stream))
    else
      match Replay(agg, stream, envs[..|envs| - 1])
      case None => None
      case Some(s) =>
        match agg.decode(PayloadOf(envs[|envs| - 1]))
        case None => None
        case Some(e) => Some(agg.apply(s, e))
  }

  /** The load step: the loop that folds a stream. */
  method Load<S, C, X, E>(agg: Aggregate<S, C, X, E>, stream: string, envs: Log) returns (s: Option<S>)
    ensures s == Replay(agg, stream, envs)
  {
    var state := agg.zero(stream);
    for i := 0 to |envs|
      invariant Replay(agg, stream, envs[..i]) == Some(state)
    {
      assert envs[..i + 1][..i] == envs[..i];
      var e := agg.decode(PayloadOf(envs[i]));
      if e.None? {
        ReplayBreaks(agg, stream, envs, i + 1);
        return None;
      }
      state := agg.apply(state, e.value);
    }
    assert envs[..|envs|] == envs;
    return Some(state);
  }

  lemma {:induction false} ReplayBreaks<S, C, X, E>(agg: Aggregate<S, C, X, E>, stream: string, envs: Log, n: nat)
    requires n <= |envs| && Replay(agg, stream, envs[..n]).None?
    ensures Replay(agg, stream, envs).None?
    decreases |envs|
  {
    if n < |envs| {
      assert envs[..|envs| - 1][..n] == envs[..n];
      ReplayBreaks(agg, stream, envs[..|envs| - 1], n);
    } else {
      assert envs[..n] == envs;
    }
  }

  /** The records carry exactly these events, the key on the first one only. */
  ghost predicate Carries<S, C, X, E>(agg: Aggregate<S, C, X, E>, envs: Log, events: seq<E>, key: string) {
    |envs| == |events| && forall i :: 0 <= i < |envs| ==>
      agg.decode(PayloadOf(envs[i])) == Some(events[i]) && envs[i].idem == (if i == 0 then key else "")
  }

  /** The batch was decided by a command of this stream against the replay of everything before it. */
  ghost predicate Batch<S, C, X, E>(agg: Aggregate<S, C, X, E>, stream: string, before: Log, batch: Log, c: C, x: X) {
    && agg.stream(c) == stream
    && Replay(agg, stream, before).Some?
    && var d := agg.decide(Replay(agg, stream, before).value, c, x);
       d.Emit? && d.events != [] && Carries(agg, batch, d.events, agg.key(c))
  }

  /** A legal history: batches, each decided against exactly the replay of the earlier ones. */
  ghost predicate Legal<S, C(!new), X(!new), E>(agg: Aggregate<S, C, X, E>, stream: string, envs: Log)
    decreases |envs|
  {
    envs == [] || exists n, c, x ::
      0 <= n < |envs| && Legal(agg, stream, envs[..n]) && Batch(agg, stream, envs[..n], envs[n..], c, x)
  }

  // ---- the machine ----

  /** Replayed carries the version the earlier call is reported at. */
  datatype Outcome = Wrote(from: nat, n: nat) | Replayed(version: int) | Refused(code: string) | Nothing | Failed

  datatype Phase<S, C, X, E> =
    | Ready(cmd: C, actorOk: bool)
    | Checked(cmd: C)
    | Loaded(cmd: C, version: nat, state: S)
    | Decided(cmd: C, version: nat, state: S, ctx: X, events: seq<E>)
    | Rejecting(cmd: C, code: string)
    | Done(outcome: Outcome)

  datatype Machine<S, C, X, E> = Machine(log: Log, handlers: map<nat, Phase<S, C, X, E>>)

  /** The envelope fields the pipeline adds to an event. */
  datatype Stamp = Stamp(ts: nat, actor: Actor, meta: EventMeta)

  /** A new call arrives, or one handler takes its next step; rejection encodes a refusal with this code. */
  datatype Event<C, X> = Arrive(h: nat, cmd: C, actorOk: bool) | Turn(h: nat, ctx: X, stamp: Stamp,
    rejection: string -> Bytes)

  function Wrap<S, C, X, E>(agg: Aggregate<S, C, X, E>, e: E, idem: string, st: Stamp): Envelope {
    var p := agg.encode(e);
    Envelope(0, "", 0, p.kind, p.v, st.ts, st.actor, st.meta, p.body, [], [], [], [], [], idem, None)
  }

  function WrapAll<S, C, X, E>(agg: Aggregate<S, C, X, E>, events: seq<E>, key: string, st: Stamp): seq<Envelope> {
    seq(|events|, i requires 0 <= i < |events| => Wrap(agg, events[i], if i == 0 then key else "", st))
  }

  function RejectedAs(st: Stamp, target: string, body: Bytes): Envelope {
    RejectedRecord(st.ts, st.actor, target, body)
  }

  /** The version of the record that carries the key on the stream, 0 when there is none. */
  function KeyVersion(log: Log, stream: string, key: string): int {
    if log == [] then 0
    else if log[|log| - 1].stream == stream && log[|log| - 1].idem == key then log[|log| - 1].ver
    else KeyVersion(log[..|log| - 1], stream, key)
  }

  lemma {:induction false} KeyVersionFinds(log: Log, stream: string, key: string)
    requires IdemUsed(log, stream, key)
    ensures exists i ::
      0 <= i < |log| && log[i].stream == stream && log[i].idem == key && log[i].ver == KeyVersion(log, stream, key)
  {
    var n := |log| - 1;
    if !(log[n].stream == stream && log[n].idem == key) {
      var i :| 0 <= i < |log| && log[i].stream == stream && log[i].idem == key;
      assert log[..n][i] == log[i];
      KeyVersionFinds(log[..n], stream, key);
      var k :| 0 <= k < n && log[..n][k].stream == stream && log[..n][k].idem == key
        && log[..n][k].ver == KeyVersion(log[..n], stream, key);
      assert log[k].stream == stream;
    }
  }

  /** One step of one handler: its next phase and the new log. */
  function Act<S, C, X, E>(agg: Aggregate<S, C, X, E>, cfg: Config, log: Log, p: Phase<S, C, X, E>, x: X, st: Stamp,
      rejection: string -> Bytes)
    : (Log, Phase<S, C, X, E>)
  {
    match p
    case Ready(c, ok) =>
      if !ok then (log, Rejecting(c, "unauthenticated"))
      else if agg.key(c) != "" && IdemUsed(log, agg.stream(c), agg.key(c))
        then (log, Done(Replayed(KeyVersion(log, agg.stream(c), agg.key(c)))))
      else (log, Checked(c))
    case Checked(c) =>
      var envs := StreamOf(log, agg.stream(c));
      var s := Replay(agg, agg.stream(c), envs);
      if s.None? then (log, Done(Failed)) else (log, Loaded(c, |envs|, s.value))
    case Loaded(c, v, s) =>
      var d := agg.decide(s, c, x);
      if d.Reject? then (log, Rejecting(c, d.code))
      else if d.Broken? then (log, Done(Failed))
      else if d.events == [] then (log, Done(Nothing))
      else (log, Decided(c, v, s, x, d.events))
    case Decided(c, v, s, ctx, events) =>
      var r := Append(cfg, log, agg.stream(c), v, WrapAll(agg, events, agg.key(c), st));
      if r.Ok? then (r.value, Done(Wrote(v, |events|)))
      else (log,
        Done(if r.error == DuplicateIdem then Replayed(KeyVersion(log, agg.stream(c), agg.key(c))) else Failed))
    case Rejecting(c, code) =>
      var r := Append(cfg, log, REJECTED_STREAM, ANY_VERSION, [RejectedAs(st, agg.stream(c), rejection(code))]);
      (if r.Ok? then r.value else log, Done(Refused(code)))
    case Done(_) => (log, p)
  }

  predicate Enabled<S, C, X, E>(m: Machine<S, C, X, E>, ev: Event<C, X>) {
    if ev.Arrive? then ev.h !in m.handlers else ev.h in m.handlers
  }

  function Next<S, C, X, E>(agg: Aggregate<S, C, X, E>, cfg: Config, m: Machine<S, C, X, E>,
      ev: Event<C, X>): Machine<S, C, X, E>
    requires Enabled(m, ev)
  {
    match ev
    case Arrive(h, c, ok) => m.(handlers := m.handlers[h := Ready(c, ok)])
    case Turn(h, x, st, rejection) =>
      var (l, p) := Act(agg, cfg, m.log, m.handlers[h], x, st, rejection);
      Machine(l, m.handlers[h := p])
  }

  /** The machines of one run, from an empty ledger with no calls in flight. */
  ghost predicate IsRun<S, C, X, E>(agg: Aggregate<S, C, X, E>, cfg: Config, ms: seq<Machine<S, C, X, E>>,
      evs: seq<Event<C, X>>) {
    && |ms| == |evs| + 1 && ms[0] == Machine([], map[])
    && forall i :: 0 <= i < |evs| ==> Enabled(ms[i], evs[i]) && ms[i + 1] == Next(agg, cfg, ms[i], evs[i])
  }

  // ---- what every step keeps ----

  /** What a handler remembers is the replay of a prefix of its stream, as long as that stream's version. */
  ghost predicate PhaseOk<S, C, X, E>(agg: Aggregate<S, C, X, E>, log: Log, p: Phase<S, C, X, E>) {
    && (p.Loaded? || p.Decided? ==> Remembers(agg, StreamOf(log, agg.stream(p.cmd)), p.cmd, p.version, p.state))
    && (p.Decided? ==> agg.decide(p.state, p.cmd, p.ctx) == Emit(p.events) && p.events != [])
  }

  ghost predicate Remembers<S, C, X, E>(agg: Aggregate<S, C, X, E>, envs: Log, c: C, version: nat, state: S) {
    version <= |envs| && Replay(agg, agg.stream(c), envs[..version]) == Some(state)
  }

  ghost predicate AllLegal<S, C(!new), X(!new), E>(agg: Aggregate<S, C, X, E>, log: Log) {
    forall stream :: stream != REJECTED_STREAM ==> Legal(agg, stream, StreamOf(log, stream))
  }

  ghost predicate PhasesOk<S, C, X, E>(agg: Aggregate<S, C, X, E>, m: Machine<S, C, X, E>) {
    forall h :: h in m.handlers ==> PhaseOk(agg, m.log, m.handlers[h])
  }

  ghost predicate Inv<S, C(!new), X(!new), E>(agg: Aggregate<S, C, X, E>, cfg: Config, m: Machine<S, C, X, E>) {
    WellFormed(cfg.c, m.log) && AllLegal(agg, m.log) && PhasesOk(agg, m)
  }

  ghost predicate Grows(log: Log, l: Log) {
    forall s :: StreamOf(log, s) <= StreamOf(l, s)
  }

  lemma {:induction false} PhaseStays<S, C, X, E>(agg: Aggregate<S, C, X, E>, log: Log, l: Log, p: Phase<S, C, X, E>)
    requires Grows(log, l) && PhaseOk(agg, log, p)
    ensures PhaseOk(agg, l, p)
  {
    if p.Loaded? || p.Decided? {
      var a, b := StreamOf(log, agg.stream(p.cmd)), StreamOf(l, agg.stream(p.cmd));
      assert a <= b;
      assert b[..p.version] == a[..p.version];
    }
  }

  lemma {:induction false} LegalExtends<S, C(!new), X(!new), E>(agg: Aggregate<S, C, X, E>, stream: string,
      before: Log, batch: Log, c: C, x: X)
    requires Legal(agg, stream, before) && batch != [] && Batch(agg, stream, before, batch, c, x)
    ensures Legal(agg, stream, before + batch)
  {
    var envs, n := before + batch, |before|;
    assert envs[..n] == before && envs[n..] == batch;
    assert Legal(agg, stream, envs[..n]) && Batch(agg, stream, envs[..n], envs[n..], c, x);
  }

  lemma {:induction false} CarriesWrapped<S, C(!new), X, E(!new)>(agg: Aggregate<S, C, X, E>, batch: Log,
      events: seq<E>, key: string, st: Stamp, stream: string)
    requires Lawful(agg) && |batch| == |events|
    requires forall i :: 0 <= i < |events| ==> CopyOn(batch[i], WrapAll(agg, events, key, st)[i], stream)
    ensures Carries(agg, batch, events, key)
  {
    forall i | 0 <= i < |events|
      ensures agg.decode(PayloadOf(batch[i])) == Some(events[i]) && batch[i].idem == (if i == 0 then key else "")
    {
      var w := WrapAll(agg, events, key, st)[i];
      assert CopyOn(batch[i], w, stream);
      assert PayloadOf(batch[i]) == agg.encode(events[i]);
    }
  }

  lemma {:induction false} AppendedBatch(log: Log, l: Log, stream: string, evs: seq<Envelope>)
    requires Appended(log, l, stream, evs)
    ensures Grows(log, l)
    ensures forall i :: 0 <= i < |evs| ==> CopyOn(l[|log|..][i], evs[i], stream)
  {
    forall s ensures StreamOf(log, s) <= StreamOf(l, s) {
      if s != stream {
        assert StreamOf(l, s) == StreamOf(log, s);
      }
    }
    forall i | 0 <= i < |evs| ensures CopyOn(l[|log|..][i], evs[i], stream) {
      assert l[|log|..][i] == l[|log| + i];
    }
  }

  /** The append step: an accepted batch was decided against exactly the records before it. */
  lemma {:induction false} AppendStepKeeps<S, C(!new), X(!new), E(!new)>(agg: Aggregate<S, C, X, E>, cfg: Config,
      log: Log, p: Phase<S, C, X, E>, st: Stamp, l: Log)
    requires Lawful(agg) && WellFormed(cfg.c, log) && AllLegal(agg, log)
    requires p.Decided? && PhaseOk(agg, log, p)
    requires Append(cfg, log, agg.stream(p.cmd), p.version, WrapAll(agg, p.events, agg.key(p.cmd), st)) == Ok(l)
    ensures log <= l && WellFormed(cfg.c, l) && AllLegal(agg, l) && Grows(log, l)
    ensures p.version == |StreamOf(log, agg.stream(p.cmd))|
    ensures Batch(agg, agg.stream(p.cmd), StreamOf(log, agg.stream(p.cmd)), l[|log|..], p.cmd, p.ctx)
    ensures StreamOf(l, agg.stream(p.cmd)) == StreamOf(log, agg.stream(p.cmd)) + l[|log|..]
  {
    hide Append, WellFormed, Legal, Lawful, Batch, Appended, PhaseOk;
    var stream, evs := agg.stream(p.cmd), WrapAll(agg, p.events, agg.key(p.cmd), st);
    var l' := AppendSeals(cfg, log, stream, p.version, evs);
    AppendKeeps(cfg, log, stream, p.version, evs);
    AppendedLonger(log, l, stream, evs);
    VersionIsNow(agg, log, p);
    BatchLands(agg, log, l, p, st);
    LegalAfter(agg, log, l, p);
  }

  lemma {:induction false} VersionIsNow<S, C, X, E>(agg: Aggregate<S, C, X, E>, log: Log, p: Phase<S, C, X, E>)
    requires p.Decided? && PhaseOk(agg, log, p)
    requires p.version == ANY_VERSION || p.version == |StreamOf(log, agg.stream(p.cmd))|
    ensures p.version == |StreamOf(log, agg.stream(p.cmd))|
  {
  }

  lemma {:induction false} AppendedLonger(log: Log, l: Log, stream: string, evs: seq<Envelope>)
    requires Appended(log, l, stream, evs)
    ensures |log| <= |l| && log <= l
  {
  }

  lemma {:induction false} BatchLands<S, C(!new), X, E(!new)>(agg: Aggregate<S, C, X, E>, log: Log, l: Log,
      p: Phase<S, C, X, E>, st: Stamp)
    requires Lawful(agg) && p.Decided? && PhaseOk(agg, log, p) && p.version == |StreamOf(log, agg.stream(p.cmd))|
    requires |log| <= |l|
    requires Appended(log, l, agg.stream(p.cmd), WrapAll(agg, p.events, agg.key(p.cmd), st))
    ensures Grows(log, l) && l[|log|..] != []
    ensures Batch(agg, agg.stream(p.cmd), StreamOf(log, agg.stream(p.cmd)), l[|log|..], p.cmd, p.ctx)
    ensures StreamOf(l, agg.stream(p.cmd)) == StreamOf(log, agg.stream(p.cmd)) + l[|log|..]
    ensures forall s :: s != agg.stream(p.cmd) ==> StreamOf(l, s) == StreamOf(log, s)
  {
    hide CopyOn, Carries, Lawful;
    var stream, evs := agg.stream(p.cmd), WrapAll(agg, p.events, agg.key(p.cmd), st);
    AppendedBatch(log, l, stream, evs);
    var before := StreamOf(log, stream);
    assert before[..|before|] == before;
    CarriesWrapped(agg, l[|log|..], p.events, agg.key(p.cmd), st, stream);
  }

  lemma {:induction false} LegalAfter<S, C(!new), X(!new), E(!new)>(agg: Aggregate<S, C, X, E>, log: Log, l: Log,
      p: Phase<S, C, X, E>)
    requires Lawful(agg) && AllLegal(agg, log) && p.Decided? && |log| <= |l|
    requires l[|log|..] != []
    requires Batch(agg, agg.stream(p.cmd), StreamOf(log, agg.stream(p.cmd)), l[|log|..], p.cmd, p.ctx)
    requires StreamOf(l, agg.stream(p.cmd)) == StreamOf(log, agg.stream(p.cmd)) + l[|log|..]
    requires forall s :: s != agg.stream(p.cmd) ==> StreamOf(l, s) == StreamOf(log, s)
    ensures AllLegal(agg, l)
  {
    hide Legal, Batch;
    var stream := agg.stream(p.cmd);
    LegalExtends(agg, stream, StreamOf(log, stream), l[|log|..], p.cmd, p.ctx);
  }

  /** Exactly this record was added, on the Rejected stream. */
  ghost predicate OneRejection(log: Log, l: Log, r: Envelope) {
    |l| == |log| + 1 && l[..|log|] == log && CopyOn(l[|log|], r, REJECTED_STREAM)
  }

  lemma {:induction false} RejectStepKeeps<S, C(!new), X(!new), E>(agg: Aggregate<S, C, X, E>, cfg: Config,
      log: Log, r: Envelope)
    requires WellFormed(cfg.c, log) && AllLegal(agg, log)
    requires Append(cfg, log, REJECTED_STREAM, ANY_VERSION, [r]).Ok?
    ensures var l := Append(cfg, log, REJECTED_STREAM, ANY_VERSION, [r]).value;
      && WellFormed(cfg.c, l) && AllLegal(agg, l) && Grows(log, l) && OneRejection(log, l, r)
      && forall s :: s != REJECTED_STREAM ==> StreamOf(l, s) == StreamOf(log, s)
  {
    hide Append, Follows, CopyOn, Legal;
    var l := AppendSeals(cfg, log, REJECTED_STREAM, ANY_VERSION, [r]);
    AppendKeeps(cfg, log, REJECTED_STREAM, ANY_VERSION, [r]);
    AppendedBatch(log, l, REJECTED_STREAM, [r]);
    forall s | s != REJECTED_STREAM ensures Legal(agg, s, StreamOf(l, s)) {
      assert StreamOf(l, s) == StreamOf(log, s);
    }
  }

  lemma {:induction false} ActKeeps<S, C(!new), X(!new), E(!new)>(agg: Aggregate<S, C, X, E>, cfg: Config, log: Log,
      p: Phase<S, C, X, E>, x: X, st: Stamp, rejection: string -> Bytes)
    requires Lawful(agg) && WellFormed(cfg.c, log) && AllLegal(agg, log) && PhaseOk(agg, log, p)
    ensures var (l, q) := Act(agg, cfg, log, p, x, st, rejection);
      WellFormed(cfg.c, l) && AllLegal(agg, l) && Grows(log, l) && PhaseOk(agg, l, q)
  {
    hide Append, Follows, Legal, Lawful, WellFormed, AllLegal;
    match p
    case Decided(c, v, s, ctx, events) =>
      var r := Append(cfg, log, agg.stream(c), v, WrapAll(agg, events, agg.key(c), st));
      if r.Ok? {
        AppendStepKeeps(agg, cfg, log, p, st, r.value);
      }
    case Rejecting(c, code) =>
      if Append(cfg, log, REJECTED_STREAM, ANY_VERSION, [RejectedAs(st, agg.stream(c), rejection(code))]).Ok? {
        RejectStepKeeps(agg, cfg, log, RejectedAs(st, agg.stream(c), rejection(code)));
      }
    case Checked(c) =>
      assert StreamOf(log, agg.stream(c))[..|StreamOf(log, agg.stream(c))|] == StreamOf(log, agg.stream(c));
    case Ready(c, ok) =>
    case Loaded(c, v, s) =>
    case Done(o) =>
  }

  lemma {:induction false} NextKeeps<S, C(!new), X(!new), E(!new)>(agg: Aggregate<S, C, X, E>, cfg: Config,
      m: Machine<S, C, X, E>, ev: Event<C, X>)
    requires Lawful(agg) && Inv(agg, cfg, m) && Enabled(m, ev)
    ensures Inv(agg, cfg, Next(agg, cfg, m, ev))
  {
    hide Act, PhaseOk, AllLegal, Lawful, WellFormed;
    var m' := Next(agg, cfg, m, ev);
    if ev.Turn? {
      ActKeeps(agg, cfg, m.log, m.handlers[ev.h], ev.ctx, ev.stamp, ev.rejection);
    }
    forall h | h in m'.handlers ensures PhaseOk(agg, m'.log, m'.handlers[h]) {
      if h != ev.h {
        if ev.Turn? {
          PhaseStays(agg, m.log, m'.log, m.handlers[h]);
        }
      } else if ev.Arrive? {
        ReadyOk(agg, m.log, ev.cmd, ev.actorOk);
      }
    }
  }

  lemma {:induction false} ReadyOk<S, C, X, E>(agg: Aggregate<S, C, X, E>, log: Log, c: C, ok: bool)
    ensures PhaseOk(agg, log, Ready(c, ok))
  {
  }

  lemma {:induction false} RunKeeps<S, C(!new), X(!new), E(!new)>(agg: Aggregate<S, C, X, E>, cfg: Config,
      ms: seq<Machine<S, C, X, E>>, evs: seq<Event<C, X>>, n: nat)
    requires Lawful(agg) && IsRun(agg, cfg, ms, evs) && n < |ms|
    ensures Inv(agg, cfg, ms[n])
  {
    if n > 0 {
      RunKeeps(agg, cfg, ms, evs, n - 1);
      NextKeeps(agg, cfg, ms[n - 1], evs[n - 1]);
    }
  }

  /** However the handlers interleave, every aggregate stream is a legal run of decided batches. */
  lemma {:induction false} EveryStreamIsLegal<S, C(!new), X(!new), E(!new)>(agg: Aggregate<S, C, X, E>, cfg: Config,
      ms: seq<Machine<S, C, X, E>>, evs: seq<Event<C, X>>, n: nat, stream: string)
    requires Lawful(agg) && IsRun(agg, cfg, ms, evs) && n < |ms| && stream != REJECTED_STREAM
    ensures Legal(agg, stream, StreamOf(ms[n].log, stream))
  {
    RunKeeps(agg, cfg, ms, evs, n);
  }

  // ---- what one call writes ----

  /** One step writes nothing, or one batch on the command's stream, or one record on the Rejected stream. */
  ghost predicate Written<S, C, X, E>(agg: Aggregate<S, C, X, E>, log: Log, l: Log, p: Phase<S, C, X, E>, st: Stamp,
      rejection: string -> Bytes) {
    || l == log
    || (p.Decided? && log <= l
      && Batch(agg, agg.stream(p.cmd), StreamOf(log, agg.stream(p.cmd)), l[|log|..], p.cmd, p.ctx)
        && StreamOf(l, agg.stream(p.cmd)) == StreamOf(log, agg.stream(p.cmd)) + l[|log|..])
    || (p.Rejecting? && OneRejection(log, l, RejectedAs(st, agg.stream(p.cmd), rejection(p.code)))
      && forall s :: s != REJECTED_STREAM ==> StreamOf(l, s) == StreamOf(log, s))
  }

  lemma {:induction false} ActWrites<S, C(!new), X(!new), E(!new)>(agg: Aggregate<S, C, X, E>, cfg: Config,
      log: Log, p: Phase<S, C, X, E>, x: X, st: Stamp, rejection: string -> Bytes)
    requires Lawful(agg) && WellFormed(cfg.c, log) && AllLegal(agg, log) && PhaseOk(agg, log, p)
    ensures var (l, q) := Act(agg, cfg, log, p, x, st, rejection);
      Written(agg, log, l, p, st, rejection) && (l != log ==> q.Done?)
  {
    hide Append, Follows, Legal, Lawful, WellFormed, AllLegal, Batch;
    match p
    case Decided(c, v, s, ctx, events) =>
      var r := Append(cfg, log, agg.stream(c), v, WrapAll(agg, events, agg.key(c), st));
      if r.Ok? {
        AppendStepKeeps(agg, cfg, log, p, st, r.value);
      }
    case Rejecting(c, code) =>
      if Append(cfg, log, REJECTED_STREAM, ANY_VERSION, [RejectedAs(st, agg.stream(c), rejection(code))]).Ok? {
        RejectStepKeeps(agg, cfg, log, RejectedAs(st, agg.stream(c), rejection(code)));
      }
    case Ready(c, ok) =>
    case Checked(c) =>
    case Loaded(c, v, s) =>
    case Done(o) =>
  }

  lemma {:induction false} DoneStays<S, C(!new), X(!new), E(!new)>(agg: Aggregate<S, C, X, E>, cfg: Config,
      ms: seq<Machine<S, C, X, E>>, evs: seq<Event<C, X>>, i: nat, j: nat, h: nat)
    requires IsRun(agg, cfg, ms, evs) && i <= j < |ms| && h in ms[i].handlers && ms[i].handlers[h].Done?
    ensures h in ms[j].handlers && ms[j].handlers[h] == ms[i].handlers[h]
    decreases j
  {
    hide Append;
    if i < j {
      DoneStays(agg, cfg, ms, evs, i, j - 1, h);
      assert ms[j] == Next(agg, cfg, ms[j - 1], evs[j - 1]);
    }
  }

  /** Every step of every run writes nothing, one whole batch on the command's stream, or its one rejection. */
  lemma {:induction false} EveryWriteIsWhole<S, C(!new), X(!new), E(!new)>(agg: Aggregate<S, C, X, E>, cfg: Config,
      ms: seq<Machine<S, C, X, E>>, evs: seq<Event<C, X>>, i: nat)
    requires Lawful(agg) && IsRun(agg, cfg, ms, evs) && i < |evs|
    ensures evs[i].Arrive? ==> ms[i + 1].log == ms[i].log
    ensures evs[i].Turn? ==>
      && evs[i].h in ms[i].handlers
      && Written(agg, ms[i].log, ms[i + 1].log, ms[i].handlers[evs[i].h], evs[i].stamp, evs[i].rejection)
  {
    hide Act, Lawful, Written, PhaseOk;
    RunKeeps(agg, cfg, ms, evs, i);
    assert ms[i + 1] == Next(agg, cfg, ms[i], evs[i]);
    if evs[i].Turn? {
      ActWrites(agg, cfg, ms[i].log, ms[i].handlers[evs[i].h], evs[i].ctx, evs[i].stamp, evs[i].rejection);
    }
  }

  /** A call writes at most once: no two of its steps both change the ledger. */
  lemma {:induction false} OneWritePerCall<S, C(!new), X(!new), E(!new)>(agg: Aggregate<S, C, X, E>, cfg: Config,
      ms: seq<Machine<S, C, X, E>>, evs: seq<Event<C, X>>, i: nat, j: nat)
    requires Lawful(agg) && IsRun(agg, cfg, ms, evs) && i < j < |evs|
    requires evs[i].Turn? && evs[j].Turn? && evs[i].h == evs[j].h
    ensures ms[i + 1].log == ms[i].log || ms[j + 1].log == ms[j].log
  {
    hide Act, Lawful, Written, PhaseOk;
    var h := evs[i].h;
    RunKeeps(agg, cfg, ms, evs, i);
    ActWrites(agg, cfg, ms[i].log, ms[i].handlers[h], evs[i].ctx, evs[i].stamp, evs[i].rejection);
    assert ms[i + 1] == Next(agg, cfg, ms[i], evs[i]);
    if ms[i + 1].log != ms[i].log {
      DoneStays(agg, cfg, ms, evs, i + 1, j, h);
      assert ms[j + 1] == Next(agg, cfg, ms[j], evs[j]);
      DoneIsIdle(agg, cfg, ms[j].log, ms[j].handlers[h], evs[j].ctx, evs[j].stamp, evs[j].rejection);
    }
  }

  lemma {:induction false} DoneIsIdle<S, C, X, E>(agg: Aggregate<S, C, X, E>, cfg: Config, log: Log,
      p: Phase<S, C, X, E>, x: X, st: Stamp, rejection: string -> Bytes)
    requires p.Done?
    ensures Act(agg, cfg, log, p, x, st, rejection) == (log, p)
  {
  }

  /** The outcome of a retry: the version of the record that carries the key on the stream. */
  ghost predicate ReportsKey(log: Log, stream: string, key: string, o: Outcome) {
    exists i :: 0 <= i < |log| && log[i].stream == stream && log[i].idem == key && o == Replayed(log[i].ver)
  }

  /**
   * A key that is on the stream adds nothing to it, wherever the handler stands, and the retry
   * reports the version of the record that carries the key.
   */
  lemma {:induction false} UsedKeyAddsNothing<S, C(!new), X(!new), E(!new)>(agg: Aggregate<S, C, X, E>, cfg: Config,
      log: Log, p: Phase<S, C, X, E>, x: X, st: Stamp, rejection: string -> Bytes)
    requires Lawful(agg) && WellFormed(cfg.c, log) && AllLegal(agg, log) && PhaseOk(agg, log, p)
    requires !p.Done? && agg.key(p.cmd) != "" && IdemUsed(log, agg.stream(p.cmd), agg.key(p.cmd))
    ensures var (l, q) := Act(agg, cfg, log, p, x, st, rejection);
      && StreamOf(l, agg.stream(p.cmd)) == StreamOf(log, agg.stream(p.cmd))
      && (p.Decided? || (p.Ready? && p.actorOk) ==>
            l == log && q.Done? && ReportsKey(log, agg.stream(p.cmd), agg.key(p.cmd), q.outcome))
  {
    hide Follows, Legal, WellFormed, AllLegal, SealOn, Batch, KeyVersion;
    ActWrites(agg, cfg, log, p, x, st, rejection);
    KeyVersionFinds(log, agg.stream(p.cmd), agg.key(p.cmd));
    if p.Decided? {
      var evs := WrapAll(agg, p.events, agg.key(p.cmd), st);
      assert evs[0].idem == agg.key(p.cmd);
      assert IdemClashAt(log, agg.stream(p.cmd), evs, 0);
    }
  }

  // ---- one handler alone ----

  function Refusing(cfg: Config, log: Log, r: Envelope): Log {
    Try(cfg, log, Call(REJECTED_STREAM, ANY_VERSION, [r]))
  }

  /** Decide and append on a loaded stream, with nobody in between. */
  function Concluded<S, C, X, E>(agg: Aggregate<S, C, X, E>, cfg: Config, log: Log, c: C, s: S, x: X, st: Stamp,
      rejection: string -> Bytes): (Log, Outcome)
  {
    var v := |StreamOf(log, agg.stream(c))|;
    match agg.decide(s, c, x)
    case Reject(code) => (Refusing(cfg, log, RejectedAs(st, agg.stream(c), rejection(code))), Refused(code))
    case Broken => (log, Failed)
    case Emit(events) =>
      if events == [] then (log, Nothing)
      else
        match Append(cfg, log, agg.stream(c), v, WrapAll(agg, events, agg.key(c), st))
        case Ok(l) => (l, Wrote(v, |events|))
        case Err(err) =>
          (log, if err == DuplicateIdem then Replayed(KeyVersion(log, agg.stream(c), agg.key(c))) else Failed)
  }

  /** The whole of handle when no other call comes in between. */
  function Handled<S, C, X, E>(agg: Aggregate<S, C, X, E>, cfg: Config, log: Log, c: C, actorOk: bool, x: X,
      st: Stamp, rejection: string -> Bytes): (Log, Outcome)
  {
    if !actorOk then
      (Refusing(cfg, log, RejectedAs(st, agg.stream(c), rejection("unauthenticated"))), Refused("unauthenticated"))
    else if agg.key(c) != "" && IdemUsed(log, agg.stream(c), agg.key(c)) then
      (log, Replayed(KeyVersion(log, agg.stream(c), agg.key(c))))
    else
      match Replay(agg, agg.stream(c), StreamOf(log, agg.stream(c)))
      case None => (log, Failed)
      case Some(s) => Concluded(agg, cfg, log, c, s, x, st, rejection)
  }

  function Acts<S, C, X, E>(agg: Aggregate<S, C, X, E>, cfg: Config, log: Log, p: Phase<S, C, X, E>, x: X,
      st: Stamp, rejection: string -> Bytes, n: nat): (Log, Phase<S, C, X, E>)
    decreases n
  {
    if n == 0 then (log, p)
    else
      var (l, q) := Act(agg, cfg, log, p, x, st, rejection);
      Acts(agg, cfg, l, q, x, st, rejection, n - 1)
  }

  lemma {:induction false} ActsNext<S, C, X, E>(agg: Aggregate<S, C, X, E>, cfg: Config, log: Log,
      p: Phase<S, C, X, E>, x: X, st: Stamp, rejection: string -> Bytes, n: nat)
    requires n > 0
    ensures var (l, q) := Act(agg, cfg, log, p, x, st, rejection);
      Acts(agg, cfg, log, p, x, st, rejection, n) == Acts(agg, cfg, l, q, x, st, rejection, n - 1)
  {
    hide Act;
  }

  lemma {:induction false} DoneActs<S, C, X, E>(agg: Aggregate<S, C, X, E>, cfg: Config, log: Log,
      p: Phase<S, C, X, E>, x: X, st: Stamp, rejection: string -> Bytes, n: nat)
    requires p.Done?
    ensures Acts(agg, cfg, log, p, x, st, rejection, n) == (log, p)
    decreases n
  {
    if n > 0 {
      DoneActs(agg, cfg, log, p, x, st, rejection, n - 1);
    }
  }

  lemma {:induction false} RejectingActs<S, C, X, E>(agg: Aggregate<S, C, X, E>, cfg: Config, log: Log, c: C,
      code: string, x: X, st: Stamp, rejection: string -> Bytes, n: nat)
    requires n > 0
    ensures Acts(agg, cfg, log, Rejecting(c, code), x, st, rejection, n) ==
      (Refusing(cfg, log, RejectedAs(st, agg.stream(c), rejection(code))), Done(Refused(code)))
  {
    hide Append;
    var l := Refusing(cfg, log, RejectedAs(st, agg.stream(c), rejection(code)));
    DoneActs(agg, cfg, l, Done(Refused(code)), x, st, rejection, n - 1);
  }

  /** Handled alone is four steps of the machine: nothing else is left to do after them. */
  lemma {:induction false} HandledIsFourSteps<S, C, X, E>(agg: Aggregate<S, C, X, E>, cfg: Config, log: Log, c: C,
      actorOk: bool, x: X, st: Stamp, rejection: string -> Bytes)
    ensures var (l, o) := Handled(agg, cfg, log, c, actorOk, x, st, rejection);
      Acts(agg, cfg, log, Ready(c, actorOk), x, st, rejection, 4) == (l, Done(o))
  {
    hide Append, IdemUsed, KeyVersion, Replay, Acts;
    var p: Phase<S, C, X, E> := Ready(c, actorOk);
    var (l1, p1) := Act(agg, cfg, log, p, x, st, rejection);
    ActsNext(agg, cfg, log, p, x, st, rejection, 4);
    if p1.Done? {
      DoneActs(agg, cfg, log, p1, x, st, rejection, 3);
    } else if p1.Rejecting? {
      RejectingActs(agg, cfg, log, c, p1.code, x, st, rejection, 3);
    } else {
      ActsNext(agg, cfg, log, p1, x, st, rejection, 3);
      var (l2, p2) := Act(agg, cfg, log, p1, x, st, rejection);
      if p2.Done? {
        DoneActs(agg, cfg, log, p2, x, st, rejection, 2);
      } else {
        LoadedActs(agg, cfg, log, c, p2.state, x, st, rejection);
      }
    }
  }

  lemma {:induction false} LoadedActs<S, C, X, E>(agg: Aggregate<S, C, X, E>, cfg: Config, log: Log, c: C, s: S,
      x: X, st: Stamp, rejection: string -> Bytes)
    ensures var (l, o) := Concluded(agg, cfg, log, c, s, x, st, rejection);
      Acts(agg, cfg, log, Loaded(c, |StreamOf(log, agg.stream(c))|, s), x, st, rejection, 2) == (l, Done(o))
  {
    hide Append, KeyVersion, StreamOf, Acts;
    var p: Phase<S, C, X, E> := Loaded(c, |StreamOf(log, agg.stream(c))|, s);
    ActsNext(agg, cfg, log, p, x, st, rejection, 2);
    var (l1, p1) := Act(agg, cfg, log, p, x, st, rejection);
    if p1.Done? {
      DoneActs(agg, cfg, log, p1, x, st, rejection, 1);
    } else if p1.Rejecting? {
      RejectingActs(agg, cfg, log, c, p1.code, x, st, rejection, 1);
    } else {
      ActsNext(agg, cfg, log, p1, x, st, rejection, 1);
      var (l2, p2) := Act(agg, cfg, log, p1, x, st, rejection);
      DoneActs(agg, cfg, l2, p2, x, st, rejection, 0);
    }
  }

  /**
   * On any ledger, whatever its other streams hold, a call keeps its own stream legal, and moves no
   * stream but its own and the Rejected one.
   */
  lemma {:induction false} HandledKeepsLegal<S, C(!new), X(!new), E(!new)>(agg: Aggregate<S, C, X, E>, cfg: Config,
      log: Log, c: C, actorOk: bool, x: X, st: Stamp, rejection: string -> Bytes)
    requires Lawful(agg) && WellFormed(cfg.c, log) && Legal(agg, agg.stream(c), StreamOf(log, agg.stream(c)))
    ensures var l := Handled(agg, cfg, log, c, actorOk, x, st, rejection).0;
      && WellFormed(cfg.c, l) && log <= l && Legal(agg, agg.stream(c), StreamOf(l, agg.stream(c)))
      && forall s :: s != agg.stream(c) && s != REJECTED_STREAM ==> StreamOf(l, s) == StreamOf(log, s)
  {
    hide Append, WellFormed, Legal, IdemUsed, KeyVersion, Refusing, Replay, StreamOf;
    var stream := agg.stream(c);
    forall code ensures Refuses(cfg, log, RejectedAs(st, stream, rejection(code))) {
      RefusingKeeps(cfg, log, RejectedAs(st, stream, rejection(code)));
    }
    var s := Replay(agg, stream, StreamOf(log, stream));
    if s.Some? && agg.decide(s.value, c, x).Emit? && agg.decide(s.value, c, x).events != [] {
      AppendKeepsLegal(agg, cfg, log, c, s.value, x, st);
    }
  }

  lemma {:induction false} AppendKeepsLegal<S, C(!new), X(!new), E(!new)>(agg: Aggregate<S, C, X, E>, cfg: Config,
      log: Log, c: C, s: S, x: X, st: Stamp)
    requires Lawful(agg) && WellFormed(cfg.c, log) && Legal(agg, agg.stream(c), StreamOf(log, agg.stream(c)))
    requires Replay(agg, agg.stream(c), StreamOf(log, agg.stream(c))) == Some(s)
    requires agg.decide(s, c, x).Emit? && agg.decide(s, c, x).events != []
    ensures var stream := agg.stream(c);
      var r := Append(cfg, log, stream, |StreamOf(log, stream)|,
        WrapAll(agg, agg.decide(s, c, x).events, agg.key(c), st));
      r.Ok? ==>
        && WellFormed(cfg.c, r.value) && log <= r.value && Legal(agg, stream, StreamOf(r.value, stream))
        && forall t :: t != stream ==> StreamOf(r.value, t) == StreamOf(log, t)
  {
    hide Append, WellFormed, Legal, Batch, Appended, Lawful, Replay;
    var stream, envs := agg.stream(c), StreamOf(log, agg.stream(c));
    var p: Phase<S, C, X, E> := Decided(c, |envs|, s, x, agg.decide(s, c, x).events);
    var evs := WrapAll(agg, p.events, agg.key(c), st);
    assert envs[..|envs|] == envs;
    if Append(cfg, log, stream, |envs|, evs).Ok? {
      var l := AppendSeals(cfg, log, stream, |envs|, evs);
      AppendKeeps(cfg, log, stream, |envs|, evs);
      AppendedLonger(log, l, stream, evs);
      BatchLands(agg, log, l, p, st);
      LegalExtends(agg, stream, envs, l[|log|..], c, x);
    }
  }

  /** Recording a refusal moves the Rejected stream at most. */
  ghost predicate Refuses(cfg: Config, log: Log, r: Envelope) {
    var l := Refusing(cfg, log, r);
    && WellFormed(cfg.c, l) && log <= l
    && forall s :: s != REJECTED_STREAM ==> StreamOf(l, s) == StreamOf(log, s)
  }

  lemma {:induction false} RefusingKeeps(cfg: Config, log: Log, r: Envelope)
    requires WellFormed(cfg.c, log)
    ensures Refuses(cfg, log, r)
  {
    hide Append, Follows, WellFormed;
    if Append(cfg, log, REJECTED_STREAM, ANY_VERSION, [r]).Ok? {
      AppendKeeps(cfg, log, REJECTED_STREAM, ANY_VERSION, [r]);
    }
  }

  // ---- what an answer means ----

  /** The signer never fails and no record lacks a kind or a stream. */
  ghost predicate Reliable<S, C(!new), X, E(!new)>(agg: Aggregate<S, C, X, E>, cfg: Config) {
    AlwaysSigns(cfg) && (forall e :: agg.encode(e).kind != "") && forall c :: agg.stream(c) != ""
  }

  /** This step wrote the refusal down: one record that names the actor, the stream and the code. */
  ghost predicate WroteRefusal(log: Log, l: Log, st: Stamp, target: string, body: Bytes) {
    && |l| == |log| + 1 && l[..|log|] == log
    && var r := l[|log|];
       && r.stream == REJECTED_STREAM && r.kind == "Rejected" && r.v == 1 && r.ts <= st.ts < r.ts + 1000
       && r.actor == st.actor && r.meta == EventMeta([target], "", 0) && r.body == body && r.idem == ""
       && r.origin.None?
  }

  /** This step wrote the whole decided batch, at the version where the stream stood. */
  ghost predicate WroteBatch<S, C, X, E>(agg: Aggregate<S, C, X, E>, log: Log, l: Log, c: C, x: X, from: nat, n: nat) {
    && log <= l && Batch(agg, agg.stream(c), StreamOf(log, agg.stream(c)), l[|log|..], c, x)
    && StreamOf(l, agg.stream(c)) == StreamOf(log, agg.stream(c)) + l[|log|..]
    && from == |StreamOf(log, agg.stream(c))| && n == |l| - |log|
  }

  lemma {:induction false} RefusalIsWritten<S, C(!new), X, E(!new)>(agg: Aggregate<S, C, X, E>, cfg: Config, log: Log,
      st: Stamp, target: string, body: Bytes)
    requires Reliable(agg, cfg)
    ensures var r := Append(cfg, log, REJECTED_STREAM, ANY_VERSION, [RejectedAs(st, target, body)]);
      r.Ok? && WroteRefusal(log, r.value, st, target, body)
  {
    hide Append, AlwaysSigns;
    var r := RejectedAs(st, target, body);
    assert !IdemClashAt(log, REJECTED_STREAM, [r], 0) && !HasUsedOrigin(log, [r][0]);
    AppendOneWorks(cfg, log, REJECTED_STREAM, ANY_VERSION, r);
    var s := AppendOne(cfg, log, REJECTED_STREAM, ANY_VERSION, r);
  }

  /**
   * What a call leaves when no other comes in between and the signer works: a caller who is not
   * authenticated and a command that is turned down leave exactly one record of the refusal, a used
   * key, a command that changes nothing and a stream that cannot be read leave nothing, and every
   * other command leaves its whole batch.
   */
  lemma {:induction false} CallLeaves<S, C(!new), X(!new), E(!new)>(agg: Aggregate<S, C, X, E>, cfg: Config,
      log: Log, c: C, actorOk: bool, x: X, st: Stamp, rejection: string -> Bytes)
    requires Lawful(agg) && Reliable(agg, cfg) && WellFormed(cfg.c, log)
    ensures var stream, (l, o) := agg.stream(c), Handled(agg, cfg, log, c, actorOk, x, st, rejection);
      var s, used := Replay(agg, stream, StreamOf(log, stream)), agg.key(c) != "" && IdemUsed(log, stream, agg.key(c));
      && (!actorOk ==> o == Refused("unauthenticated"))
      && (actorOk && used ==> o.Replayed?)
      && (actorOk && !used && s.None? ==> o.Failed?)
      && (actorOk && !used && s.Some? ==> AnswersDecision(agg.decide(s.value, c, x), o))
      && (o.Refused? ==> WroteRefusal(log, l, st, stream, rejection(o.code)))
      && (o.Wrote? ==> WroteBatch(agg, log, l, c, x, o.from, o.n))
      && (!o.Refused? && !o.Wrote? ==> l == log)
      && (o.Replayed? ==> ReportsKey(log, stream, agg.key(c), o))
  {
    hide Append, WellFormed, Replay, AlwaysSigns, Lawful, IdemUsed, Batch, KeyVersion;
    var stream := agg.stream(c);
    var s := Replay(agg, stream, StreamOf(log, stream));
    if !actorOk {
      RefusalIsWritten(agg, cfg, log, st, stream, rejection("unauthenticated"));
    } else if agg.key(c) != "" && IdemUsed(log, stream, agg.key(c)) {
      KeyVersionFinds(log, stream, agg.key(c));
    } else if s.Some? {
      match agg.decide(s.value, c, x)
      case Reject(code) => RefusalIsWritten(agg, cfg, log, st, stream, rejection(code));
      case Emit(events) =>
        if events != [] {
          BatchIsWritten(agg, cfg, log, c, s.value, x, st);
        }
      case Broken =>
    }
  }

  /** The answer to a decision that was carried out. */
  predicate AnswersDecision<E>(d: Decision<E>, o: Outcome) {
    match d
    case Reject(code) => o == Refused(code)
    case Broken => o.Failed?
    case Emit(events) => if events == [] then o.Nothing? else o.Wrote?
  }

  lemma {:induction false} BatchIsWritten<S, C(!new), X(!new), E(!new)>(agg: Aggregate<S, C, X, E>, cfg: Config,
      log: Log, c: C, s: S, x: X, st: Stamp)
    requires Lawful(agg) && Reliable(agg, cfg) && WellFormed(cfg.c, log)
    requires agg.key(c) == "" || !IdemUsed(log, agg.stream(c), agg.key(c))
    requires Replay(agg, agg.stream(c), StreamOf(log, agg.stream(c))) == Some(s)
    requires agg.decide(s, c, x).Emit? && agg.decide(s, c, x).events != []
    ensures var envs, events := StreamOf(log, agg.stream(c)), agg.decide(s, c, x).events;
      var r := Append(cfg, log, agg.stream(c), |envs|, WrapAll(agg, events, agg.key(c), st));
      r.Ok? && WroteBatch(agg, log, r.value, c, x, |envs|, |events|)
  {
    hide Append, WellFormed, Batch, Appended, Lawful, Replay, IdemUsed, Reliable, WrapAll;
    var stream, envs := agg.stream(c), StreamOf(log, agg.stream(c));
    var p: Phase<S, C, X, E> := Decided(c, |envs|, s, x, agg.decide(s, c, x).events);
    var evs := WrapAll(agg, p.events, agg.key(c), st);
    assert envs[..|envs|] == envs;
    WrappedWorks(agg, cfg, log, c, p.events, st);
    AppendKeeps(cfg, log, stream, |envs|, evs);
    var l := Append(cfg, log, stream, |envs|, evs).value;
    AppendedLonger(log, l, stream, evs);
    BatchLands(agg, log, l, p, st);
    AppendedLength(log, l, stream, evs);
    WrapLength(agg, p.events, agg.key(c), st);
  }

  lemma {:induction false} WrapLength<S, C, X, E>(agg: Aggregate<S, C, X, E>, events: seq<E>, key: string, st: Stamp)
    ensures |WrapAll(agg, events, key, st)| == |events|
  {
  }

  lemma {:induction false} WrappedWorks<S, C(!new), X, E(!new)>(agg: Aggregate<S, C, X, E>, cfg: Config, log: Log,
      c: C, events: seq<E>, st: Stamp)
    requires Reliable(agg, cfg) && events != [] && (agg.key(c) == "" || !IdemUsed(log, agg.stream(c), agg.key(c)))
    ensures Append(cfg, log, agg.stream(c), |StreamOf(log, agg.stream(c))|, WrapAll(agg, events, agg.key(c), st)).Ok?
  {
    hide Append, AlwaysSigns, IdemUsed;
    WrappedPass(agg, log, agg.stream(c), events, agg.key(c), st);
    BatchWorks(cfg, log, agg.stream(c), |StreamOf(log, agg.stream(c))|, WrapAll(agg, events, agg.key(c), st));
  }

  lemma {:induction false} AppendedLength(log: Log, l: Log, stream: string, evs: seq<Envelope>)
    requires Appended(log, l, stream, evs)
    ensures |l| == |log| + |evs|
  {
  }

  /** Wrapped events of a new key at the current version break no rule of the ledger. */
  lemma {:induction false} WrappedPass<S, C, X, E>(agg: Aggregate<S, C, X, E>, log: Log, stream: string,
      events: seq<E>, key: string, st: Stamp)
    requires events != [] && (key == "" || !IdemUsed(log, stream, key))
    ensures Refusal(log, stream, |StreamOf(log, stream)|, WrapAll(agg, events, key, st)).None?
  {
    hide IdemUsed;
    var evs := WrapAll(agg, events, key, st);
    forall j | 0 <= j < |evs| ensures !IdemClashAt(log, stream, evs, j) && !HasUsedOrigin(log, evs[j]) {
      assert evs[j].idem == if j == 0 then key else "";
    }
  }

  // ---- the story of a call ----

  /** The call of this handler arrived before moment n. */
  ghost predicate Arrived<C, X>(evs: seq<Event<C, X>>, n: nat, h: nat, c: C, ok: bool) {
    n <= |evs| && exists k :: 0 <= k < n && evs[k].Arrive? && evs[k].h == h && evs[k].cmd == c && evs[k].actorOk == ok
  }

  /** At this step the handler's command was turned down with this code. */
  ghost predicate TurnedDown<S, C, X, E>(agg: Aggregate<S, C, X, E>, ms: seq<Machine<S, C, X, E>>,
      evs: seq<Event<C, X>>, i: nat, h: nat, c: C, code: string)
    requires i < |evs| && i < |ms|
  {
    && evs[i].Turn? && evs[i].h == h && h in ms[i].handlers && ms[i].handlers[h].Loaded?
    && ms[i].handlers[h].cmd == c && agg.decide(ms[i].handlers[h].state, c, evs[i].ctx) == Reject(code)
  }

  /** What a step that ends a call with this outcome found and did. */
  ghost predicate Ends<S, C, X, E>(agg: Aggregate<S, C, X, E>, log: Log, l: Log, p: Phase<S, C, X, E>, x: X,
      st: Stamp, rejection: string -> Bytes, o: Outcome)
    requires !p.Done?
  {
    match o
    case Refused(code) =>
      p.Rejecting? && p.code == code && WroteRefusal(log, l, st, agg.stream(p.cmd), rejection(code))
    case Wrote(from, n) => p.Decided? && WroteBatch(agg, log, l, p.cmd, p.ctx, from, n)
    case Replayed(_) => l == log && ReportsKey(log, agg.stream(p.cmd), agg.key(p.cmd), o)
    case Nothing => l == log && p.Loaded? && agg.decide(p.state, p.cmd, x) == Emit([])
    case Failed => l == log
  }

  /** At this step the handler ended the call with this outcome. */
  ghost predicate EndedAt<S, C, X, E>(agg: Aggregate<S, C, X, E>, ms: seq<Machine<S, C, X, E>>,
      evs: seq<Event<C, X>>, i: nat, h: nat, c: C, o: Outcome)
    requires i < |evs| && |ms| == |evs| + 1
  {
    && evs[i].Turn? && evs[i].h == h && h in ms[i].handlers && !ms[i].handlers[h].Done? && ms[i].handlers[h].cmd == c
    && Ends(agg, ms[i].log, ms[i + 1].log, ms[i].handlers[h], evs[i].ctx, evs[i].stamp, evs[i].rejection, o)
  }

  /** The refusal of this call was called for. */
  ghost predicate CalledFor<S, C, X, E>(agg: Aggregate<S, C, X, E>, ms: seq<Machine<S, C, X, E>>,
      evs: seq<Event<C, X>>, n: nat, h: nat, c: C, code: string)
    requires n < |ms| && |ms| == |evs| + 1
  {
    || (Arrived(evs, n, h, c, false) && code == "unauthenticated")
    || (Arrived(evs, n, h, c, true) && exists i :: 0 <= i < n && TurnedDown(agg, ms, evs, i, h, c, code))
  }

  /** Where the handler stands goes back to its call and to what its steps found. */
  ghost predicate Told<S, C(!new), X, E>(agg: Aggregate<S, C, X, E>, ms: seq<Machine<S, C, X, E>>,
      evs: seq<Event<C, X>>, n: nat, h: nat)
    requires n < |ms| && |ms| == |evs| + 1
  {
    h in ms[n].handlers ==>
      match ms[n].handlers[h]
      case Ready(c, ok) => Arrived(evs, n, h, c, ok)
      case Checked(c) => Arrived(evs, n, h, c, true)
      case Loaded(c, _, _) => Arrived(evs, n, h, c, true)
      case Decided(c, _, _, _, _) => Arrived(evs, n, h, c, true)
      case Rejecting(c, code) => CalledFor(agg, ms, evs, n, h, c, code)
      case Done(o) => Answered(agg, ms, evs, n, h, o)
  }

  ghost predicate Answered<S, C(!new), X, E>(agg: Aggregate<S, C, X, E>, ms: seq<Machine<S, C, X, E>>,
      evs: seq<Event<C, X>>, n: nat, h: nat, o: Outcome)
    requires n < |ms| && |ms| == |evs| + 1
  {
    exists c, i :: 0 <= i < n && EndedAt(agg, ms, evs, i, h, c, o) &&
      if o.Refused? then CalledFor(agg, ms, evs, n, h, c, o.code) else Arrived(evs, n, h, c, true)
  }

  lemma {:induction false} ToldBefore<S, C(!new), X, E>(agg: Aggregate<S, C, X, E>, ms: seq<Machine<S, C, X, E>>,
      evs: seq<Event<C, X>>, n: nat, h: nat)
    requires |ms| == |evs| + 1 && n < |evs| && Told(agg, ms, evs, n, h)
    requires h in ms[n].handlers && h in ms[n + 1].handlers && ms[n + 1].handlers[h] == ms[n].handlers[h]
    ensures Told(agg, ms, evs, n + 1, h)
  {
    hide EndedAt, TurnedDown;
  }

  /** One step of one handler, told on. */
  lemma {:induction false} TellsOn<S, C(!new), X(!new), E(!new)>(agg: Aggregate<S, C, X, E>, cfg: Config,
      ms: seq<Machine<S, C, X, E>>, evs: seq<Event<C, X>>, n: nat, h: nat)
    requires Lawful(agg) && Reliable(agg, cfg) && IsRun(agg, cfg, ms, evs) && n < |evs| && evs[n].Turn? && evs[n].h == h
    requires Inv(agg, cfg, ms[n]) && Told(agg, ms, evs, n, h)
    ensures Told(agg, ms, evs, n + 1, h)
  {
    hide Append, WellFormed, Replay, AlwaysSigns, Lawful, AllLegal, IdemUsed, Batch, Ends, Reliable, PhaseOk;
    hide KeyVersion, Arrived, CalledFor;
    var m, m', ev := ms[n], ms[n + 1], evs[n];
    assert Enabled(m, ev) && m' == Next(agg, cfg, m, ev);
    var p, q := m.handlers[h], m'.handlers[h];
    if p.Done? {
      ToldBefore(agg, ms, evs, n, h);
    } else {
      EndIsTrue(agg, cfg, m.log, p, ev.ctx, ev.stamp, ev.rejection);
      ToldLater(agg, ms, evs, n, h, p.cmd);
      if q.Rejecting? {
        NewlyRejecting(agg, ms, evs, n, h, p.cmd, q.code);
      }
      if q.Done? {
        assert EndedAt(agg, ms, evs, n, h, p.cmd, q.outcome);
        assert q.outcome.Refused? ==> p.Rejecting? && p.code == q.outcome.code;
        assert p.Ready? && !q.outcome.Refused? ==> p.actorOk;
      }
    }
  }

  lemma {:induction false} ToldLater<S, C(!new), X, E>(agg: Aggregate<S, C, X, E>, ms: seq<Machine<S, C, X, E>>,
      evs: seq<Event<C, X>>, n: nat, h: nat, c: C)
    requires |ms| == |evs| + 1 && n < |evs|
    ensures forall ok :: Arrived(evs, n, h, c, ok) ==> Arrived(evs, n + 1, h, c, ok)
    ensures forall code :: CalledFor(agg, ms, evs, n, h, c, code) ==> CalledFor(agg, ms, evs, n + 1, h, c, code)
  {
    hide TurnedDown;
  }

  /** A handler that starts to refuse has a caller who is not authenticated or was just turned down. */
  lemma {:induction false} NewlyRejecting<S, C(!new), X, E>(agg: Aggregate<S, C, X, E>, ms: seq<Machine<S, C, X, E>>,
      evs: seq<Event<C, X>>, n: nat, h: nat, c: C, code: string)
    requires |ms| == |evs| + 1 && n < |evs|
    ensures Arrived(evs, n, h, c, false) && code == "unauthenticated" ==> CalledFor(agg, ms, evs, n + 1, h, c, code)
    ensures Arrived(evs, n, h, c, true) && TurnedDown(agg, ms, evs, n, h, c, code) ==>
      CalledFor(agg, ms, evs, n + 1, h, c, code)
  {
    hide TurnedDown;
  }

  /** A step that ends a call tells the truth about it. */
  lemma {:induction false} EndIsTrue<S, C(!new), X(!new), E(!new)>(agg: Aggregate<S, C, X, E>, cfg: Config, log: Log,
      p: Phase<S, C, X, E>, x: X, st: Stamp, rejection: string -> Bytes)
    requires Lawful(agg) && Reliable(agg, cfg) && WellFormed(cfg.c, log) && AllLegal(agg, log) && PhaseOk(agg, log, p)
    requires !p.Done?
    ensures var (l, q) := Act(agg, cfg, log, p, x, st, rejection);
      q.Done? ==> Ends(agg, log, l, p, x, st, rejection, q.outcome)
  {
    hide Append, WellFormed, Replay, AlwaysSigns, Lawful, AllLegal, IdemUsed, Batch, KeyVersion, Reliable, WroteRefusal;
    match p
    case Ready(c, ok) =>
      if agg.key(c) != "" && IdemUsed(log, agg.stream(c), agg.key(c)) {
        KeyVersionFinds(log, agg.stream(c), agg.key(c));
      }
    case Rejecting(c, code) => RefusalIsWritten(agg, cfg, log, st, agg.stream(c), rejection(code));
    case Decided(c, v, s, ctx, events) =>
      var evs := WrapAll(agg, events, agg.key(c), st);
      var r := Append(cfg, log, agg.stream(c), v, evs);
      if r.Ok? {
        AppendStepKeeps(agg, cfg, log, p, st, r.value);
        AppendKeeps(cfg, log, agg.stream(c), v, evs);
        AppendedLength(log, r.value, agg.stream(c), evs);
      } else {
        KeyClash(agg, cfg, log, c, v, events, st);
      }
    case _ =>
  }

  /** An append that reports a used key met it on the stream. */
  lemma {:induction false} KeyClash<S, C, X, E>(agg: Aggregate<S, C, X, E>, cfg: Config, log: Log, c: C, v: nat,
      events: seq<E>, st: Stamp)
    requires events != []
    ensures Append(cfg, log, agg.stream(c), v, WrapAll(agg, events, agg.key(c), st)) == Err(DuplicateIdem) ==>
      IdemUsed(log, agg.stream(c), agg.key(c)) &&
      ReportsKey(log, agg.stream(c), agg.key(c), Replayed(KeyVersion(log, agg.stream(c), agg.key(c))))
  {
    hide SealOn, IdemUsed, KeyVersion;
    var evs, stream := WrapAll(agg, events, agg.key(c), st), agg.stream(c);
    SealOnNoRefusal(cfg, log, stream, evs);
    if j :| 0 <= j < |evs| && IdemClashAt(log, stream, evs, j) {
      assert evs[j].idem == if j == 0 then agg.key(c) else "";
      KeyVersionFinds(log, stream, agg.key(c));
    }
  }

  lemma {:induction false} RunTells<S, C(!new), X(!new), E(!new)>(agg: Aggregate<S, C, X, E>, cfg: Config,
      ms: seq<Machine<S, C, X, E>>, evs: seq<Event<C, X>>, n: nat, h: nat)
    requires Lawful(agg) && Reliable(agg, cfg) && IsRun(agg, cfg, ms, evs) && n < |ms|
    ensures Told(agg, ms, evs, n, h)
  {
    hide Act, Lawful, Reliable, CalledFor, Answered, Inv;
    if n > 0 {
      RunTells(agg, cfg, ms, evs, n - 1, h);
      RunKeeps(agg, cfg, ms, evs, n - 1);
      var m, ev := ms[n - 1], evs[n - 1];
      assert Enabled(m, ev) && ms[n - 1 + 1] == Next(agg, cfg, m, ev);
      if ev.Turn? && ev.h == h {
        TellsOn(agg, cfg, ms, evs, n - 1, h);
      } else if h in m.handlers {
        ToldBefore(agg, ms, evs, n - 1, h);
      } else if ev.Arrive? && ev.h == h {
        assert Arrived(evs, n, h, ev.cmd, ev.actorOk);
      }
    }
  }

  /**
   * At every moment of every run, an answered call was answered truthfully: a refusal was called for,
   * because the caller was not authenticated or the command was turned down on the loaded state, and
   * the step that answered wrote it down; a success wrote the whole batch; a replay found the key; and
   * every other answer wrote nothing. A caller who is not authenticated is never answered otherwise.
   */
  lemma {:induction false} EveryAnswerIsTrue<S, C(!new), X(!new), E(!new)>(agg: Aggregate<S, C, X, E>, cfg: Config,
      ms: seq<Machine<S, C, X, E>>, evs: seq<Event<C, X>>, n: nat, h: nat)
    requires Lawful(agg) && Reliable(agg, cfg) && IsRun(agg, cfg, ms, evs) && n < |ms|
    requires h in ms[n].handlers && ms[n].handlers[h].Done?
    ensures Answered(agg, ms, evs, n, h, ms[n].handlers[h].outcome)
  {
    RunTells(agg, cfg, ms, evs, n, h);
  }

  // ---- every call can be made ----

  /** The events of one call with nobody in between: it arrives and takes four steps. */
  function LoneCall<C, X>(h: nat, c: C, actorOk: bool, x: X, st: Stamp, rejection: string -> Bytes)
    : seq<Event<C, X>>
  {
    [Arrive(h, c, actorOk)] + Turns(h, x, st, rejection, 4)
  }

  function Turns<C, X>(h: nat, x: X, st: Stamp, rejection: string -> Bytes, n: nat): seq<Event<C, X>> {
    seq(n, i requires 0 <= i < n => Turn(h, x, st, rejection))
  }

  lemma {:induction false} RunMore<S, C, X, E>(agg: Aggregate<S, C, X, E>, cfg: Config, ms: seq<Machine<S, C, X, E>>,
      evs: seq<Event<C, X>>, ev: Event<C, X>)
    requires IsRun(agg, cfg, ms, evs) && Enabled(ms[|evs|], ev)
    ensures IsRun(agg, cfg, ms + [Next(agg, cfg, ms[|evs|], ev)], evs + [ev])
  {
    hide Next;
    var more, evs' := ms + [Next(agg, cfg, ms[|evs|], ev)], evs + [ev];
    forall i | 0 <= i < |evs'| ensures Enabled(more[i], evs'[i]) && more[i + 1] == Next(agg, cfg, more[i], evs'[i]) {
      if i < |evs| {
        assert more[i] == ms[i] && more[i + 1] == ms[i + 1] && evs'[i] == evs[i];
      }
    }
  }

  lemma {:induction false} TurnsGoOn<S, C, X, E>(agg: Aggregate<S, C, X, E>, cfg: Config,
      ms: seq<Machine<S, C, X, E>>, evs: seq<Event<C, X>>, h: nat, x: X, st: Stamp, rejection: string -> Bytes, n: nat)
    returns (ms': seq<Machine<S, C, X, E>>)
    requires IsRun(agg, cfg, ms, evs) && h in ms[|evs|].handlers
    ensures |ms'| == |ms| + n && ms'[..|ms|] == ms
    ensures IsRun(agg, cfg, ms', evs + Turns(h, x, st, rejection, n))
    ensures var m, m' := ms[|evs|], ms'[|ms'| - 1];
      && h in m'.handlers
      && (m'.log, m'.handlers[h]) == Acts(agg, cfg, m.log, m.handlers[h], x, st, rejection, n)
    decreases n
  {
    hide Act;
    var turns: seq<Event<C, X>> := Turns(h, x, st, rejection, n);
    if n == 0 {
      ms' := ms;
      assert evs + turns == evs;
    } else {
      var ev: Event<C, X> := Turn(h, x, st, rejection);
      var m := ms[|evs|];
      RunMore(agg, cfg, ms, evs, ev);
      ActsNext(agg, cfg, m.log, m.handlers[h], x, st, rejection, n);
      var rest: seq<Event<C, X>> := Turns(h, x, st, rejection, n - 1);
      ms' := TurnsGoOn(agg, cfg, ms + [Next(agg, cfg, m, ev)], evs + [ev], h, x, st, rejection, n - 1);
      assert evs + [ev] + rest == evs + turns;
      assert ms'[..|ms|] == ms'[..|ms| + 1][..|ms|];
    }
  }

  /**
   * From every moment of every run any further call can be made, and when no other comes in between
   * it ends, in what the uninterrupted call leaves.
   */
  lemma {:induction false} EveryCallCanEnd<S, C, X, E>(agg: Aggregate<S, C, X, E>, cfg: Config,
      ms: seq<Machine<S, C, X, E>>, evs: seq<Event<C, X>>, h: nat, c: C, actorOk: bool, x: X, st: Stamp,
      rejection: string -> Bytes)
    returns (ms': seq<Machine<S, C, X, E>>)
    requires IsRun(agg, cfg, ms, evs) && h !in ms[|evs|].handlers
    ensures IsRun(agg, cfg, ms', evs + LoneCall(h, c, actorOk, x, st, rejection)) && ms'[..|ms|] == ms
    ensures var (l, o) := Handled(agg, cfg, ms[|evs|].log, c, actorOk, x, st, rejection);
      var m' := ms'[|ms'| - 1];
      m'.log == l && h in m'.handlers && m'.handlers[h] == Done(o)
  {
    hide Act, Acts, Handled;
    var ev: Event<C, X> := Arrive(h, c, actorOk);
    var m := ms[|evs|];
    RunMore(agg, cfg, ms, evs, ev);
    ms' := TurnsGoOn(agg, cfg, ms + [Next(agg, cfg, m, ev)], evs + [ev], h, x, st, rejection, 4);
    HandledIsFourSteps(agg, cfg, m.log, c, actorOk, x, st, rejection);
    assert evs + LoneCall(h, c, actorOk, x, st, rejection) == evs + [ev] + Turns(h, x, st, rejection, 4);
    assert ms'[..|ms|] == ms'[..|ms| + 1][..|ms|];
  }
}
