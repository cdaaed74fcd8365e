/**
 * Gates on the ledger: the gate aggregate as the pipeline runs it, the server's gate index and what an
 * allowed gate goes back to (internal/core/accountability/gate.go, internal/app/team.go).
 */
module GateIndexes {
  import opened Prelude
  import opened Envelopes
  import opened Context
  import opened Ledgers
  import opened Pipelines
  import opened ReadModels
  import opened OrgRuntime
  import Gates

  type Gate = Gates.Gate
  type Encoder = Gates.Event -> Payload
  type Decoder = Payload -> Option<Gates.Event>

  /** A command with the identity every gate command embeds. */
  datatype Command = Command(id: string, idem: string, body: Gates.Command)

  function Body(c: Command): Gates.Command {
    if c.body.Request? then c.body.(id := c.id) else c.body
  }

  function TheAggregate(encode: Encoder, decode: Decoder): Aggregate<Gate, Command, DecideContext, Gates.Event> {
    Aggregate(
      (_: string) => Gates.NO_GATE, Gates.Apply,
      (g: Gate, c: Command, x: DecideContext) => ToDecision(Gates.Decide(g, Body(c), x)),
      (c: Command) => "gate/" + c.id, (c: Command) => c.idem, encode, decode)
  }

  /** The server's index keeps whole gates; on these ledgers an event's id is its stream's. */
  function TheIndex(decode: Decoder): Index<Gate, Gate, Gates.Event> {
    Index((_: string) => Gates.NO_GATE, Gates.Apply, (g: Gate) => g, (_: Gates.Event) => Gates.NO_GATE, Gates.Apply,
      (_: Gates.Event) => true, (e: Gates.Event) => e.id, (_: string, _: Gate) => true, "gate/", decode)
  }

  // ---- a gate stream is a run of the gate ----

  /** A gate decision is one event or none. */
  lemma {:induction false} OneEvent(g: Gate, m: Gates.Command, x: DecideContext)
    requires Gates.Decide(g, m, x).Ok? && Gates.Decide(g, m, x).value != []
    ensures |Gates.Decide(g, m, x).value| == 1
    ensures Gates.Step(g, m, x) == Gates.Apply(g, Gates.Decide(g, m, x).value[0])
  {
  }

  function Bodies(steps: seq<(Command, DecideContext)>): seq<(Gates.Command, DecideContext)> {
    seq(|steps|, i requires 0 <= i < |steps| => (Body(steps[i].0), steps[i].1))
  }

  /** Each record is what this step's command decided against the replay of the records before it. */
  ghost predicate Produced(agg: Aggregate<Gate, Command, DecideContext, Gates.Event>, stream: string, envs: Log,
      steps: seq<(Command, DecideContext)>) {
    |steps| == |envs| &&
    forall i :: 0 <= i < |envs| ==> Batch(agg, stream, envs[..i], [envs[i]], steps[i].0, steps[i].1)
  }

  /** A legal gate stream replays to the run of the commands that produced its records. */
  lemma {:induction false} LegalIsRun(encode: Encoder, decode: Decoder, stream: string, envs: Log)
    returns (steps: seq<(Command, DecideContext)>)
    requires Legal(TheAggregate(encode, decode), stream, envs)
    ensures Produced(TheAggregate(encode, decode), stream, envs, steps)
    ensures Replay(TheAggregate(encode, decode), stream, envs) == Some(Gates.Run(Bodies(steps)))
    decreases |envs|
  {
    hide Gates.Decide, Gates.Apply, Body;
    hide Batch, Replay, Gates.Run;
    var agg := TheAggregate(encode, decode);
    steps := [];
    if envs == [] {
      NothingRun(encode, decode, stream);
    } else {
      var n, c, x :| 0 <= n < |envs| && Legal(agg, stream, envs[..n]) && Batch(agg, stream, envs[..n], envs[n..], c, x);
      var before := LegalIsRun(encode, decode, stream, envs[..n]);
      OneRecord(encode, decode, stream, envs, n, c, x, before);
      ProducedSnoc(agg, stream, envs, before, c, x);
      steps := before + [(c, x)];
    }
  }

  lemma {:induction false} NothingRun(encode: Encoder, decode: Decoder, stream: string)
    ensures Replay(TheAggregate(encode, decode), stream, []) == Some(Gates.Run(Bodies([])))
  {
  }

  /** One more batch is one more record, and one more step of the run. */
  lemma {:induction false} OneRecord(encode: Encoder, decode: Decoder, stream: string, envs: Log, n: nat, c: Command,
      x: DecideContext, before: seq<(Command, DecideContext)>)
    requires n < |envs| && |before| == n
    requires Batch(TheAggregate(encode, decode), stream, envs[..n], envs[n..], c, x)
    requires Replay(TheAggregate(encode, decode), stream, envs[..n]) == Some(Gates.Run(Bodies(before)))
    ensures n == |envs| - 1 && envs[n..] == [envs[n]]
    ensures Replay(TheAggregate(encode, decode), stream, envs) == Some(Gates.Run(Bodies(before + [(c, x)])))
  {
    hide Gates.Decide, Gates.Apply, Body, Gates.Step;
    var g := Gates.Run(Bodies(before));
    OneEvent(g, Body(c), x);
    assert decode(PayloadOf(envs[n..][0])) == Some(Gates.Decide(g, Body(c), x).value[0]);
    assert Bodies(before + [(c, x)])[..n] == Bodies(before);
  }

  lemma {:induction false} ProducedSnoc(agg: Aggregate<Gate, Command, DecideContext, Gates.Event>, stream: string,
      envs: Log, before: seq<(Command, DecideContext)>, c: Command, x: DecideContext)
    requires envs != [] && Produced(agg, stream, envs[..|envs| - 1], before)
    requires Batch(agg, stream, envs[..|envs| - 1], [envs[|envs| - 1]], c, x)
    ensures Produced(agg, stream, envs, before + [(c, x)])
  {
    hide Batch;
    var n, steps := |envs| - 1, before + [(c, x)];
    forall i | 0 <= i < |envs| ensures Batch(agg, stream, envs[..i], [envs[i]], steps[i].0, steps[i].1) {
      if i < n {
        assert envs[..n][..i] == envs[..i] && envs[..n][i] == envs[i];
      }
    }
  }

  // ---- an allowed gate goes back to the policy or to a human ----

  /** A record of the stream was decided by a request that the policy itself allowed at that moment. */
  ghost predicate PolicyAllowed(agg: Aggregate<Gate, Command, DecideContext, Gates.Event>, stream: string, envs: Log,
      g: Gate) {
    exists i, c, x ::
      0 <= i < |envs| && Batch(agg, stream, envs[..i], [envs[i]], c, x) && Gates.AllowsAt((Body(c), x), g)
  }

  ghost predicate Justified(encode: Encoder, decode: Decoder, stream: string, envs: Log, g: Gate) {
    g.decision == Gates.Allow ==> PolicyAllowed(TheAggregate(encode, decode), stream, envs, g) || Gates.HumanAllowed(g)
  }

  /**
   * Every legal gate stream replays, and if it replays to allow, a record on it was decided by the
   * policy within cap and level and with no other owner, or a human allowed it with a reason.
   */
  lemma {:induction false} LegalGatesAreJustified(encode: Encoder, decode: Decoder, stream: string, envs: Log)
    requires Legal(TheAggregate(encode, decode), stream, envs)
    ensures Replay(TheAggregate(encode, decode), stream, envs).Some?
    ensures Justified(encode, decode, stream, envs, Replay(TheAggregate(encode, decode), stream, envs).value)
  {
    hide Legal, Replay, Batch, Gates.Run, Gates.AllowsAt, Gates.HumanAllowed, Body;
    var steps := LegalIsRun(encode, decode, stream, envs);
    var g := Gates.Run(Bodies(steps));
    Gates.AllowsAreJustified(Bodies(steps));
    if g.decision == Gates.Allow && !Gates.HumanAllowed(g) {
      var i :| 0 <= i < |Bodies(steps)| && Gates.AllowsAt(Bodies(steps)[i], g);
      var (c, x) := steps[i];
      assert Batch(TheAggregate(encode, decode), stream, envs[..i], [envs[i]], c, x);
      assert Gates.AllowsAt((Body(c), x), g);
    }
  }

  // ---- the gate index ----

  predicate StateOk(id: string, g: Gate) {
    if g.state == Gates.Absent then g == Gates.NO_GATE else g.id == id
  }

  predicate EventOk(id: string, e: Gates.Event) {
    e.id == id
  }

  lemma {:induction false} DecideKeeps(id: string, g: Gate, c: Command, x: DecideContext)
    requires StateOk(id, g) && c.id == id && Gates.Decide(g, Body(c), x).Ok? && Gates.Decide(g, Body(c), x).value != []
    ensures var events := Gates.Decide(g, Body(c), x).value;
      && |events| == 1 && EventOk(id, events[0]) && StateOk(id, Gates.Apply(g, events[0]))
      && Gates.Apply(g, events[0]).state != Gates.Absent
  {
  }

  lemma {:induction false} StreamsKeep(encode: Encoder, decode: Decoder, id: string)
    ensures Kept(TheAggregate(encode, decode), TheIndex(decode), StateOk, EventOk, id)
    ensures Reaches(TheAggregate(encode, decode), "gate/" + id, (g: Gate) => StateOk(id, g),
      (g: Gate) => g.state != Gates.Absent)
  {
    hide Gates.Decide, Body, Gates.Apply;
    var agg := TheAggregate(encode, decode);
    forall g: Gate, c: Command, x: DecideContext
      | StateOk(id, g) && agg.stream(c) == "gate/" + id && agg.decide(g, c, x).Emit?
      ensures GoodBatch(agg, g, agg.decide(g, c, x).events, (g: Gate) => StateOk(id, g),
        (e: Gates.Event) => EventOk(id, e))
      ensures agg.decide(g, c, x).events != [] ==>
        FoldEvents(agg, g, agg.decide(g, c, x).events).state != Gates.Absent
    {
      var events := agg.decide(g, c, x).events;
      if events != [] {
        SameId("gate/", c.id, id);
        DecideKeeps(id, g, c, x);
        FoldOne(agg, g, events[0]);
        assert events == [events[0]];
      }
    }
  }

  lemma {:induction false} IndexCommutes(decode: Decoder)
    ensures Commutes(TheIndex(decode))
  {
  }

  lemma {:induction false} ExistsOnce(encode: Encoder, decode: Decoder, log: Log, id: string)
    requires PipelineWritten(TheAggregate(encode, decode), TheIndex(decode), log)
    ensures StreamOf(log, "gate/" + id) != [] ==> Current(TheIndex(decode), log, id).state != Gates.Absent
  {
    hide Gates.Decide, Gates.Apply, StateOk;
    var agg, stream := TheAggregate(encode, decode), "gate/" + id;
    var envs := StreamOf(log, stream);
    if envs != [] {
      StreamsKeep(encode, decode, id);
      LegalStreamsReach(agg, stream, envs, (g: Gate) => StateOk(id, g), (e: Gates.Event) => EventOk(id, e),
        (g: Gate) => g.state != Gates.Absent);
      ReplayIsFold(agg, TheIndex(decode), id, envs);
    }
  }

  /** Each entry is the gate its own stream replays to, and there is one exactly when the stream has records. */
  lemma {:induction false} EntriesAgree(encode: Encoder, decode: Decoder, log: Log, id: string)
    requires PipelineWritten(TheAggregate(encode, decode), TheIndex(decode), log)
    ensures var entries, stream := Project(TheIndex(decode), log), "gate/" + id;
      && (id in entries <==> StreamOf(log, stream) != [])
      && (id in entries ==> entries[id].id == id && entries[id].state != Gates.Absent)
      && (id in entries ==> Replay(TheAggregate(encode, decode), stream, StreamOf(log, stream)) == Some(entries[id]))
  {
    hide Kept, Legal, Fold, Project, StreamOf, Commutes, Replay;
    var agg, ix, stream := TheAggregate(encode, decode), TheIndex(decode), "gate/" + id;
    var envs := StreamOf(log, stream);
    forall k ensures Kept(agg, ix, StateOk, EventOk, k) {
      StreamsKeep(encode, decode, k);
    }
    IndexCommutes(decode);
    EntryIsReplay(agg, ix, StateOk, EventOk, log, id);
    StreamReplays(agg, ix, StateOk, EventOk, log, id);
    assert envs != [] ==> TouchesAt(ix, envs[0]);
    ExistsOnce(encode, decode, log, id);
  }

  /** On a ledger that the pipeline wrote, every gate the index shows as allowed is justified on its own stream. */
  lemma {:induction false} EntriesAreJustified(encode: Encoder, decode: Decoder, log: Log, id: string)
    requires PipelineWritten(TheAggregate(encode, decode), TheIndex(decode), log)
    ensures var entries, stream := Project(TheIndex(decode), log), "gate/" + id;
      id in entries ==> Justified(encode, decode, stream, StreamOf(log, stream), entries[id])
  {
    hide Legal, Project, Justified, Replay, StreamOf;
    EntriesAgree(encode, decode, log, id);
    LegalGatesAreJustified(encode, decode, "gate/" + id, StreamOf(log, "gate/" + id));
  }

  // ---- the server's two calls ----

  /** A call on a legal gate stream leaves a legal one, which replays to a justified gate. */
  lemma {:induction false} HandledIsJustified(encode: Encoder, decode: Decoder, cfg: Config, log: Log, c: Command,
      actorOk: bool, x: DecideContext, st: Stamp, rejection: string -> Bytes)
    requires Lawful(TheAggregate(encode, decode)) && WellFormed(cfg.c, log)
    requires Legal(TheAggregate(encode, decode), "gate/" + c.id, StreamOf(log, "gate/" + c.id))
    ensures var agg, stream := TheAggregate(encode, decode), "gate/" + c.id;
      var envs := StreamOf(Handled(agg, cfg, log, c, actorOk, x, st, rejection).0, stream);
      Legal(agg, stream, envs) && Replay(agg, stream, envs).Some? &&
      Justified(encode, decode, stream, envs, Replay(agg, stream, envs).value)
  {
    hide Legal, WellFormed, Lawful, Handled, Replay, Justified, StreamOf;
    var agg := TheAggregate(encode, decode);
    HandledKeepsLegal(agg, cfg, log, c, actorOk, x, st, rejection);
    var l := Handled(agg, cfg, log, c, actorOk, x, st, rejection).0;
    LegalGatesAreJustified(encode, decode, "gate/" + c.id, StreamOf(l, "gate/" + c.id));
  }

  /** RequestGate of the server: on a legal stream a returned gate that allows is justified. */
  method Request(org: Org, ghost encode: Encoder, agg: Aggregate<Gate, Command, DecideContext, Gates.Event>, id: string,
      actor: Actor, inputOk: bool, proposalRef: string, requested: int, x: DecideContext, st: Stamp,
      rejection: string -> Bytes, budget: nat, reread: bool)
    returns (gate: Option<Gate>, ok: bool)
    requires org.Valid() && agg == TheAggregate(encode, agg.decode) && Lawful(agg)
    modifies org, org.ledger
    ensures org.Valid() && (ok ==> org.CaughtUp())
    ensures Legal(agg, "gate/" + id, StreamOf(old(org.ledger.all), "gate/" + id)) ==>
      && Legal(agg, "gate/" + id, StreamOf(org.ledger.all, "gate/" + id))
      && (ok ==> gate.Some?)
      && (ok ==> Justified(encode, agg.decode, "gate/" + id, StreamOf(org.ledger.all, "gate/" + id), gate.value))
  {
    hide Legal, Lawful, Handled, Replay, Justified, StreamOf;
    var c := Command(id, "gate:" + id, Gates.Request(id, actor, inputOk, proposalRef, requested));
    if Legal(agg, "gate/" + id, StreamOf(org.ledger.all, "gate/" + id)) {
      HandledIsJustified(encode, agg.decode, org.srv.cfg, org.ledger.all, c, actor.Valid(), x, st, rejection);
    }
    gate, ok := org.RequestGate(agg, c, actor.Valid(), x, st, rejection, budget, reread);
  }

  /** ResolveGate of the server: the same for the answer of a human. */
  method Resolve(org: Org, ghost encode: Encoder, agg: Aggregate<Gate, Command, DecideContext, Gates.Event>, id: string,
      actor: Actor, decision: Gates.Answer, reason: string, now: int, x: DecideContext, st: Stamp,
      rejection: string -> Bytes, budget: nat, reread: bool)
    returns (gate: Option<Gate>, ok: bool)
    requires org.Valid() && agg == TheAggregate(encode, agg.decode) && Lawful(agg)
    modifies org, org.ledger
    ensures org.Valid() && (ok ==> org.CaughtUp())
    ensures Legal(agg, "gate/" + id, StreamOf(old(org.ledger.all), "gate/" + id)) ==>
      && Legal(agg, "gate/" + id, StreamOf(org.ledger.all, "gate/" + id))
      && (ok ==> gate.Some?)
      && (ok ==> Justified(encode, agg.decode, "gate/" + id, StreamOf(org.ledger.all, "gate/" + id), gate.value))
  {
    hide Legal, Lawful, Handled, Replay, Justified, StreamOf;
    var c := Command(id, "", Gates.Resolve(Gates.Resolution(decision, reason, actor, now)));
    if Legal(agg, "gate/" + id, StreamOf(org.ledger.all, "gate/" + id)) {
      HandledIsJustified(encode, agg.decode, org.srv.cfg, org.ledger.all, c, actor.Valid(), x, st, rejection);
    }
    var known: bool;
    gate, ok, known := org.ResolveGate(agg, c, actor.Valid(), x, st, rejection, budget, reread);
  }
}
