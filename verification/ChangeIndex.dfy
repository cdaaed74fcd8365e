/** The change index (internal/app/projection.go) over the Change aggregate's own streams. */
module ChangeIndexes {
  import opened Prelude
  import opened Envelopes
  import opened Context
  import opened Ledgers
  import opened Pipelines
  import opened ReadModels
  import opened ScopeKeys
  import Changes

  type Change = Changes.Change
  type ChangeEvent = Changes.Event<ScopeKey>
  type Encoder = ChangeEvent -> Payload
  type Decoder = Payload -> Option<ChangeEvent>

  /** A command with the identity every change command embeds. */
  datatype Command = Command(id: string, idem: string, body: Changes.Command<ScopeKey>)

  function Body(c: Command): Changes.Command<ScopeKey> {
    if c.body.Open? then c.body.(id := c.id) else c.body
  }

  function Decided(policy: Policy, s: Change, c: Command, x: DecideContext): Changes.Decision<ScopeKey> {
    Changes.Decide(s, Body(c), x.(policy := policy))
  }

  /** The change aggregate as the pipeline runs it, under its configured policy. */
  function TheAggregate(policy: Policy, encode: Encoder,
      decode: Decoder): Aggregate<Change, Command, DecideContext, ChangeEvent> {
    Aggregate(
      (_: string) => Changes.ABSENT, Changes.Apply<ScopeKey>,
      (s: Change, c: Command, x: DecideContext) => ToDecision(Decided(policy, s, c, x)),
      (c: Command) => "change/" + c.id, (c: Command) => c.idem, encode, decode)
  }

  /** The fields the index shares with a change. */
  datatype Summary = Summary(
    id: string, kind: Changes.ChangeKind, mode: Changes.ChangeMode, state: Changes.ChangeState, autonomy: int,
    judgments: nat,
    constraints: seq<string>, anchors: seq<string>, refs: seq<string>, sessions: seq<string>, openedAt: int)

  function Refs(ps: seq<Changes.Proposal>): seq<string> {
    seq(|ps|, i requires 0 <= i < |ps| => ps[i].ref)
  }

  function Summarize(c: Change): Summary {
    Summary(c.id, c.kind, c.mode, c.state, c.autonomy, |c.judgments|, c.impact.constraints, c.impact.anchors,
      Refs(c.proposals), c.sessions, c.openedAt)
  }

  /** ChangeIndex.Handle on one entry. */
  function Update(e: Summary, ev: ChangeEvent): Summary {
    match ev
    case ChangeOpened(id, kind, mode, _, _, _, impact, proposal, sessions, autonomy, _, at) =>
      Summary(id, kind, mode, Changes.Proposed, autonomy, 0, impact.constraints, impact.anchors,
        if proposal.Some? then [proposal.value.ref] else [], sessions, at)
    case ProposalAdded(_, p) => e.(refs := e.refs + [p.ref])
    case JudgedBy(_, _) => e.(state := Changes.Judged, judgments := e.judgments + 1)
    case DeployedAs(_, _) => e.(state := Changes.Deployed)
    case OutcomeRecorded(_, _) => e.(state := Changes.Observed)
    case SettledAt(_, _, _) => e.(state := Changes.Settled)
  }

  function TheIndex(decode: Decoder): Index<Change, Summary, ChangeEvent> {
    Index((_: string) => Changes.ABSENT, Changes.Apply<ScopeKey>, Summarize,
      (_: ChangeEvent) => Summarize(Changes.ABSENT), Update, (_: ChangeEvent) => true,
      (e: ChangeEvent) => e.id, (_: string, _: Change) => true, "change/", decode)
  }

  lemma {:induction false} UpdateFollows(s: Change, e: ChangeEvent)
    ensures Summarize(Changes.Apply(s, e)) == Update(Summarize(s), e)
  {
    if e.ProposalAdded? {
      assert Refs(s.proposals + [e.added]) == Refs(s.proposals) + [e.added.ref];
    }
  }

  lemma {:induction false} IndexCommutes(decode: Decoder)
    ensures Commutes(TheIndex(decode))
  {
    hide Summarize, Update, Changes.Apply;
    forall id: string, s: Change, e: ChangeEvent ensures CommutesAt(TheIndex(decode), id, s, e) {
      UpdateFollows(s, e);
    }
  }

  /** A change on its stream carries the stream's id and has kept the invariant of every command run. */
  ghost predicate StateOk(window: int, id: string, c: Change) {
    (c.state == Changes.Absent || c.id == id) && Changes.Inv(window, c)
  }

  predicate EventOk(id: string, e: ChangeEvent) {
    e.id == id
  }

  lemma {:induction false} DecideKeeps(policy: Policy, id: string, s: Change, c: Command, x: DecideContext)
    requires StateOk(policy.outcomeWindow, id, s) && c.id == id && Decided(policy, s, c, x).Ok?
    ensures var events := Decided(policy, s, c, x).value;
      |events| == 1 && EventOk(id, events[0]) && StateOk(policy.outcomeWindow, id, Changes.Apply(s, events[0]))
      && Changes.Apply(s, events[0]).state != Changes.Absent
  {
    hide Changes.Inv, Changes.Refusal;
    var ctx := x.(policy := policy);
    Changes.StepKeeps(s, Body(c), ctx);
    Changes.ApplyOne(s, Decided(policy, s, c, x).value[0]);
  }

  ghost function Holds(policy: Policy): (string, Change) -> bool {
    (id: string, c: Change) => StateOk(policy.outcomeWindow, id, c)
  }

  lemma {:induction false} StreamsKeep(policy: Policy, encode: Encoder, decode: Decoder, id: string)
    ensures Kept(TheAggregate(policy, encode, decode), TheIndex(decode), Holds(policy), EventOk, id)
    ensures Reaches(TheAggregate(policy, encode, decode), "change/" + id,
      (c: Change) => StateOk(policy.outcomeWindow, id, c),
      (c: Change) => c.state != Changes.Absent)
  {
    hide Decided, StateOk;
    var agg := TheAggregate(policy, encode, decode);
    AbsentOk(policy.outcomeWindow, id);
    forall s: Change, c: Command, x: DecideContext
      | StateOk(policy.outcomeWindow, id, s) && agg.stream(c) == "change/" + id && agg.decide(s, c, x).Emit?
      ensures GoodBatch(agg, s, agg.decide(s, c, x).events,
        (c: Change) => Holds(policy)(id, c), (e: ChangeEvent) => EventOk(id, e))
      ensures FoldEvents(agg, s, agg.decide(s, c, x).events).state != Changes.Absent
    {
      SameId("change/", c.id, id);
      DecideKeeps(policy, id, s, c, x);
      var events := agg.decide(s, c, x).events;
      FoldOne(agg, s, events[0]);
      assert events == [events[0]];
      assert Holds(policy)(id, FoldEvents(agg, s, events));
      assert EventOk(id, events[0]);
    }
  }

  lemma {:induction false} AbsentOk(window: int, id: string)
    ensures StateOk(window, id, Changes.ABSENT)
  {
  }

  lemma {:induction false} ExistsOnce(policy: Policy, encode: Encoder, decode: Decoder, log: Log, id: string)
    requires PipelineWritten(TheAggregate(policy, encode, decode), TheIndex(decode), log)
    ensures StreamOf(log, "change/" + id) != [] ==> Current(TheIndex(decode), log, id).state != Changes.Absent
  {
    hide Decided, StateOk;
    var agg, stream := TheAggregate(policy, encode, decode), "change/" + id;
    var envs := StreamOf(log, stream);
    if envs != [] {
      StreamsKeep(policy, encode, decode, id);
      LegalStreamsReach(agg, stream, envs, (c: Change) => StateOk(policy.outcomeWindow, id, c),
        (e: ChangeEvent) => EventOk(id, e),
        (c: Change) => c.state != Changes.Absent);
      ReplayIsFold(agg, TheIndex(decode), id, envs);
    }
  }

  /** Each entry equals the shared fields of replaying that change's own stream. */
  lemma {:induction false} EntriesAgree(policy: Policy, encode: Encoder, decode: Decoder, log: Log, id: string)
    requires PipelineWritten(TheAggregate(policy, encode, decode), TheIndex(decode), log)
    ensures StateOk(policy.outcomeWindow, id, Current(TheIndex(decode), log, id))
    ensures var entries := Project(TheIndex(decode), log);
      && (id in entries <==> StreamOf(log, "change/" + id) != [])
      && (id in entries ==> entries[id] == Summarize(Current(TheIndex(decode), log, id)) && entries[id].id == id)
  {
    hide Kept, Legal, Decided, Fold, Project, StreamOf, Changes.Inv;
    forall k ensures Kept(TheAggregate(policy, encode, decode), TheIndex(decode), Holds(policy), EventOk, k) {
      StreamsKeep(policy, encode, decode, k);
    }
    IndexCommutes(decode);
    EntryIsReplay(TheAggregate(policy, encode, decode), TheIndex(decode), Holds(policy), EventOk, log, id);
    var envs := StreamOf(log, "change/" + id);
    assert envs != [] ==> TouchesAt(TheIndex(decode), envs[0]);
    ExistsOnce(policy, encode, decode, log, id);
  }

  /**
   * An index entry that says settled stands for a change that, on its own stream, was deployed,
   * judged with reasons, not refused last, approved by a human where required, and observed or
   * left for the whole outcome window.
   */
  lemma {:induction false} SettledEntriesAreSound(policy: Policy, encode: Encoder, decode: Decoder, log: Log,
      id: string)
    requires PipelineWritten(TheAggregate(policy, encode, decode), TheIndex(decode), log)
    ensures var entries := Project(TheIndex(decode), log); var c := Current(TheIndex(decode), log, id);
      && id in entries && entries[id].state == Changes.Settled
      && (c.impact.constraints != [] || c.impact.decisions != []) ==>
        && c.deployment.Some? && Changes.Allowed(c, [])
        && entries[id].judgments >= 1
        && (forall i :: 0 <= i < |c.judgments| ==> c.judgments[i].reason != "")
        && (c.outcome.Some? || c.settledAt >= c.deployment.value.at + policy.outcomeWindow)
  {
    hide PipelineWritten, Project, Fold;
    EntriesAgree(policy, encode, decode, log, id);
  }
}
