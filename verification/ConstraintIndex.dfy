/** The constraint index and its listings (internal/app/projection.go, internal/core/harness/constraint.go). */
module ConstraintIndexes {
  import opened Prelude
  import opened Envelopes
  import opened Context
  import opened Ledgers
  import opened Pipelines
  import opened ReadModels
  import opened ScopeKeys
  import opened Sorting
  import Constraints

  type Matcher = (string, string) -> bool
  type Encoder = Constraints.Event -> Payload
  type Decoder = Payload -> Option<Constraints.Event>

  /** The constraint aggregate as the pipeline runs it. */
  function TheAggregate(pathMatch: Matcher, encode: Encoder, decode: Decoder)
    : Aggregate<Constraints.Constraint, Constraints.Command, DecideContext, Constraints.Event>
  {
    Aggregate(
      (_: string) => Constraints.NO_CONSTRAINT, Constraints.Apply,
      (s: Constraints.Constraint, c: Constraints.Command, x: DecideContext) =>
        ToDecision(Constraints.Decide(pathMatch, s, c, x)),
      (c: Constraints.Command) => "constraint/" + c.id, (c: Constraints.Command) => c.idem, encode, decode)
  }

  /** The fields the index keeps of a constraint. */
  datatype Summary = Summary(
    id: string, kind: Constraints.ConstraintKind, scope: ScopeKey, state: Constraints.ConstraintState, level: int,
    body: string, explanation: string, checkable: string, anchors: seq<string>, supersedes: string,
    supersededBy: string)

  function Summarize(c: Constraints.Constraint): Summary {
    Summary(c.id, c.kind, c.scope, c.state, c.level, c.body, c.explanation, c.checkable, c.anchors, c.supersedes,
      c.supersededBy)
  }

  /** ConstraintIndex.Handle on one entry. */
  function Update(e: Summary, ev: Constraints.Event): Summary {
    match ev
    case Drafted(id, d, _) =>
      Summary(id, d.kind, d.scope, Constraints.Generated, d.level, d.body, d.explanation, d.checkable, d.anchors,
        d.supersedes, "")
    case Rebound(_, anchors, _, _) => e.(anchors := anchors)
    case VerifiedBy(_, _, _) => e.(state := Constraints.Verified)
    case Promoted(_, _, scope, _, explanation, _, _) => e.(scope := scope, explanation := explanation)
    case Demoted(_, _, scope, _, _, _) => e.(scope := scope)
    case Superseded(_, successor, _, _) => e.(state := Constraints.Retired, supersededBy := successor)
    case RetiredBy(_, _, _, _) => e.(state := Constraints.Retired)
  }

  function TheIndex(decode: Decoder): Index<Constraints.Constraint, Summary, Constraints.Event> {
    Index((_: string) => Constraints.NO_CONSTRAINT, Constraints.Apply, Summarize,
      (_: Constraints.Event) => Summarize(Constraints.NO_CONSTRAINT), Update, (_: Constraints.Event) => true,
      (e: Constraints.Event) => e.id, (_: string, _: Constraints.Constraint) => true, "constraint/", decode)
  }

  lemma {:induction false} IndexCommutes(decode: Decoder)
    ensures Commutes(TheIndex(decode))
  {
    var ix := TheIndex(decode);
    forall id: string, s: Constraints.Constraint, e: Constraints.Event ensures CommutesAt(ix, id, s, e) {
      assert Summarize(Constraints.Apply(s, e)) == Update(Summarize(s), e);
    }
  }

  /** A constraint on its stream carries the stream's id and is never in review or stale. */
  predicate StateOk(id: string, c: Constraints.Constraint) {
    (c.state == Constraints.Absent || c.id == id) &&
    c.state in {Constraints.Absent, Constraints.Generated, Constraints.Verified, Constraints.Retired}
  }

  /** An event of the stream carries its id; a verification was made by a human. */
  predicate EventOk(id: string, e: Constraints.Event) {
    e.id == id && (e.VerifiedBy? ==> e.actor.kind.Human?)
  }

  lemma {:induction false} DecideKeeps(pathMatch: Matcher, id: string, s: Constraints.Constraint,
      c: Constraints.Command, x: DecideContext)
    requires StateOk(id, s) && c.id == id && Constraints.Decide(pathMatch, s, c, x).Ok?
    ensures var events := Constraints.Decide(pathMatch, s, c, x).value;
      |events| == 1 && EventOk(id, events[0]) && StateOk(id, Constraints.Apply(s, events[0]))
  {
  }

  lemma {:induction false} StreamsKeep(pathMatch: Matcher, encode: Encoder, decode: Decoder, id: string)
    ensures Kept(TheAggregate(pathMatch, encode, decode), TheIndex(decode), StateOk, EventOk, id)
  {
    hide Constraints.Decide, StateOk, EventOk;
    var agg := TheAggregate(pathMatch, encode, decode);
    AbsentOk(id);
    forall s: Constraints.Constraint, c: Constraints.Command, x: DecideContext
      | StateOk(id, s) && agg.stream(c) == "constraint/" + id && agg.decide(s, c, x).Emit?
      ensures GoodBatch(agg, s, agg.decide(s, c, x).events,
        (c: Constraints.Constraint) => StateOk(id, c), (e: Constraints.Event) => EventOk(id, e))
    {
      SameId("constraint/", c.id, id);
      DecideKeeps(pathMatch, id, s, c, x);
      FoldOne(agg, s, agg.decide(s, c, x).events[0]);
      assert agg.decide(s, c, x).events == [agg.decide(s, c, x).events[0]];
    }
    forall e | EventOk(id, e) ensures e.id == id {
      EventNamed(id, e);
    }
  }

  lemma {:induction false} AbsentOk(id: string)
    ensures StateOk(id, Constraints.NO_CONSTRAINT)
  {
  }

  lemma {:induction false} EventNamed(id: string, e: Constraints.Event)
    requires EventOk(id, e)
    ensures e.id == id
  {
  }

  /** Each entry of the index equals the kept fields of replaying that constraint's own stream. */
  lemma {:induction false} EntriesAgree(pathMatch: Matcher, encode: Encoder, decode: Decoder, log: Log, id: string)
    requires PipelineWritten(TheAggregate(pathMatch, encode, decode), TheIndex(decode), log)
    ensures StreamOk(TheIndex(decode), log, StateOk, EventOk, id)
    ensures var entries := Project(TheIndex(decode), log);
      && (id in entries <==> StreamOf(log, "constraint/" + id) != [])
      && (id in entries ==> entries[id] == Summarize(Current(TheIndex(decode), log, id)) && entries[id].id == id)
  {
    hide Kept, Legal, Constraints.Decide, Fold, Project, StreamOf;
    forall k ensures Kept(TheAggregate(pathMatch, encode, decode), TheIndex(decode), StateOk, EventOk, k) {
      StreamsKeep(pathMatch, encode, decode, k);
    }
    IndexCommutes(decode);
    EntryIsReplay(TheAggregate(pathMatch, encode, decode), TheIndex(decode), StateOk, EventOk, log, id);
    var envs := StreamOf(log, "constraint/" + id);
    assert envs != [] ==> TouchesAt(TheIndex(decode), envs[0]);
    ExistsOnce(pathMatch, encode, decode, log, id);
  }

  lemma {:induction false} ExistsOnce(pathMatch: Matcher, encode: Encoder, decode: Decoder, log: Log, id: string)
    requires PipelineWritten(TheAggregate(pathMatch, encode, decode), TheIndex(decode), log)
    ensures StreamOf(log, "constraint/" + id) != [] ==> Current(TheIndex(decode), log, id).state != Constraints.Absent
  {
    hide Constraints.Decide, StateOk, EventOk;
    var agg, stream := TheAggregate(pathMatch, encode, decode), "constraint/" + id;
    var envs := StreamOf(log, stream);
    if envs != [] {
      StreamsKeep(pathMatch, encode, decode, id);
      StreamsExist(pathMatch, encode, decode, id);
      LegalStreamsReach(agg, stream, envs, (c: Constraints.Constraint) => StateOk(id, c),
        (e: Constraints.Event) => EventOk(id, e),
        (c: Constraints.Constraint) => c.state != Constraints.Absent);
      ReplayIsFold(agg, TheIndex(decode), id, envs);
    }
  }

  lemma {:induction false} StreamsExist(pathMatch: Matcher, encode: Encoder, decode: Decoder, id: string)
    ensures Reaches(TheAggregate(pathMatch, encode, decode), "constraint/" + id,
      (c: Constraints.Constraint) => StateOk(id, c), (c: Constraints.Constraint) => c.state != Constraints.Absent)
  {
    hide Constraints.Decide, StateOk;
    var agg := TheAggregate(pathMatch, encode, decode);
    forall s: Constraints.Constraint, c: Constraints.Command, x: DecideContext
      | agg.stream(c) == "constraint/" + id && agg.decide(s, c, x).Emit? && agg.decide(s, c, x).events != []
      ensures FoldEvents(agg, s, agg.decide(s, c, x).events).state != Constraints.Absent
    {
      DecideExists(pathMatch, s, c, x);
      FoldOne(agg, s, agg.decide(s, c, x).events[0]);
      assert agg.decide(s, c, x).events == [agg.decide(s, c, x).events[0]];
    }
  }

  /** A decided command always leaves an existing constraint. */
  lemma {:induction false} DecideExists(pathMatch: Matcher, s: Constraints.Constraint, c: Constraints.Command,
      x: DecideContext)
    requires Constraints.Decide(pathMatch, s, c, x).Ok?
    ensures var events := Constraints.Decide(pathMatch, s, c, x).value;
      |events| == 1 && Constraints.Apply(s, events[0]).state != Constraints.Absent
  {
  }

  // ---- what is in force ----

  predicate VerifiesAt(decode: Decoder, e: Envelope) {
    match decode(PayloadOf(e))
    case Some(VerifiedBy(_, actor, _)) => actor.kind.Human?
    case _ => false
  }

  /** A record after which a constraint is not verified any more. */
  predicate EndsAt(decode: Decoder, e: Envelope) {
    match decode(PayloadOf(e))
    case Some(ev) => ev.Drafted? || ev.Superseded? || ev.RetiredBy?
    case None => false
  }

  /** A human verified it and nothing since has retired, replaced or redrafted it. */
  ghost predicate HumanVerified(decode: Decoder, envs: Log) {
    exists i ::
      0 <= i < |envs| && VerifiesAt(decode, envs[i]) && forall j :: i < j < |envs| ==> !EndsAt(decode, envs[j])
  }

  lemma {:induction false} HumanVerifiedSnoc(decode: Decoder, envs: Log, e: Envelope)
    ensures HumanVerified(decode, envs + [e]) <==>
      VerifiesAt(decode, e) || (HumanVerified(decode, envs) && !EndsAt(decode, e))
  {
    hide VerifiesAt, EndsAt;
    var n, all := |envs|, envs + [e];
    assert forall i :: 0 <= i < n ==> all[i] == envs[i];
    assert all[n] == e;
    if HumanVerified(decode, envs) && !EndsAt(decode, e) {
      var i :| 0 <= i < |envs| && VerifiesAt(decode, envs[i])
        && forall j :: i < j < |envs| ==> !EndsAt(decode, envs[j]);
      assert VerifiesAt(decode, all[i]);
    }
    if HumanVerified(decode, all) && !VerifiesAt(decode, e) {
      var i :| 0 <= i < |all| && VerifiesAt(decode, all[i]) && forall j :: i < j < |all| ==> !EndsAt(decode, all[j]);
      assert VerifiesAt(decode, envs[i]);
      assert !EndsAt(decode, all[n]);
    }
  }

  /** A replayed constraint is verified exactly when its history says a human did and nothing undid it. */
  lemma {:induction false} VerifiedHistory(decode: Decoder, envs: Log, id: string)
    requires forall i :: 0 <= i < |envs| ==>
      decode(PayloadOf(envs[i])).Some? && EventOk(id, decode(PayloadOf(envs[i])).value)
    ensures Fold(TheIndex(decode), id, envs).state == Constraints.Verified <==> HumanVerified(decode, envs)
    decreases |envs|
  {
    hide HumanVerified;
    if envs == [] {
      NothingVerified(decode);
    } else {
      var n := |envs| - 1;
      VerifiedHistory(decode, envs[..n], id);
      HumanVerifiedSnoc(decode, envs[..n], envs[n]);
      assert envs[..n] + [envs[n]] == envs;
    }
  }

  lemma {:induction false} NothingVerified(decode: Decoder)
    ensures !HumanVerified(decode, [])
  {
  }

  /** The order of a listing: wider scopes first, then ids. */
  predicate Earlier(a: Summary, b: Summary) {
    Width(a.scope) > Width(b.scope) || (Width(a.scope) == Width(b.scope) && StrLess(a.id, b.id))
  }

  /** Wider scopes come first, and among equal widths the smaller id. */
  lemma {:induction false} EarlierIsWider(a: Summary, b: Summary)
    ensures Width(a.scope) > Width(b.scope) ==> Earlier(a, b) && !Earlier(b, a)
    ensures Width(a.scope) == Width(b.scope) ==> (Earlier(a, b) <==> StrLess(a.id, b.id))
  {
    hide Width, StrLess;
  }

  lemma {:induction false} EarlierIsAnOrder()
    ensures Transitive(Earlier)
    ensures forall a, b :: Earlier(a, b) ==> !Earlier(b, a)
  {
    hide Width;
    forall a, b, c | Earlier(a, b) && Earlier(b, c) ensures Earlier(a, c) {
      StrTransitive(a.id, b.id, c.id);
    }
    forall a, b | Earlier(a, b) ensures !Earlier(b, a) {
      StrAsymmetric(a.id, b.id);
    }
  }

  predicate Applies(pathMatch: Matcher, e: Summary, target: ScopeKey) {
    e.state in {Constraints.Verified, Constraints.Review} && Contains(pathMatch, e.scope, target)
  }

  /** The one listing of the entries that apply to a target. */
  ghost predicate IsListing(pathMatch: Matcher, entries: map<string, Summary>, target: ScopeKey, out: seq<Summary>) {
    && Ordered(Earlier, out)
    && forall e :: e in out <==> e.id in entries && entries[e.id] == e && Applies(pathMatch, e, target)
  }

  /** InForce: the entries are visited in any order, the listing is always the same one. */
  method InForce(pathMatch: Matcher, entries: map<string, Summary>, target: ScopeKey) returns (out: seq<Summary>)
    requires forall id :: id in entries ==> entries[id].id == id
    ensures IsListing(pathMatch, entries, target, out)
    ensures forall other :: IsListing(pathMatch, entries, target, other) ==> other == out
  {
    hide Applies, Earlier, Ordered;
    var ids := entries.Keys;
    out := [];
    EarlierIsAnOrder();
    NoneOrdered();
    while ids != {}
      invariant ids <= entries.Keys
      invariant Ordered(Earlier, out)
      invariant forall e :: e in out <==>
        e.id in entries && e.id !in ids && entries[e.id] == e && Applies(pathMatch, e, target)
      decreases |ids|
    {
      var id :| id in ids;
      ids := ids - {id};
      var e := entries[id];
      if Applies(pathMatch, e, target) {
        forall i | 0 <= i < |out| ensures Comparable(Earlier, out[i], e) {
          assert out[i] in out;
          OtherIds(out[i], e);
        }
        out := Insert(Earlier, out, e);
      }
    }
    forall other | IsListing(pathMatch, entries, target, other) ensures other == out {
      OneListing(Earlier, other, out);
    }
  }

  lemma {:induction false} NoneOrdered()
    ensures Ordered(Earlier, [])
  {
  }

  lemma {:induction false} OtherIds(a: Summary, b: Summary)
    requires a.id != b.id
    ensures Comparable(Earlier, a, b)
  {
    StrTotal(a.id, b.id);
  }

  /**
   * On a ledger the pipeline wrote, InForce lists exactly the human-verified, unretired constraints
   * that contain the target, each with the fields of its own replay.
   */
  lemma {:induction false} InForceIsExact(pathMatch: Matcher, encode: Encoder, decode: Decoder, log: Log,
      target: ScopeKey, out: seq<Summary>, id: string)
    requires PipelineWritten(TheAggregate(pathMatch, encode, decode), TheIndex(decode), log)
    requires IsListing(pathMatch, Project(TheIndex(decode), log), target, out)
    ensures (exists e :: e in out && e.id == id) <==>
      HumanVerified(decode, StreamOf(log, "constraint/" + id))
        && Contains(pathMatch, Current(TheIndex(decode), log, id).scope, target)
    ensures forall e :: e in out && e.id == id ==> e == Summarize(Current(TheIndex(decode), log, id))
  {
    hide Ordered, Contains, HumanVerified;
    var envs := StreamOf(log, "constraint/" + id);
    EntriesAgree(pathMatch, encode, decode, log, id);
    VerifiedHistory(decode, envs, id);
    if envs == [] {
      NothingVerified(decode);
    } else {
      var e := Summarize(Current(TheIndex(decode), log, id));
      assert e.id == id && Project(TheIndex(decode), log)[id] == e;
      assert e in out <==> Applies(pathMatch, e, target);
    }
  }

  type Projection = Projector<Constraints.Constraint, Summary, Constraints.Event>

  /** InForce on the index as the projector holds it, for a ledger the pipeline wrote. */
  method InForceNow(pathMatch: Matcher, ghost encode: Encoder, decode: Decoder, index: Projection, target: ScopeKey)
    returns (out: seq<Summary>)
    requires index.Valid() && index.ix == TheIndex(decode)
    requires PipelineWritten(TheAggregate(pathMatch, encode, decode), TheIndex(decode), index.seen)
    ensures Ordered(Earlier, out)
    ensures forall id :: (exists e :: e in out && e.id == id) <==>
      && HumanVerified(decode, StreamOf(index.seen, "constraint/" + id))
      && Contains(pathMatch, Current(TheIndex(decode), index.seen, id).scope, target)
  {
    hide PipelineWritten, Project, Fold, HumanVerified, Contains, Ordered, Applies, StreamOk, StreamOf;
    forall id | id in index.entries ensures index.entries[id].id == id {
      EntriesAgree(pathMatch, encode, decode, index.seen, id);
    }
    out := InForce(pathMatch, index.entries, target);
    forall id ensures (exists e :: e in out && e.id == id) <==>
      && HumanVerified(decode, StreamOf(index.seen, "constraint/" + id))
      && Contains(pathMatch, Current(TheIndex(decode), index.seen, id).scope, target)
    {
      InForceIsExact(pathMatch, encode, decode, index.seen, target, out, id);
    }
  }
}
