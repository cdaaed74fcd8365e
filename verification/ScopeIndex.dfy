/** The scope index and the effective level and cap (internal/app/projection.go). */
module ScopeIndexes {
  import opened Prelude
  import opened Envelopes
  import opened Context
  import opened Ledgers
  import opened Pipelines
  import opened ReadModels
  import opened ScopeKeys
  import opened Sorting
  import Scopes
  import Gates

  type Scope = Scopes.Scope<ScopeKey>
  type ScopeEvent = Scopes.Event<ScopeKey>
  type Matcher = (string, string) -> bool
  type Decoder = Payload -> Option<ScopeEvent>

  /** One declared scope. */
  datatype ScopeEntry = ScopeEntry(key: ScopeKey, level: int, cap: int)

  type Entries = map<string, ScopeEntry>

  function Get(entries: Entries, k: ScopeKey): ScopeEntry {
    if Str(k) in entries then entries[Str(k)] else ScopeEntry(k, L0, MAX_LEVEL)
  }

  /** The index after one event. */
  function Enter(entries: Entries, ev: ScopeEvent): Entries {
    match ev
    case AutonomyChanged(key, _, level, _, _, _, _) => entries[Str(key) := Get(entries, key).(level := level)]
    case CapChanged(key, _, cap, _, _, _) => entries[Str(key) := Get(entries, key).(cap := cap)]
    case ExceptionRaised(_, _, _, _) => entries
  }

  /** Every entry is filed under its own key's canonical form. */
  ghost predicate Filed(entries: Entries) {
    forall id :: id in entries ==> Str(entries[id].key) == id
  }

  // ---- the effective level and cap of a target ----

  predicate Covers(pathMatch: Matcher, entries: Entries, id: string, target: ScopeKey) {
    id in entries && Contains(pathMatch, entries[id].key, target)
  }

  /** The minimum cap over the scopes that contain the target; no cap when there are none. */
  ghost predicate IsCap(pathMatch: Matcher, entries: Entries, target: ScopeKey, cap: int) {
    && cap <= MAX_LEVEL
    && (forall id :: Covers(pathMatch, entries, id, target) ==> cap <= entries[id].cap)
    && (cap == MAX_LEVEL || exists id :: Covers(pathMatch, entries, id, target) && entries[id].cap == cap)
  }

  /** The narrowest scope that contains the target, ties broken by canonical form. */
  ghost predicate Narrowest(pathMatch: Matcher, entries: Entries, target: ScopeKey, id: string) {
    && Covers(pathMatch, entries, id, target)
    && forall o :: Covers(pathMatch, entries, o, target) && o != id ==> Before(entries[o].key, entries[id].key)
  }

  /** The level that scope declares; L0 when no scope contains the target. */
  ghost predicate IsDeclared(pathMatch: Matcher, entries: Entries, target: ScopeKey, level: int) {
    || (level == L0 && forall id :: !Covers(pathMatch, entries, id, target))
    || exists id :: Narrowest(pathMatch, entries, target, id) && entries[id].level == level
  }

  function Min(a: int, b: int): int {
    if a > b then b else a
  }

  ghost predicate IsEffective(pathMatch: Matcher, entries: Entries, target: ScopeKey, level: int, cap: int) {
    && IsCap(pathMatch, entries, target, cap)
    && exists declared :: IsDeclared(pathMatch, entries, target, declared) && level == Min(declared, cap)
  }

  /** The index of the scopes, changed in place one record at a time. */
  class ScopeIndex {
    const decode: Decoder
    var entries: Entries
    /** The records handed over so far. */
    ghost var seen: Log

    ghost predicate Valid()
      reads this
    {
      entries == Project(TheIndex(decode), seen)
    }

    constructor (decode: Decoder)
      ensures Valid() && this.decode == decode && seen == []
    {
      this.decode := decode;
      entries, seen := map[], [];
    }

    /** Only the entry of the scope that the event names moves. */
    method Handle(e: Envelope)
      requires Valid()
      modifies this
      ensures Valid() && seen == old(seen) + [e]
      ensures forall id :: !(decode(PayloadOf(e)).Some? && Str(decode(PayloadOf(e)).value.key) == id) ==>
        (id in entries <==> id in old(entries)) && (id in entries ==> entries[id] == old(entries)[id])
    {
      hide Str, Project, Observe;
      ProjectSnoc(TheIndex(decode), seen, e);
      ObserveIsEnter(decode, entries, e);
      match decode(PayloadOf(e)) {
        case Some(AutonomyChanged(key, _, level, _, _, _, _)) =>
          entries := entries[Str(key) := Get(entries, key).(level := level)];
        case Some(CapChanged(key, _, cap, _, _, _)) =>
          entries := entries[Str(key) := Get(entries, key).(cap := cap)];
        case _ =>
      }
      seen := seen + [e];
    }

    /** Effective: one pass over the map in any order, then the containing scopes from wide to narrow. */
    method Effective(pathMatch: Matcher, target: ScopeKey) returns (level: int, cap: int)
      requires Valid()
      ensures IsEffective(pathMatch, entries, target, level, cap)
      ensures forall l, c :: IsEffective(pathMatch, entries, target, l, c) ==> l == level && c == cap
    {
      hide Contains, Ordered, Before, Str, Project;
      EntriesFiled(decode, seen);
      var keys := Keys(entries);
      var applicable := Resolve(pathMatch, keys, target, ForConstraint);
      Listed(pathMatch, entries, target, applicable);
      level, cap := ResolveLevels(pathMatch, entries, target, applicable);
      forall l, c | IsEffective(pathMatch, entries, target, l, c) ensures l == level && c == cap {
        EffectiveIsUnique(pathMatch, entries, target, l, c, level, cap);
      }
    }

    /** Effective on the index of a ledger that the pipeline wrote. */
    method EffectiveNow(pathMatch: Matcher, ghost globOk: GlobCheck, ghost encode: Encoder, target: ScopeKey)
      returns (level: int, cap: int)
      requires Valid() && PipelineWritten(TheAggregate(globOk, encode, decode), TheIndex(decode), seen)
      ensures EffectiveOnReplays(pathMatch, decode, seen, target, level, cap)
    {
      hide PipelineWritten, Project, IsEffective, EffectiveOnReplays;
      level, cap := Effective(pathMatch, target);
      EffectiveIsExact(pathMatch, globOk, encode, decode, seen, target, level, cap);
    }
  }

  /** Every projected entry is filed under the canonical form of its own key. */
  lemma {:induction false} EntriesFiled(decode: Decoder, log: Log)
    ensures Filed(Project(TheIndex(decode), log))
  {
    hide Str;
    if log != [] {
      EntriesFiled(decode, log[..|log| - 1]);
      ObserveIsEnter(decode, Project(TheIndex(decode), log[..|log| - 1]), log[|log| - 1]);
    }
  }

  /** The keys of the entries, in the order the map happens to give them. */
  method Keys(entries: Entries) returns (keys: seq<ScopeKey>)
    ensures forall k :: k in keys <==> exists id :: id in entries && entries[id].key == k
  {
    var ids := entries.Keys;
    keys := [];
    while ids != {}
      invariant ids <= entries.Keys
      invariant forall k :: k in keys <==> exists id :: id in entries && id !in ids && entries[id].key == k
      decreases |ids|
    {
      var id :| id in ids;
      ids := ids - {id};
      keys := keys + [entries[id].key];
    }
  }

  /** The listing is exactly the containing scopes, wide to narrow. */
  ghost predicate IsApplicable(pathMatch: Matcher, entries: Entries, target: ScopeKey, keys: seq<ScopeKey>) {
    && Ordered(Before, keys)
    && (forall i :: 0 <= i < |keys| ==>
      Covers(pathMatch, entries, Str(keys[i]), target) && entries[Str(keys[i])].key == keys[i])
    && (forall id :: Covers(pathMatch, entries, id, target) ==> entries[id].key in keys)
  }

  method ResolveLevels(pathMatch: Matcher, entries: Entries, target: ScopeKey,
      applicable: seq<ScopeKey>) returns (level: int, cap: int)
    requires Filed(entries) && IsApplicable(pathMatch, entries, target, applicable)
    ensures IsEffective(pathMatch, entries, target, level, cap)
  {
    hide Contains, Ordered, Before, Str, IsCap, IsDeclared, Filed, Covers;
    ListedAreEntries(pathMatch, entries, target, applicable);
    level, cap := L0, MAX_LEVEL;
    for i := 0 to |applicable|
      invariant cap <= MAX_LEVEL
      invariant forall j :: 0 <= j < i ==> cap <= entries[Str(applicable[j])].cap
      invariant cap == MAX_LEVEL || exists j :: 0 <= j < i && cap == entries[Str(applicable[j])].cap
      invariant level == if i == 0 then L0 else entries[Str(applicable[i - 1])].level
    {
      var e := entries[Str(applicable[i])];
      level := e.level;
      if e.cap < cap {
        cap := e.cap;
      }
    }
    LastIsNarrowest(pathMatch, entries, target, applicable, level);
    MinimumOfAll(pathMatch, entries, target, applicable, cap);
    ghost var declared := level;
    if level > cap {
      level := cap;
    }
    assert level == Min(declared, cap);
  }

  lemma {:induction false} ListedAreEntries(pathMatch: Matcher, entries: Entries, target: ScopeKey, keys: seq<ScopeKey>)
    requires IsApplicable(pathMatch, entries, target, keys)
    ensures forall i :: 0 <= i < |keys| ==> Str(keys[i]) in entries
  {
    hide Contains, Ordered, Before, Str;
  }

  lemma {:induction false} Listed(pathMatch: Matcher, entries: Entries, target: ScopeKey, applicable: seq<ScopeKey>)
    requires Filed(entries) && Ordered(Before, applicable)
    requires forall k :: k in applicable ==>
      Contains(pathMatch, k, target) && exists id :: id in entries && entries[id].key == k
    requires forall id :: id in entries && Contains(pathMatch, entries[id].key, target) ==>
      exists o :: o in applicable && Str(o) == id
    ensures IsApplicable(pathMatch, entries, target, applicable)
  {
    hide Contains, Ordered, Before, Str;
    forall k | k in applicable ensures Covers(pathMatch, entries, Str(k), target) && entries[Str(k)].key == k {
      var id :| id in entries && entries[id].key == k;
      assert Str(k) == id;
    }
    forall id | Covers(pathMatch, entries, id, target) ensures entries[id].key in applicable {
      var o :| o in applicable && Str(o) == id;
      assert entries[id].key == o;
    }
  }

  lemma {:induction false} LastIsNarrowest(pathMatch: Matcher, entries: Entries, target: ScopeKey,
      keys: seq<ScopeKey>, level: int)
    requires Filed(entries) && IsApplicable(pathMatch, entries, target, keys)
    requires keys != [] ==> level == entries[Str(keys[|keys| - 1])].level
    requires keys == [] ==> level == L0
    ensures IsDeclared(pathMatch, entries, target, level)
  {
    hide Contains, Before, Str;
    if keys != [] {
      var n := |keys| - 1;
      var id := Str(keys[n]);
      forall o | Covers(pathMatch, entries, o, target) && o != id ensures Before(entries[o].key, entries[id].key) {
        assert entries[o].key in keys;
        var j :| 0 <= j < |keys| && keys[j] == entries[o].key;
        assert Str(keys[j]) == o;
      }
      assert Narrowest(pathMatch, entries, target, id);
    }
  }

  lemma {:induction false} MinimumOfAll(pathMatch: Matcher, entries: Entries, target: ScopeKey, keys: seq<ScopeKey>,
      cap: int)
    requires Filed(entries) && IsApplicable(pathMatch, entries, target, keys) && cap <= MAX_LEVEL
    requires forall j :: 0 <= j < |keys| ==> cap <= entries[Str(keys[j])].cap
    requires cap == MAX_LEVEL || exists j :: 0 <= j < |keys| && cap == entries[Str(keys[j])].cap
    ensures IsCap(pathMatch, entries, target, cap)
  {
    hide Contains, Before, Str, Ordered;
    forall id | Covers(pathMatch, entries, id, target) ensures cap <= entries[id].cap {
      assert entries[id].key in keys;
      var j :| 0 <= j < |keys| && keys[j] == entries[id].key;
      assert Str(keys[j]) == id;
    }
    if cap != MAX_LEVEL {
      var j :| 0 <= j < |keys| && cap == entries[Str(keys[j])].cap;
      assert Covers(pathMatch, entries, Str(keys[j]), target) && entries[Str(keys[j])].cap == cap;
    }
  }

  lemma {:induction false} OneNarrowest(pathMatch: Matcher, entries: Entries, target: ScopeKey, a: string, b: string)
    requires Narrowest(pathMatch, entries, target, a) && Narrowest(pathMatch, entries, target, b)
    ensures a == b
  {
    hide Contains, Before;
    if a != b {
      BeforeTotal(entries[a].key, entries[b].key);
    }
  }

  /** The answer does not depend on the order in which the map is read. */
  lemma {:induction false} EffectiveIsUnique(pathMatch: Matcher, entries: Entries, target: ScopeKey, l1: int,
      c1: int, l2: int, c2: int)
    requires IsEffective(pathMatch, entries, target, l1, c1) && IsEffective(pathMatch, entries, target, l2, c2)
    ensures l1 == l2 && c1 == c2
  {
    hide Contains, Before;
    var d1 :| IsDeclared(pathMatch, entries, target, d1) && l1 == Min(d1, c1);
    var d2 :| IsDeclared(pathMatch, entries, target, d2) && l2 == Min(d2, c2);
    if exists id :: Covers(pathMatch, entries, id, target) {
      var a :| Narrowest(pathMatch, entries, target, a) && entries[a].level == d1;
      var b :| Narrowest(pathMatch, entries, target, b) && entries[b].level == d2;
      OneNarrowest(pathMatch, entries, target, a, b);
    }
  }

  // ---- tightening never loosens a gate ----

  /** Levels and caps of declared scopes are at least L0. */
  predicate Grounded(entries: Entries) {
    forall id :: id in entries ==> L0 <= entries[id].level && L0 <= entries[id].cap
  }

  /** The same scopes with lower levels and caps, and new scopes at L0. */
  ghost predicate Lowered(before: Entries, after: Entries) {
    && (forall id :: id in before ==>
          id in after && after[id].key == before[id].key && after[id].level <= before[id].level
            && after[id].cap <= before[id].cap)
    && (forall id :: id in after && id !in before ==> after[id].level == L0)
  }

  lemma {:induction false} LoweredCap(pathMatch: Matcher, before: Entries, after: Entries, target: ScopeKey,
      c1: int, c2: int)
    requires Lowered(before, after) && IsCap(pathMatch, before, target, c1) && IsCap(pathMatch, after, target, c2)
    ensures c2 <= c1
  {
    hide Contains;
    if c1 != MAX_LEVEL {
      var id :| Covers(pathMatch, before, id, target) && before[id].cap == c1;
      assert Covers(pathMatch, after, id, target);
    }
  }

  lemma {:induction false} LoweredLevel(pathMatch: Matcher, before: Entries, after: Entries, target: ScopeKey,
      d1: int, d2: int)
    requires Grounded(before) && Lowered(before, after)
    requires IsDeclared(pathMatch, before, target, d1) && IsDeclared(pathMatch, after, target, d2)
    ensures L0 <= d1 && d2 <= d1
  {
    hide Contains, Before;
    if exists id :: Covers(pathMatch, after, id, target) {
      var b :| Narrowest(pathMatch, after, target, b) && after[b].level == d2;
      if b in before {
        forall o | Covers(pathMatch, before, o, target) && o != b ensures Before(before[o].key, before[b].key) {
          assert Covers(pathMatch, after, o, target);
        }
        assert Covers(pathMatch, before, b, target);
        assert Narrowest(pathMatch, before, target, b);
        var a :| Narrowest(pathMatch, before, target, a) && before[a].level == d1;
        OneNarrowest(pathMatch, before, target, a, b);
      }
    } else {
      forall id ensures !Covers(pathMatch, before, id, target) {
        assert !Covers(pathMatch, after, id, target);
      }
    }
  }

  lemma {:induction false} LoweredEffective(pathMatch: Matcher, before: Entries, after: Entries, target: ScopeKey,
      l1: int, c1: int, l2: int, c2: int)
    requires Grounded(before) && Lowered(before, after)
    requires IsEffective(pathMatch, before, target, l1, c1) && IsEffective(pathMatch, after, target, l2, c2)
    ensures l2 <= l1 && c2 <= c1
  {
    hide IsCap, IsDeclared;
    var d1 :| IsDeclared(pathMatch, before, target, d1) && l1 == Min(d1, c1);
    var d2 :| IsDeclared(pathMatch, after, target, d2) && l2 == Min(d2, c2);
    LoweredCap(pathMatch, before, after, target, c1, c2);
    LoweredLevel(pathMatch, before, after, target, d1, d2);
  }

  // ---- the index against the scope streams ----

  type GlobCheck = string -> bool
  type Encoder = ScopeEvent -> Payload

  /** A scope command with its idempotency key. */
  datatype Command = Command(idem: string, body: Scopes.Command<ScopeKey>)

  function Body(globOk: GlobCheck, c: Command): Scopes.Command<ScopeKey> {
    c.body.(keyOk := Valid(globOk, c.body.key))
  }

  function Decided(globOk: GlobCheck, s: Scope, c: Command, x: DecideContext): Scopes.Decision<ScopeKey> {
    Scopes.Decide(s, Body(globOk, c), x)
  }

  /** The key a scope stream is about. */
  function KeyOf(id: string): ScopeKey {
    if Axes(id).Some? then Axes(id).value else NO_KEY
  }

  function TrimPrefix(stream: string): string {
    if "scope/" <= stream then stream[6..] else stream
  }

  /** The scope aggregate as the pipeline runs it: the empty scope is parsed from the stream. */
  function TheAggregate(globOk: GlobCheck, encode: Encoder,
      decode: Decoder): Aggregate<Scope, Command, DecideContext, ScopeEvent> {
    Aggregate(
      (stream: string) => Scopes.NewScope(KeyOf(TrimPrefix(stream))), Scopes.Apply<ScopeKey>,
      (s: Scope, c: Command, x: DecideContext) => ToDecision(Decided(globOk, s, c, x)),
      (c: Command) => "scope/" + Str(c.body.key), (c: Command) => c.idem, encode, decode)
  }

  function Summarize(s: Scope): ScopeEntry {
    ScopeEntry(s.key, s.level, s.cap)
  }

  function Update(e: ScopeEntry, ev: ScopeEvent): ScopeEntry {
    match ev
    case AutonomyChanged(_, _, level, _, _, _, _) => e.(level := level)
    case CapChanged(_, _, cap, _, _, _) => e.(cap := cap)
    case ExceptionRaised(_, _, _, _) => e
  }

  predicate Declares(ev: ScopeEvent) {
    !ev.ExceptionRaised?
  }

  predicate AtHome(id: string, s: Scope) {
    s.key == KeyOf(id)
  }

  function TheIndex(decode: Decoder): Index<Scope, ScopeEntry, ScopeEvent> {
    Index((id: string) => Scopes.NewScope(KeyOf(id)), Scopes.Apply<ScopeKey>, Summarize,
      (ev: ScopeEvent) => ScopeEntry(ev.key, L0, MAX_LEVEL), Update, Declares,
      (ev: ScopeEvent) => Str(ev.key), AtHome, "scope/", decode)
  }

  /** The generic index does what ScopeIndex.Handle does. */
  lemma {:induction false} ObserveIsEnter(decode: Decoder, entries: Entries, e: Envelope)
    ensures Observe(TheIndex(decode), entries, e) ==
      if decode(PayloadOf(e)).Some? then Enter(entries, decode(PayloadOf(e)).value) else entries
  {
    hide Str;
  }

  lemma {:induction false} IndexCommutes(decode: Decoder)
    ensures Commutes(TheIndex(decode))
  {
    hide CommutesAt, KeyOf;
    forall id: string, s: Scope, e: ScopeEvent ensures CommutesAt(TheIndex(decode), id, s, e) {
      UpdateFollows(decode, id, s, e);
    }
  }

  lemma {:induction false} UpdateFollows(decode: Decoder, id: string, s: Scope, e: ScopeEvent)
    ensures CommutesAt(TheIndex(decode), id, s, e)
  {
    hide Str, KeyOf, StartOk, Scopes.Apply, Update, Summarize;
    KeyStays(s, e);
    StartNames(decode, e);
  }

  lemma {:induction false} StartNames(decode: Decoder, e: ScopeEvent)
    ensures StartOk(TheIndex(decode), e) ==> e.key == KeyOf(Str(e.key))
  {
    hide Str, KeyOf;
  }

  lemma {:induction false} KeyStays(s: Scope, e: ScopeEvent)
    ensures s.key == e.key ==>
      Summarize(Scopes.Apply(s, e)) == if e.ExceptionRaised? then Summarize(s) else Update(Summarize(s), e)
    ensures s.key == e.key ==> Scopes.Apply(s, e).key == s.key
  {
  }

  predicate StateOk(id: string, s: Scope) {
    L0 <= s.level <= s.cap <= MAX_LEVEL
  }

  predicate EventOk(globOk: GlobCheck, id: string, e: ScopeEvent) {
    Str(e.key) == id && Valid(globOk, e.key)
  }

  function Good(globOk: GlobCheck): (string, ScopeEvent) -> bool {
    (id: string, e: ScopeEvent) => EventOk(globOk, id, e)
  }

  lemma {:induction false} EventsNameTheKey(globOk: GlobCheck, s: Scope, c: Command, x: DecideContext, i: nat)
    requires Decided(globOk, s, c, x).Ok? && i < |Decided(globOk, s, c, x).value|
    ensures Decided(globOk, s, c, x).value[i].key == c.body.key && Valid(globOk, c.body.key)
  {
    hide Valid;
  }

  lemma {:induction false} FoldIsApplyAll(globOk: GlobCheck, encode: Encoder, decode: Decoder, s: Scope,
      events: seq<ScopeEvent>)
    ensures FoldEvents(TheAggregate(globOk, encode, decode), s, events) == Scopes.ApplyAll(s, events)
    decreases |events|
  {
    if events != [] {
      FoldIsApplyAll(globOk, encode, decode, s, events[..|events| - 1]);
    }
  }

  lemma {:induction false} GoodNames(globOk: GlobCheck, decode: Decoder, id: string, e: ScopeEvent)
    requires EventOk(globOk, id, e)
    ensures TheIndex(decode).id(e) == id && StartOk(TheIndex(decode), e)
  {
    hide Str, Axes;
    ParseInverts(globOk, Str(e.key), e.key);
  }

  lemma {:induction false} StreamsKeep(globOk: GlobCheck, encode: Encoder, decode: Decoder, id: string)
    ensures Kept(TheAggregate(globOk, encode, decode), TheIndex(decode), StateOk, Good(globOk), id)
  {
    hide Decided, Str, Valid, StartOk, KeyOf, FoldEvents, EventOk, TrimPrefix;
    var agg := TheAggregate(globOk, encode, decode);
    forall s: Scope, c: Command, x: DecideContext
      | StateOk(id, s) && agg.stream(c) == "scope/" + id && agg.decide(s, c, x).Emit?
      ensures GoodBatch(agg, s, agg.decide(s, c, x).events, (s: Scope) => StateOk(id, s),
        (e: ScopeEvent) => Good(globOk)(id, e))
    {
      SameId("scope/", Str(c.body.key), id);
      DecidedKeeps(globOk, encode, decode, id, s, c, x);
    }
    forall e | Good(globOk)(id, e) ensures TheIndex(decode).id(e) == id && StartOk(TheIndex(decode), e) {
      GoodNames(globOk, decode, id, e);
    }
  }

  lemma {:induction false} DecidedKeeps(globOk: GlobCheck, encode: Encoder, decode: Decoder, id: string, s: Scope,
      c: Command, x: DecideContext)
    requires StateOk(id, s) && Str(c.body.key) == id && Decided(globOk, s, c, x).Ok?
    ensures GoodBatch(TheAggregate(globOk, encode, decode), s, Decided(globOk, s, c, x).value,
      (s: Scope) => StateOk(id, s), (e: ScopeEvent) => Good(globOk)(id, e))
  {
    hide Str, Valid, FoldEvents, Decided, KeyOf, TrimPrefix, Scopes.Step, Scopes.ApplyAll, Body;
    var events := Decided(globOk, s, c, x).value;
    FoldIsApplyAll(globOk, encode, decode, s, events);
    StepIsApplyAll(globOk, s, c, x);
    Scopes.StepLevels(s, Body(globOk, c), x);
    forall i | 0 <= i < |events| ensures Good(globOk)(id, events[i]) {
      EventsNameTheKey(globOk, s, c, x, i);
    }
  }

  lemma {:induction false} StepIsApplyAll(globOk: GlobCheck, s: Scope, c: Command, x: DecideContext)
    requires Decided(globOk, s, c, x).Ok?
    ensures Scopes.Step(s, Body(globOk, c), x) == Scopes.ApplyAll(s, Decided(globOk, s, c, x).value)
  {
    hide Scopes.ApplyAll, Scopes.Decide, Valid;
  }

  lemma {:induction false} MirrorsScope(globOk: GlobCheck, encode: Encoder, decode: Decoder)
    ensures Mirrors(TheAggregate(globOk, encode, decode), TheIndex(decode))
  {
    hide Axes;
    forall id: string ensures TrimPrefix("scope/" + id) == id {
      assert ("scope/" + id)[6..] == id;
    }
  }

  /** Each entry equals the key, level and cap of replaying that scope's own stream. */
  lemma {:induction false} EntriesAgree(globOk: GlobCheck, encode: Encoder, decode: Decoder, log: Log, id: string)
    requires PipelineWritten(TheAggregate(globOk, encode, decode), TheIndex(decode), log)
    ensures StateOk(id, Current(TheIndex(decode), log, id)) && Current(TheIndex(decode), log, id).key == KeyOf(id)
    ensures var entries := Project(TheIndex(decode), log);
      && (id in entries <==> Touched(TheIndex(decode), StreamOf(log, "scope/" + id)))
      && (id in entries ==> entries[id] == Summarize(Current(TheIndex(decode), log, id)))
      && (id !in entries ==>
        Current(TheIndex(decode), log, id).level == L0 && Current(TheIndex(decode), log, id).cap == MAX_LEVEL)
  {
    hide Kept, Legal, Decided, Fold, Project, StreamOf, KeyOf, Str, Mirrors, TrimPrefix, Commutes, Touched;
    hide PipelineWritten;
    forall k ensures Kept(TheAggregate(globOk, encode, decode), TheIndex(decode), StateOk, Good(globOk), k) {
      StreamsKeep(globOk, encode, decode, k);
    }
    MirrorsScope(globOk, encode, decode);
    IndexCommutes(decode);
    EntryIsReplay(TheAggregate(globOk, encode, decode), TheIndex(decode), StateOk, Good(globOk), log, id);
  }

  // ---- the effective level and cap from the scope streams themselves ----

  /** A declared scope, read from its own stream, that contains the target. */
  ghost predicate Governs(pathMatch: Matcher, decode: Decoder, log: Log, id: string, target: ScopeKey) {
    && Touched(TheIndex(decode), StreamOf(log, "scope/" + id))
    && Contains(pathMatch, Current(TheIndex(decode), log, id).key, target)
  }

  ghost predicate GovernsLast(pathMatch: Matcher, decode: Decoder, log: Log, id: string, target: ScopeKey) {
    && Governs(pathMatch, decode, log, id, target)
    && forall o :: Governs(pathMatch, decode, log, o, target) && o != id ==>
      Before(Current(TheIndex(decode), log, o).key, Current(TheIndex(decode), log, id).key)
  }

  ghost predicate DeclaredOnReplays(pathMatch: Matcher, decode: Decoder, log: Log, target: ScopeKey, level: int) {
    || (level == L0 && forall id :: !Governs(pathMatch, decode, log, id, target))
    || exists id ::
         GovernsLast(pathMatch, decode, log, id, target) && Current(TheIndex(decode), log, id).level == level
  }

  /**
   * The cap is the smallest of the replayed scopes that contain the target; the level is the one the
   * narrowest of them replays to, ties broken by canonical form, cut to the cap.
   */
  ghost predicate EffectiveOnReplays(pathMatch: Matcher, decode: Decoder, log: Log, target: ScopeKey, level: int,
      cap: int) {
    && cap <= MAX_LEVEL
    && (forall id :: Governs(pathMatch, decode, log, id, target) ==> cap <= Current(TheIndex(decode), log, id).cap)
    && (cap == MAX_LEVEL || exists id ::
          Governs(pathMatch, decode, log, id, target) && Current(TheIndex(decode), log, id).cap == cap)
    && exists declared ::
         && DeclaredOnReplays(pathMatch, decode, log, target, declared)
         && level == if declared > cap then cap else declared
  }

  /** The scopes the index knows are the declared ones, at what their streams replay to. */
  lemma {:induction false} CoversIsGoverns(pathMatch: Matcher, globOk: GlobCheck, encode: Encoder, decode: Decoder,
      log: Log, target: ScopeKey, id: string)
    requires PipelineWritten(TheAggregate(globOk, encode, decode), TheIndex(decode), log)
    ensures var entries := Project(TheIndex(decode), log);
      && (Covers(pathMatch, entries, id, target) <==> Governs(pathMatch, decode, log, id, target))
      && (id in entries ==> entries[id] == Summarize(Current(TheIndex(decode), log, id)))
  {
    hide PipelineWritten, Project, Fold, Touched, StateOk, KeyOf, Contains;
    EntriesAgree(globOk, encode, decode, log, id);
  }

  /** On a ledger that the pipeline wrote, the index answers from exactly the replays of the scope streams. */
  lemma {:induction false} EffectiveIsExact(pathMatch: Matcher, globOk: GlobCheck, encode: Encoder, decode: Decoder,
      log: Log, target: ScopeKey, level: int, cap: int)
    requires PipelineWritten(TheAggregate(globOk, encode, decode), TheIndex(decode), log)
    requires IsEffective(pathMatch, Project(TheIndex(decode), log), target, level, cap)
    ensures EffectiveOnReplays(pathMatch, decode, log, target, level, cap)
  {
    hide PipelineWritten, Project, Governs, Before, Contains, Fold, TheAggregate;
    var entries := Project(TheIndex(decode), log);
    forall id
      ensures Covers(pathMatch, entries, id, target) <==> Governs(pathMatch, decode, log, id, target)
      ensures id in entries ==> entries[id] == Summarize(Current(TheIndex(decode), log, id))
    {
      CoversIsGoverns(pathMatch, globOk, encode, decode, log, target, id);
    }
    var declared :| IsDeclared(pathMatch, entries, target, declared) && level == Min(declared, cap);
    if id :| Narrowest(pathMatch, entries, target, id) && entries[id].level == declared {
      assert GovernsLast(pathMatch, decode, log, id, target);
    }
    assert DeclaredOnReplays(pathMatch, decode, log, target, declared);
  }

  // ---- from a command to the gate ----

  function EnterAll(entries: Entries, events: seq<ScopeEvent>): Entries {
    if events == [] then entries else Enter(EnterAll(entries, events[..|events| - 1]), events[|events| - 1])
  }

  /** The same scope but for one: its key, level and cap follow the aggregate. */
  ghost predicate FollowsScope(entries: Entries, after: Entries, k: ScopeKey, s: Scope) {
    && (forall id :: id != Str(k) ==> (id in after <==> id in entries) && (id in entries ==> after[id] == entries[id]))
    && (Str(k) in entries ==> Str(k) in after && after[Str(k)].key == entries[Str(k)].key)
    && Get(after, k).level == s.level && Get(after, k).cap == s.cap
  }

  lemma {:induction false} EnterFollows(entries: Entries, after: Entries, k: ScopeKey, s: Scope, ev: ScopeEvent)
    requires FollowsScope(entries, after, k, s) && ev.key == k
    ensures FollowsScope(entries, Enter(after, ev), k, Scopes.Apply(s, ev))
  {
    hide Str;
  }

  lemma {:induction false} EnterAllFollows(entries: Entries, k: ScopeKey, s: Scope, events: seq<ScopeEvent>)
    requires FollowsScope(entries, entries, k, s) && forall i :: 0 <= i < |events| ==> events[i].key == k
    ensures FollowsScope(entries, EnterAll(entries, events), k, Scopes.ApplyAll(s, events))
    decreases |events|
  {
    hide FollowsScope, Enter, Scopes.Apply;
    if events != [] {
      var n := |events| - 1;
      EnterAllFollows(entries, k, s, events[..n]);
      EnterFollows(entries, EnterAll(entries, events[..n]), k, Scopes.ApplyAll(s, events[..n]), events[n]);
    }
  }

  lemma {:induction false} FollowingLowers(entries: Entries, after: Entries, k: ScopeKey, s: Scope, s': Scope)
    requires FollowsScope(entries, entries, k, s) && FollowsScope(entries, after, k, s')
    requires L0 <= s'.level <= s.level && s'.cap <= s.cap
    requires Str(k) !in entries ==> s.level == L0
    ensures Lowered(entries, after)
  {
    hide Str;
  }

  lemma {:induction false} ProjectBatch(decode: Decoder, log: Log, batch: Log, events: seq<ScopeEvent>)
    requires |batch| == |events| && forall i :: 0 <= i < |batch| ==> decode(PayloadOf(batch[i])) == Some(events[i])
    ensures Project(TheIndex(decode), log + batch) == EnterAll(Project(TheIndex(decode), log), events)
    decreases |batch|
  {
    hide Enter, TheIndex, Observe;
    if batch == [] {
      assert log + batch == log;
    } else {
      var n := |batch| - 1;
      ProjectBatch(decode, log, batch[..n], events[..n]);
      assert (log + batch)[..|log| + n] == log + batch[..n];
      ObserveIsEnter(decode, Project(TheIndex(decode), log + batch[..n]), batch[n]);
    }
  }

  /** On a ledger the pipeline wrote, a tightening batch leaves an index with lower levels and caps. */
  lemma {:induction false} TighteningBatchLowers(globOk: GlobCheck, encode: Encoder, decode: Decoder, log: Log,
      batch: Log, c: Command, x: DecideContext)
    requires PipelineWritten(TheAggregate(globOk, encode, decode), TheIndex(decode), log)
    requires var stream := "scope/" + Str(c.body.key);
      Batch(TheAggregate(globOk, encode, decode), stream, StreamOf(log, stream), batch, c, x)
    requires Scopes.Tightening(Current(TheIndex(decode), log, Str(c.body.key)), c.body)
    ensures Grounded(Project(TheIndex(decode), log))
    ensures Lowered(Project(TheIndex(decode), log), Project(TheIndex(decode), log + batch))
  {
    hide Project, Fold, KeyOf, Str, TrimPrefix, Touched, Mirrors, Legal, Replay, Scopes.Decide, Scopes.ApplyAll;
    hide Scopes.Step, Enter, EnterAll, Lowered, FollowsScope;
    var agg, ix, k := TheAggregate(globOk, encode, decode), TheIndex(decode), c.body.key;
    var entries, s := Project(ix, log), Current(ix, log, Str(k));
    forall id | id in entries ensures L0 <= entries[id].level && L0 <= entries[id].cap {
      EntriesAgree(globOk, encode, decode, log, id);
    }
    EntriesAgree(globOk, encode, decode, log, Str(k));
    CurrentIsReplay(globOk, encode, decode, log, Str(k));
    assert Decided(globOk, s, c, x).Ok?;
    var events := Decided(globOk, s, c, x).value;
    forall i | 0 <= i < |events| ensures events[i].key == k {
      EventsNameTheKey(globOk, s, c, x, i);
    }
    StartsFollowing(entries, k, s);
    EnterAllFollows(entries, k, s, events);
    StepIsApplyAll(globOk, s, c, x);
    Scopes.TighteningLowers(s, Body(globOk, c), x);
    FollowingLowers(entries, EnterAll(entries, events), k, s, Scopes.ApplyAll(s, events));
    ProjectBatch(decode, log, batch, events);
  }

  lemma {:induction false} StartsFollowing(entries: Entries, k: ScopeKey, s: Scope)
    requires Str(k) in entries ==> entries[Str(k)].level == s.level && entries[Str(k)].cap == s.cap
    requires Str(k) !in entries ==> s.level == L0 && s.cap == MAX_LEVEL
    ensures FollowsScope(entries, entries, k, s)
  {
    hide Str;
  }

  lemma {:induction false} CurrentIsReplay(globOk: GlobCheck, encode: Encoder, decode: Decoder, log: Log, id: string)
    requires PipelineWritten(TheAggregate(globOk, encode, decode), TheIndex(decode), log)
    ensures Replay(TheAggregate(globOk, encode, decode), "scope/" + id, StreamOf(log, "scope/" + id)) ==
      Some(Current(TheIndex(decode), log, id))
  {
    hide KeyOf, Str, TrimPrefix, Legal, Preserved, Replay, Fold, Mirrors, GoodRecords;
    var agg, ix, stream := TheAggregate(globOk, encode, decode), TheIndex(decode), "scope/" + id;
    StreamsKeep(globOk, encode, decode, id);
    MirrorsScope(globOk, encode, decode);
    StreamReplays(agg, ix, StateOk, Good(globOk), log, id);
  }

  /**
   * Lowering a cap, lowering a level or recording a regression in any scope never moves any gate
   * answer up: for every target, requested level and set of judges, the policy on the index after
   * the batch ranks at most as high as on the index before it.
   */
  lemma {:induction false} TighteningNeverLoosens(pathMatch: Matcher, globOk: GlobCheck, encode: Encoder,
      decode: Decoder, log: Log, batch: Log, c: Command, x: DecideContext, target: ScopeKey, l1: int, c1: int,
      l2: int, c2: int, judges: seq<string>, requested: int)
    requires PipelineWritten(TheAggregate(globOk, encode, decode), TheIndex(decode), log)
    requires var stream := "scope/" + Str(c.body.key);
      Batch(TheAggregate(globOk, encode, decode), stream, StreamOf(log, stream), batch, c, x)
    requires Scopes.Tightening(Current(TheIndex(decode), log, Str(c.body.key)), c.body)
    requires IsEffective(pathMatch, Project(TheIndex(decode), log), target, l1, c1)
    requires IsEffective(pathMatch, Project(TheIndex(decode), log + batch), target, l2, c2)
    ensures Gates.Rank(Gates.Policy(c2, l2, judges, requested)) <= Gates.Rank(Gates.Policy(c1, l1, judges, requested))
  {
    hide PipelineWritten, Batch, Project, IsEffective, TheIndex, TheAggregate;
    TighteningBatchLowers(globOk, encode, decode, log, batch, c, x);
    LoweredEffective(pathMatch, Project(TheIndex(decode), log), Project(TheIndex(decode), log + batch), target, l1, c1,
      l2, c2);
    Gates.PolicyIsMonotone(c1, l1, c2, l2, judges, requested);
  }
}
