/** The Scope aggregate: a level and a cap per scope (internal/core/harness/scope.go, internal/core/level.go). */
module Scopes {
  import opened Prelude
  import opened Envelopes
  import opened Context

  datatype Trigger = Promote | Regress

  /** The transition table: one step up or down within L0..L3; an unknown level stays. */
  function Transition(level: int, t: Trigger): int {
    if !ValidLevel(level) then level
    else if t == Promote then if level == MAX_LEVEL then level else level + 1
    else if level == L0 then level else level - 1
  }

  datatype Scope<K> = Scope(key: K, level: int, cap: int, initialized: bool, lastDemotedAt: int, regressions: nat,
    updatedAt: int)

  function NewScope<K>(key: K): Scope<K> {
    Scope(key, L0, MAX_LEVEL, false, 0, 0, 0)
  }

  datatype Evidence = Evidence(since: int, outcomes: int, regressions: int)

  /** keyOk says whether the command's scope key is valid. */
  datatype Command<K> =
    | SetAutonomy(key: K, keyOk: bool, level: int, changeRef: string, evidence: Evidence)
    | SetCap(key: K, keyOk: bool, cap: int, changeRef: string)
    | RecordRegression(key: K, keyOk: bool, changeRef: string)

  datatype Event<K> =
    | AutonomyChanged(key: K, from: int, level: int, trigger: Trigger, changeRef: string, actor: Actor, at: int)
    | CapChanged(key: K, from: int, cap: int, changeRef: string, actor: Actor, at: int)
    | ExceptionRaised(key: K, changeRef: string, atLevel: int, at: int)

  type Decision<K> = Result<seq<Event<K>>, string>

  function DecideAutonomy<K>(s: Scope<K>, m: Command<K>, ctx: DecideContext): Decision<K>
    requires m.SetAutonomy?
  {
    if !m.keyOk then Err("invalid")
    else if !ValidLevel(m.level) then Err("invalid")
    else if !ctx.actor.kind.Human? then Err("human-only")
    else if m.level > s.cap then Err("over-cap")
    else if m.level == s.level then Ok([])
    else if m.level < s.level then
      Ok([AutonomyChanged(m.key, s.level, m.level, Promote, m.changeRef, ctx.actor, ctx.now)])
    else if m.changeRef == "" then Err("no-change")
    else if m.level != Transition(s.level, Promote) then Err("one-step")
    else if m.evidence.since < s.lastDemotedAt then Err("stale-evidence")
    else if m.evidence.regressions > 0 then Err("regressed")
    else if m.evidence.outcomes < ctx.policy.promotionMinOutcomes then Err("insufficient-evidence")
    else Ok([AutonomyChanged(m.key, s.level, m.level, Promote, m.changeRef, ctx.actor, ctx.now)])
  }

  function DecideCap<K>(s: Scope<K>, m: Command<K>, ctx: DecideContext): Decision<K>
    requires m.SetCap?
  {
    if !m.keyOk then Err("invalid")
    else if !ValidLevel(m.cap) then Err("invalid")
    else if !ctx.actor.kind.Human? then Err("human-only")
    else if m.changeRef == "" then Err("no-change")
    else if m.cap == s.cap then Ok([])
    else Ok([CapChanged(m.key, s.cap, m.cap, m.changeRef, ctx.actor, ctx.now)] +
      (if s.level > m.cap then [AutonomyChanged(m.key, s.level, m.cap, Promote, m.changeRef, ctx.actor, ctx.now)]
        else []))
  }

  function DecideRegression<K>(s: Scope<K>, m: Command<K>, ctx: DecideContext): Decision<K>
    requires m.RecordRegression?
  {
    var level := Transition(s.level, Regress);
    if !m.keyOk then Err("invalid")
    else Ok((if level != s.level
      then [AutonomyChanged(m.key, s.level, level, Regress, m.changeRef, ctx.actor, ctx.now)] else []) +
      [ExceptionRaised(m.key, m.changeRef, level, ctx.now)])
  }

  function Decide<K>(s: Scope<K>, m: Command<K>, ctx: DecideContext): Decision<K> {
    match m
    case SetAutonomy(_, _, _, _, _) => DecideAutonomy(s, m, ctx)
    case SetCap(_, _, _, _) => DecideCap(s, m, ctx)
    case RecordRegression(_, _, _) => DecideRegression(s, m, ctx)
  }

  function Apply<K>(s: Scope<K>, e: Event<K>): Scope<K> {
    match e
    case AutonomyChanged(key, _, level, trigger, _, _, at) =>
      s.(key := key, level := level, initialized := true, updatedAt := at,
         lastDemotedAt := if trigger == Regress then at else s.lastDemotedAt)
    case CapChanged(key, _, cap, _, _, at) =>
      s.(key := key, cap := cap, initialized := true, updatedAt := at)
    case ExceptionRaised(_, _, _, at) =>
      s.(regressions := s.regressions + 1, updatedAt := at,
         lastDemotedAt := if s.lastDemotedAt < at then at else s.lastDemotedAt)
  }

  function ApplyAll<K>(s: Scope<K>, events: seq<Event<K>>): Scope<K> {
    if events == [] then s else Apply(ApplyAll(s, events[..|events| - 1]), events[|events| - 1])
  }

  lemma {:induction false} ApplyShort<K>(s: Scope<K>, events: seq<Event<K>>)
    requires |events| <= 2
    ensures |events| == 1 ==> ApplyAll(s, events) == Apply(s, events[0])
    ensures |events| == 2 ==> ApplyAll(s, events) == Apply(Apply(s, events[0]), events[1])
  {
    if |events| == 1 {
      assert events[..0] == [];
    } else if |events| == 2 {
      ApplyShort(s, events[..1]);
    }
  }

  function Step<K>(s: Scope<K>, m: Command<K>, ctx: DecideContext): Scope<K> {
    match Decide(s, m, ctx)
    case Ok(events) => ApplyAll(s, events)
    case Err(_) => s
  }

  function Run<K>(key: K, steps: seq<(Command<K>, DecideContext)>): Scope<K> {
    if steps == [] then NewScope(key)
    else Step(Run(key, steps[..|steps| - 1]), steps[|steps| - 1].0, steps[|steps| - 1].1)
  }

  /** The clock starts at 0 or later and never goes back. */
  ghost predicate ClockOk<K>(steps: seq<(Command<K>, DecideContext)>) {
    && (forall i :: 0 <= i < |steps| ==> steps[i].1.now >= 0)
    && (forall i, j :: 0 <= i < j < |steps| ==> steps[i].1.now <= steps[j].1.now)
  }

  predicate IsRegression<K>(step: (Command<K>, DecideContext)) {
    step.0.RecordRegression? && step.0.keyOk
  }

  ghost predicate LevelsOk<K>(s: Scope<K>) {
    L0 <= s.level <= s.cap <= MAX_LEVEL
  }

  /** The demotion mark is at least every recorded regression's time and at most the clock. */
  ghost predicate MarkOk<K>(s: Scope<K>, steps: seq<(Command<K>, DecideContext)>) {
    && (forall i :: 0 <= i < |steps| && IsRegression(steps[i]) ==> steps[i].1.now <= s.lastDemotedAt)
    && (s.lastDemotedAt == 0 || exists i :: 0 <= i < |steps| && steps[i].1.now == s.lastDemotedAt)
  }

  /** The step that goes up and the step that comes down again. */
  lemma {:induction false} TransitionIsAStep(level: int)
    ensures ValidLevel(level) ==> ValidLevel(Transition(level, Promote)) && ValidLevel(Transition(level, Regress))
    ensures L0 <= level < MAX_LEVEL ==> Transition(level, Promote) == level + 1
    ensures L0 <= level < MAX_LEVEL ==> Transition(Transition(level, Promote), Regress) == level
    ensures Transition(MAX_LEVEL, Promote) == MAX_LEVEL && Transition(L0, Regress) == L0
    ensures !ValidLevel(level) ==> forall t :: Transition(level, t) == level
  {
  }

  /** A raise must be one step, for a named change, on evidence that is fresh, sufficient and without regressions. */
  predicate Earned<K>(s: Scope<K>, m: Command<K>, ctx: DecideContext)
    requires m.SetAutonomy?
  {
    && m.changeRef != "" && m.level == Transition(s.level, Promote)
    && m.evidence.since >= s.lastDemotedAt && m.evidence.regressions <= 0
    && m.evidence.outcomes >= ctx.policy.promotionMinOutcomes
  }

  /**
   * What a SetAutonomy does: a human moves the level to any lower one, or to an earned higher one
   * within the cap; whatever else is asked, nothing moves.
   */
  lemma {:induction false} AutonomyStep<K>(s: Scope<K>, m: Command<K>, ctx: DecideContext)
    requires m.SetAutonomy?
    ensures var s' := Step(s, m, ctx);
      var moves := m.keyOk && ValidLevel(m.level) && ctx.actor.kind.Human? && m.level <= s.cap && m.level != s.level
        && (m.level < s.level || Earned(s, m, ctx));
      s' == if moves then s.(key := m.key, level := m.level, initialized := true, updatedAt := ctx.now) else s
  {
    if DecideAutonomy(s, m, ctx).Ok? {
      ApplyShort(s, DecideAutonomy(s, m, ctx).value);
    }
  }

  /** What a SetCap does: a human with a change reference moves the cap, and the level is cut to it. */
  lemma {:induction false} CapStep<K>(s: Scope<K>, m: Command<K>, ctx: DecideContext)
    requires m.SetCap?
    ensures var s' := Step(s, m, ctx);
      var moves := m.keyOk && ValidLevel(m.cap) && ctx.actor.kind.Human? && m.changeRef != "" && m.cap != s.cap;
      s' ==
        if moves then
          s.(key := m.key, cap := m.cap, level := if s.level > m.cap then m.cap else s.level, initialized := true,
             updatedAt := ctx.now)
        else s
  {
    if DecideCap(s, m, ctx).Ok? {
      ApplyShort(s, DecideCap(s, m, ctx).value);
    }
  }

  /** What a regression does: one step down and the mark moved to now, or, at the bottom, the mark alone. */
  lemma {:induction false} RegressionStep<K>(s: Scope<K>, m: Command<K>, ctx: DecideContext)
    requires m.RecordRegression?
    ensures var s' := Step(s, m, ctx); var level := Transition(s.level, Regress);
      && s'.cap == s.cap && (!m.keyOk ==> s' == s)
      && s'.level == (if m.keyOk then level else s.level)
      && s'.regressions == (if m.keyOk then s.regressions + 1 else s.regressions)
      && s'.updatedAt == (if m.keyOk then ctx.now else s.updatedAt)
      && s'.lastDemotedAt == if m.keyOk && (level != s.level || s.lastDemotedAt < ctx.now) then ctx.now
        else s.lastDemotedAt
  {
    if m.keyOk {
      var events := DecideRegression(s, m, ctx).value;
      assert Step(s, m, ctx) == ApplyAll(s, events);
      hide ApplyAll, Step;
      ApplyShort(s, events);
    }
  }

  /** The records of a command tell what it did: from where to where, by whom, for which change and when. */
  lemma {:induction false} RecordsTell<K>(s: Scope<K>, m: Command<K>, ctx: DecideContext)
    requires Decide(s, m, ctx).Ok?
    ensures var events, s' := Decide(s, m, ctx).value, Step(s, m, ctx);
      && |events| <= 2
      && (forall i, j :: 0 <= i < j < |events| ==>
            && !(events[i].AutonomyChanged? && events[j].AutonomyChanged?)
            && !(events[i].CapChanged? && events[j].CapChanged?)
            && !(events[i].ExceptionRaised? && events[j].ExceptionRaised?))
      && (forall i :: 0 <= i < |events| ==>
            && events[i].key == m.key && events[i].changeRef == m.changeRef && events[i].at == ctx.now
            && (events[i].AutonomyChanged? ==>
                  && events[i].from == s.level && events[i].level == s'.level && events[i].actor == ctx.actor
                  && (events[i].trigger == Regress <==> m.RecordRegression?))
            && (events[i].CapChanged? ==>
                  events[i].from == s.cap && events[i].cap == s'.cap && events[i].actor == ctx.actor)
            && (events[i].ExceptionRaised? ==> events[i].atLevel == s'.level && m.RecordRegression?))
      && (s'.level != s.level <==> exists i :: 0 <= i < |events| && events[i].AutonomyChanged?)
      && (s'.cap != s.cap <==> exists i :: 0 <= i < |events| && events[i].CapChanged?)
      && (m.RecordRegression? <==> exists i :: 0 <= i < |events| && events[i].ExceptionRaised?)
  {
    hide ApplyAll;
    var events := Decide(s, m, ctx).value;
    ApplyShort(s, events);
    assert events == [] ==> Step(s, m, ctx) == s by {
      if events == [] {
        NothingApplied(s);
      }
    }
    assert |events| > 0 ==> events[0] in events;
  }

  lemma {:induction false} NothingApplied<K>(s: Scope<K>)
    ensures ApplyAll(s, []) == s
  {
  }

  /** A refusal names a rule that the command really breaks. */
  lemma {:induction false} RefusalsAreTrue<K>(s: Scope<K>, m: Command<K>, ctx: DecideContext)
    requires Decide(s, m, ctx).Err?
    ensures var code := Decide(s, m, ctx).error;
      || (code == "invalid" &&
            (!m.keyOk || (m.SetAutonomy? && !ValidLevel(m.level)) || (m.SetCap? && !ValidLevel(m.cap))))
      || (code == "human-only" && !ctx.actor.kind.Human? && !m.RecordRegression?)
      || (code == "no-change" && m.changeRef == "")
      || (m.SetAutonomy? && m.level > s.level && (
            || (code == "one-step" && m.level != Transition(s.level, Promote))
            || (code == "stale-evidence" && m.evidence.since < s.lastDemotedAt)
            || (code == "regressed" && m.evidence.regressions > 0)
            || (code == "insufficient-evidence" && m.evidence.outcomes < ctx.policy.promotionMinOutcomes)))
      || (code == "over-cap" && m.SetAutonomy? && m.level > s.cap)
  {
  }

  lemma {:induction false} StepLevels<K>(s: Scope<K>, m: Command<K>, ctx: DecideContext)
    requires LevelsOk(s)
    ensures LevelsOk(Step(s, m, ctx))
    ensures var s' := Step(s, m, ctx);
      || (s'.lastDemotedAt == s.lastDemotedAt && (m.RecordRegression? && m.keyOk ==> ctx.now <= s.lastDemotedAt))
      || s'.lastDemotedAt == ctx.now
  {
    hide Step;
    match m
    case SetAutonomy(_, _, _, _, _) => AutonomyStep(s, m, ctx);
    case SetCap(_, _, _, _) => CapStep(s, m, ctx);
    case RecordRegression(_, _, _) => RegressionStep(s, m, ctx);
  }

  lemma {:induction false} RunKeeps<K>(key: K, steps: seq<(Command<K>, DecideContext)>)
    requires ClockOk(steps)
    ensures LevelsOk(Run(key, steps)) && MarkOk(Run(key, steps), steps)
  {
    hide Step;
    if steps != [] {
      var n := |steps| - 1;
      RunKeeps(key, steps[..n]);
      StepLevels(Run(key, steps[..n]), steps[n].0, steps[n].1);
      MarkMoves(Run(key, steps[..n]), Run(key, steps), steps);
    }
  }

  lemma {:induction false} MarkMoves<K>(s: Scope<K>, s': Scope<K>, steps: seq<(Command<K>, DecideContext)>)
    requires steps != [] && ClockOk(steps) && MarkOk(s, steps[..|steps| - 1])
    requires var (m, ctx) := steps[|steps| - 1];
      || (s'.lastDemotedAt == s.lastDemotedAt && (m.RecordRegression? && m.keyOk ==> ctx.now <= s.lastDemotedAt))
      || s'.lastDemotedAt == ctx.now
    ensures MarkOk(s', steps)
  {
    var n := |steps| - 1;
    assert forall i :: 0 <= i < n ==> steps[..n][i] == steps[i];
    if s'.lastDemotedAt != steps[n].1.now && s.lastDemotedAt != 0 {
      var i :| 0 <= i < n && steps[..n][i].1.now == s.lastDemotedAt;
      assert steps[i].1.now == s'.lastDemotedAt;
    }
    if s.lastDemotedAt != 0 {
      var i :| 0 <= i < n && steps[..n][i].1.now == s.lastDemotedAt;
      assert steps[i].1.now <= steps[n].1.now;
    }
  }

  /** A raise is one step, by a human, with a change reference, on evidence no older than every earlier regression. */
  ghost predicate ProperRaise<K>(s: Scope<K>, s': Scope<K>, m: Command<K>, ctx: DecideContext,
      past: seq<(Command<K>, DecideContext)>) {
    && m.SetAutonomy? && ctx.actor.kind.Human? && m.changeRef != ""
    && s'.level == s.level + 1 && s'.level <= s'.cap
    && m.evidence.regressions <= 0 && m.evidence.outcomes >= ctx.policy.promotionMinOutcomes
    && forall i :: 0 <= i < |past| && IsRegression(past[i]) ==> past[i].1.now <= m.evidence.since
  }

  /**
   * In every run of scope commands on a clock that does not go back, the level stays within the cap
   * after each command and every raise is a proper one.
   */
  lemma {:induction false} RaisesAreEarned<K>(key: K, steps: seq<(Command<K>, DecideContext)>)
    requires ClockOk(steps)
    ensures forall n :: 0 <= n <= |steps| ==> LevelsOk(Run(key, steps[..n]))
    ensures forall n :: 0 <= n < |steps| && Run(key, steps[..n + 1]).level > Run(key, steps[..n]).level ==>
      ProperRaise(Run(key, steps[..n]), Run(key, steps[..n + 1]), steps[n].0, steps[n].1, steps[..n])
  {
    forall n | 0 <= n <= |steps| ensures LevelsOk(Run(key, steps[..n])) {
      RunKeeps(key, steps[..n]);
    }
    forall n | 0 <= n < |steps| && Run(key, steps[..n + 1]).level > Run(key, steps[..n]).level
      ensures ProperRaise(Run(key, steps[..n]), Run(key, steps[..n + 1]), steps[n].0, steps[n].1, steps[..n])
    {
      RunKeeps(key, steps[..n]);
      assert steps[..n + 1][..n] == steps[..n];
      RaiseIsProper(Run(key, steps[..n]), steps[n].0, steps[n].1, steps[..n]);
    }
  }

  lemma {:induction false} RaiseIsProper<K>(s: Scope<K>, m: Command<K>, ctx: DecideContext,
      past: seq<(Command<K>, DecideContext)>)
    requires LevelsOk(s) && MarkOk(s, past)
    ensures Step(s, m, ctx).level > s.level ==> ProperRaise(s, Step(s, m, ctx), m, ctx, past)
  {
    hide Step;
    StepLevels(s, m, ctx);
    match m
    case SetAutonomy(_, _, _, _, _) => AutonomyStep(s, m, ctx);
    case SetCap(_, _, _, _) => CapStep(s, m, ctx);
    case RecordRegression(_, _, _) => RegressionStep(s, m, ctx);
  }

  /** The commands that only tighten: a lower cap, a lower level, a regression. */
  predicate Tightening<K>(s: Scope<K>, m: Command<K>) {
    match m
    case SetAutonomy(_, _, level, _, _) => level <= s.level
    case SetCap(_, _, cap, _) => cap <= s.cap
    case RecordRegression(_, _, _) => true
  }

  lemma {:induction false} TighteningLowers<K>(s: Scope<K>, m: Command<K>, ctx: DecideContext)
    requires LevelsOk(s) && Tightening(s, m)
    ensures LevelsOk(Step(s, m, ctx)) && Step(s, m, ctx).level <= s.level && Step(s, m, ctx).cap <= s.cap
  {
    hide Step;
    StepLevels(s, m, ctx);
    match m
    case SetAutonomy(_, _, _, _, _) => AutonomyStep(s, m, ctx);
    case SetCap(_, _, _, _) => CapStep(s, m, ctx);
    case RecordRegression(_, _, _) => RegressionStep(s, m, ctx);
  }
}

/** Gates: the policy answer and the lifecycle (internal/core/accountability/gate.go). */
module Gates {
  import opened Prelude
  import opened Envelopes
  import opened Context

  datatype Answer = Deny | Ask | Allow

  function Rank(a: Answer): nat {
    match a case Deny => 0 case Ask => 1 case Allow => 2
  }

  /** Deny above the cap; ask when another owner is involved; allow up to the effective level; otherwise ask. */
  function Policy(cap: int, autonomy: int, judges: seq<string>, requested: int): Answer {
    if requested > cap then Deny
    else if judges != [] then Ask
    else if requested <= autonomy then Allow
    else Ask
  }

  /** What each answer means. */
  lemma {:induction false} PolicyAnswers(cap: int, autonomy: int, judges: seq<string>, requested: int)
    ensures Policy(cap, autonomy, judges, requested) == Deny <==> requested > cap
    ensures Policy(cap, autonomy, judges, requested) == Allow <==>
      judges == [] && requested <= cap && requested <= autonomy
  {
  }

  /** A lower cap and a lower level never move the answer up. */
  lemma {:induction false} PolicyIsMonotone(cap: int, autonomy: int, cap': int, autonomy': int, judges: seq<string>,
      requested: int)
    requires cap' <= cap && autonomy' <= autonomy
    ensures Rank(Policy(cap', autonomy', judges, requested)) <= Rank(Policy(cap, autonomy, judges, requested))
  {
  }

  datatype GateState = Absent | Decided | Open | Resolved | Expired

  datatype Resolution = Resolution(decision: Answer, reason: string, author: Actor, at: int)

  datatype Gate = Gate(id: string, requester: Actor, requested: int, decision: Answer, state: GateState,
    openedAt: int, expiresAt: int, resolution: Option<Resolution>)

  const NO_GATE := Gate("", Actor(Human, "", "", ""), 0, Deny, Absent, 0, 0, None)

  /** inputOk says whether scope and anchors parse. */
  datatype Command =
    | Request(id: string, requester: Actor, inputOk: bool, proposalRef: string, requested: int)
    | Resolve(resolution: Resolution)
    | Expire

  datatype Event =
    | GateDecided(id: string, requester: Actor, requested: int, decision: Answer, at: int)
    | GateOpened(id: string, requester: Actor, requested: int, at: int, expiresAt: int)
    | GateResolved(id: string, resolution: Resolution)
    | GateExpired(id: string, at: int)

  type Decision = Result<seq<Event>, string>

  function DecideRequest(g: Gate, m: Command, ctx: DecideContext): Decision
    requires m.Request?
  {
    if g.state != Absent then Ok([])
    else if m.id == "" then Err("invalid")
    else if !m.requester.Valid() then Err("invalid")
    else if !m.requester.kind.Agent? then Err("agent-only")
    else if !m.inputOk || m.proposalRef == "" || !ValidLevel(m.requested) then Err("invalid")
    else
      var answer := Policy(ctx.cap, ctx.autonomy, ctx.judges, m.requested);
      if answer == Ask then Ok([GateOpened(m.id, m.requester, m.requested, ctx.now, ctx.now + ctx.policy.gateTtl)])
      else Ok([GateDecided(m.id, m.requester, m.requested, answer, ctx.now)])
  }

  function DecideResolve(g: Gate, r: Resolution, ctx: DecideContext): Decision {
    if g.state == Absent then Err("not-found")
    else if g.state != Open then Err("bad-state")
    else if r.decision == Ask then Err("invalid")
    else if !r.author.Valid() then Err("invalid")
    else if !r.author.kind.Human? then Err("human-only")
    else if ctx.judges != [] && r.author.id !in ctx.judges then Err("not-a-judge")
    else if r.reason == "" then Err("no-reason")
    else if ctx.now >= g.expiresAt then Err("expired")
    else Ok([GateResolved(g.id, if r.at == 0 then r.(at := ctx.now) else r)])
  }

  function Decide(g: Gate, m: Command, ctx: DecideContext): Decision {
    match m
    case Request(_, _, _, _, _) => DecideRequest(g, m, ctx)
    case Resolve(r) => DecideResolve(g, r, ctx)
    case Expire =>
      if g.state == Absent then Err("not-found")
      else if g.state != Open then Ok([])
      else if ctx.now < g.expiresAt then Err("not-yet")
      else Ok([GateExpired(g.id, ctx.now)])
  }

  function Apply(g: Gate, e: Event): Gate {
    match e
    case GateDecided(id, requester, requested, decision, at) =>
      Gate(id, requester, requested, decision, Decided, at, 0, None)
    case GateOpened(id, requester, requested, at, expiresAt) =>
      Gate(id, requester, requested, Ask, Open, at, expiresAt, None)
    case GateResolved(_, r) => g.(resolution := Some(r), decision := r.decision, state := Resolved)
    case GateExpired(_, _) => g.(state := Expired)
  }

  function Step(g: Gate, m: Command, ctx: DecideContext): Gate {
    match Decide(g, m, ctx)
    case Err(_) => g
    case Ok(events) => if events == [] then g else Apply(g, events[0])
  }

  function Run(steps: seq<(Command, DecideContext)>): Gate {
    if steps == [] then NO_GATE
    else Step(Run(steps[..|steps| - 1]), steps[|steps| - 1].0, steps[|steps| - 1].1)
  }

  /** Some step asked and the policy itself allowed at that moment. */
  ghost predicate PolicyAllowed(steps: seq<(Command, DecideContext)>, g: Gate) {
    exists i :: 0 <= i < |steps| && AllowsAt(steps[i], g)
  }

  ghost predicate AllowsAt(step: (Command, DecideContext), g: Gate) {
    var (m, ctx) := step;
    m.Request? && m.id == g.id && m.requester == g.requester && m.requested == g.requested &&
    m.requested <= ctx.cap && m.requested <= ctx.autonomy && ctx.judges == []
  }

  ghost predicate HumanAllowed(g: Gate) {
    g.state == Resolved && g.resolution.Some? && g.resolution.value.author.kind.Human?
      && g.resolution.value.reason != ""
  }

  ghost predicate GateOk(steps: seq<(Command, DecideContext)>, g: Gate) {
    && (g.state == Absent ==> g == NO_GATE)
    && (g.state == Open ==> g.decision == Ask)
    && (g.state == Expired ==> g.decision == Ask)
    && (g.state == Resolved ==> HumanAllowed(g) && g.decision == g.resolution.value.decision)
    && (g.state == Decided && g.decision == Allow ==> PolicyAllowed(steps, g))
    && (g.state == Decided ==> g.decision != Ask)
  }

  lemma {:induction false} RunKeeps(steps: seq<(Command, DecideContext)>)
    ensures GateOk(steps, Run(steps))
  {
    if steps != [] {
      var n := |steps| - 1;
      RunKeeps(steps[..n]);
      var g, g' := Run(steps[..n]), Run(steps);
      if g' == g {
        if PolicyAllowed(steps[..n], g) {
          var i :| 0 <= i < n && AllowsAt(steps[..n][i], g);
          assert AllowsAt(steps[i], g);
        }
      } else if g'.state == Decided && g'.decision == Allow {
        assert AllowsAt(steps[n], g');
      }
    }
  }

  /** In every run, an allowed gate was allowed by the policy when asked, or by a human with a reason. */
  lemma {:induction false} AllowsAreJustified(steps: seq<(Command, DecideContext)>)
    ensures var g := Run(steps); g.decision == Allow ==> PolicyAllowed(steps, g) || HumanAllowed(g)
  {
    RunKeeps(steps);
  }

  /** What a request must be: asked by a valid agent, well formed, about a named proposal and a known level. */
  predicate WellAsked(m: Command)
    requires m.Request?
  {
    m.id != "" && m.requester.Valid() && m.requester.kind.Agent? && m.inputOk && m.proposalRef != "" &&
    ValidLevel(m.requested)
  }

  /** What a request does: the first one asks the policy, once and for all, and every later one finds its answer. */
  lemma {:induction false} RequestStep(g: Gate, m: Command, ctx: DecideContext)
    requires m.Request?
    ensures var g', answer := Step(g, m, ctx), Policy(ctx.cap, ctx.autonomy, ctx.judges, m.requested);
      g' ==
        if g.state != Absent || !WellAsked(m) then g
        else if answer == Ask then
          Gate(m.id, m.requester, m.requested, Ask, Open, ctx.now, ctx.now + ctx.policy.gateTtl, None)
        else Gate(m.id, m.requester, m.requested, answer, Decided, ctx.now, 0, None)
  {
  }

  /** Someone who may answer: a valid human, one of the owners when there are other owners. */
  predicate MayAnswer(author: Actor, judges: seq<string>) {
    author.Valid() && author.kind.Human? && (judges == [] || author.id in judges)
  }

  /** What an answer does: an open gate that has not run out takes a reasoned yes or no of someone who may answer. */
  lemma {:induction false} ResolveStep(g: Gate, m: Command, ctx: DecideContext)
    requires m.Resolve?
    ensures var r := m.resolution;
      var takes := g.state == Open && r.decision != Ask && MayAnswer(r.author, ctx.judges) && r.reason != ""
        && ctx.now < g.expiresAt;
      Step(g, m, ctx) ==
        if takes then
          g.(state := Resolved, decision := r.decision,
             resolution := Some(Resolution(r.decision, r.reason, r.author, if r.at == 0 then ctx.now else r.at)))
        else g
  {
  }

  /** What expiry does: an open gate whose time has come is closed without an answer. */
  lemma {:induction false} ExpireStep(g: Gate, m: Command, ctx: DecideContext)
    requires m.Expire?
    ensures Step(g, m, ctx) == if g.state == Open && ctx.now >= g.expiresAt then g.(state := Expired) else g
    ensures Decide(g, m, ctx).Ok? && Step(g, m, ctx) != g ==> Decide(g, m, ctx).value == [GateExpired(g.id, ctx.now)]
  {
  }

  /** The rule this code stands for is broken by the command. */
  ghost predicate Breaks(g: Gate, m: Command, ctx: DecideContext, code: string) {
    match m
    case Request(_, _, _, _, _) =>
      (code == "invalid" && !WellAsked(m)) || (code == "agent-only" && !m.requester.kind.Agent?)
    case Resolve(r) =>
      || (code == "bad-state" && g.state != Open)
      || (code == "invalid" && (r.decision == Ask || !r.author.Valid()))
      || (code == "human-only" && !r.author.kind.Human?)
      || (code == "not-a-judge" && ctx.judges != [] && r.author.id !in ctx.judges)
      || (code == "no-reason" && r.reason == "")
      || (code == "expired" && ctx.now >= g.expiresAt)
    case Expire => code == "not-yet" && g.state == Open && ctx.now < g.expiresAt
  }

  /**
   * Every command but a request needs a gate, a request or an expiry that comes too late is no
   * mistake, and any other refusal names a rule that the command really breaks.
   */
  lemma {:induction false} RefusalsAreTrue(g: Gate, m: Command, ctx: DecideContext)
    ensures g.state == Absent && !m.Request? ==> Decide(g, m, ctx) == Err("not-found")
    ensures m.Request? && g.state != Absent ==> Decide(g, m, ctx) == Ok([])
    ensures m.Expire? && g.state !in {Absent, Open} ==> Decide(g, m, ctx) == Ok([])
    ensures (g.state != Absent || m.Request?) && Decide(g, m, ctx).Err? ==> Breaks(g, m, ctx, Decide(g, m, ctx).error)
  {
  }

  /** A decided, resolved or expired gate never changes again. */
  lemma {:induction false} AnswersAreFinal(g: Gate, m: Command, ctx: DecideContext)
    requires g.state in {Decided, Resolved, Expired}
    ensures Step(g, m, ctx) == g
  {
    assert Decide(g, m, ctx).Ok? ==> Decide(g, m, ctx).value == [];
  }
}
