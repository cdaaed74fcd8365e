/** The Constraint aggregate (internal/core/harness/constraint.go). */
module Constraints {
  import opened Prelude
  import opened Envelopes
  import opened Context
  import opened ScopeKeys

  datatype ConstraintKind = Contract | Invariant | Rule | Budget | Autonomy | UnknownKind

  datatype ConstraintState = Absent | Generated | Verified | Review | Stale | Retired

  datatype Constraint = Constraint(
    id: string, kind: ConstraintKind, scope: ScopeKey, body: string, checkable: string, origin: seq<string>,
    authored: bool, explanation: string, level: int, anchors: seq<string>, state: ConstraintState,
    supersedes: string, supersededBy: string, updatedAt: int)

  const NO_CONSTRAINT := Constraint("", UnknownKind, NO_KEY, "", "", [], false, "", 0, [], Absent, "", "", 0)

  /** What a draft says; scopeOk and anchorsOk are the results of the syntax checks. */
  datatype Draft = Draft(
    kind: ConstraintKind, scope: ScopeKey, scopeOk: bool, body: string, checkable: string, origin: seq<string>,
    authored: bool, explanation: string, level: int, supersedes: string, anchors: seq<string>, anchorsOk: bool)

  datatype Action =
    | DraftAs(draft: Draft)
    | Verify
    | Promote(wider: ScopeKey, scopeOk: bool, origin: seq<string>, explanation: string)
    | Demote(narrower: ScopeKey, scopeOk: bool, reason: string)
    | Supersede(successor: string)
    | Retire(reason: string)
    | Rebind(anchors: seq<string>, anchorsOk: bool)

  datatype Command = Command(id: string, idem: string, action: Action)

  datatype Event =
    | Drafted(id: string, draft: Draft, at: int)
    | Rebound(id: string, anchors: seq<string>, actor: Actor, at: int)
    | VerifiedBy(id: string, actor: Actor, at: int)
    | Promoted(id: string, from: ScopeKey, scope: ScopeKey, origin: seq<string>, explanation: string, actor: Actor,
      at: int)
    | Demoted(id: string, from: ScopeKey, scope: ScopeKey, reason: string, actor: Actor, at: int)
    | Superseded(id: string, successor: string, at: int, actor: Actor)
    | RetiredBy(id: string, reason: string, actor: Actor, at: int)

  type Decision = Result<seq<Event>, string>

  function DecideDraft(c: Constraint, id: string, d: Draft, ctx: DecideContext): Decision {
    if c.state != Absent then Err("exists")
    else if id == "" then Err("invalid")
    else if d.kind == UnknownKind then Err("invalid")
    else if !d.scopeOk then Err("invalid")
    else if d.body == "" then Err("invalid")
    else if !d.authored && d.origin == [] then Err("no-origin")
    else if !d.anchorsOk then Err("invalid")
    else if d.kind == Autonomy && !ValidLevel(d.level) then Err("invalid")
    else if d.kind == Autonomy && d.level > ctx.cap then Err("over-cap")
    else Ok([Drafted(id, d, ctx.now)])
  }

  function DecidePromote(pathMatch: (string, string) -> bool, c: Constraint, a: Action, ctx: DecideContext): Decision
    requires a.Promote?
  {
    if c.state == Absent then Err("not-found")
    else if !ctx.actor.kind.Human? then Err("human-only")
    else if c.state != Verified then Err("bad-state")
    else if !a.scopeOk then Err("invalid")
    else if !Contains(pathMatch, a.wider, c.scope) || a.wider == c.scope then Err("not-wider")
    else if c.origin + a.origin == [] then Err("no-origin")
    else if a.explanation == "" then Err("no-explanation")
    else if c.kind == Autonomy && c.level > ctx.cap then Err("over-cap")
    else Ok([Promoted(c.id, c.scope, a.wider, c.origin + a.origin, a.explanation, ctx.actor, ctx.now)])
  }

  function Decide(pathMatch: (string, string) -> bool, c: Constraint, m: Command, ctx: DecideContext): Decision {
    match m.action
    case DraftAs(d) => DecideDraft(c, m.id, d, ctx)
    case Verify =>
      if c.state == Absent then Err("not-found")
      else if !ctx.actor.kind.Human? then Err("human-only")
      else if c.state !in {Generated, Review, Stale} then Err("bad-state")
      else Ok([VerifiedBy(c.id, ctx.actor, ctx.now)])
    case Promote(_, _, _, _) => DecidePromote(pathMatch, c, m.action, ctx)
    case Demote(narrower, scopeOk, reason) =>
      if c.state == Absent then Err("not-found")
      else if c.state == Retired then Err("bad-state")
      else if !scopeOk then Err("invalid")
      else if !Contains(pathMatch, c.scope, narrower) || narrower == c.scope then Err("not-narrower")
      else if reason == "" then Err("no-reason")
      else Ok([Demoted(c.id, c.scope, narrower, reason, ctx.actor, ctx.now)])
    case Supersede(successor) =>
      if c.state == Absent then Err("not-found")
      else if c.state == Retired then Err("bad-state")
      else if successor == "" || successor == c.id then Err("invalid")
      else Ok([Superseded(c.id, successor, ctx.now, ctx.actor)])
    case Retire(reason) =>
      if c.state == Absent then Err("not-found")
      else if c.state == Retired then Err("bad-state")
      else Ok([RetiredBy(c.id, reason, ctx.actor, ctx.now)])
    case Rebind(anchors, anchorsOk) =>
      if c.state == Absent then Err("not-found")
      else if c.state == Retired then Err("bad-state")
      else if !anchorsOk then Err("invalid")
      else Ok([Rebound(c.id, anchors, ctx.actor, ctx.now)])
  }

  function Apply(c: Constraint, e: Event): Constraint {
    match e
    case Drafted(id, d, at) =>
      Constraint(id, d.kind, d.scope, d.body, d.checkable, d.origin, d.authored, d.explanation, d.level, d.anchors,
        Generated, d.supersedes, "", at)
    case Rebound(_, anchors, _, at) => c.(anchors := anchors, updatedAt := at)
    case VerifiedBy(_, _, at) => c.(state := Verified, updatedAt := at)
    case Promoted(_, _, scope, origin, explanation, _, at) =>
      c.(scope := scope, origin := origin, explanation := explanation, updatedAt := at)
    case Demoted(_, _, scope, _, _, at) => c.(scope := scope, updatedAt := at)
    case Superseded(_, successor, at, _) => c.(state := Retired, supersededBy := successor, updatedAt := at)
    case RetiredBy(_, _, _, at) => c.(state := Retired, updatedAt := at)
  }

  // ---- what each command does ----

  /** One command: applied when decided, ignored when refused. */
  function Step(pathMatch: (string, string) -> bool, c: Constraint, m: Command, ctx: DecideContext): Constraint {
    match Decide(pathMatch, c, m, ctx)
    case Ok(events) => if events == [] then c else Apply(c, events[0])
    case Err(_) => c
  }

  /** A draft says what it constrains, where it comes from, and asks for no level above the cap. */
  predicate WellDrafted(id: string, d: Draft, ctx: DecideContext) {
    && id != "" && d.kind != UnknownKind && d.scopeOk && d.anchorsOk && d.body != ""
    && (d.authored || d.origin != []) && (d.kind == Autonomy ==> ValidLevel(d.level) && d.level <= ctx.cap)
  }

  /** The first draft fixes everything; a second one changes nothing. */
  lemma {:induction false} DraftStep(pathMatch: (string, string) -> bool, c: Constraint, m: Command, ctx: DecideContext)
    requires m.action.DraftAs?
    ensures var c', d := Step(pathMatch, c, m, ctx), m.action.draft;
      if c.state == Absent && WellDrafted(m.id, d, ctx) then
        && c'.id == m.id && c'.kind == d.kind && c'.scope == d.scope && c'.body == d.body
        && c'.checkable == d.checkable && c'.origin == d.origin && c'.authored == d.authored
        && c'.explanation == d.explanation && c'.level == d.level && c'.anchors == d.anchors
        && c'.supersedes == d.supersedes && c'.supersededBy == "" && c'.state == Generated && c'.updatedAt == ctx.now
      else c' == c
  {
  }

  /** A human verifies what was generated or has to be looked at again. */
  lemma {:induction false} VerifyStep(pathMatch: (string, string) -> bool, c: Constraint, m: Command,
      ctx: DecideContext)
    requires m.action.Verify?
    ensures Step(pathMatch, c, m, ctx) ==
      if ctx.actor.kind.Human? && c.state in {Generated, Review, Stale} then c.(state := Verified, updatedAt := ctx.now)
      else c
  {
  }

  /** A human promotes a verified constraint to a scope that contains its own, with an origin and an explanation. */
  predicate MayPromote(pathMatch: (string, string) -> bool, c: Constraint, a: Action, ctx: DecideContext)
    requires a.Promote?
  {
    && ctx.actor.kind.Human? && c.state == Verified && a.scopeOk
    && Contains(pathMatch, a.wider, c.scope) && a.wider != c.scope
    && (c.origin != [] || a.origin != []) && a.explanation != "" && (c.kind == Autonomy ==> c.level <= ctx.cap)
  }

  /** Promotion moves the scope and adds to the origin; it says from where and by whom. */
  lemma {:induction false} PromoteStep(pathMatch: (string, string) -> bool, c: Constraint, m: Command,
      ctx: DecideContext)
    requires m.action.Promote?
    ensures var a := m.action;
      Step(pathMatch, c, m, ctx) ==
        if MayPromote(pathMatch, c, a, ctx) then
          c.(scope := a.wider, origin := c.origin + a.origin, explanation := a.explanation, updatedAt := ctx.now)
        else c
  {
    hide Contains;
  }

  /** Demotion moves a live constraint to a scope inside its own, with a reason. */
  lemma {:induction false} DemoteStep(pathMatch: (string, string) -> bool, c: Constraint, m: Command,
      ctx: DecideContext)
    requires m.action.Demote?
    ensures var a := m.action;
      var takes := c.state !in {Absent, Retired} && a.scopeOk && Contains(pathMatch, c.scope, a.narrower)
        && a.narrower != c.scope && a.reason != "";
      Step(pathMatch, c, m, ctx) == if takes then c.(scope := a.narrower, updatedAt := ctx.now) else c
  {
    hide Contains;
  }

  /** A live constraint ends by naming another successor, or by retirement, and is otherwise bound to new anchors. */
  lemma {:induction false} EndStep(pathMatch: (string, string) -> bool, c: Constraint, m: Command, ctx: DecideContext)
    requires m.action.Supersede? || m.action.Retire? || m.action.Rebind?
    ensures var live := c.state !in {Absent, Retired};
      Step(pathMatch, c, m, ctx) ==
        match m.action
        case Supersede(successor) =>
          if live && successor !in {"", c.id} then
            c.(state := Retired, supersededBy := successor, updatedAt := ctx.now)
          else c
        case Retire(_) => if live then c.(state := Retired, updatedAt := ctx.now) else c
        case Rebind(anchors, anchorsOk) =>
          if live && anchorsOk then c.(anchors := anchors, updatedAt := ctx.now) else c
        case _ => c
  {
  }

  /** The record of a command names the constraint, and who did what from where to where, and why. */
  lemma {:induction false} RecordsTell(pathMatch: (string, string) -> bool, c: Constraint, m: Command,
      ctx: DecideContext)
    requires Decide(pathMatch, c, m, ctx).Ok?
    ensures var events := Decide(pathMatch, c, m, ctx).value;
      && |events| == 1 && events[0].at == ctx.now
      && (events[0].Drafted? ==> events[0].id == m.id && m.action == DraftAs(events[0].draft))
      && (!events[0].Drafted? ==> events[0].id == c.id && events[0].actor == ctx.actor)
      && (events[0].Promoted? || events[0].Demoted? ==>
            events[0].from == c.scope && events[0].scope == Step(pathMatch, c, m, ctx).scope != c.scope)
      && (events[0].Demoted? ==> m.action.Demote? && events[0].reason == m.action.reason)
      && (events[0].RetiredBy? ==> m.action == Retire(events[0].reason))
      && (events[0].Superseded? ==> m.action == Supersede(events[0].successor))
      && (events[0].Rebound? ==> m.action == Rebind(events[0].anchors, true))
      && (events[0].VerifiedBy? ==> m.action == Verify)
      && (events[0].Promoted? ==> m.action.Promote?)
  {
    hide Contains;
  }

  /** The rule this code stands for is broken by the command. */
  ghost predicate Breaks(pathMatch: (string, string) -> bool, c: Constraint, m: Command, ctx: DecideContext,
      code: string) {
    match m.action
    case DraftAs(d) =>
      || (code == "exists" && c.state != Absent)
      || (code == "no-origin" && !d.authored && d.origin == [])
      || (code == "over-cap" && d.kind == Autonomy && d.level > ctx.cap)
      || (code == "invalid" &&
            (m.id == "" || d.kind == UnknownKind || !d.scopeOk || !d.anchorsOk || d.body == "" || !ValidLevel(d.level)))
    case Verify =>
      || (code == "human-only" && !ctx.actor.kind.Human?)
      || (code == "bad-state" && c.state in {Verified, Retired})
    case Promote(wider, scopeOk, origin, explanation) =>
      || (code == "human-only" && !ctx.actor.kind.Human?)
      || (code == "bad-state" && c.state != Verified)
      || (code == "invalid" && !scopeOk)
      || (code == "not-wider" && (!Contains(pathMatch, wider, c.scope) || wider == c.scope))
      || (code == "no-origin" && c.origin == [] && origin == [])
      || (code == "no-explanation" && explanation == "")
      || (code == "over-cap" && c.kind == Autonomy && c.level > ctx.cap)
    case Demote(narrower, scopeOk, reason) =>
      || (code == "bad-state" && c.state == Retired)
      || (code == "invalid" && !scopeOk)
      || (code == "not-narrower" && (!Contains(pathMatch, c.scope, narrower) || narrower == c.scope))
      || (code == "no-reason" && reason == "")
    case Supersede(successor) =>
      || (code == "bad-state" && c.state == Retired)
      || (code == "invalid" && successor in {"", c.id})
    case Retire(_) => code == "bad-state" && c.state == Retired
    case Rebind(_, anchorsOk) =>
      || (code == "bad-state" && c.state == Retired)
      || (code == "invalid" && !anchorsOk)
  }

  /** Every command but a draft needs a constraint; any other refusal names a rule that the command really breaks. */
  lemma {:induction false} RefusalsAreTrue(pathMatch: (string, string) -> bool, c: Constraint, m: Command,
      ctx: DecideContext)
    ensures c.state == Absent && !m.action.DraftAs? ==> Decide(pathMatch, c, m, ctx) == Err("not-found")
    ensures (c.state != Absent || m.action.DraftAs?) && Decide(pathMatch, c, m, ctx).Err? ==>
      Breaks(pathMatch, c, m, ctx, Decide(pathMatch, c, m, ctx).error)
  {
    hide Contains;
  }
}
