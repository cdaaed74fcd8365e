/** The facts a decision needs, as values (internal/core/context.go, internal/core/level.go). */
module Context {
  import opened Envelopes

  /** Autonomy levels are L0..L3. */
  const L0 := 0
  const L1 := 1
  const L2 := 2
  const MAX_LEVEL := 3

  predicate ValidLevel(l: int) {
    L0 <= l <= MAX_LEVEL
  }

  datatype Policy = Policy(promotionMinOutcomes: int, outcomeWindow: int, gateTtl: int)

  datatype DecideContext = DecideContext(
    now: int, actor: Actor, autonomy: int, cap: int, policy: Policy, judges: seq<string>)
}

/** The Change aggregate: proposed, judged, deployed, observed, settled (internal/core/accountability/change.go). */
module Changes {
  import opened Prelude
  import opened Envelopes
  import opened Context

  datatype ChangeKind = Realization | Harness | UnknownKind

  datatype ChangeMode = Manual | Session | Delegated | Autonomous | UnknownMode

  datatype ChangeState = Absent | Proposed | Judged | Deployed | Observed | Settled

  datatype Proposal = Proposal(ref: string, actor: Actor, at: int)

  datatype Impact = Impact(constraints: seq<string>, decisions: seq<string>, anchors: seq<string>) {
    predicate Empty() {
      constraints == [] && decisions == []
    }
  }

  datatype JudgmentDecision = Accept | Modify | Refuse | UnknownDecision

  datatype Judgment = Judgment(id: string, decision: JudgmentDecision, reason: string, author: Actor, at: int)

  datatype Verdict = Confirmed | Regressed | Unknown | UnknownVerdict

  /** at is 0 when the command leaves it unset. */
  datatype Outcome = Outcome(verdict: Verdict, at: int)

  datatype Deployment = Deployment(ref: string, at: int)

  datatype Change = Change(
    id: string, kind: ChangeKind, mode: ChangeMode, intentRef: string, noIntent: bool,
    proposals: seq<Proposal>, impact: Impact, judgments: seq<Judgment>, deployment: Option<Deployment>,
    outcome: Option<Outcome>, derived: seq<string>, sessions: seq<string>, autonomy: int,
    state: ChangeState, openedAt: int, settledAt: int)

  const ABSENT := Change("", UnknownKind, UnknownMode, "", false, [], Impact([], [], []), [], None, None, [], [], 0,
    Absent, 0, 0)

  /** Scope and anchor syntax are checked elsewhere; a command carries whether they parse. */
  datatype Command<S> =
    | Open(id: string, kind: ChangeKind, mode: ChangeMode, scope: S, scopeOk: bool, intentRef: string, noIntent: bool,
           impact: Impact, anchorsOk: bool, proposal: Option<Proposal>, sessions: seq<string>)
    | AddProposal(added: Proposal)
    | Judge(judgment: Judgment)
    | Deploy(ref: string)
    | RecordOutcome(result: Outcome)
    | Settle(derived: seq<string>)

  datatype Event<S> =
    | ChangeOpened(id: string, kind: ChangeKind, mode: ChangeMode, scope: S, intentRef: string, noIntent: bool,
                   impact: Impact, proposal: Option<Proposal>, sessions: seq<string>, autonomy: int, opener: Actor,
                   at: int)
    | ProposalAdded(id: string, added: Proposal)
    | JudgedBy(id: string, judgment: Judgment)
    | DeployedAs(id: string, deployment: Deployment)
    | OutcomeRecorded(id: string, result: Outcome)
    | SettledAt(id: string, derived: seq<string>, at: int)

  // ---- judgments ----

  predicate Rejecting(j: Judgment) {
    j.decision == Refuse
  }

  predicate HumanApproval(j: Judgment) {
    !Rejecting(j) && j.author.kind.Human?
  }

  /** The judgments permit proceeding. */
  predicate Allowed(c: Change, judges: seq<string>) {
    && c.judgments != [] && !Rejecting(c.judgments[|c.judgments| - 1])
    && (c.kind == Harness || c.autonomy <= L1 ==> exists i :: 0 <= i < |c.judgments| && HumanApproval(c.judgments[i]))
    && forall k :: 0 <= k < |judges| ==> ApprovedBy(c, judges[k])
  }

  /** The refusal judgmentsAllow reports, in the order it checks. */
  function Refusal(c: Change, judges: seq<string>): Option<string> {
    if c.judgments == [] then Some("unjudged")
    else if Rejecting(c.judgments[|c.judgments| - 1]) then Some("rejected")
    else if (c.kind == Harness || c.autonomy <= L1)
      && !(exists i :: 0 <= i < |c.judgments| && HumanApproval(c.judgments[i])) then Some("human-required")
    else if exists k :: 0 <= k < |judges| && !ApprovedBy(c, judges[k]) then Some("owner-required")
    else None
  }

  predicate ApprovedBy(c: Change, id: string) {
    exists i :: 0 <= i < |c.judgments| && !Rejecting(c.judgments[i]) && c.judgments[i].author.id == id
  }

  /** judgmentsAllow: the flags and the set of judges that approved, in one pass. */
  method JudgmentsAllow(c: Change, judges: seq<string>) returns (refusal: Option<string>)
    ensures refusal == Refusal(c, judges)
    ensures refusal.None? <==> Allowed(c, judges)
  {
    if |c.judgments| == 0 {
      return Some("unjudged");
    }
    var last := c.judgments[|c.judgments| - 1];
    if Rejecting(last) {
      return Some("rejected");
    }
    var humanOk, anyOk := false, false;
    var judged: set<string> := {};
    for i := 0 to |c.judgments|
      invariant anyOk <==> exists k :: 0 <= k < i && !Rejecting(c.judgments[k])
      invariant humanOk <==> exists k :: 0 <= k < i && HumanApproval(c.judgments[k])
      invariant forall id :: id in judged ==> ApprovedBy(c, id)
      invariant forall k :: 0 <= k < i && !Rejecting(c.judgments[k]) ==> c.judgments[k].author.id in judged
    {
      var j := c.judgments[i];
      if !Rejecting(j) {
        anyOk := true;
        if j.author.kind.Human? {
          humanOk := true;
        }
        judged := judged + {j.author.id};
      }
    }
    if !anyOk {
      assert false;  // the last judgment is not a refusal
    }
    if (c.kind == Harness || c.autonomy <= L1) && !humanOk {
      return Some("human-required");
    }
    for k := 0 to |judges|
      invariant forall m :: 0 <= m < k ==> ApprovedBy(c, judges[m])
    {
      if judges[k] !in judged {
        assert !ApprovedBy(c, judges[k]);
        return Some("owner-required");
      }
    }
    return None;
  }

  // ---- decide ----

  type Decision<S> = Result<seq<Event<S>>, string>

  function DecideOpen<S>(c: Change, m: Command<S>, ctx: DecideContext): Decision<S>
    requires m.Open?
  {
    var level := if m.kind == Harness then L0 else ctx.autonomy;
    if c.state != Absent then Err("exists")
    else if m.id == "" then Err("invalid")
    else if m.kind == UnknownKind then Err("invalid")
    else if m.mode == UnknownMode then Err("invalid")
    else if !m.scopeOk then Err("invalid")
    else if m.intentRef == "" && !m.noIntent then Err("no-intent")
    else if !m.anchorsOk then Err("invalid")
    else if m.mode == Autonomous && level < L2 then Err("autonomy")
    else Ok([ChangeOpened(m.id, m.kind, m.mode, m.scope, m.intentRef, m.noIntent, m.impact, m.proposal, m.sessions,
      level, ctx.actor, ctx.now)])
  }

  function DecideJudge<S>(c: Change, j: Judgment): Decision<S> {
    if c.state == Absent then Err("not-found")
    else if c.state != Proposed && c.state != Judged then Err("bad-state")
    else if j.id == "" then Err("invalid")
    else if j.decision == UnknownDecision then Err("invalid")
    else if !j.author.Valid() then Err("invalid")
    else if j.author.kind.Agent? && c.kind == Harness then Err("human-only")
    else if j.author.kind.Agent? && c.autonomy < L1 then Err("autonomy")
    else if !c.impact.Empty() && j.reason == "" then Err("no-reason")
    else if exists i :: 0 <= i < |c.judgments| && c.judgments[i].id == j.id then Err("duplicate")
    else Ok([JudgedBy(c.id, j)])
  }

  function DecideDeploy<S>(c: Change, ref: string, ctx: DecideContext): Decision<S> {
    if c.state == Absent then Err("not-found")
    else if ref == "" then Err("invalid")
    else if c.state == Judged && Refusal(c, ctx.judges).Some? then Err(Refusal(c, ctx.judges).value)
    else if c.state == Proposed && !c.impact.Empty() then Err("unjudged")
    else if c.state != Judged && c.state != Proposed then Err("bad-state")
    else Ok([DeployedAs(c.id, Deployment(ref, ctx.now))])
  }

  function DecideOutcome<S>(c: Change, o: Outcome, ctx: DecideContext): Decision<S> {
    if c.state == Absent then Err("not-found")
    else if c.state != Deployed then Err("bad-state")
    else if o.verdict == UnknownVerdict then Err("invalid")
    else Ok([OutcomeRecorded(c.id, if o.at == 0 then o.(at := ctx.now) else o)])
  }

  function DecideSettle<S>(c: Change, derived: seq<string>, ctx: DecideContext): Decision<S> {
    if c.state == Absent then Err("not-found")
    else if c.state == Settled then Err("bad-state")
    else if c.impact.Empty() then
      if derived != [] then Err("no-derivation") else Ok([SettledAt(c.id, [], ctx.now)])
    else if c.state != Observed && c.state != Deployed then Err("bad-state")
    else if c.state == Deployed
      && (c.deployment.None? || ctx.now < c.deployment.value.at + ctx.policy.outcomeWindow) then Err("observing")
    else if Refusal(c, ctx.judges).Some? then Err(Refusal(c, ctx.judges).value)
    else if ctx.actor.kind.Agent? && c.autonomy < L2 then Err("autonomy")
    else Ok([SettledAt(c.id, derived, ctx.now)])
  }

  function Decide<S>(c: Change, m: Command<S>, ctx: DecideContext): Decision<S> {
    match m
    case Open(_, _, _, _, _, _, _, _, _, _, _) => DecideOpen(c, m, ctx)
    case AddProposal(p) =>
      if c.state == Absent then Err("not-found")
      else if c.state != Proposed && c.state != Judged then Err("bad-state")
      else if p.ref == "" then Err("invalid")
      else if !p.actor.Valid() then Err("invalid")
      else Ok([ProposalAdded(c.id, p)])
    case Judge(j) => DecideJudge(c, j)
    case Deploy(ref) => DecideDeploy(c, ref, ctx)
    case RecordOutcome(o) => DecideOutcome(c, o, ctx)
    case Settle(derived) => DecideSettle(c, derived, ctx)
  }

  function Apply<S>(c: Change, e: Event<S>): Change {
    match e
    case ChangeOpened(id, kind, mode, _, intentRef, noIntent, impact, proposal, sessions, autonomy, _, at) =>
      Change(id, kind, mode, intentRef, noIntent,
        if proposal.Some? then [proposal.value] else [], impact, [], None, None,
        [], sessions, autonomy, Proposed, at, 0)
    case ProposalAdded(_, p) => c.(proposals := c.proposals + [p])
    case JudgedBy(_, j) => c.(judgments := c.judgments + [j], state := Judged)
    case DeployedAs(_, d) => c.(deployment := Some(d), state := Deployed)
    case OutcomeRecorded(_, o) => c.(outcome := Some(o), state := Observed)
    case SettledAt(_, derived, at) => c.(derived := derived, state := Settled, settledAt := at)
  }

  function ApplyAll<S>(c: Change, events: seq<Event<S>>): Change {
    if events == [] then c else Apply(ApplyAll(c, events[..|events| - 1]), events[|events| - 1])
  }

  /** One command: applied when decided, ignored when refused. */
  function Step<S>(c: Change, m: Command<S>, ctx: DecideContext): Change {
    match Decide(c, m, ctx)
    case Ok(events) => ApplyAll(c, events)
    case Err(_) => c
  }

  function Run<S>(steps: seq<(Command<S>, DecideContext)>): Change {
    if steps == [] then ABSENT
    else
      var last := steps[|steps| - 1];
      Step(Run(steps[..|steps| - 1]), last.0, last.1)
  }

  // ---- what every run keeps ----

  /** Judgments with impact carry reasons, have distinct ids, and only humans judge the harness and L0. */
  ghost predicate JudgmentsOk(c: Change) {
    && (!c.impact.Empty() ==> forall i :: 0 <= i < |c.judgments| ==> c.judgments[i].reason != "")
    && (c.kind == Harness || c.autonomy < L1 ==>
      forall i :: 0 <= i < |c.judgments| ==> c.judgments[i].author.kind.Human?)
    && (forall i, j :: 0 <= i < j < |c.judgments| ==> c.judgments[i].id != c.judgments[j].id)
  }

  /** What a change with impact has behind it once it is live. */
  ghost predicate ProperlyDeployed(c: Change) {
    c.deployment.Some? && Allowed(c, [])
  }

  ghost predicate Inv(window: int, c: Change) {
    && JudgmentsOk(c)
    && (c.kind == Harness ==> c.autonomy == L0)
    && (c.state in {Deployed, Observed} ==> c.deployment.Some?)
    && (c.state == Observed ==> c.outcome.Some?)
    && (c.state in {Deployed, Observed, Settled} && !c.impact.Empty() ==> ProperlyDeployed(c))
    && (c.state == Settled && !c.impact.Empty() ==>
          c.outcome.Some? || c.settledAt >= c.deployment.value.at + window)
  }

  lemma {:induction false} AllowedWithoutJudges(c: Change, judges: seq<string>)
    ensures Refusal(c, judges).None? ==> Allowed(c, [])
  {
  }

  lemma {:induction false} ApplyOne<S>(c: Change, e: Event<S>)
    ensures ApplyAll(c, [e]) == Apply(c, e)
  {
    assert [e][..0] == [];
  }

  lemma {:induction false} JudgeKeeps<S>(window: int, c: Change, j: Judgment)
    requires Inv(window, c) && DecideJudge<S>(c, j).Ok?
    ensures Inv(window, Apply<S>(c, JudgedBy(c.id, j)))
  {
    hide Allowed;
    var c' := Apply<S>(c, JudgedBy(c.id, j));
    assert forall i :: 0 <= i < |c.judgments| ==> c'.judgments[i] == c.judgments[i];
  }

  lemma {:induction false} StepKeeps<S>(c: Change, m: Command<S>, ctx: DecideContext)
    requires Inv(ctx.policy.outcomeWindow, c)
    ensures Inv(ctx.policy.outcomeWindow, Step(c, m, ctx))
  {
    hide Allowed, Refusal, JudgmentsOk;
    if Decide(c, m, ctx).Ok? {
      var events := Decide(c, m, ctx).value;
      ApplyOne(c, events[0]);
      match m
      case Judge(j) => JudgeKeeps<S>(ctx.policy.outcomeWindow, c, j);
      case Open(_, _, _, _, _, _, _, _, _, _, _) => NewIsOk(Step(c, m, ctx));
      case _ =>
        SameJudgments(c, Step(c, m, ctx));
        AllowedWithoutJudges(c, ctx.judges);
    }
  }

  lemma {:induction false} NewIsOk(c: Change)
    ensures c.judgments == [] ==> JudgmentsOk(c)
  {
  }

  lemma {:induction false} SameJudgments(c: Change, c': Change)
    requires JudgmentsOk(c)
    requires c'.judgments == c.judgments && c'.impact == c.impact && c'.kind == c.kind && c'.autonomy == c.autonomy
    ensures JudgmentsOk(c') && Allowed(c', []) == Allowed(c, [])
  {
  }

  /** Until it is settled, a change does not depend on any outcome window. */
  lemma {:induction false} AnyWindow(w: int, v: int, c: Change)
    requires Inv(w, c) && c.state != Settled
    ensures Inv(v, c)
  {
  }

  /** Each of these owners gave a judgment that is not a refusal. */
  ghost predicate OwnersApprove(judgments: seq<Judgment>, owners: seq<string>) {
    forall k :: 0 <= k < |owners| ==>
      exists j :: j in judgments && j.decision != Refuse && j.author.id == owners[k]
  }

  /** Every owner who had to be asked approved, and no agent settled below L2. */
  ghost predicate Approved(c: Change, ctx: DecideContext) {
    && OwnersApprove(c.judgments, ctx.judges)
    && (c.autonomy < L2 ==> !ctx.actor.kind.Agent?)
  }

  /** This step settled the change: what it left holds for its own policy, owners and actor. */
  ghost predicate SettledBy<S>(step: (Command<S>, DecideContext), c: Change) {
    && step.0.Settle? && c.settledAt == step.1.now && Inv(step.1.policy.outcomeWindow, c)
    && (!c.impact.Empty() ==> Approved(c, step.1))
  }

  ghost predicate RunInv<S>(steps: seq<(Command<S>, DecideContext)>, c: Change) {
    if c.state == Settled then exists i :: 0 <= i < |steps| && SettledBy(steps[i], c) else Inv(0, c)
  }

  lemma {:induction false} SettlesBySettling<S>(c: Change, m: Command<S>, ctx: DecideContext)
    requires c.state != Settled && Step(c, m, ctx).state == Settled
    ensures m.Settle? && Step(c, m, ctx).settledAt == ctx.now
    ensures !c.impact.Empty() ==> Approved(c, ctx)
    ensures var c' := Step(c, m, ctx);
      c'.impact == c.impact && c'.judgments == c.judgments && c'.autonomy == c.autonomy
  {
    hide Refusal, ApprovedBy, Allowed, OwnersApprove;
    var events := Decide(c, m, ctx).value;
    assert events == [events[0]];
    ApplyOne(c, events[0]);
    RefusalIsExact(c, ctx.judges);
    AllowedMeans(c, ctx.judges);
  }

  /** What permission to proceed means, judgment by judgment. */
  lemma {:induction false} AllowedMeans(c: Change, judges: seq<string>)
    ensures Allowed(c, judges) <==>
      && c.judgments != [] && c.judgments[|c.judgments| - 1].decision != Refuse
      && (c.kind == Harness || c.autonomy <= L1 ==>
            exists j :: j in c.judgments && j.decision != Refuse && j.author.kind.Human?)
      && OwnersApprove(c.judgments, judges)
  {
    if (exists j :: j in c.judgments && j.decision != Refuse && j.author.kind.Human?) {
      var j :| j in c.judgments && j.decision != Refuse && j.author.kind.Human?;
      var i :| 0 <= i < |c.judgments| && c.judgments[i] == j;
      assert HumanApproval(c.judgments[i]);
    }
    if i :| 0 <= i < |c.judgments| && HumanApproval(c.judgments[i]) {
      assert c.judgments[i] in c.judgments;
    }
    forall k | 0 <= k < |judges|
      ensures ApprovedBy(c, judges[k]) <==>
        exists j :: j in c.judgments && j.decision != Refuse && j.author.id == judges[k]
    {
      OwnerApproves(c, judges[k]);
    }
  }

  lemma {:induction false} OwnerApproves(c: Change, id: string)
    ensures ApprovedBy(c, id) <==> exists j :: j in c.judgments && j.decision != Refuse && j.author.id == id
  {
    if j :| j in c.judgments && j.decision != Refuse && j.author.id == id {
      var i :| 0 <= i < |c.judgments| && c.judgments[i] == j;
      assert !Rejecting(c.judgments[i]) && c.judgments[i].author.id == id;
    }
    if i :| 0 <= i < |c.judgments| && !Rejecting(c.judgments[i]) && c.judgments[i].author.id == id {
      assert c.judgments[i] in c.judgments;
    }
  }

  lemma {:induction false} RunKeeps<S>(steps: seq<(Command<S>, DecideContext)>)
    ensures RunInv(steps, Run(steps))
  {
    hide Inv, Decide, OwnersApprove;
    if steps == [] {
      AbsentInv();
    } else {
      var n := |steps| - 1;
      var (m, ctx) := steps[n];
      var c, c' := Run(steps[..n]), Run(steps);
      RunKeeps(steps[..n]);
      if c.state == Settled {
        var i :| 0 <= i < n && SettledBy(steps[..n][i], c);
        SettledIsFinal(c, m, ctx);
        assert SettledBy(steps[i], c');
      } else {
        var w := ctx.policy.outcomeWindow;
        AnyWindow(0, w, c);
        StepKeeps(c, m, ctx);
        if c'.state == Settled {
          SettlesBySettling(c, m, ctx);
          assert SettledBy(steps[n], c');
        } else {
          AnyWindow(w, 0, c');
        }
      }
    }
  }

  lemma {:induction false} AbsentInv()
    ensures Inv(0, ABSENT)
  {
  }

  /** What lies behind a settled change with impact, for the window, the owners and the actor it was settled under. */
  ghost predicate Sound(c: Change, ctx: DecideContext) {
    && c.deployment.Some? && Approved(c, ctx)
    && c.judgments != [] && c.judgments[|c.judgments| - 1].decision != Refuse
    && (forall i :: 0 <= i < |c.judgments| ==> c.judgments[i].reason != "")
    && (c.kind == Harness || c.autonomy <= L1 ==>
          exists j :: j in c.judgments && j.decision != Refuse && j.author.kind.Human?)
    && (c.kind == Harness ==>
          c.autonomy == L0 && forall i :: 0 <= i < |c.judgments| ==> c.judgments[i].author.kind.Human?)
    && (c.outcome.Some? || c.settledAt >= c.deployment.value.at + ctx.policy.outcomeWindow)
  }

  /**
   * In every run of commands, whatever the policies along the way, a settled change with impact was
   * deployed, every judgment has a reason, the latest one is not a refusal, a human approved it when
   * it was opened at L0 or L1 or touches the harness, it has an outcome or the outcome window of the
   * command that settled it had passed, every owner that command had to ask approved it, and no agent
   * gave that command below L2.
   */
  lemma {:induction false} SettledChangesAreSound<S>(steps: seq<(Command<S>, DecideContext)>)
    ensures var c := Run(steps);
      c.state == Settled && (c.impact.constraints != [] || c.impact.decisions != []) ==>
        exists i :: 0 <= i < |steps| && steps[i].0.Settle? && steps[i].1.now == c.settledAt &&
          Sound(c, steps[i].1)
  {
    RunKeeps(steps);
    var c := Run(steps);
    if c.state == Settled && !c.impact.Empty() {
      var i :| 0 <= i < |steps| && SettledBy(steps[i], c);
      InvIsSound(c, steps[i].1);
    }
  }

  lemma {:induction false} InvIsSound(c: Change, ctx: DecideContext)
    requires Inv(ctx.policy.outcomeWindow, c) && Approved(c, ctx) && c.state == Settled && !c.impact.Empty()
    ensures Sound(c, ctx)
  {
    if c.kind == Harness || c.autonomy <= L1 {
      var i :| 0 <= i < |c.judgments| && HumanApproval(c.judgments[i]);
      assert c.judgments[i] in c.judgments;
    }
  }

  /** A run goes on by the step its last command makes; the run of no commands is the absent change. */
  lemma {:induction false} RunGoesOn<S>(steps: seq<(Command<S>, DecideContext)>, m: Command<S>, ctx: DecideContext)
    ensures Run<S>([]) == ABSENT && Run(steps + [(m, ctx)]) == Step(Run(steps), m, ctx)
  {
    assert (steps + [(m, ctx)])[..|steps|] == steps;
  }

  // ---- what each command does ----

  /** A change may be opened on a valid scope and anchors, with an intent or a word that there is none. */
  predicate MayOpen<S>(m: Command<S>, level: int)
    requires m.Open?
  {
    && m.id != "" && m.kind != UnknownKind && m.mode != UnknownMode && m.scopeOk && m.anchorsOk
    && (m.intentRef != "" || m.noIntent) && (m.mode == Autonomous ==> level >= L2)
  }

  /** Open: the first one fixes the identity, the intent, the impact and the level, and L0 for the harness. */
  lemma {:induction false} OpenStep<S>(c: Change, m: Command<S>, ctx: DecideContext)
    requires m.Open?
    ensures var c', level := Step(c, m, ctx), if m.kind == Harness then L0 else ctx.autonomy;
      if c.state == Absent && MayOpen(m, level) then
        && c'.id == m.id && c'.kind == m.kind && c'.mode == m.mode && c'.intentRef == m.intentRef
        && c'.noIntent == m.noIntent && c'.impact == m.impact && c'.sessions == m.sessions
        && c'.proposals == (if m.proposal.Some? then [m.proposal.value] else [])
        && c'.autonomy == level && c'.state == Proposed && c'.openedAt == ctx.now && c'.settledAt == 0
        && c'.judgments == [] && c'.derived == [] && c'.deployment.None? && c'.outcome.None?
        && Decide(c, m, ctx).value == [ChangeOpened(m.id, m.kind, m.mode, m.scope, m.intentRef, m.noIntent, m.impact,
             m.proposal, m.sessions, level, ctx.actor, ctx.now)]
      else c' == c
  {
    if Decide(c, m, ctx).Ok? {
      ApplyOne(c, Decide(c, m, ctx).value[0]);
    }
  }

  /** AddProposal: until deployment a valid proposal joins the earlier ones. */
  lemma {:induction false} ProposalStep<S>(c: Change, m: Command<S>, ctx: DecideContext)
    requires m.AddProposal?
    ensures var takes := c.state in {Proposed, Judged} && m.added.ref != "" && m.added.actor.Valid();
      Step(c, m, ctx) == if takes then c.(proposals := c.proposals + [m.added]) else c
  {
    if Decide(c, m, ctx).Ok? {
      ApplyOne(c, Decide(c, m, ctx).value[0]);
    }
  }

  /** Who may judge: humans, and on a plain change from L1 on agents too. */
  predicate MayJudge(c: Change, a: Actor) {
    a.Valid() && (a.kind.Agent? ==> c.kind != Harness && c.autonomy >= L1)
  }

  /** Judge: until deployment a new judgment of someone who may judge is added, with a reason when there is impact. */
  lemma {:induction false} JudgeStep<S>(c: Change, m: Command<S>, ctx: DecideContext)
    requires m.Judge?
    ensures var j := m.judgment;
      var takes := c.state in {Proposed, Judged} && j.id != "" && j.decision != UnknownDecision
        && MayJudge(c, j.author) && (c.impact.Empty() || j.reason != "")
        && forall i :: 0 <= i < |c.judgments| ==> c.judgments[i].id != j.id;
      Step(c, m, ctx) == if takes then c.(judgments := c.judgments + [j], state := Judged) else c
  {
    if Decide(c, m, ctx).Ok? {
      ApplyOne(c, Decide(c, m, ctx).value[0]);
    }
  }

  /** Deploy: with impact only on judgments that allow it; without, unjudged as well. */
  lemma {:induction false} DeployStep<S>(c: Change, m: Command<S>, ctx: DecideContext)
    requires m.Deploy?
    ensures var takes := m.ref != "" &&
        ((c.state == Judged && Allowed(c, ctx.judges)) || (c.state == Proposed && c.impact.Empty()));
      Step(c, m, ctx) ==
        if takes then c.(deployment := Some(Deployment(m.ref, ctx.now)), state := Deployed) else c
  {
    hide Refusal, Allowed;
    RefusalIsExact(c, ctx.judges);
    if Decide(c, m, ctx).Ok? {
      ApplyOne(c, Decide(c, m, ctx).value[0]);
    }
  }

  lemma {:induction false} RefusalIsExact(c: Change, judges: seq<string>)
    ensures Refusal(c, judges).None? <==> Allowed(c, judges)
  {
    hide ApprovedBy;
  }

  /** RecordOutcome: once, on a deployed change, at the given time or now. */
  lemma {:induction false} OutcomeStep<S>(c: Change, m: Command<S>, ctx: DecideContext)
    requires m.RecordOutcome?
    ensures var takes := c.state == Deployed && m.result.verdict != UnknownVerdict;
      Step(c, m, ctx) ==
        if takes then
          c.(outcome := Some(Outcome(m.result.verdict, if m.result.at == 0 then ctx.now else m.result.at)),
             state := Observed)
        else c
  {
    if Decide(c, m, ctx).Ok? {
      ApplyOne(c, Decide(c, m, ctx).value[0]);
    }
  }

  /** A change with impact may be settled once it is observed or its window is over, allowed and by the right actor. */
  predicate MaySettle(c: Change, ctx: DecideContext) {
    && (c.state == Observed || (c.state == Deployed && c.deployment.Some?
          && ctx.now >= c.deployment.value.at + ctx.policy.outcomeWindow))
    && Allowed(c, ctx.judges) && (ctx.actor.kind.Agent? ==> c.autonomy >= L2)
  }

  /** Settle: without impact at any time and with nothing derived, with impact when it may be. */
  lemma {:induction false} SettleStep<S>(c: Change, m: Command<S>, ctx: DecideContext)
    requires m.Settle?
    ensures var takes := c.state != Absent && c.state != Settled &&
        if c.impact.Empty() then m.derived == [] else MaySettle(c, ctx);
      Step(c, m, ctx) == if takes then c.(derived := m.derived, state := Settled, settledAt := ctx.now) else c
  {
    hide Refusal, Allowed;
    RefusalIsExact(c, ctx.judges);
    if Decide(c, m, ctx).Ok? {
      ApplyOne(c, Decide(c, m, ctx).value[0]);
    }
  }

  /** The rule this code stands for is broken by the command. */
  ghost predicate Breaks<S>(c: Change, m: Command<S>, ctx: DecideContext, code: string) {
    match m
    case Open(_, _, _, _, _, _, _, _, _, _, _) =>
      || (code == "exists" && c.state != Absent)
      || (code == "no-intent" && m.intentRef == "" && !m.noIntent)
      || (code == "autonomy" && m.mode == Autonomous && (m.kind == Harness || ctx.autonomy < L2))
      || (code == "invalid" &&
            (m.id == "" || m.kind == UnknownKind || m.mode == UnknownMode || !m.scopeOk || !m.anchorsOk))
    case AddProposal(p) =>
      || (code == "bad-state" && c.state !in {Proposed, Judged})
      || (code == "invalid" && (p.ref == "" || !p.actor.Valid()))
    case Judge(j) =>
      || (code == "bad-state" && c.state !in {Proposed, Judged})
      || (code == "invalid" && (j.id == "" || j.decision == UnknownDecision || !j.author.Valid()))
      || (code == "human-only" && j.author.kind.Agent? && c.kind == Harness)
      || (code == "autonomy" && j.author.kind.Agent? && c.autonomy < L1)
      || (code == "no-reason" && j.reason == "" && !c.impact.Empty())
      || (code == "duplicate" && exists i :: 0 <= i < |c.judgments| && c.judgments[i].id == j.id)
    case Deploy(ref) =>
      || (code == "bad-state" && c.state !in {Proposed, Judged})
      || (code == "invalid" && ref == "")
      || (code == "unjudged" && c.state == Proposed && !c.impact.Empty())
      || Missing(c, ctx.judges, code)
    case RecordOutcome(o) =>
      || (code == "bad-state" && c.state != Deployed)
      || (code == "invalid" && o.verdict == UnknownVerdict)
    case Settle(derived) =>
      || (code == "bad-state" && c.state !in {Deployed, Observed})
      || (code == "no-derivation" && c.impact.Empty() && derived != [])
      || (code == "observing" && c.state == Deployed && !MaySettle(c, ctx))
      || (code == "autonomy" && ctx.actor.kind.Agent? && c.autonomy < L2)
      || Missing(c, ctx.judges, code)
  }

  /** What is missing among the judgments. */
  ghost predicate Missing(c: Change, judges: seq<string>, code: string) {
    || (code == "unjudged" && c.judgments == [])
    || (code == "rejected" && c.judgments != [] && Rejecting(c.judgments[|c.judgments| - 1]))
    || (code == "human-required" && (c.kind == Harness || c.autonomy <= L1)
          && forall i :: 0 <= i < |c.judgments| ==> !HumanApproval(c.judgments[i]))
    || (code == "owner-required" && exists k :: 0 <= k < |judges| && !ApprovedBy(c, judges[k]))
  }

  /** Every command but Open needs a change; any other refusal names a rule that the command really breaks. */
  lemma {:induction false} RefusalsAreTrue<S>(c: Change, m: Command<S>, ctx: DecideContext)
    ensures c.state == Absent && !m.Open? ==> Decide(c, m, ctx) == Err("not-found")
    ensures (c.state != Absent || m.Open?) && Decide(c, m, ctx).Err? ==> Breaks(c, m, ctx, Decide(c, m, ctx).error)
  {
    hide Allowed, Refusal, Missing;
    RefusalIsExact(c, ctx.judges);
    if Refusal(c, ctx.judges).Some? {
      RefusalCodes(c, ctx.judges);
    }
  }

  /** Each refusal of the judgments names what is missing among them. */
  lemma {:induction false} RefusalCodes(c: Change, judges: seq<string>)
    requires Refusal(c, judges).Some?
    ensures Missing(c, judges, Refusal(c, judges).value) && Refusal(c, judges).value != "not-found"
  {
    hide ApprovedBy;
  }

  /** A settled change refuses every command, so its state never moves again. */
  lemma {:induction false} SettledIsFinal<S>(c: Change, m: Command<S>, ctx: DecideContext)
    requires c.state == Settled
    ensures Decide(c, m, ctx).Err? && Step(c, m, ctx) == c
  {
    assert Decide(c, m, ctx).Err?;
  }
}
