/**
 * The Session aggregate: classified turns, touched files and judgment candidates
 * (internal/core/accountability/session.go).
 */
module Sessions {
  import opened Prelude
  import opened Envelopes
  import opened Context

  datatype TurnClass = Accept | Redirect | Revert | OtherClass

  datatype Turn = Turn(number: nat, turnClass: TurnClass, files: seq<string>, signal: string, at: int)

  datatype Candidate = Candidate(turn: nat, turnClass: TurnClass, files: seq<string>, signal: string, at: int)

  datatype SessionState = Absent | Open | Ended | Shared

  datatype Session = Session(
    id: string, tool: string, repo: string, agent: Actor, state: SessionState, startedAt: int, endedAt: int,
    reason: string,
    turns: seq<Turn>, touched: seq<string>, judgments: seq<Candidate>, summary: string, shared: seq<string>)

  const NO_SESSION := Session("", "", "", Actor(Human, "", "", ""), Absent, 0, 0, "", [], [], [], "", [])

  datatype Command =
    | Start(id: string, tool: string, repo: string, agent: Actor)
    | RecordTurn(turnClass: TurnClass, files: seq<string>, signal: string)
    | End(reason: string, summary: string)
    | Share(parts: seq<string>)

  datatype Event =
    | SessionStarted(id: string, tool: string, repo: string, agent: Actor, at: int)
    | TurnRecorded(id: string, turn: Turn)
    | SessionEnded(id: string, reason: string, summary: string, at: int)
    | SessionShared(id: string, parts: seq<string>, at: int)

  type Decision = Result<seq<Event>, string>

  /** fallback is the derived summary text. */
  function Decide(fallback: Session -> string, s: Session, m: Command, ctx: DecideContext): Decision {
    match m
    case Start(id, tool, repo, agent) =>
      if s.state != Absent then Ok([])
      else if id == "" || tool == "" then Err("invalid")
      else if !agent.Valid() || !agent.kind.Agent? then Err("invalid")
      else Ok([SessionStarted(id, tool, repo, agent, ctx.now)])
    case RecordTurn(turnClass, files, signal) =>
      if s.state != Open then Err("bad-state")
      else if turnClass == OtherClass then Err("invalid")
      else Ok([TurnRecorded(s.id, Turn(|s.turns| + 1, turnClass, files, signal, ctx.now))])
    case End(reason, summary) =>
      if s.state == Absent then Err("not-found")
      else if s.state != Open then Ok([])
      else Ok([SessionEnded(s.id, reason, if summary == "" then fallback(s) else summary, ctx.now)])
    case Share(parts) =>
      if s.state != Ended && s.state != Shared then Err("bad-state")
      else if !ctx.actor.kind.Human? then Err("human-only")
      else if exists i :: 0 <= i < |parts| && parts[i] != "summary" && parts[i] != "judgments" then Err("invalid")
      else if parts == [] then Err("invalid")
      else Ok([SessionShared(s.id, parts, ctx.now)])
  }

  // ---- lists without repetitions ----

  function AddNew(list: seq<string>, x: string): seq<string> {
    if x in list then list else list + [x]
  }

  /** The list followed by the new elements, each once, in order of first appearance. */
  function Merge(list: seq<string>, xs: seq<string>): seq<string> {
    if xs == [] then list else AddNew(Merge(list, xs[..|xs| - 1]), xs[|xs| - 1])
  }

  /** The loop that appends the files a list does not hold yet. */
  method AppendNew(list: seq<string>, xs: seq<string>) returns (out: seq<string>)
    ensures out == Merge(list, xs)
  {
    out := list;
    for i := 0 to |xs|
      invariant out == Merge(list, xs[..i])
    {
      assert xs[..i + 1][..i] == xs[..i];
      var found := false;
      for k := 0 to |out|
        invariant found <==> xs[i] in out[..k]
      {
        assert out[..k + 1] == out[..k] + [out[k]];
        if out[k] == xs[i] {
          found := true;
        }
      }
      assert out[..|out|] == out;
      if !found {
        out := out + [xs[i]];
      }
    }
    assert xs[..|xs|] == xs;
  }

  lemma {:induction false} MergeMembers(list: seq<string>, xs: seq<string>, x: string)
    ensures x in Merge(list, xs) <==> x in list || x in xs
  {
    if xs != [] {
      MergeMembers(list, xs[..|xs| - 1], x);
      assert xs == xs[..|xs| - 1] + [xs[|xs| - 1]];
    }
  }

  lemma {:induction false} MergeSnoc(list: seq<string>, xs: seq<string>, x: string)
    ensures Merge(list, xs + [x]) == AddNew(Merge(list, xs), x)
  {
    assert (xs + [x])[..|xs|] == xs;
  }

  lemma {:induction false} MergeAddNew(list: seq<string>, xs: seq<string>, x: string)
    ensures Merge(list, AddNew(xs, x)) == AddNew(Merge(list, xs), x)
  {
    hide Merge;
    MergeMembers(list, xs, x);
    MergeSnoc(list, xs, x);
  }

  /** Merging in two steps or through a merged list is the same. */
  lemma {:induction false} MergeIsAssociative(list: seq<string>, xs: seq<string>, ys: seq<string>)
    ensures Merge(list, Merge(xs, ys)) == Merge(Merge(list, xs), ys)
  {
    if ys != [] {
      var n := |ys| - 1;
      MergeIsAssociative(list, xs, ys[..n]);
      MergeAddNew(list, Merge(xs, ys[..n]), ys[n]);
    }
  }

  ghost predicate Distinct(list: seq<string>) {
    forall i, j :: 0 <= i < j < |list| ==> list[i] != list[j]
  }

  lemma {:induction false} MergeIsDistinct(list: seq<string>, xs: seq<string>)
    requires Distinct(list)
    ensures Distinct(Merge(list, xs))
  {
    if xs != [] {
      MergeIsDistinct(list, xs[..|xs| - 1]);
    }
  }

  // ---- folding ----

  function ApplyTurn(s: Session, t: Turn): Session {
    s.(turns := s.turns + [t], touched := Merge(s.touched, t.files),
       judgments := s.judgments + if t.turnClass in {Redirect, Revert}
         then [Candidate(t.number, t.turnClass, t.files, t.signal, t.at)] else [])
  }

  function Apply(s: Session, e: Event): Session {
    match e
    case SessionStarted(id, tool, repo, agent, at) =>
      NO_SESSION.(id := id, tool := tool, repo := repo, agent := agent, state := Open, startedAt := at)
    case TurnRecorded(_, t) => ApplyTurn(s, t)
    case SessionEnded(_, reason, summary, at) => s.(state := Ended, endedAt := at, reason := reason, summary := summary)
    case SessionShared(_, parts, _) => s.(state := Shared, shared := parts)
  }

  function Replay(events: seq<Event>): Session {
    if events == [] then NO_SESSION else Apply(Replay(events[..|events| - 1]), events[|events| - 1])
  }

  lemma {:induction false} ReplaySnoc(events: seq<Event>, e: Event)
    ensures Replay(events + [e]) == Apply(Replay(events), e)
  {
    assert (events + [e])[..|events|] == events;
  }

  // ---- what every session keeps ----

  function Step(fallback: Session -> string, s: Session, m: Command, ctx: DecideContext): Session {
    match Decide(fallback, s, m, ctx)
    case Err(_) => s
    case Ok(events) => if events == [] then s else Apply(s, events[0])
  }

  function Run(fallback: Session -> string, steps: seq<(Command, DecideContext)>): Session {
    if steps == [] then NO_SESSION
    else Step(fallback, Run(fallback, steps[..|steps| - 1]), steps[|steps| - 1].0, steps[|steps| - 1].1)
  }

  /** All files of the turns, each once, in order of first touch. */
  function TouchedBy(turns: seq<Turn>): seq<string> {
    if turns == [] then [] else Merge(TouchedBy(turns[..|turns| - 1]), turns[|turns| - 1].files)
  }

  /** The turns in which the human redirected or reverted. */
  function CandidatesOf(turns: seq<Turn>): seq<Candidate> {
    if turns == [] then []
    else
      var t := turns[|turns| - 1];
      CandidatesOf(turns[..|turns| - 1]) + if t.turnClass in {Redirect, Revert}
        then [Candidate(t.number, t.turnClass, t.files, t.signal, t.at)] else []
  }

  ghost predicate Inv(s: Session) {
    && (forall i :: 0 <= i < |s.turns| ==> s.turns[i].number == i + 1)
    && s.touched == TouchedBy(s.turns) && Distinct(s.touched)
    && s.judgments == CandidatesOf(s.turns)
  }

  lemma {:induction false} TurnKeeps(s: Session, t: Turn)
    requires Inv(s) && t.number == |s.turns| + 1
    ensures Inv(ApplyTurn(s, t))
  {
    assert (s.turns + [t])[..|s.turns|] == s.turns;
    MergeIsDistinct(s.touched, t.files);
  }

  /**
   * In every run, turns are numbered in order, touched files are those of the turns and candidates exactly
   * the reactions.
   */
  lemma {:induction false} RunKeeps(fallback: Session -> string, steps: seq<(Command, DecideContext)>)
    ensures Inv(Run(fallback, steps))
  {
    hide ApplyTurn;
    if steps != [] {
      var s, m, ctx := Run(fallback, steps[..|steps| - 1]), steps[|steps| - 1].0, steps[|steps| - 1].1;
      RunKeeps(fallback, steps[..|steps| - 1]);
      if m.RecordTurn? {
        TurnKeeps(s, Turn(|s.turns| + 1, m.turnClass, m.files, m.signal, ctx.now));
      }
    }
  }

  // ---- what each command does ----

  /** The first start opens the session for a valid agent; another start changes nothing. */
  lemma {:induction false} StartStep(fallback: Session -> string, s: Session, m: Command, ctx: DecideContext)
    requires m.Start?
    ensures var s' := Step(fallback, s, m, ctx);
      if s.state == Absent && m.id != "" && m.tool != "" && m.agent.Valid() && m.agent.kind.Agent? then
        && s'.id == m.id && s'.tool == m.tool && s'.repo == m.repo && s'.agent == m.agent && s'.state == Open
        && s'.startedAt == ctx.now && s'.turns == [] && s'.touched == [] && s'.judgments == []
        && s'.summary == "" && s'.shared == [] && s'.reason == ""
      else s' == s
  {
  }

  /** A turn of a known class joins an open session: its number, its files, and a candidate when it is a reaction. */
  lemma {:induction false} TurnStep(fallback: Session -> string, s: Session, m: Command, ctx: DecideContext)
    requires m.RecordTurn?
    ensures var s', t := Step(fallback, s, m, ctx), Turn(|s.turns| + 1, m.turnClass, m.files, m.signal, ctx.now);
      if s.state == Open && m.turnClass != OtherClass then
        && s'.turns == s.turns + [t] && s'.touched == Merge(s.touched, m.files)
        && s'.judgments == s.judgments + (if m.turnClass in {Redirect, Revert}
             then [Candidate(t.number, m.turnClass, m.files, m.signal, ctx.now)] else [])
        && s' == s.(turns := s'.turns, touched := s'.touched, judgments := s'.judgments)
      else s' == s
  {
  }

  /** The end closes an open session once, with the summary given or the derived one. */
  lemma {:induction false} EndStep(fallback: Session -> string, s: Session, m: Command, ctx: DecideContext)
    requires m.End?
    ensures Step(fallback, s, m, ctx) ==
      if s.state == Open then
        s.(state := Ended, endedAt := ctx.now, reason := m.reason,
           summary := if m.summary == "" then fallback(s) else m.summary)
      else s
  {
  }

  /** A human shares named parts of a session that has ended, and nothing but its summary or judgments. */
  lemma {:induction false} ShareStep(fallback: Session -> string, s: Session, m: Command, ctx: DecideContext)
    requires m.Share?
    ensures var takes := s.state in {Ended, Shared} && ctx.actor.kind.Human? && m.parts != []
        && forall i :: 0 <= i < |m.parts| ==> m.parts[i] in {"summary", "judgments"};
      Step(fallback, s, m, ctx) == if takes then s.(state := Shared, shared := m.parts) else s
  {
  }

  /** The rule this code stands for is broken by the command. */
  ghost predicate Breaks(s: Session, m: Command, ctx: DecideContext, code: string) {
    match m
    case Start(id, tool, _, agent) =>
      code == "invalid" && (id == "" || tool == "" || !agent.Valid() || !agent.kind.Agent?)
    case RecordTurn(turnClass, _, _) =>
      (code == "bad-state" && s.state != Open) || (code == "invalid" && turnClass == OtherClass)
    case End(_, _) => code == "not-found" && s.state == Absent
    case Share(parts) =>
      || (code == "bad-state" && s.state !in {Ended, Shared})
      || (code == "human-only" && !ctx.actor.kind.Human?)
      || (code == "invalid" && (parts == [] || exists i :: 0 <= i < |parts| && parts[i] !in {"summary", "judgments"}))
  }

  /**
   * A session that was never started cannot end, a second start or end is no mistake, and any refusal
   * names a rule that the command really breaks.
   */
  lemma {:induction false} RefusalsAreTrue(fallback: Session -> string, s: Session, m: Command, ctx: DecideContext)
    ensures m.End? && s.state == Absent ==> Decide(fallback, s, m, ctx) == Err("not-found")
    ensures m.End? && s.state in {Ended, Shared} ==> Decide(fallback, s, m, ctx) == Ok([])
    ensures m.Start? && s.state != Absent ==> Decide(fallback, s, m, ctx) == Ok([])
    ensures Decide(fallback, s, m, ctx).Err? ==> Breaks(s, m, ctx, Decide(fallback, s, m, ctx).error)
  {
  }

  /** The record of a command names the session and the time. */
  lemma {:induction false} RecordsTell(fallback: Session -> string, s: Session, m: Command, ctx: DecideContext)
    requires Decide(fallback, s, m, ctx).Ok?
    ensures var events := Decide(fallback, s, m, ctx).value;
      && |events| <= 1
      && (forall i :: 0 <= i < |events| ==> events[i].id == if m.Start? then m.id else s.id)
      && (m.Share? ==> events == [SessionShared(s.id, m.parts, ctx.now)])
  {
  }
}
