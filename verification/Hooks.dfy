/** Session capture from hook events (internal/app/hooks.go) onto the session streams of the ledger. */
module Hooks {
  import opened Prelude
  import opened Envelopes
  import opened Context
  import opened Sessions

  /** What the daemon remembers of a live session; the prompt text is never kept. */
  datatype Live = Live(tool: string, root: string, prompts: nat, touched: seq<string>, ended: bool, reason: string,
    recorded: bool)

  /** The open turn: whether a prompt started it, and the files edited since. */
  datatype OpenTurn = OpenTurn(open: bool, files: seq<string>)

  /** A session's ledger stream: its events and the idempotency keys on it. */
  datatype Stream = Stream(events: seq<Event>, keys: set<string>)

  const EMPTY := Stream([], {})

  /**
   * The tools' text rules are parameters: a prompt carries the signal that makes it a redirect, a command
   * whether it reverts.
   */
  datatype Kind =
    | SessionStart
    | Prompt(redirect: Option<string>)
    | PreEdit
    | PostEdit(files: seq<string>)
    | ToolResult(reverts: bool)
    | SessionEnd(why: string)
    | UnknownEvent

  datatype HookEvent = HookEvent(session: string, tool: string, cwd: string, kind: Kind)

  /** capture is off without a pipeline; relPath, FindRepoRoot, RepoID and the fallback summary are parameters. */
  datatype Env = Env(
    capture: bool, owner: string, rel: (string, string) -> Option<string>, findRoot: string -> Option<string>,
    repoId: string -> string, fallback: Session -> string)

  /** One session as the service sees it. */
  datatype View = View(live: Option<Live>, turn: Option<OpenTurn>, stream: Stream)

  // ---- one event, one session ----

  function AgentFor(env: Env, tool: string, id: string): Actor {
    Actor(Agent, tool + ":" + id, "", env.owner)
  }

  /** A command through the pipeline: refused, replayed or appended. */
  function Recorded(env: Env, st: Stream, actor: Actor, key: string, m: Command, ctx: DecideContext): Stream {
    if !env.capture || !actor.Valid() || (key != "" && key in st.keys) then st
    else
      match Decide(env.fallback, Replay(st.events), m, ctx)
      case Err(_) => st
      case Ok(events) => if events == [] then st
        else Stream(st.events + events, if key == "" then st.keys else st.keys + {key})
  }

  function Entered(env: Env, v: View, ev: HookEvent): (r: View)
    ensures r.live.Some?
  {
    var found := if env.findRoot(ev.cwd).Some? then env.findRoot(ev.cwd).value else "";
    match v.live
    case None => v.(live := Some(Live(ev.tool, found, 0, [], false, "", false)))
    case Some(s) => if s.root == "" && ev.cwd != "" then v.(live := Some(s.(root := found))) else v
  }

  function Started(env: Env, v: View, id: string, ctx: DecideContext): (r: View)
    requires v.live.Some?
    ensures r.live.Some?
  {
    var s := v.live.value;
    if !env.capture || s.recorded then v
    else
      var agent := AgentFor(env, s.tool, id);
      View(Some(s.(recorded := true)), v.turn,
        Recorded(env, v.stream, agent, "session:start:" + id,
          Start(id, s.tool, if s.root == "" then "" else env.repoId(s.root), agent), ctx))
  }

  function Closed(env: Env, v: View, id: string, turnClass: TurnClass, signal: string, ctx: DecideContext): (r: View)
    requires v.live.Some?
    ensures r.live == v.live
  {
    if v.turn.None? || (!v.turn.value.open && v.turn.value.files == []) then v
    else
      var files := v.turn.value.files;
      View(v.live, Some(OpenTurn(false, [])),
        if files == [] && turnClass == Accept then v.stream
        else Recorded(env, v.stream, AgentFor(env, v.live.value.tool, id), "", RecordTurn(turnClass, files, signal),
          ctx))
  }

  /** The repo-relative names of the edited files inside the root. */
  function Relative(env: Env, root: string, files: seq<string>): seq<string> {
    if files == [] then []
    else
      Relative(env, root, files[..|files| - 1]) +
      match env.rel(root, files[|files| - 1]) case None => [] case Some(f) => [f]
  }

  /** A file is kept exactly when it lies inside the root, under its relative name, in the order edited. */
  lemma {:induction false} RelativeIs(env: Env, root: string, files: seq<string>, file: string)
    ensures Relative(env, root, []) == []
    ensures Relative(env, root, files + [file]) == Relative(env, root, files) +
      if env.rel(root, file).Some? then [env.rel(root, file).value] else []
  {
    assert (files + [file])[..|files|] == files;
  }

  function Edited(env: Env, v: View, files: seq<string>): View
    requires v.live.Some?
  {
    var s, xs := v.live.value, Relative(env, v.live.value.root, files);
    var t := if v.turn.None? then OpenTurn(true, []) else v.turn.value;
    v.(live := Some(s.(touched := Merge(s.touched, xs))), turn := Some(t.(files := Merge(t.files, xs))))
  }

  function Prompted(env: Env, v: View, id: string, redirect: Option<string>, ctx: DecideContext): View
    requires v.live.Some?
  {
    var v1 := Counted(Started(env, v, id, ctx));
    var v2 := if redirect.Some? then Closed(env, v1, id, Redirect, redirect.value, ctx)
      else Closed(env, v1, id, Accept, "", ctx);
    v2.(turn := Some(OpenTurn(true, [])))
  }

  function Counted(v: View): (r: View)
    requires v.live.Some?
    ensures r.live.Some?
  {
    v.(live := Some(v.live.value.(prompts := v.live.value.prompts + 1)))
  }

  function Finished(env: Env, v: View, id: string, why: string, ctx: DecideContext): View
    requires v.live.Some?
  {
    var v1 := Closed(env, v, id, Accept, "", ctx);
    var s := v1.live.value.(ended := true, reason := why);
    View(Some(s), v1.turn, Recorded(env, v1.stream, AgentFor(env, s.tool, id), "session:end:" + id, End(why, ""), ctx))
  }

  function Moved(env: Env, v: View, id: string, kind: Kind, ctx: DecideContext): (r: View)
    requires v.live.Some?
    ensures r.live.Some?
  {
    match kind
    case SessionStart => Started(env, v, id, ctx)
    case Prompt(redirect) => Prompted(env, v, id, redirect, ctx)
    case PreEdit => v
    case PostEdit(files) => Edited(env, v, files)
    case ToolResult(reverts) => if reverts then Closed(env, v, id, Revert, "revert-command", ctx) else v
    case SessionEnd(why) => Finished(env, v, id, why, ctx)
    case UnknownEvent => v
  }

  /** One hook event on its session. */
  function Handled(env: Env, v: View, ev: HookEvent, ctx: DecideContext): (r: View)
    ensures ev.session != "" ==> r.live.Some?
  {
    if ev.session == "" then v else Moved(env, Entered(env, v, ev), ev.session, ev.kind, ctx)
  }

  // ---- the service ----

  class Hooks {
    const env: Env
    var sessions: map<string, Live>
    var turns: map<string, OpenTurn>
    /** The ledger's session streams, by tool and session id. */
    var streams: map<(string, string), Stream>

    constructor (env: Env)
      ensures this.env == env && sessions == map[] && turns == map[] && streams == map[]
    {
      this.env := env;
      sessions, turns, streams := map[], map[], map[];
    }

    ghost function ToolOf(id: string, tool: string): string
      reads this
    {
      if id in sessions then sessions[id].tool else tool
    }

    ghost function ViewOf(id: string, tool: string): View
      reads this
    {
      View(if id in sessions then Some(sessions[id]) else None, if id in turns then Some(turns[id]) else None,
        if (ToolOf(id, tool), id) in streams then streams[(ToolOf(id, tool), id)] else EMPTY)
    }

    /** Everything but this session is as it was. */
    twostate predicate OthersKept(id: string, tool: string)
      reads this
    {
      && (forall k :: k != id ==>
        (k in sessions <==> k in old(sessions)) && (k in sessions ==> sessions[k] == old(sessions)[k]))
      && (forall k :: k != id ==> (k in turns <==> k in old(turns)) && (k in turns ==> turns[k] == old(turns)[k]))
      && (forall k :: k != (tool, id) ==>
        (k in streams <==> k in old(streams)) && (k in streams ==> streams[k] == old(streams)[k]))
    }

    method Record(id: string, key: string, m: Command, ctx: DecideContext)
      requires id in sessions
      modifies `streams
      ensures ViewOf(id, "") == old(ViewOf(id, "")).(stream :=
        Recorded(env, old(ViewOf(id, "")).stream, AgentFor(env, sessions[id].tool, id), key, m, ctx))
      ensures OthersKept(id, sessions[id].tool)
    {
      if !env.capture {
        return;
      }
      var at := (sessions[id].tool, id);
      var st := if at in streams then streams[at] else EMPTY;
      if !AgentFor(env, sessions[id].tool, id).Valid() || (key != "" && key in st.keys) {
        return;
      }
      var d := Decide(env.fallback, Replay(st.events), m, ctx);
      if d.Ok? && d.value != [] {
        streams := streams[at := Stream(st.events + d.value, if key == "" then st.keys else st.keys + {key})];
      }
    }

    method Enter(ev: HookEvent)
      modifies `sessions
      ensures ev.session in sessions && sessions[ev.session].tool == old(ToolOf(ev.session, ev.tool))
      ensures ViewOf(ev.session, ev.tool) == Entered(env, old(ViewOf(ev.session, ev.tool)), ev)
      ensures OthersKept(ev.session, sessions[ev.session].tool)
    {
      var id := ev.session;
      var found := if env.findRoot(ev.cwd).Some? then env.findRoot(ev.cwd).value else "";
      if id !in sessions {
        sessions := sessions[id := Live(ev.tool, found, 0, [], false, "", false)];
      } else if sessions[id].root == "" && ev.cwd != "" {
        sessions := sessions[id := sessions[id].(root := found)];
      }
    }

    method StartOnce(id: string, ctx: DecideContext)
      requires id in sessions
      modifies this
      ensures id in sessions && sessions[id].tool == old(sessions[id].tool)
      ensures ViewOf(id, "") == Started(env, old(ViewOf(id, "")), id, ctx)
      ensures OthersKept(id, sessions[id].tool)
    {
      hide Recorded;
      var s := sessions[id];
      if !env.capture || s.recorded {
        return;
      }
      sessions := sessions[id := s.(recorded := true)];
      Record(id, "session:start:" + id,
        Start(id, s.tool, if s.root == "" then "" else env.repoId(s.root), AgentFor(env, s.tool, id)), ctx);
    }

    method CloseTurn(id: string, turnClass: TurnClass, signal: string, ctx: DecideContext)
      requires id in sessions
      modifies `turns, `streams
      ensures ViewOf(id, "") == Closed(env, old(ViewOf(id, "")), id, turnClass, signal, ctx)
      ensures OthersKept(id, sessions[id].tool)
    {
      hide Recorded;
      if id !in turns || (!turns[id].open && turns[id].files == []) {
        return;
      }
      var files := turns[id].files;
      turns := turns[id := OpenTurn(false, [])];
      if files == [] && turnClass == Accept {
        return;
      }
      Record(id, "", RecordTurn(turnClass, files, signal), ctx);
    }

    method Edit(id: string, files: seq<string>)
      requires id in sessions
      modifies `sessions, `turns
      ensures id in sessions && sessions[id].tool == old(sessions[id].tool)
      ensures ViewOf(id, "") == Edited(env, old(ViewOf(id, "")), files)
      ensures OthersKept(id, sessions[id].tool)
    {
      var s := sessions[id];
      var t := if id in turns then turns[id] else OpenTurn(true, []);
      var touched, edited := s.touched, t.files;
      for i := 0 to |files|
        invariant sessions == old(sessions) && turns == old(turns)
        invariant touched == Merge(s.touched, Relative(env, s.root, files[..i]))
        invariant edited == Merge(t.files, Relative(env, s.root, files[..i]))
      {
        assert files[..i + 1][..i] == files[..i];
        var f := env.rel(s.root, files[i]);
        ghost var done, more := Relative(env, s.root, files[..i]), Relative(env, s.root, files[..i + 1]);
        assert more == if f.Some? then done + [f.value] else done;
        if f.Some? {
          MergeSnoc(s.touched, done, f.value);
          MergeSnoc(t.files, done, f.value);
          MergeOne(touched, f.value);
          MergeOne(edited, f.value);
          touched := AppendNew(touched, [f.value]);
          edited := AppendNew(edited, [f.value]);
        }
      }
      assert files[..|files|] == files;
      sessions := sessions[id := s.(touched := touched)];
      turns := turns[id := t.(files := edited)];
    }

    method CountPrompt(id: string)
      requires id in sessions
      modifies `sessions
      ensures id in sessions && sessions[id].tool == old(sessions[id].tool)
      ensures ViewOf(id, "") == Counted(old(ViewOf(id, "")))
      ensures OthersKept(id, sessions[id].tool)
    {
      sessions := sessions[id := sessions[id].(prompts := sessions[id].prompts + 1)];
    }

    /** The previous turn ends and a new one opens. */
    method EndTurn(id: string, turnClass: TurnClass, signal: string, ctx: DecideContext)
      requires id in sessions
      modifies `turns, `streams
      ensures ViewOf(id, "") ==
        Closed(env, old(ViewOf(id, "")), id, turnClass, signal, ctx).(turn := Some(OpenTurn(true, [])))
      ensures OthersKept(id, sessions[id].tool)
    {
      hide Closed;
      CloseTurn(id, turnClass, signal, ctx);
      turns := turns[id := OpenTurn(true, [])];
    }

    method OnPrompt(id: string, redirect: Option<string>, ctx: DecideContext)
      requires id in sessions
      modifies this
      ensures id in sessions && sessions[id].tool == old(sessions[id].tool)
      ensures ViewOf(id, "") == Prompted(env, old(ViewOf(id, "")), id, redirect, ctx)
      ensures OthersKept(id, sessions[id].tool)
    {
      hide Started, Closed, Counted, Hooks.ViewOf;
      StartOnce(id, ctx);
      CountPrompt(id);
      if redirect.Some? {
        EndTurn(id, Redirect, redirect.value, ctx);
      } else {
        EndTurn(id, Accept, "", ctx);
      }
    }

    method OnEnd(id: string, why: string, ctx: DecideContext)
      requires id in sessions
      modifies this
      ensures id in sessions && sessions[id].tool == old(sessions[id].tool)
      ensures ViewOf(id, "") == Finished(env, old(ViewOf(id, "")), id, why, ctx)
      ensures OthersKept(id, sessions[id].tool)
    {
      hide Recorded, Closed;
      CloseTurn(id, Accept, "", ctx);
      sessions := sessions[id := sessions[id].(ended := true, reason := why)];
      Record(id, "session:end:" + id, End(why, ""), ctx);
    }

    method Dispatch(id: string, kind: Kind, ctx: DecideContext)
      requires id in sessions
      modifies this
      ensures id in sessions && sessions[id].tool == old(sessions[id].tool)
      ensures ViewOf(id, "") == Moved(env, old(ViewOf(id, "")), id, kind, ctx)
      ensures OthersKept(id, sessions[id].tool)
    {
      hide Started, Closed, Edited, Prompted, Finished;
      match kind {
        case SessionStart => StartOnce(id, ctx);
        case Prompt(redirect) => OnPrompt(id, redirect, ctx);
        case PreEdit =>
        case PostEdit(files) => Edit(id, files);
        case ToolResult(reverts) =>
          if reverts {
            CloseTurn(id, Revert, "revert-command", ctx);
          }
        case SessionEnd(why) => OnEnd(id, why, ctx);
        case UnknownEvent =>
      }
    }

    /** Hook: the session named by the event moves as specified and no other changes. */
    method Hook(ev: HookEvent, ctx: DecideContext) returns (ok: bool)
      modifies this
      ensures ok <==> ev.session != "" && !ev.kind.UnknownEvent?
      ensures ViewOf(ev.session, ev.tool) == Handled(env, old(ViewOf(ev.session, ev.tool)), ev, ctx)
      ensures ev.session == "" ==> sessions == old(sessions) && turns == old(turns) && streams == old(streams)
      ensures ev.session != "" ==> ev.session in sessions && OthersKept(ev.session, sessions[ev.session].tool)
    {
      hide Entered, Moved;
      if ev.session == "" {
        return false;
      }
      Enter(ev);
      Dispatch(ev.session, ev.kind, ctx);
      return !ev.kind.UnknownEvent?;
    }
  }

  lemma {:induction false} MergeOne(list: seq<string>, x: string)
    ensures Merge(list, [x]) == AddNew(list, x)
  {
    assert [x][..0] == [];
  }

  // ---- one session from start to end ----

  const UNSEEN := View(None, None, EMPTY)

  /** The session after a run of hook events. */
  function Watched(env: Env, evs: seq<(HookEvent, DecideContext)>): View {
    if evs == [] then UNSEEN
    else Handled(env, Watched(env, evs[..|evs| - 1]), evs[|evs| - 1].0, evs[|evs| - 1].1)
  }

  function OpenFiles(v: View): seq<string> {
    if v.turn.None? then [] else v.turn.value.files
  }

  /** The remembered files are those replayed from the ledger, then those of the open turn, each once. */
  ghost predicate TouchedOk(v: View) {
    v.live.Some? && v.live.value.touched == Merge(Replay(v.stream.events).touched, OpenFiles(v))
  }

  /** Nothing recorded yet. */
  ghost predicate Waiting(v: View) {
    && v.stream == EMPTY
    && (v.live.None? ==> v.turn.None?)
    && (v.live.Some? ==> TouchedOk(v) && !v.live.value.recorded && v.live.value.tool != "")
  }

  /** Recorded as open, with the end still to come. */
  ghost predicate Following(v: View, id: string) {
    && TouchedOk(v) && v.live.value.recorded && v.live.value.tool != ""
    && Replay(v.stream.events).state == Open && "session:end:" + id !in v.stream.keys
  }

  ghost predicate CanRecord(env: Env, id: string) {
    env.capture && env.owner != "" && id != ""
  }

  lemma {:induction false} MergeNothing(list: seq<string>)
    ensures Merge(list, []) == list
  {
  }

  lemma {:induction false} EnteredKeeps(env: Env, v: View, ev: HookEvent)
    requires ev.tool != ""
    ensures Waiting(v) ==> Waiting(Entered(env, v, ev))
    ensures Following(v, ev.session) ==> Following(Entered(env, v, ev), ev.session)
  {
    hide Replay;
    MergeNothing([]);
    NothingTouched();
  }

  lemma {:induction false} NothingTouched()
    ensures Replay([]) == NO_SESSION
  {
  }

  lemma {:induction false} KeysDiffer(id: string)
    ensures "session:start:" + id != "session:end:" + id
  {
    assert ("session:start:" + id)[8] == 's' && ("session:end:" + id)[8] == 'e';
  }

  lemma {:induction false} AgentIsValid(env: Env, tool: string, id: string)
    requires env.owner != ""
    ensures AgentFor(env, tool, id).Valid() && AgentFor(env, tool, id).kind.Agent?
  {
  }

  /** The first record of a session opens it. */
  lemma {:induction false} RecordedStart(env: Env, key: string, id: string, tool: string, repo: string,
      agent: Actor, ctx: DecideContext)
    requires env.capture && key != "" && id != "" && tool != "" && agent.Valid() && agent.kind.Agent?
    ensures var st := Recorded(env, EMPTY, agent, key, Start(id, tool, repo, agent), ctx);
      && st.keys == {key} && Replay(st.events).state == Open && Replay(st.events).touched == []
      && Replay(st.events).turns == []
  {
    hide Merge;
    var e := SessionStarted(id, tool, repo, agent, ctx.now);
    NothingTouched();
    ReplaySnoc([], e);
    assert [] + [e] == [e];
    hide Replay;
    assert Decide(env.fallback, NO_SESSION, Start(id, tool, repo, agent), ctx) == Ok([e]);
  }

  lemma {:induction false} StartedFollows(env: Env, v: View, id: string, ctx: DecideContext)
    requires CanRecord(env, id) && Waiting(v) && v.live.Some?
    ensures Following(Started(env, v, id, ctx), id)
  {
    var s := v.live.value;
    var agent, key := AgentFor(env, s.tool, id), "session:start:" + id;
    NothingTouched();
    hide Replay, Merge, Recorded, AgentFor;
    AgentIsValid(env, s.tool, id);
    RecordedStart(env, key, id, s.tool, if s.root == "" then "" else env.repoId(s.root), agent, ctx);
    KeysDiffer(id);
  }

  lemma {:induction false} ClosedKeeps(env: Env, v: View, id: string, turnClass: TurnClass, signal: string,
      ctx: DecideContext)
    requires CanRecord(env, id) && Following(v, id) && turnClass != OtherClass
    ensures Following(Closed(env, v, id, turnClass, signal, ctx), id)
    ensures OpenFiles(Closed(env, v, id, turnClass, signal, ctx)) == []
  {
    hide Replay, Merge;
    var s, files := Replay(v.stream.events), OpenFiles(v);
    MergeNothing(s.touched);
    MergeNothing(Merge(s.touched, files));
    assert AgentFor(env, v.live.value.tool, id).Valid();
    ReplaySnoc(v.stream.events, TurnRecorded(s.id, Turn(|s.turns| + 1, turnClass, files, signal, ctx.now)));
  }

  lemma {:induction false} EditedKeeps(env: Env, v: View, id: string, files: seq<string>)
    requires v.live.Some?
    ensures Waiting(v) ==> Waiting(Edited(env, v, files))
    ensures Following(v, id) ==> Following(Edited(env, v, files), id)
  {
    hide Replay, Merge, Relative;
    var xs, t := Relative(env, v.live.value.root, files), OpenFiles(v);
    MergeIsAssociative(Replay(v.stream.events).touched, t, xs);
  }

  lemma {:induction false} PromptedFollows(env: Env, v: View, id: string, redirect: Option<string>, ctx: DecideContext)
    requires CanRecord(env, id) && v.live.Some? && (Waiting(v) || Following(v, id))
    ensures Following(Prompted(env, v, id, redirect, ctx), id)
  {
    hide Replay, Merge, Recorded;
    StartFollows(env, v, id, ctx);
    var u := Counted(Started(env, v, id, ctx));
    hide Started;
    if redirect.Some? {
      ClosedKeeps(env, u, id, Redirect, redirect.value, ctx);
    } else {
      ClosedKeeps(env, u, id, Accept, "", ctx);
    }
  }

  lemma {:induction false} StartFollows(env: Env, v: View, id: string, ctx: DecideContext)
    requires CanRecord(env, id) && v.live.Some? && (Waiting(v) || Following(v, id))
    ensures Following(Started(env, v, id, ctx), id)
  {
    hide Recorded;
    if Waiting(v) {
      StartedFollows(env, v, id, ctx);
    }
  }

  /** At the end the two lists are one. */
  ghost predicate Agreed(v: View) {
    v.live.Some? && v.live.value.touched == Replay(v.stream.events).touched && Replay(v.stream.events).state == Ended
  }

  lemma {:induction false} FinishedAgrees(env: Env, v: View, id: string, why: string, ctx: DecideContext)
    requires CanRecord(env, id) && Following(v, id)
    ensures Agreed(Finished(env, v, id, why, ctx))
  {
    hide Replay, Merge;
    var u := Closed(env, v, id, Accept, "", ctx);
    ClosedKeeps(env, v, id, Accept, "", ctx);
    hide Closed;
    var s := Replay(u.stream.events);
    MergeNothing(s.touched);
    assert AgentFor(env, u.live.value.tool, id).Valid();
    ReplaySnoc(u.stream.events, SessionEnded(s.id, why, env.fallback(s), ctx.now));
  }

  predicate Starts(kind: Kind) {
    kind.SessionStart? || kind.Prompt?
  }

  predicate Closes(kind: Kind) {
    kind.SessionEnd? || (kind.ToolResult? && kind.reverts)
  }

  /** All events are of this session, and nothing is closed before the session starts. */
  ghost predicate Orderly(id: string, evs: seq<(HookEvent, DecideContext)>) {
    && (forall i :: 0 <= i < |evs| ==> evs[i].0.session == id && evs[i].0.tool != "")
    && (forall i :: 0 <= i < |evs| && Closes(evs[i].0.kind) ==> exists j :: 0 <= j < i && Starts(evs[j].0.kind))
  }

  ghost predicate HasStarted(evs: seq<(HookEvent, DecideContext)>) {
    exists i :: 0 <= i < |evs| && Starts(evs[i].0.kind)
  }

  ghost predicate NoEnd(evs: seq<(HookEvent, DecideContext)>) {
    forall i :: 0 <= i < |evs| ==> !evs[i].0.kind.SessionEnd?
  }

  lemma {:induction false} HandledKeeps(env: Env, v: View, ev: HookEvent, ctx: DecideContext)
    requires CanRecord(env, ev.session) && ev.tool != "" && !ev.kind.SessionEnd?
    requires Waiting(v) || Following(v, ev.session)
    requires Closes(ev.kind) ==> Following(v, ev.session)
    ensures Waiting(v) && !Starts(ev.kind) && !Closes(ev.kind) ==> Waiting(Handled(env, v, ev, ctx))
    ensures Following(v, ev.session) || Starts(ev.kind) ==> Following(Handled(env, v, ev, ctx), ev.session)
  {
    hide Replay, Merge, Started, Closed, Edited, Prompted, Finished, Entered, Waiting, Following;
    var id, u := ev.session, Entered(env, v, ev);
    EnteredKeeps(env, v, ev);
    match ev.kind
    case SessionStart => StartFollows(env, u, id, ctx);
    case Prompt(redirect) => PromptedFollows(env, u, id, redirect, ctx);
    case PostEdit(files) => EditedKeeps(env, u, id, files);
    case ToolResult(reverts) =>
      if reverts {
        ClosedKeeps(env, u, id, Revert, "revert-command", ctx);
      }
    case _ =>
  }

  /** At every moment before the end, the remembered list is the replayed one followed by the open turn's files. */
  lemma {:induction false} WatchedFollows(env: Env, id: string, evs: seq<(HookEvent, DecideContext)>)
    requires CanRecord(env, id) && Orderly(id, evs) && NoEnd(evs)
    ensures if HasStarted(evs) then Following(Watched(env, evs), id) else Waiting(Watched(env, evs))
  {
    hide Handled, Waiting, Following, Replay;
    if evs == [] {
      UnseenWaits();
    } else {
      var n := |evs| - 1;
      var before := evs[..n];
      OrderlyPrefix(id, evs, n);
      WatchedFollows(env, id, before);
      assert Closes(evs[n].0.kind) ==> HasStarted(before);
      HandledKeeps(env, Watched(env, before), evs[n].0, evs[n].1);
      assert HasStarted(evs) <==> HasStarted(before) || Starts(evs[n].0.kind);
    }
  }

  lemma {:induction false} UnseenWaits()
    ensures Waiting(UNSEEN)
  {
  }

  lemma {:induction false} OrderlyPrefix(id: string, evs: seq<(HookEvent, DecideContext)>, n: nat)
    requires Orderly(id, evs) && n < |evs|
    ensures Orderly(id, evs[..n])
    ensures NoEnd(evs) ==> NoEnd(evs[..n])
    ensures Closes(evs[n].0.kind) ==> HasStarted(evs[..n])
    ensures n == |evs| - 1 ==> (HasStarted(evs) <==> HasStarted(evs[..n]) || Starts(evs[n].0.kind))
  {
    hide Starts, Closes;
    var before := evs[..n];
    assert forall i :: 0 <= i < n ==> before[i] == evs[i];
    forall i | 0 <= i < n && Closes(before[i].0.kind) ensures exists j :: 0 <= j < i && Starts(before[j].0.kind) {
      assert Closes(evs[i].0.kind);
      var j :| 0 <= j < i && Starts(evs[j].0.kind);
      assert Starts(before[j].0.kind);
    }
    if Closes(evs[n].0.kind) {
      var j :| 0 <= j < n && Starts(evs[j].0.kind);
      assert Starts(before[j].0.kind);
    }
    if n == |evs| - 1 && HasStarted(evs) {
      var j :| 0 <= j < |evs| && Starts(evs[j].0.kind);
      assert j < n ==> Starts(before[j].0.kind);
    }
    if HasStarted(before) {
      var j :| 0 <= j < n && Starts(before[j].0.kind);
      assert Starts(evs[j].0.kind);
    }
  }

  /**
   * One session handled one event at a time from its start to its end: whatever mix of prompts,
   * edits and reverts came in between, the list of touched files in memory is, as a sequence, the
   * list replayed from the ledger's turns.
   */
  lemma {:induction false} TouchedListsAgree(env: Env, id: string, evs: seq<(HookEvent, DecideContext)>)
    requires CanRecord(env, id) && Orderly(id, evs)
    requires evs != [] && evs[|evs| - 1].0.kind.SessionEnd? && NoEnd(evs[..|evs| - 1])
    ensures Agreed(Watched(env, evs))
  {
    hide Waiting, Following, Agreed, Replay, Finished, Entered;
    var n := |evs| - 1;
    var v, ev := Watched(env, evs[..n]), evs[n].0;
    OrderlyPrefix(id, evs, n);
    WatchedFollows(env, id, evs[..n]);
    EnteredKeeps(env, v, ev);
    FinishedAgrees(env, Entered(env, v, ev), id, ev.kind.why, evs[n].1);
  }

  // ---- the turns on the ledger, read off the events ----

  /** The class and signal with which an event closes a turn. */
  function Reaction(kind: Kind): Option<(TurnClass, string)> {
    match kind
    case Prompt(Some(signal)) => Some((Redirect, signal))
    case Prompt(None) => Some((Accept, ""))
    case ToolResult(true) => Some((Revert, "revert-command"))
    case SessionEnd(_) => Some((Accept, ""))
    case _ => None
  }

  /** The root the session has: that of the first event with a known directory. */
  function RootAfter(env: Env, evs: seq<(HookEvent, DecideContext)>): string {
    if evs == [] then ""
    else
      var ev, before := evs[|evs| - 1].0, RootAfter(env, evs[..|evs| - 1]);
      if before != "" || (ev.cwd == "" && |evs| > 1) || env.findRoot(ev.cwd).None? then before
      else env.findRoot(ev.cwd).value
  }

  /** The files edited inside the root since a turn was last closed, each once. */
  function FilesSince(env: Env, evs: seq<(HookEvent, DecideContext)>): seq<string> {
    if evs == [] then []
    else
      var kind, before := evs[|evs| - 1].0.kind, evs[..|evs| - 1];
      if Reaction(kind).Some? then []
      else if kind.PostEdit? then Merge(FilesSince(env, before), Relative(env, RootAfter(env, evs), kind.files))
      else FilesSince(env, before)
  }

  predicate Quiet(kind: Kind) {
    !kind.Prompt? && !kind.PostEdit?
  }

  /** A prompt, or the first edit of all, has opened a turn that no revert has closed since. */
  ghost predicate Opened(evs: seq<(HookEvent, DecideContext)>) {
    exists i :: 0 <= i < |evs| && Opens(evs, i) && forall j :: i < j < |evs| ==> !Closes(evs[j].0.kind)
  }

  ghost predicate Opens(evs: seq<(HookEvent, DecideContext)>, i: nat)
    requires i < |evs|
  {
    evs[i].0.kind.Prompt? || (evs[i].0.kind.PostEdit? && forall j :: 0 <= j < i ==> Quiet(evs[j].0.kind))
  }

  /** The turn an event leaves on the ledger: edits of any class, and a reaction to an open turn without any. */
  ghost function TurnOf(env: Env, before: seq<(HookEvent, DecideContext)>, kind: Kind)
    : seq<(TurnClass, seq<string>, string)>
  {
    match Reaction(kind)
    case None => []
    case Some((turnClass, signal)) =>
      var files := FilesSince(env, before);
      if files != [] || (turnClass != Accept && Opened(before)) then [(turnClass, files, signal)] else []
  }

  /** The turns of all the events, in order. */
  ghost function TurnsOf(env: Env, evs: seq<(HookEvent, DecideContext)>): seq<(TurnClass, seq<string>, string)> {
    if evs == [] then []
    else
      var n := |evs| - 1;
      TurnsOf(env, evs[..n]) + TurnOf(env, evs[..n], evs[n].0.kind)
  }

  function Shapes(turns: seq<Turn>): seq<(TurnClass, seq<string>, string)> {
    seq(|turns|, i requires 0 <= i < |turns| => (turns[i].turnClass, turns[i].files, turns[i].signal))
  }

  /** The view shows the root, the open turn and the recorded turns that the events leave. */
  ghost predicate Shows(env: Env, evs: seq<(HookEvent, DecideContext)>, v: View) {
    && (v.live.Some? <==> evs != []) && (v.live.Some? ==> v.live.value.root == RootAfter(env, evs))
    && OpenFiles(v) == FilesSince(env, evs)
    && (v.turn.None? <==> forall i :: 0 <= i < |evs| ==> Quiet(evs[i].0.kind))
    && (v.turn.Some? && v.turn.value.open <==> Opened(evs))
    && Shapes(Replay(v.stream.events).turns) == TurnsOf(env, evs)
  }

  lemma {:induction false} OpenedSnoc(evs: seq<(HookEvent, DecideContext)>)
    requires evs != []
    ensures var before, kind := evs[..|evs| - 1], evs[|evs| - 1].0.kind;
      Opened(evs) <==>
        || kind.Prompt?
        || (!Closes(kind) && Opened(before))
        || (kind.PostEdit? && forall i :: 0 <= i < |before| ==> Quiet(before[i].0.kind))
  {
    var n := |evs| - 1;
    var before, kind := evs[..n], evs[n].0.kind;
    if Opened(evs) {
      var i :| 0 <= i < |evs| && Opens(evs, i) && forall j :: i < j < |evs| ==> !Closes(evs[j].0.kind);
      if i < n {
        assert forall j :: 0 <= j < n ==> before[j] == evs[j];
        assert Opens(before, i);
      }
    }
    if Opened(before) && !Closes(kind) {
      var i :| 0 <= i < n && Opens(before, i) && forall j :: i < j < n ==> !Closes(before[j].0.kind);
      assert forall j :: 0 <= j < n ==> before[j] == evs[j];
      assert Opens(evs, i);
    }
    if kind.Prompt? || (kind.PostEdit? && forall i :: 0 <= i < |before| ==> Quiet(before[i].0.kind)) {
      assert forall j :: 0 <= j < n ==> before[j] == evs[j];
      assert Opens(evs, n);
    }
  }

  lemma {:induction false} ShapesSnoc(turns: seq<Turn>, t: Turn)
    ensures Shapes(turns + [t]) == Shapes(turns) + [(t.turnClass, t.files, t.signal)]
  {
  }

  /** What closing a turn leaves in the view. */
  lemma {:induction false} ClosedTurns(env: Env, v: View, id: string, turnClass: TurnClass, signal: string,
      ctx: DecideContext)
    requires CanRecord(env, id) && Following(v, id) && turnClass != OtherClass
    ensures var u, files := Closed(env, v, id, turnClass, signal, ctx), OpenFiles(v);
      var writes := files != [] || (turnClass != Accept && v.turn.Some? && v.turn.value.open);
      && u.live == v.live && OpenFiles(u) == [] && (u.turn.None? <==> v.turn.None?)
      && (u.turn.Some? ==> !u.turn.value.open)
      && Shapes(Replay(u.stream.events).turns) ==
           Shapes(Replay(v.stream.events).turns) + if writes then [(turnClass, files, signal)] else []
  {
    hide Replay, Merge;
    var s, files := Replay(v.stream.events), OpenFiles(v);
    assert AgentFor(env, v.live.value.tool, id).Valid();
    var t := Turn(|s.turns| + 1, turnClass, files, signal, ctx.now);
    ReplaySnoc(v.stream.events, TurnRecorded(s.id, t));
    ShapesSnoc(s.turns, t);
  }

  /** Starting records no turn. */
  lemma {:induction false} StartedTurns(env: Env, v: View, id: string, ctx: DecideContext)
    requires CanRecord(env, id) && v.live.Some? && (Waiting(v) || Following(v, id))
    ensures var u := Started(env, v, id, ctx);
      && u.turn == v.turn && u.live.Some? && u.live.value.root == v.live.value.root
      && Replay(u.stream.events).turns == Replay(v.stream.events).turns
  {
    if Waiting(v) {
      var s := v.live.value;
      var agent := AgentFor(env, s.tool, id);
      NothingTouched();
      hide Replay, Merge, Recorded, AgentFor;
      AgentIsValid(env, s.tool, id);
      RecordedStart(env, "session:start:" + id, id, s.tool, if s.root == "" then "" else env.repoId(s.root), agent,
        ctx);
    }
  }

  /** Ending the session records no turn after the one it closes. */
  lemma {:induction false} FinishedTurns(env: Env, v: View, id: string, why: string, ctx: DecideContext)
    requires CanRecord(env, id) && Following(v, id)
    ensures var u, w := Closed(env, v, id, Accept, "", ctx), Finished(env, v, id, why, ctx);
      && w.turn == u.turn && w.live.Some? && w.live.value.root == v.live.value.root
      && Replay(w.stream.events).turns == Replay(u.stream.events).turns
  {
    hide Replay, Merge;
    var u := Closed(env, v, id, Accept, "", ctx);
    ClosedKeeps(env, v, id, Accept, "", ctx);
    hide Closed;
    var s := Replay(u.stream.events);
    assert AgentFor(env, u.live.value.tool, id).Valid();
    ReplaySnoc(u.stream.events, SessionEnded(s.id, why, env.fallback(s), ctx.now));
  }

  lemma {:induction false} EnteredShows(env: Env, evs: seq<(HookEvent, DecideContext)>, v: View)
    requires evs != [] && Shows(env, evs[..|evs| - 1], v)
    ensures var u := Entered(env, v, evs[|evs| - 1].0);
      u.live.Some? && u.live.value.root == RootAfter(env, evs) && u.turn == v.turn && u.stream == v.stream
  {
    hide FilesSince, Opened, TurnsOf, Replay;
  }

  /** What the events say after one more. */
  lemma {:induction false} SaidSnoc(env: Env, evs: seq<(HookEvent, DecideContext)>)
    requires evs != []
    ensures var before, kind := evs[..|evs| - 1], evs[|evs| - 1].0.kind;
      && TurnsOf(env, evs) == TurnsOf(env, before) + TurnOf(env, before, kind)
      && FilesSince(env, evs) == (
           if Reaction(kind).Some? then []
           else if kind.PostEdit? then Merge(FilesSince(env, before), Relative(env, RootAfter(env, evs), kind.files))
           else FilesSince(env, before))
      && ((forall i :: 0 <= i < |evs| ==> Quiet(evs[i].0.kind)) <==>
            Quiet(kind) && forall i :: 0 <= i < |before| ==> Quiet(before[i].0.kind))
  {
    hide Merge, Relative, Opened;
    var n := |evs| - 1;
    if forall i :: 0 <= i < n ==> Quiet(evs[..n][i].0.kind) {
      assert forall i :: 0 <= i < n ==> evs[..n][i] == evs[i];
    }
  }

  /** One event keeps the view showing what the events say. */
  lemma {:induction false} HandledShows(env: Env, id: string, evs: seq<(HookEvent, DecideContext)>, v: View)
    requires evs != [] && CanRecord(env, id) && Shows(env, evs[..|evs| - 1], v)
    requires var (ev, ctx) := evs[|evs| - 1]; ev.session == id && ev.tool != ""
    requires Waiting(v) || Following(v, id)
    requires Closes(evs[|evs| - 1].0.kind) ==> Following(v, id)
    ensures Shows(env, evs, Handled(env, v, evs[|evs| - 1].0, evs[|evs| - 1].1))
  {
    hide Replay, Merge, Relative, Started, Closed, Prompted, Finished, Entered, Waiting, Following, TurnsOf, FilesSince;
    hide RootAfter, Opened, Shapes;
    var n := |evs| - 1;
    var before := evs[..n];
    var (ev, ctx) := evs[n];
    var u := Entered(env, v, ev);
    EnteredShows(env, evs, v);
    EnteredKeeps(env, v, ev);
    SaidSnoc(env, evs);
    OpenedSnoc(evs);
    match ev.kind
    case SessionStart => StartedTurns(env, u, id, ctx);
    case Prompt(redirect) => PromptedShows(env, u, id, redirect, ctx);
    case PostEdit(files) =>
    case ToolResult(reverts) =>
      if reverts {
        ClosedTurns(env, u, id, Revert, "revert-command", ctx);
      }
    case SessionEnd(why) =>
      ClosedTurns(env, u, id, Accept, "", ctx);
      FinishedTurns(env, u, id, why, ctx);
    case _ =>
  }

  lemma {:induction false} PromptedShows(env: Env, v: View, id: string, redirect: Option<string>, ctx: DecideContext)
    requires CanRecord(env, id) && v.live.Some? && (Waiting(v) || Following(v, id))
    ensures var u, files := Prompted(env, v, id, redirect, ctx), OpenFiles(v);
      var writes := files != [] || (redirect.Some? && v.turn.Some? && v.turn.value.open);
      && u.live.Some? && u.live.value.root == v.live.value.root && u.turn == Some(OpenTurn(true, []))
      && Shapes(Replay(u.stream.events).turns) ==
           Shapes(Replay(v.stream.events).turns) +
           if writes then [if redirect.Some? then (Redirect, files, redirect.value) else (Accept, files, "")] else []
  {
    hide Replay, Merge, Recorded, Shapes;
    StartFollows(env, v, id, ctx);
    StartedTurns(env, v, id, ctx);
    var u := Counted(Started(env, v, id, ctx));
    hide Started;
    if redirect.Some? {
      ClosedTurns(env, u, id, Redirect, redirect.value, ctx);
    } else {
      ClosedTurns(env, u, id, Accept, "", ctx);
    }
  }

  /**
   * One session handled one event at a time, up to its end or to any moment before: the turns on the
   * ledger are, in order, one for each prompt, revert or end that closed a turn with edits inside the
   * root, with just those files, and one for each redirect or revert that hit an open turn without
   * any; the class says which of them it was.
   */
  lemma {:induction false} TurnsAreRecorded(env: Env, id: string, evs: seq<(HookEvent, DecideContext)>)
    requires CanRecord(env, id) && Orderly(id, evs)
    requires forall i :: 0 <= i < |evs| - 1 ==> !evs[i].0.kind.SessionEnd?
    ensures Shapes(Replay(Watched(env, evs).stream.events).turns) == TurnsOf(env, evs)
    ensures Shows(env, evs, Watched(env, evs))
  {
    hide Handled, Waiting, Following, Replay, TurnsOf, FilesSince, Opened, Shapes;
    if evs == [] {
      NothingShown(env);
    } else {
      var n := |evs| - 1;
      OrderlyPrefix(id, evs, n);
      TurnsAreRecorded(env, id, evs[..n]);
      WatchedFollows(env, id, evs[..n]);
      HandledShows(env, id, evs, Watched(env, evs[..n]));
    }
  }

  lemma {:induction false} NothingShown(env: Env)
    ensures Shows(env, [], UNSEEN)
  {
  }

  // ---- who and what the session is ----

  function PromptCount(evs: seq<(HookEvent, DecideContext)>): nat {
    if evs == [] then 0
    else PromptCount(evs[..|evs| - 1]) + if evs[|evs| - 1].0.kind.Prompt? then 1 else 0
  }

  /** The root at the first event that started the session. */
  ghost function StartRoot(env: Env, evs: seq<(HookEvent, DecideContext)>): string {
    if evs == [] then ""
    else if HasStarted(evs[..|evs| - 1]) then StartRoot(env, evs[..|evs| - 1])
    else RootAfter(env, evs)
  }

  /** The session on the ledger is this session of this tool, agent and repository. */
  ghost predicate Describes(env: Env, s: Session, id: string, tool: string, root: string) {
    && s.id == id && s.tool == tool && s.agent == Actor(Agent, tool + ":" + id, "", env.owner)
    && s.repo == (if root == "" then "" else env.repoId(root))
  }

  /** What a record other than the start leaves of the session's identity. */
  lemma {:induction false} RecordedKeepsIdentity(env: Env, st: Stream, actor: Actor, key: string, m: Command,
      ctx: DecideContext)
    requires !m.Start?
    ensures var s, s' := Replay(st.events), Replay(Recorded(env, st, actor, key, m, ctx).events);
      && s'.id == s.id && s'.tool == s.tool && s'.agent == s.agent && s'.repo == s.repo
      && st.keys <= Recorded(env, st, actor, key, m, ctx).keys
  {
    hide Replay, Merge;
    var d := Decide(env.fallback, Replay(st.events), m, ctx);
    if d.Ok? && d.value != [] {
      assert d.value == [d.value[0]];
      ReplaySnoc(st.events, d.value[0]);
    }
  }

  lemma {:induction false} StartedDescribes(env: Env, v: View, id: string, ctx: DecideContext)
    requires CanRecord(env, id) && v.live.Some? && Waiting(v)
    ensures var s := v.live.value;
      && Describes(env, Replay(Started(env, v, id, ctx).stream.events), id, s.tool, s.root)
      && "session:start:" + id in Started(env, v, id, ctx).stream.keys
  {
    var s := v.live.value;
    var agent, root := AgentFor(env, s.tool, id), if s.root == "" then "" else env.repoId(s.root);
    AgentIsValid(env, s.tool, id);
    NothingTouched();
    hide Merge, AgentFor;
    var e := SessionStarted(id, s.tool, root, agent, ctx.now);
    ReplaySnoc([], e);
    assert [] + [e] == [e];
    hide Replay;
    assert Decide(env.fallback, NO_SESSION, Start(id, s.tool, root, agent), ctx) == Ok([e]);
  }

  lemma {:induction false} ClosedKeepsIdentity(env: Env, v: View, id: string, turnClass: TurnClass, signal: string,
      ctx: DecideContext)
    requires v.live.Some?
    ensures var u := Closed(env, v, id, turnClass, signal, ctx);
      && u.live == v.live && v.stream.keys <= u.stream.keys
      && forall tool, root :: Describes(env, Replay(v.stream.events), id, tool, root) ==>
           Describes(env, Replay(u.stream.events), id, tool, root)
  {
    hide Replay, Recorded, AgentFor;
    RecordedKeepsIdentity(env, v.stream, AgentFor(env, v.live.value.tool, id), "",
      RecordTurn(turnClass, OpenFiles(v), signal), ctx);
  }

  /** What is remembered and what is on the ledger belong to the session the events are of. */
  ghost predicate Identified(env: Env, id: string, evs: seq<(HookEvent, DecideContext)>, v: View) {
    && v.live.Some? && evs != []
    && v.live.value.tool == evs[0].0.tool && v.live.value.prompts == PromptCount(evs)
    && (v.live.value.ended <==> evs[|evs| - 1].0.kind.SessionEnd?)
    && v.live.value.reason == (if v.live.value.ended then evs[|evs| - 1].0.kind.why else "")
    && (HasStarted(evs) ==>
          && Describes(env, Replay(v.stream.events), id, evs[0].0.tool, StartRoot(env, evs))
          && "session:start:" + id in v.stream.keys)
  }

  lemma {:induction false} StartedKeepsLive(env: Env, v: View, id: string, ctx: DecideContext)
    requires v.live.Some?
    ensures var u := Started(env, v, id, ctx);
      && u.live.Some? && u.live.value == v.live.value.(recorded := u.live.value.recorded)
      && (v.live.value.recorded ==> u == v)
  {
  }

  lemma {:induction false} HandledIdentifies(env: Env, id: string, evs: seq<(HookEvent, DecideContext)>, v: View)
    requires evs != [] && CanRecord(env, id) && Shows(env, evs[..|evs| - 1], v)
    requires |evs| > 1 ==> Identified(env, id, evs[..|evs| - 1], v) && !v.live.value.ended
    requires var (ev, ctx) := evs[|evs| - 1]; ev.session == id && ev.tool != ""
    requires if HasStarted(evs[..|evs| - 1]) then Following(v, id) else Waiting(v)
    requires Closes(evs[|evs| - 1].0.kind) ==> HasStarted(evs[..|evs| - 1])
    requires HasStarted(evs) <==> HasStarted(evs[..|evs| - 1]) || Starts(evs[|evs| - 1].0.kind)
    ensures Identified(env, id, evs, Handled(env, v, evs[|evs| - 1].0, evs[|evs| - 1].1))
  {
    hide Replay, Merge, Relative, Started, Closed, Waiting, TurnsOf, FilesSince, RootAfter, Opened, Shapes, Recorded;
    hide Describes, HasStarted, Entered;
    var n := |evs| - 1;
    var before := evs[..n];
    var (ev, ctx) := evs[n];
    var u := Entered(env, v, ev);
    EnteredShows(env, evs, v);
    EnteredKeeps(env, v, ev);
    EnteredLive(env, evs, v);
    StartedKeepsLive(env, u, id, ctx);
    if HasStarted(before) {
      FollowingIsRecorded(u, id);
    } else {
      StartedDescribes(env, u, id, ctx);
    }
    var w := Started(env, u, id, ctx);
    assert n > 0 ==> before[0] == evs[0];
    assert PromptCount(evs) == PromptCount(before) + if ev.kind.Prompt? then 1 else 0;
    assert StartRoot(env, evs) == if HasStarted(before) then StartRoot(env, before) else RootAfter(env, evs);
    assert n > 0 ==> u.live.value.tool == evs[0].0.tool && u.live.value.prompts == PromptCount(before);
    assert HasStarted(before) ==> Describes(env, Replay(u.stream.events), id, evs[0].0.tool, StartRoot(env, evs));
    match ev.kind
    case Prompt(redirect) =>
      if redirect.Some? {
        ClosedKeepsIdentity(env, Counted(w), id, Redirect, redirect.value, ctx);
      } else {
        ClosedKeepsIdentity(env, Counted(w), id, Accept, "", ctx);
      }
    case ToolResult(reverts) => ClosedKeepsIdentity(env, u, id, Revert, "revert-command", ctx);
    case SessionEnd(why) => FinishedKeepsIdentity(env, u, id, why, ctx);
    case PostEdit(files) => assert HasStarted(evs) <==> HasStarted(before);
    case _ => assert !Starts(ev.kind) ==> (HasStarted(evs) <==> HasStarted(before));
  }

  lemma {:induction false} FinishedKeepsIdentity(env: Env, v: View, id: string, why: string, ctx: DecideContext)
    requires v.live.Some?
    ensures var u := Finished(env, v, id, why, ctx);
      && u.live == Some(v.live.value.(ended := true, reason := why)) && v.stream.keys <= u.stream.keys
      && forall tool, root :: Describes(env, Replay(v.stream.events), id, tool, root) ==>
           Describes(env, Replay(u.stream.events), id, tool, root)
  {
    hide Replay, Recorded, AgentFor, Closed;
    var u := Closed(env, v, id, Accept, "", ctx);
    ClosedKeepsIdentity(env, v, id, Accept, "", ctx);
    RecordedKeepsIdentity(env, u.stream, AgentFor(env, v.live.value.tool, id), "session:end:" + id, End(why, ""), ctx);
  }

  lemma {:induction false} FollowingIsRecorded(v: View, id: string)
    requires Following(v, id)
    ensures v.live.Some? && v.live.value.recorded
  {
  }

  lemma {:induction false} EnteredLive(env: Env, evs: seq<(HookEvent, DecideContext)>, v: View)
    requires evs != [] && Shows(env, evs[..|evs| - 1], v)
    ensures var u, ev := Entered(env, v, evs[|evs| - 1].0), evs[|evs| - 1].0;
      if |evs| == 1 then
        && u.live.value.tool == ev.tool && u.live.value.prompts == 0 && !u.live.value.ended
        && !u.live.value.recorded && u.live.value.reason == ""
      else v.live.Some? && u.live.value == v.live.value.(root := u.live.value.root)
  {
    hide FilesSince, Opened, TurnsOf, Replay, RootAfter;
  }

  /**
   * One session handled one event at a time: the prompts are counted, the tool is that of the first
   * event, the end and its reason are those of the last one, and once started the session on the
   * ledger carries the id, the tool, the agent of the two and the repository the first start saw, and
   * the key that keeps a second start out.
   */
  lemma {:induction false} SessionIsIdentified(env: Env, id: string, evs: seq<(HookEvent, DecideContext)>)
    requires CanRecord(env, id) && Orderly(id, evs) && evs != []
    requires forall i :: 0 <= i < |evs| - 1 ==> !evs[i].0.kind.SessionEnd?
    ensures Identified(env, id, evs, Watched(env, evs))
  {
    hide Handled, Waiting, Following, Shows, Describes, StartRoot, PromptCount, HasStarted, Replay;
    var n := |evs| - 1;
    OrderlyPrefix(id, evs, n);
    TurnsAreRecorded(env, id, evs[..n]);
    WatchedFollows(env, id, evs[..n]);
    if n > 0 {
      SessionIsIdentified(env, id, evs[..n]);
    }
    HandledIdentifies(env, id, evs, Watched(env, evs[..n]));
  }
}
