/** Session capture on the ledger itself: what one recorded command does to its stream (internal/app/hooks.go). */
module SessionStreams {
  import opened Prelude
  import opened Envelopes
  import opened Context
  import opened Ledgers
  import opened Team
  import opened Pipelines
  import ReadModels
  import Sessions
  import Hooks

  type Session = Sessions.Session
  type Encoder = Sessions.Event -> Payload
  type Decoder = Payload -> Option<Sessions.Event>

  /** A command with the identity every session command embeds. */
  datatype Command = Command(tool: string, id: string, idem: string, body: Sessions.Command)

  function Body(c: Command): Sessions.Command {
    if c.body.Start? then c.body.(id := c.id, tool := c.tool) else c.body
  }

  function SessionStream(c: Command): string {
    "session/" + c.tool + "/" + c.id
  }

  function TheAggregate(fallback: Session -> string, encode: Encoder,
      decode: Decoder): Aggregate<Session, Command, DecideContext, Sessions.Event> {
    Aggregate(
      (_: string) => Sessions.NO_SESSION, Sessions.Apply,
      (s: Session, c: Command, x: DecideContext) => ReadModels.ToDecision(Sessions.Decide(fallback, s, Body(c), x)),
      SessionStream, (c: Command) => c.idem, encode, decode)
  }

  ghost predicate HasKey(envs: Log, key: string) {
    exists i :: 0 <= i < |envs| && envs[i].idem == key
  }

  /** The ledger stream holds exactly these events and these keys. */
  ghost predicate Shows(decode: Decoder, envs: Log, st: Hooks.Stream) {
    && |envs| == |st.events|
    && (forall i :: 0 <= i < |envs| ==> decode(PayloadOf(envs[i])) == Some(st.events[i]))
    && forall key :: key in st.keys <==> key != "" && HasKey(envs, key)
  }

  lemma {:induction false} KeyOnStream(log: Log, stream: string, key: string)
    ensures HasKey(StreamOf(log, stream), key) <==> IdemUsed(log, stream, key)
  {
    var envs := StreamOf(log, stream);
    if i :| 0 <= i < |envs| && envs[i].idem == key {
      StreamOfMembers(log, stream, envs[i]);
    }
    if i :| 0 <= i < |log| && log[i].stream == stream && log[i].idem == key {
      StreamOfMembers(log, stream, log[i]);
    }
  }

  /** Loading the ledger stream and folding its events are one computation. */
  lemma {:induction false} LoadsSession(fallback: Session -> string, encode: Encoder, decode: Decoder, stream: string,
      envs: Log, events: seq<Sessions.Event>)
    requires |envs| == |events| && forall i :: 0 <= i < |envs| ==> decode(PayloadOf(envs[i])) == Some(events[i])
    ensures Replay(TheAggregate(fallback, encode, decode), stream, envs) == Some(Sessions.Replay(events))
    decreases |envs|
  {
    hide Sessions.Apply;
    if envs != [] {
      var n := |envs| - 1;
      LoadsSession(fallback, encode, decode, stream, envs[..n], events[..n]);
    }
  }

  /** A session decision is one event or none. */
  lemma {:induction false} OneEvent(fallback: Session -> string, s: Session, m: Sessions.Command, x: DecideContext)
    requires Sessions.Decide(fallback, s, m, x).Ok? && Sessions.Decide(fallback, s, m, x).value != []
    ensures |Sessions.Decide(fallback, s, m, x).value| == 1
  {
  }

  lemma {:induction false} ShowsOneMore(decode: Decoder, envs: Log, st: Hooks.Stream, s: Envelope, e: Sessions.Event,
      key: string)
    requires Shows(decode, envs, st) && decode(PayloadOf(s)) == Some(e) && s.idem == key
    ensures Shows(decode, envs + [s], Hooks.Stream(st.events + [e], if key == "" then st.keys else st.keys + {key}))
  {
    var all := envs + [s];
    forall k ensures HasKey(all, k) <==> HasKey(envs, k) || k == key {
      if i :| 0 <= i < |envs| && envs[i].idem == k {
        assert all[i].idem == k;
      }
      assert all[|envs|].idem == key;
    }
  }

  /** The append of one wrapped event to its own stream. */
  lemma {:induction false} AppendShows(fallback: Session -> string, encode: Encoder, decode: Decoder, cfg: Config,
      log: Log, c: Command, st: Hooks.Stream, e: Sessions.Event, stamp: Stamp)
    requires Lawful(TheAggregate(fallback, encode, decode)) && WellFormed(cfg.c, log)
    requires Shows(decode, StreamOf(log, SessionStream(c)), st)
    ensures var stream := SessionStream(c);
      var r := Append(cfg, log, stream, |StreamOf(log, stream)|,
        WrapAll(TheAggregate(fallback, encode, decode), [e], c.idem, stamp));
      r.Ok? ==>
        && Shows(decode, StreamOf(r.value, stream),
             Hooks.Stream(st.events + [e], if c.idem == "" then st.keys else st.keys + {c.idem}))
        && forall s :: s != stream ==> StreamOf(r.value, s) == StreamOf(log, s)
  {
    hide Append, WellFormed, Shows, Copies, SessionStream;
    var agg, stream := TheAggregate(fallback, encode, decode), SessionStream(c);
    var evs, n := WrapAll(agg, [e], c.idem, stamp), |StreamOf(log, stream)|;
    if Append(cfg, log, stream, n, evs).Ok? {
      var l := Append(cfg, log, stream, n, evs).value;
      AppendKeeps(cfg, log, stream, n, evs);
      AppendedLonger(log, l, stream, evs);
      AppendedBatch(log, l, stream, evs);
      var s := l[|log|..][0];
      assert l[|log|..] == [s];
      WrappedIsBack(agg, e, c.idem, stamp, s, stream);
      ShowsOneMore(decode, StreamOf(log, stream), st, s, e, c.idem);
    }
  }

  lemma {:induction false} WrappedIsBack(agg: Aggregate<Session, Command, DecideContext, Sessions.Event>,
      e: Sessions.Event, key: string, stamp: Stamp, s: Envelope, stream: string)
    requires Lawful(agg) && CopyOn(s, WrapAll(agg, [e], key, stamp)[0], stream)
    ensures agg.decode(PayloadOf(s)) == Some(e) && s.idem == key
  {
    assert PayloadOf(s) == agg.encode(e);
  }

  /** With a signer that never fails, a new key and the current version, the append succeeds. */
  lemma {:induction false} AppendWorks(fallback: Session -> string, encode: Encoder, decode: Decoder, cfg: Config,
      log: Log, c: Command, e: Sessions.Event, stamp: Stamp)
    requires AlwaysSigns(cfg) && encode(e).kind != "" && (c.idem == "" || !IdemUsed(log, SessionStream(c), c.idem))
    ensures var stream := SessionStream(c);
      Append(cfg, log, stream, |StreamOf(log, stream)|,
        WrapAll(TheAggregate(fallback, encode, decode), [e], c.idem, stamp)).Ok?
  {
    hide AlwaysSigns, Append, IdemUsed;
    var agg, stream := TheAggregate(fallback, encode, decode), SessionStream(c);
    var evs := WrapAll(agg, [e], c.idem, stamp);
    assert evs == [evs[0]];
    assert !HasUsedOrigin(log, evs[0]);
    AppendOneWorks(cfg, log, stream, |StreamOf(log, stream)|, evs[0]);
  }

  /** A new key never clashes. */
  lemma {:induction false} NoClash(fallback: Session -> string, encode: Encoder, decode: Decoder, cfg: Config, log: Log,
      c: Command, e: Sessions.Event, stamp: Stamp)
    requires c.idem == "" || !IdemUsed(log, SessionStream(c), c.idem)
    ensures var stream := SessionStream(c);
      var r := Append(cfg, log, stream, |StreamOf(log, stream)|,
        WrapAll(TheAggregate(fallback, encode, decode), [e], c.idem, stamp));
      r.Err? ==> r.error != DuplicateIdem
  {
    hide IdemUsed, SealOn;
    var stream, evs := SessionStream(c), WrapAll(TheAggregate(fallback, encode, decode), [e], c.idem, stamp);
    assert !IdemClash(log, stream, evs);
    SealOnNoRefusal(cfg, log, stream, evs);
  }

  /** Decide and append on the loaded session. */
  lemma {:induction false} ConcludedShows(env: Hooks.Env, encode: Encoder, decode: Decoder, cfg: Config, log: Log,
      st: Hooks.Stream, actor: Actor, c: Command, x: DecideContext, stamp: Stamp, rejection: string -> Bytes)
    requires env.capture && Lawful(TheAggregate(env.fallback, encode, decode)) && WellFormed(cfg.c, log)
    requires Shows(decode, StreamOf(log, SessionStream(c)), st) && actor.Valid()
    requires c.idem !in st.keys && (c.idem == "" || !IdemUsed(log, SessionStream(c), c.idem))
    ensures var (l, o) := Concluded(TheAggregate(env.fallback, encode, decode), cfg, log, c,
        Sessions.Replay(st.events), x, stamp, rejection);
      && Shows(decode, StreamOf(l, SessionStream(c)),
           if o.Failed? then st else Hooks.Recorded(env, st, actor, c.idem, Body(c), x))
      && (AlwaysSigns(cfg) && (forall e :: encode(e).kind != "") ==> !o.Failed?)
      && !o.Replayed?
      && forall s :: s != SessionStream(c) && s != REJECTED_STREAM ==> StreamOf(l, s) == StreamOf(log, s)
  {
    hide Append, WellFormed, Shows, AlwaysSigns, Sessions.Decide, Sessions.Replay, Refusing, IdemUsed;
    hide KeyVersion, SessionStream, Body;
    var agg, stream := TheAggregate(env.fallback, encode, decode), SessionStream(c);
    assert agg.stream(c) != REJECTED_STREAM;
    forall code ensures Refuses(cfg, log, RejectedAs(stamp, stream, rejection(code))) {
      RefusingKeeps(cfg, log, RejectedAs(stamp, stream, rejection(code)));
    }
    var d := Sessions.Decide(env.fallback, Sessions.Replay(st.events), Body(c), x);
    if d.Ok? && d.value != [] {
      OneEvent(env.fallback, Sessions.Replay(st.events), Body(c), x);
      assert d.value == [d.value[0]];
      AppendShows(env.fallback, encode, decode, cfg, log, c, st, d.value[0], stamp);
      NoClash(env.fallback, encode, decode, cfg, log, c, d.value[0], stamp);
      if AlwaysSigns(cfg) && (forall e :: encode(e).kind != "") {
        AppendWorks(env.fallback, encode, decode, cfg, log, c, d.value[0], stamp);
      }
    }
  }

  /**
   * A captured command is a pipeline call: on a ledger whose session stream shows the events and keys
   * of the capture model, the call leaves a ledger that shows what recording the command leaves,
   * unless it fails, and then the stream is as it was. It fails only through the signer. No other
   * stream moves but the Rejected one.
   */
  lemma {:induction false} RecordedIsHandled(env: Hooks.Env, encode: Encoder, decode: Decoder, cfg: Config, log: Log,
      st: Hooks.Stream, actor: Actor, c: Command, x: DecideContext, stamp: Stamp, rejection: string -> Bytes)
    requires env.capture && Lawful(TheAggregate(env.fallback, encode, decode)) && WellFormed(cfg.c, log)
    requires Shows(decode, StreamOf(log, SessionStream(c)), st)
    ensures var (l, o) := Handled(TheAggregate(env.fallback, encode, decode), cfg, log, c, actor.Valid(), x, stamp,
        rejection);
      && Shows(decode, StreamOf(l, SessionStream(c)),
           if o.Failed? then st else Hooks.Recorded(env, st, actor, c.idem, Body(c), x))
      && (AlwaysSigns(cfg) && (forall e :: encode(e).kind != "") ==> !o.Failed?)
      && forall s :: s != SessionStream(c) && s != REJECTED_STREAM ==> StreamOf(l, s) == StreamOf(log, s)
  {
    hide Concluded, WellFormed, Shows, AlwaysSigns, Sessions.Decide, Sessions.Replay, Refusing, Replay, IdemUsed;
    hide KeyVersion, SessionStream, Body;
    var agg, stream := TheAggregate(env.fallback, encode, decode), SessionStream(c);
    assert agg.stream(c) != REJECTED_STREAM;
    forall code ensures Refuses(cfg, log, RejectedAs(stamp, stream, rejection(code))) {
      RefusingKeeps(cfg, log, RejectedAs(stamp, stream, rejection(code)));
    }
    KeyOnStream(log, stream, c.idem);
    KeyIsShown(decode, StreamOf(log, stream), st, c.idem);
    SessionLoads(env, encode, decode, StreamOf(log, stream), stream, st);
    if actor.Valid() && c.idem !in st.keys {
      ConcludedShows(env, encode, decode, cfg, log, st, actor, c, x, stamp, rejection);
    }
  }

  lemma {:induction false} KeyIsShown(decode: Decoder, envs: Log, st: Hooks.Stream, key: string)
    requires Shows(decode, envs, st)
    ensures key in st.keys <==> key != "" && HasKey(envs, key)
  {
  }

  lemma {:induction false} SessionLoads(env: Hooks.Env, encode: Encoder, decode: Decoder, envs: Log, stream: string,
      st: Hooks.Stream)
    requires Shows(decode, envs, st)
    ensures Replay(TheAggregate(env.fallback, encode, decode), stream, envs) == Some(Sessions.Replay(st.events))
  {
    hide Replay, Sessions.Replay;
    LoadsSession(env.fallback, encode, decode, stream, envs, st.events);
  }

  /** Tools have no slash in their names, so every session has a stream of its own. */
  lemma {:induction false} StreamsAreOwn(c: Command, d: Command)
    requires '/' !in c.tool && '/' !in d.tool
    ensures SessionStream(c) == SessionStream(d) <==> c.tool == d.tool && c.id == d.id
    ensures Shareable(SessionStream(c)) && !TeamLayer(SessionStream(c))
  {
    var p := "session/";
    assert SessionStream(c) == p + (c.tool + "/" + c.id) && SessionStream(d) == p + (d.tool + "/" + d.id);
    if SessionStream(c) == SessionStream(d) {
      ReadModels.SameId(p, c.tool + "/" + c.id, d.tool + "/" + d.id);
      SlashSplits(c.tool, c.id, d.tool, d.id);
    }
    assert p <= SessionStream(c);
    NoPrefix(p, "constraint/", SessionStream(c), 0);
    NoPrefix(p, "decision/", SessionStream(c), 0);
    NoPrefix(p, "anchor/", SessionStream(c), 0);
    NoPrefix(p, "scope/", SessionStream(c), 1);
  }

  lemma {:induction false} NoPrefix(p: string, q: string, s: string, i: nat)
    requires p <= s && i < |p| && i < |q| && p[i] != q[i]
    ensures !(q <= s)
  {
    assert s[i] == p[i];
  }

  lemma {:induction false} SlashSplits(a: string, x: string, b: string, y: string)
    requires a + "/" + x == b + "/" + y && '/' !in a && '/' !in b
    ensures a == b && x == y
  {
    var s := a + "/" + x;
    assert s[|a|] == '/' && s[|b|] == '/';
    assert forall i :: 0 <= i < |a| ==> s[i] == a[i] && a[i] != '/';
    assert forall i :: 0 <= i < |b| ==> s[i] == b[i] && b[i] != '/';
    assert a == s[..|a|] && b == s[..|b|] && x == s[|a| + 1..] && y == s[|b| + 1..];
  }

  /** The start on a stream is of the session the stream is named after. */
  lemma {:induction false} StartNamesTheStream(fallback: Session -> string, s: Session, c: Command, x: DecideContext)
    requires c.body.Start? && Sessions.Decide(fallback, s, Body(c), x).Ok?
    requires Sessions.Decide(fallback, s, Body(c), x).value != []
    ensures var e := Sessions.Decide(fallback, s, Body(c), x).value[0];
      e.SessionStarted? && e.id == c.id && e.tool == c.tool && e.repo == c.body.repo && e.agent == c.body.agent
  {
  }
}
