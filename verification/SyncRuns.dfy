/**
 * The push side of the sync protocol, step by step: daemons write their ledgers and push any of their
 * records in any order and any number of times, requests break off, the server writes records of its
 * own (internal/app/team.go, internal/app/sync.go).
 */
module SyncRuns {
  import opened Prelude
  import opened Envelopes
  import opened Ledgers
  import opened Team

  /** The server, each daemon's signer and the public key registered for it. */
  datatype Net = Net(srv: Server, signer: string -> Option<Bytes -> Option<Bytes>>, key: string -> string)

  datatype World = World(server: Log, locals: map<string, Log>)

  /** One event of a run. A push carries a request and how many of its records the server got through. */
  datatype Event =
    | LocalWrite(daemon: string, call: Call)
    | Push(pusher: Pusher, request: seq<Envelope>, processed: nat)
    | ServerWrite(own: Call)

  ghost predicate Allowed(net: Net, w: World, ev: Event) {
    match ev
    case LocalWrite(d, _) => d in w.locals
    case Push(p, request, processed) =>
      && p.daemon in w.locals && p.pub == net.key(p.daemon) && processed <= |SortBySeq(request)|
      && forall e :: e in request ==> e in w.locals[p.daemon]
    case ServerWrite(call) => forall e :: e in call.evs ==> e.origin.None?
  }

  function Next(net: Net, w: World, ev: Event): World
    requires ev.LocalWrite? ==> ev.daemon in w.locals
    requires ev.Push? ==> ev.processed <= |SortBySeq(ev.request)|
  {
    match ev
    case LocalWrite(d, call) =>
      w.(locals := w.locals[d := Try(Config(net.srv.cfg.c, net.signer(d)), w.locals[d], call)])
    case Push(p, request, processed) =>
      w.(server := PushAll(net.srv, p, w.server, SortBySeq(request)[..processed]).log)
    case ServerWrite(call) =>
      w.(server := Try(net.srv.cfg, w.server, call))
  }

  /** The verifier refuses an empty signature, as Ed25519 does. */
  ghost predicate RefusesEmpty(srv: Server) {
    forall pub, h :: !srv.verifySig(pub, h, [])
  }

  /** s is the server's re-chained copy of the daemon's record e. */
  ghost predicate Mirrors(c: Primitives, s: Envelope, e: Envelope) {
    && s.stream == e.stream && s.ver == e.ver && s.kind == e.kind && s.v == e.v && s.ts == e.ts
    && s.actor == e.actor && s.meta == e.meta && s.body == e.body && s.idem == e.idem && s.sig == e.sig
    && s.metaHash == e.metaHash && s.bodyHash == e.bodyHash
    && OriginHash(c, s) == e.hash
  }

  /** A synced record mirrors the daemon record it names, and the daemon's signature verifies from it. */
  ghost predicate MirrorOk(net: Net, locals: map<string, Log>, s: Envelope) {
    s.origin.Some? ==>
      var o := s.origin.value;
      && o.daemon in locals && 1 <= o.localSeq <= |locals[o.daemon]|
      && Mirrors(net.srv.cfg.c, s, locals[o.daemon][o.localSeq - 1])
      && net.srv.verifySig(net.key(o.daemon), OriginHash(net.srv.cfg.c, s), s.sig)
  }

  ghost predicate ServerOk(net: Net, locals: map<string, Log>, server: Log) {
    && WellFormed(net.srv.cfg.c, server)
    && OriginsDistinct(server)
    && forall i :: 0 <= i < |server| ==> MirrorOk(net, locals, server[i])
  }

  ghost predicate LocalsOk(c: Primitives, locals: map<string, Log>) {
    forall d :: d in locals ==> WellFormed(c, locals[d])
  }

  // ---- one record ----

  lemma {:induction false} CopyMirrors(c: Primitives, log: Log, daemon: string, e: Envelope, s: Envelope)
    requires Follows(c, log, s) && CopyOn(s, SyncCopy(daemon, e), e.stream) && s.ver == e.ver
    requires e.ts % 1000 == 0 && Verify(c, e, e.prevHash) == None && e.sig != []
    ensures Mirrors(c, s, e)
  {
    assert Microseconds(e.ts) == e.ts;
    assert s.bodyHash == e.bodyHash;
    assert MetaText(c, s) == MetaText(c, e);
  }

  lemma {:induction false} LocalRecord(c: Primitives, log: Log, e: Envelope)
    requires WellFormed(c, log) && e in log
    ensures 1 <= e.seqno <= |log| && log[e.seqno - 1] == e
    ensures e.ts % 1000 == 0 && Verify(c, e, e.prevHash) == None
    ensures 1 <= e.ver <= |StreamOf(log, e.stream)| && StreamOf(log, e.stream)[e.ver - 1] == e
  {
    var i :| 0 <= i < |log| && log[i] == e;
    assert Follows(c, log[..i], e);
    StreamAt(log, i);
  }

  lemma {:induction false} StreamAt(log: Log, i: nat)
    requires i < |log|
    ensures var k := |StreamOf(log[..i], log[i].stream)|;
      k < |StreamOf(log, log[i].stream)| && StreamOf(log, log[i].stream)[k] == log[i]
    decreases |log|
  {
    var n := |log| - 1;
    if i < n {
      assert log[..n][..i] == log[..i];
      StreamAt(log[..n], i);
    }
  }

  lemma {:induction false} ServerOkSnoc(net: Net, locals: map<string, Log>, server: Log, s: Envelope)
    requires ServerOk(net, locals, server) && Follows(net.srv.cfg.c, server, s)
    requires !HasUsedOrigin(server, s) && MirrorOk(net, locals, s)
    ensures ServerOk(net, locals, server + [s])
  {
    hide Follows, MirrorOk;
    WellFormedSnoc(net.srv.cfg.c, server, s);
    var l := server + [s];
    forall i, j | 0 <= i < j < |l| ensures !SameOrigin(l[i], l[j]) {
      if j < |server| {
        assert l[i] == server[i] && l[j] == server[j];
      } else {
        assert l[i] == server[i];
      }
    }
  }

  lemma {:induction false} RecordKeeps(net: Net, locals: map<string, Log>, server: Log, e: Envelope, code: Code)
    requires ServerOk(net, locals, server) && Record(net.srv, server, e, code).Ok?
    ensures ServerOk(net, locals, Record(net.srv, server, e, code).value)
  {
    hide ServerOk, Follows, Append;
    var s := AppendOne(net.srv.cfg, server, REJECTED_STREAM, ANY_VERSION, RejectionRecord(net.srv, e, code));
    ServerOkSnoc(net, locals, server, s);
  }

  lemma {:induction false} AcceptKeeps(net: Net, locals: map<string, Log>, server: Log, p: Pusher, e: Envelope)
    requires RefusesEmpty(net.srv)
    requires ServerOk(net, locals, server) && LocalsOk(net.srv.cfg.c, locals)
    requires p.daemon in locals && p.pub == net.key(p.daemon) && e in locals[p.daemon]
    requires Authenticate(net.srv, p, e).None? && AppendCopy(net.srv, p, server, e).Ok?
    ensures ServerOk(net, locals, AppendCopy(net.srv, p, server, e).value)
  {
    hide ServerOk, Follows, Append, Verify;
    LocalRecord(net.srv.cfg.c, locals[p.daemon], e);
    var s := AppendOne(net.srv.cfg, server, e.stream, e.ver - 1, SyncCopy(p.daemon, e));
    CopyMirrors(net.srv.cfg.c, server, p.daemon, e, s);
    ServerOkSnoc(net, locals, server, s);
  }

  lemma {:induction false} PushOneKeeps(net: Net, locals: map<string, Log>, server: Log, p: Pusher, e: Envelope)
    requires RefusesEmpty(net.srv)
    requires ServerOk(net, locals, server) && LocalsOk(net.srv.cfg.c, locals)
    requires p.daemon in locals && p.pub == net.key(p.daemon) && e in locals[p.daemon]
    ensures PushOne(net.srv, p, server, e).Ok? ==> ServerOk(net, locals, PushOne(net.srv, p, server, e).value.log)
  {
    hide ServerOk, Record, AppendCopy, Authorize, Authenticate, LocalsOk, OriginUsed, OriginSeq;
    if Authenticate(net.srv, p, e).None? && AppendCopy(net.srv, p, server, e).Ok? {
      AcceptKeeps(net, locals, server, p, e);
    }
    forall code | Record(net.srv, server, e, code).Ok?
      ensures ServerOk(net, locals, Record(net.srv, server, e, code).value)
    {
      RecordKeeps(net, locals, server, e, code);
    }
  }

  lemma {:induction false} PushAllKeeps(net: Net, locals: map<string, Log>, server: Log, p: Pusher, evs: seq<Envelope>)
    requires RefusesEmpty(net.srv)
    requires ServerOk(net, locals, server) && LocalsOk(net.srv.cfg.c, locals)
    requires p.daemon in locals && p.pub == net.key(p.daemon)
    requires forall e :: e in evs ==> e in locals[p.daemon]
    ensures ServerOk(net, locals, PushAll(net.srv, p, server, evs).log)
    decreases |evs|
  {
    hide ServerOk, PushOne, LocalsOk;
    if evs != [] {
      var n := |evs| - 1;
      assert forall e :: e in evs[..n] ==> e in evs;
      assert evs[n] in evs;
      PushAllKeeps(net, locals, server, p, evs[..n]);
      PushOneKeeps(net, locals, PushAll(net.srv, p, server, evs[..n]).log, p, evs[n]);
    }
  }

  // ---- one step ----

  /** Growing a daemon's ledger does not disturb what its synced copies mirror. */
  lemma {:induction false} LocalGrows(net: Net, locals: map<string, Log>, server: Log, d: string, l: Log)
    requires ServerOk(net, locals, server) && d in locals && locals[d] <= l
    ensures ServerOk(net, locals[d := l], server)
  {
    hide WellFormed, OriginsDistinct, Mirrors;
    forall i | 0 <= i < |server| ensures MirrorOk(net, locals[d := l], server[i]) {
      assert MirrorOk(net, locals, server[i]);
    }
  }

  lemma {:induction false} ServerWriteKeeps(net: Net, locals: map<string, Log>, server: Log, call: Call)
    requires ServerOk(net, locals, server)
    requires forall e :: e in call.evs ==> e.origin.None?
    ensures ServerOk(net, locals, Try(net.srv.cfg, server, call))
  {
    hide Append, Follows, Copies;
    if Append(net.srv.cfg, server, call.stream, call.expected, call.evs).Ok? {
      AppendKeeps(net.srv.cfg, server, call.stream, call.expected, call.evs);
      OriginsStayDistinct(net.srv.cfg, server, call.stream, call.expected, call.evs);
      var l := Append(net.srv.cfg, server, call.stream, call.expected, call.evs).value;
      forall i | 0 <= i < |l| ensures MirrorOk(net, locals, l[i]) {
        if i < |server| {
          assert l[i] == l[..|server|][i];
        } else {
          NoOrigin(server, l, call, i);
        }
      }
    }
  }

  lemma {:induction false} NoOrigin(log: Log, l: Log, call: Call, i: nat)
    requires Appended(log, l, call.stream, call.evs) && |log| <= i < |l|
    requires forall e :: e in call.evs ==> e.origin.None?
    ensures l[i].origin.None?
  {
    assert CopyOn(l[|log| + (i - |log|)], call.evs[i - |log|], call.stream);
    assert call.evs[i - |log|] in call.evs;
  }

  lemma {:induction false} LocalWriteKeeps(c: Primitives, cfg: Config, log: Log, call: Call)
    requires WellFormed(c, log) && cfg.c == c
    ensures WellFormed(c, Try(cfg, log, call)) && log <= Try(cfg, log, call)
  {
    hide Append, Follows;
    if Append(cfg, log, call.stream, call.expected, call.evs).Ok? {
      AppendKeeps(cfg, log, call.stream, call.expected, call.evs);
    }
  }

  lemma {:induction false} NextKeeps(net: Net, w: World, ev: Event)
    requires RefusesEmpty(net.srv) && Allowed(net, w, ev)
    requires ServerOk(net, w.locals, w.server) && LocalsOk(net.srv.cfg.c, w.locals)
    ensures var w' := Next(net, w, ev);
      ServerOk(net, w'.locals, w'.server) && LocalsOk(net.srv.cfg.c, w'.locals)
  {
    hide ServerOk, WellFormed, Try, PushAll;
    match ev
    case LocalWrite(d, call) =>
      LocalWriteKeeps(net.srv.cfg.c, Config(net.srv.cfg.c, net.signer(d)), w.locals[d], call);
      LocalGrows(net, w.locals, w.server, d, Try(Config(net.srv.cfg.c, net.signer(d)), w.locals[d], call));
    case Push(p, request, processed) =>
      SortIsStable(request);
      forall e | e in SortBySeq(request)[..processed] ensures e in w.locals[p.daemon] {
        assert e in multiset(SortBySeq(request));
        assert e in request;
      }
      PushAllKeeps(net, w.locals, w.server, p, SortBySeq(request)[..processed]);
    case ServerWrite(call) =>
      ServerWriteKeeps(net, w.locals, w.server, call);
  }

  /** Every record of the stream on the server was pushed by this daemon. */
  ghost predicate SoleWriter(server: Log, stream: string, daemon: string) {
    forall i :: 0 <= i < |server| && server[i].stream == stream ==>
      server[i].origin.Some? && server[i].origin.value.daemon == daemon
  }

  /** The server's stream is a copy of the first records of the daemon's stream. */
  ghost predicate MirrorPrefix(c: Primitives, server: Log, local: Log, stream: string) {
    && |StreamOf(server, stream)| <= |StreamOf(local, stream)|
    && forall k :: 0 <= k < |StreamOf(server, stream)| ==>
      Mirrors(c, StreamOf(server, stream)[k], StreamOf(local, stream)[k])
  }

  lemma {:induction false} SoleWriterPrefix(net: Net, locals: map<string, Log>, server: Log, stream: string, d: string)
    requires ServerOk(net, locals, server) && LocalsOk(net.srv.cfg.c, locals)
    requires d in locals && SoleWriter(server, stream, d)
    ensures MirrorPrefix(net.srv.cfg.c, server, locals[d], stream)
  {
    hide Follows, Mirrors;
    var c, local, s := net.srv.cfg.c, locals[d], StreamOf(server, stream);
    forall k | 0 <= k < |s|
      ensures k < |StreamOf(local, stream)| && Mirrors(c, s[k], StreamOf(local, stream)[k])
    {
      StreamOfMembers(server, stream, s[k]);
      MirrorInStream(net, locals, server, stream, k);
    }
    if |s| > 0 {
      StreamOfMembers(server, stream, s[|s| - 1]);
      MirrorInStream(net, locals, server, stream, |s| - 1);
    }
  }

  lemma {:induction false} MirrorInStream(net: Net, locals: map<string, Log>, server: Log, stream: string, k: nat)
    requires ServerOk(net, locals, server) && LocalsOk(net.srv.cfg.c, locals)
    requires k < |StreamOf(server, stream)| && StreamOf(server, stream)[k].origin.Some?
    ensures var d := StreamOf(server, stream)[k].origin.value.daemon;
      && d in locals && k < |StreamOf(locals[d], stream)|
      && Mirrors(net.srv.cfg.c, StreamOf(server, stream)[k], StreamOf(locals[d], stream)[k])
    ensures StreamOf(server, stream)[k] in server
  {
    hide Follows;
    var s := StreamOf(server, stream)[k];
    StreamVersions(net.srv.cfg.c, server, stream);
    StreamOfMembers(server, stream, s);
    var i :| 0 <= i < |server| && server[i] == s;
    assert MirrorOk(net, locals, server[i]);
    var o := s.origin.value;
    LocalRecord(net.srv.cfg.c, locals[o.daemon], locals[o.daemon][o.localSeq - 1]);
  }

  // ---- convergence ----

  lemma {:induction false} StreamPrefix(log: Log, stream: string, a: nat)
    requires a <= |log|
    ensures StreamOf(log[..a], stream) <= StreamOf(log, stream)
    decreases |log|
  {
    if a < |log| {
      var n := |log| - 1;
      StreamPrefix(log[..n], stream, a);
      assert log[..n][..a] == log[..a];
    } else {
      assert log[..a] == log;
    }
  }

  /** The record one version earlier on the stream has an earlier seq. */
  lemma {:induction false} Predecessor(c: Primitives, log: Log, e: Envelope)
    requires WellFormed(c, log) && e in log && e.ver > 1
    ensures 1 <= e.ver - 1 <= |StreamOf(log, e.stream)|
    ensures var q := StreamOf(log, e.stream)[e.ver - 2];
      q in log && q.seqno < e.seqno && q.ver == e.ver - 1 && q.stream == e.stream
  {
    hide Verify;
    LocalRecord(c, log, e);
    var a := e.seqno - 1;
    assert Follows(c, log[..a], log[a]);
    StreamPrefix(log, e.stream, a);
    var q := StreamOf(log, e.stream)[e.ver - 2];
    assert q == StreamOf(log[..a], e.stream)[e.ver - 2];
    StreamOfMembers(log[..a], e.stream, q);
    WellFormedPrefix(c, log, a);
    LocalRecord(c, log[..a], q);
    StreamVersions(c, log, e.stream);
  }

  /** The daemon and its ledger, in a good world, and a stream only it writes. */
  ghost predicate Sole(net: Net, locals: map<string, Log>, server: Log, p: Pusher, stream: string) {
    && RefusesEmpty(net.srv) && ServerOk(net, locals, server) && LocalsOk(net.srv.cfg.c, locals)
    && p.daemon in locals && p.pub == net.key(p.daemon)
    && stream != REJECTED_STREAM && SoleWriter(server, stream, p.daemon)
  }

  /** A record already synced is on the server's stream at its version. */
  lemma {:induction false} SyncedIsThere(net: Net, locals: map<string, Log>, server: Log, p: Pusher, e: Envelope)
    requires Sole(net, locals, server, p, e.stream) && e in locals[p.daemon]
    ensures OriginUsed(server, p.daemon, e.seqno) ==> |StreamOf(server, e.stream)| >= e.ver
  {
    hide Follows;
    LocalRecord(net.srv.cfg.c, locals[p.daemon], e);
    if OriginUsed(server, p.daemon, e.seqno) {
      var i :| 0 <= i < |server| && FromOrigin(server[i], p.daemon, e.seqno);
      assert MirrorOk(net, locals, server[i]);
      LocalRecord(net.srv.cfg.c, server, server[i]);
    }
  }

  /** The daemon's key of the next record is not on the server's copy of the stream yet. */
  lemma {:induction false} NextKeyIsFree(net: Net, locals: map<string, Log>, server: Log, p: Pusher, e: Envelope)
    requires Sole(net, locals, server, p, e.stream) && e in locals[p.daemon]
    requires |StreamOf(server, e.stream)| < e.ver
    ensures e.idem != "" ==> !IdemUsed(server, e.stream, e.idem)
  {
    hide Follows;
    var local := locals[p.daemon];
    LocalRecord(net.srv.cfg.c, local, e);
    forall i | 0 <= i < |server| && server[i].stream == e.stream ensures e.idem != "" ==> server[i].idem != e.idem {
      assert MirrorOk(net, locals, server[i]);
      LocalRecord(net.srv.cfg.c, server, server[i]);
      var o := server[i].origin.value;
      KeysDiffer(net.srv.cfg.c, local, o.localSeq - 1, e.seqno - 1);
    }
  }

  lemma {:induction false} KeysDiffer(c: Primitives, log: Log, i: nat, j: nat)
    requires WellFormed(c, log) && i < |log| && j < |log| && log[i].ver != log[j].ver
    ensures log[i].stream == log[j].stream && log[j].idem != "" ==> log[i].idem != log[j].idem
  {
    assert Follows(c, log[..j], log[j]) && Follows(c, log[..i], log[i]);
    if i < j {
      assert log[..j][i] == log[i];
    } else {
      assert log[..i][j] == log[j];
    }
  }

  lemma {:induction false} AppendCopyFits(net: Net, locals: map<string, Log>, server: Log, p: Pusher, e: Envelope)
    requires Sole(net, locals, server, p, e.stream) && e in locals[p.daemon]
    requires |StreamOf(server, e.stream)| == e.ver - 1 && !OriginUsed(server, p.daemon, e.seqno)
    ensures Refusal(server, e.stream, e.ver - 1, [SyncCopy(p.daemon, e)]).None?
  {
    hide Sole, Follows;
    NextKeyIsFree(net, locals, server, p, e);
    var evs := [SyncCopy(p.daemon, e)];
    assert !IdemClashAt(server, e.stream, evs, 0);
    assert !HasUsedOrigin(server, evs[0]);
  }

  /** Every record of the stream among evs is on the server's stream. */
  ghost predicate Covered(server: Log, stream: string, evs: seq<Envelope>) {
    forall e :: e in evs && e.stream == stream ==> e.ver <= |StreamOf(server, stream)|
  }

  lemma {:induction false} SoleAfter(net: Net, locals: map<string, Log>, server: Log, p: Pusher, stream: string,
      e: Envelope)
    requires Sole(net, locals, server, p, stream) && e in locals[p.daemon] && PushOne(net.srv, p, server, e).Ok?
    ensures var l := PushOne(net.srv, p, server, e).value.log;
      Sole(net, locals, l, p, stream) && |StreamOf(l, stream)| >= |StreamOf(server, stream)|
  {
    hide ServerOk, LocalsOk, RefusesEmpty, Append, Authenticate, Authorize, Follows, SoleWriter;
    PushOneKeeps(net, locals, server, p, e);
    if AppendCopy(net.srv, p, server, e).Ok? {
      var s := AppendOne(net.srv.cfg, server, e.stream, e.ver - 1, SyncCopy(p.daemon, e));
      SoleSnoc(server, stream, p.daemon, s);
    }
    forall code | Record(net.srv, server, e, code).Ok?
      ensures SoleWriter(Record(net.srv, server, e, code).value, stream, p.daemon)
      ensures |StreamOf(Record(net.srv, server, e, code).value, stream)| >= |StreamOf(server, stream)|
    {
      var s := AppendOne(net.srv.cfg, server, REJECTED_STREAM, ANY_VERSION, RejectionRecord(net.srv, e, code));
      SoleSnoc(server, stream, p.daemon, s);
    }
  }

  lemma {:induction false} SoleSnoc(server: Log, stream: string, d: string, s: Envelope)
    requires SoleWriter(server, stream, d)
    requires s.stream == stream ==> s.origin.Some? && s.origin.value.daemon == d
    ensures SoleWriter(server + [s], stream, d)
    ensures |StreamOf(server + [s], stream)| >= |StreamOf(server, stream)|
  {
    StreamOfSnoc(server, s, stream);
  }

  lemma {:induction false} CoverOne(net: Net, locals: map<string, Log>, server: Log, p: Pusher, e: Envelope)
    requires Sole(net, locals, server, p, e.stream) && e in locals[p.daemon] && Acceptable(net.srv, p, e)
    requires PushOne(net.srv, p, server, e).Ok? && |StreamOf(server, e.stream)| >= e.ver - 1
    ensures |StreamOf(PushOne(net.srv, p, server, e).value.log, e.stream)| >= e.ver
  {
    hide Sole, Authenticate, Authorize, Follows, SealOn, Refusal, Record;
    SyncedIsThere(net, locals, server, p, e);
    SoleAfter(net, locals, server, p, e.stream, e);
    if !OriginUsed(server, p.daemon, e.seqno) && |StreamOf(server, e.stream)| == e.ver - 1 {
      AppendCopyFits(net, locals, server, p, e);
      SealOnNoRefusal(net.srv.cfg, server, e.stream, [SyncCopy(p.daemon, e)]);
      assert AppendCopy(net.srv, p, server, e).Ok?;
      var s := AppendOne(net.srv.cfg, server, e.stream, e.ver - 1, SyncCopy(p.daemon, e));
      StreamOfSnoc(server, s, e.stream);
    }
  }

  /** Every local record of the stream up to this seq is on the server's stream. */
  ghost predicate CoveredUpTo(server: Log, local: Log, stream: string, cur: int) {
    forall e :: e in local && e.stream == stream && e.seqno <= cur ==> e.ver <= |StreamOf(server, stream)|
  }

  /** The stream's records among evs follow those up to cur without a gap. */
  ghost predicate NoGap(local: Log, stream: string, evs: seq<Envelope>, cur: int) {
    forall e, q ::
      e in evs && e.stream == stream && q in local && q.stream == stream && cur < q.seqno < e.seqno ==> q in evs
  }

  lemma {:induction false} CoverAll(net: Net, locals: map<string, Log>, server: Log, p: Pusher, stream: string,
      evs: seq<Envelope>, cur: int, n: nat)
    requires Sole(net, locals, server, p, stream) && Sorted(evs) && n <= |evs|
    requires forall e :: e in evs ==> e in locals[p.daemon]
    requires forall e :: e in evs && e.stream == stream ==> Acceptable(net.srv, p, e)
    requires CoveredUpTo(server, locals[p.daemon], stream, cur) && NoGap(locals[p.daemon], stream, evs, cur)
    requires !PushAll(net.srv, p, server, evs[..n]).failed
    ensures var l := PushAll(net.srv, p, server, evs[..n]).log;
      && Sole(net, locals, l, p, stream) && Covered(l, stream, evs[..n])
      && CoveredUpTo(l, locals[p.daemon], stream, cur)
    decreases n
  {
    hide Sole, PushOne, Acceptable, Follows, StreamOf;
    SoleParts(net, locals, server, p, stream);
    if n > 0 {
      var e := evs[n - 1];
      assert evs[..n][..n - 1] == evs[..n - 1];
      assert e in evs;
      CoverAll(net, locals, server, p, stream, evs, cur, n - 1);
      var l0 := PushAll(net.srv, p, server, evs[..n - 1]).log;
      var l := PushAll(net.srv, p, server, evs[..n]).log;
      SoleAfter(net, locals, l0, p, stream, e);
      if e.stream == stream {
        if e.ver > 1 {
          Predecessor(net.srv.cfg.c, locals[p.daemon], e);
          var q := StreamOf(locals[p.daemon], stream)[e.ver - 2];
          if q.seqno > cur {
            EarlierIsBefore(evs, n - 1, q);
          }
        }
        CoverOne(net, locals, l0, p, e);
      }
      assert evs[..n] == evs[..n - 1] + [e];
    }
  }

  /** A request of the daemon, however far it gets, takes nothing off the stream and brings no other writer. */
  lemma {:induction false} SoleAfterAll(net: Net, locals: map<string, Log>, server: Log, p: Pusher, stream: string,
      evs: seq<Envelope>)
    requires Sole(net, locals, server, p, stream) && forall e :: e in evs ==> e in locals[p.daemon]
    ensures var l := PushAll(net.srv, p, server, evs).log;
      Sole(net, locals, l, p, stream) && |StreamOf(l, stream)| >= |StreamOf(server, stream)|
    decreases |evs|
  {
    hide Sole, PushOne, StreamOf;
    SoleParts(net, locals, server, p, stream);
    if evs != [] {
      var n := |evs| - 1;
      assert forall e :: e in evs[..n] ==> e in evs;
      SoleAfterAll(net, locals, server, p, stream, evs[..n]);
      var r := PushAll(net.srv, p, server, evs[..n]);
      if !r.failed && PushOne(net.srv, p, r.log, evs[n]).Ok? {
        SoleAfter(net, locals, r.log, p, stream, evs[n]);
      }
    }
  }

  lemma {:induction false} SoleParts(net: Net, locals: map<string, Log>, server: Log, p: Pusher, stream: string)
    requires Sole(net, locals, server, p, stream)
    ensures p.daemon in locals && WellFormed(net.srv.cfg.c, locals[p.daemon])
  {
  }

  lemma {:induction false} SoleStream(net: Net, locals: map<string, Log>, server: Log, p: Pusher, stream: string)
    requires Sole(net, locals, server, p, stream)
    ensures stream != REJECTED_STREAM
  {
  }

  lemma {:induction false} EarlierIsBefore(evs: seq<Envelope>, i: nat, q: Envelope)
    requires Sorted(evs) && i < |evs| && q in evs && q.seqno < evs[i].seqno
    ensures q in evs[..i]
  {
    var j :| 0 <= j < |evs| && evs[j] == q;
    assert j < i;
    assert evs[..i][j] == q;
  }

  /**
   * One answered request: when the stream's records up to cur are on the server and the request
   * offers, all acceptable, those from there up to hi, then the records up to hi are on the server,
   * whatever was there before and whatever else the request holds.
   */
  lemma {:induction false} AnsweredPushCovers(net: Net, locals: map<string, Log>, server: Log, p: Pusher,
      stream: string, request: seq<Envelope>, cur: int, hi: int)
    requires Sole(net, locals, server, p, stream)
    requires forall e :: e in request ==> e in locals[p.daemon]
    requires forall e :: e in request && e.stream == stream ==> Acceptable(net.srv, p, e) && e.seqno <= hi
    requires forall e :: e in locals[p.daemon] && e.stream == stream && cur < e.seqno <= hi ==> e in request
    requires CoveredUpTo(server, locals[p.daemon], stream, cur)
    requires !PushAll(net.srv, p, server, SortBySeq(request)).failed
    ensures var l := PushAll(net.srv, p, server, SortBySeq(request)).log;
      Sole(net, locals, l, p, stream) && CoveredUpTo(l, locals[p.daemon], stream, hi)
  {
    hide Sole, Acceptable, PushAll, StreamOf;
    var evs := SortBySeq(request);
    SoleParts(net, locals, server, p, stream);
    SortIsStable(request);
    SortedMembers(request);
    hide SortBySeq, WithSeq;
    assert evs[..|evs|] == evs;
    CoverAll(net, locals, server, p, stream, evs, cur, |evs|);
  }

  /**
   * When every local record of a stream only this daemon writes is on the server, the server's stream is a
   * copy of it.
   */
  lemma {:induction false} CoveredIsCopied(net: Net, locals: map<string, Log>, server: Log, p: Pusher, stream: string)
    requires Sole(net, locals, server, p, stream)
    requires CoveredUpTo(server, locals[p.daemon], stream, |locals[p.daemon]|)
    ensures |StreamOf(server, stream)| == |StreamOf(locals[p.daemon], stream)|
    ensures MirrorPrefix(net.srv.cfg.c, server, locals[p.daemon], stream)
  {
    hide Follows, Mirrors;
    var local := locals[p.daemon];
    var s := StreamOf(local, stream);
    SoleWriterPrefix(net, locals, server, stream, p.daemon);
    StreamVersions(net.srv.cfg.c, local, stream);
    if s != [] {
      var last := s[|s| - 1];
      StreamOfMembers(local, stream, last);
      LocalRecord(net.srv.cfg.c, local, last);
    }
  }
}
