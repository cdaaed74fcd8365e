/**
 * The sync protocol as one machine: any number of daemons, each with its ledger, its two cursors and
 * its cache, and one server. Ledgers are written, pages are pushed and pulled, requests break off,
 * replies are lost and cursors are reset, in any interleaving (internal/app/sync.go,
 * internal/app/team.go).
 */
module SyncProtocol {
  import opened Prelude
  import opened Envelopes
  import opened Ledgers
  import opened MemoryLedger
  import opened Team
  import opened Syncers
  import SyncRuns

  type Net = SyncRuns.Net
  type World = SyncRuns.World

  /** The network, the user each daemon is registered to, the caches' signers and the daemons' codec. */
  datatype Setup = Setup(
    net: Net, user: string -> string, cacheSigner: string -> Option<Bytes -> Option<Bytes>>,
    decodes: (string, int, Bytes) -> bool)

  /** What a daemon keeps besides its ledger. */
  datatype Daemon = Daemon(pushCursor: nat, pullCursor: nat, cache: Log)

  datatype State = State(world: World, daemons: map<string, Daemon>)

  /**
   * One step. Write is a local write, a server write or a push of any of a daemon's records. A pushed
   * page is processed up to some record and answered or not; a pulled page is cached up to some
   * record and finished or not. The sharing rule may differ from push to push.
   */
  datatype Step =
    | Write(ev: SyncRuns.Event)
    | PushPage(daemon: string, share: Envelope -> bool, size: int, processed: nat, answered: bool)
    | ResetPush(daemon: string, earlier: nat)
    | PullPage(daemon: string, size: int, k: nat, cached: Log, done: bool)
    | ResetPull(daemon: string, earlier: nat)

  function PusherOf(su: Setup, d: string): Pusher {
    Pusher(d, su.net.key(d), su.user(d))
  }

  function CacheConfig(su: Setup, d: string): Config {
    Config(su.net.srv.cfg.c, su.cacheSigner(d))
  }

  /** The page a push reads at its cursor, and the part of it that travels. */
  function PageAt(local: Log, cursor: nat, size: int): Log {
    ReadAllSpec(local, cursor + 1, size)
  }

  function OfferAt(local: Log, cursor: nat, size: int, share: Envelope -> bool): Log {
    Offer(PageAt(local, cursor, size), share)
  }

  predicate Known(st: State, d: string) {
    d in st.world.locals && d in st.daemons
  }

  ghost predicate Allowed(su: Setup, st: State, step: Step) {
    match step
    case Write(ev) => SyncRuns.Allowed(su.net, st.world, ev)
    case PushPage(d, share, size, processed, answered) =>
      && Known(st, d) && size > 0
      && var offer := OfferAt(st.world.locals[d], st.daemons[d].pushCursor, size, share);
         && processed <= |SortBySeq(offer)|
         && (answered ==>
               && processed == |SortBySeq(offer)|
               && !PushAll(su.net.srv, PusherOf(su, d), st.world.server, SortBySeq(offer)).failed)
    case ResetPush(d, n) => Known(st, d) && n <= st.daemons[d].pushCursor
    case PullPage(d, size, k, cached, done) =>
      && Known(st, d) && size > 0
      && Received(CacheConfig(su, d), su.decodes, d, st.daemons[d].cache,
           Page(st.world.server, st.daemons[d].pullCursor, size).events, k, cached, done)
    case ResetPull(d, n) => Known(st, d) && n <= st.daemons[d].pullCursor
  }

  /** The request a step sends or the write it makes. */
  function Effect(su: Setup, st: State, step: Step): SyncRuns.Event
    requires step.Write? || (step.PushPage? && Known(st, step.daemon))
  {
    match step
    case Write(ev) => ev
    case PushPage(d, share, size, processed, _) =>
      SyncRuns.Push(PusherOf(su, d), OfferAt(st.world.locals[d], st.daemons[d].pushCursor, size, share), processed)
  }

  ghost function Next(su: Setup, st: State, step: Step): State
    requires Allowed(su, st, step)
  {
    match step
    case Write(ev) => st.(world := SyncRuns.Next(su.net, st.world, ev))
    case PushPage(d, share, size, processed, answered) =>
      var cur := st.daemons[d].pushCursor;
      State(SyncRuns.Next(su.net, st.world, Effect(su, st, step)),
        if answered then st.daemons[d := st.daemons[d].(pushCursor := cur + |PageAt(st.world.locals[d], cur, size)|)]
        else st.daemons)
    case ResetPush(d, n) => st.(daemons := st.daemons[d := st.daemons[d].(pushCursor := n)])
    case PullPage(d, size, k, cached, done) =>
      var cur := st.daemons[d].pullCursor;
      st.(daemons := st.daemons[d := st.daemons[d].(cache := cached,
        pullCursor := if done then Page(st.world.server, cur, size).cursor else cur)])
    case ResetPull(d, n) => st.(daemons := st.daemons[d := st.daemons[d].(pullCursor := n)])
  }

  ghost predicate Fresh(st: State) {
    && st.world.server == [] && st.daemons.Keys == st.world.locals.Keys && SERVER_ORIGIN !in st.world.locals
    && forall d :: d in st.daemons ==> st.world.locals[d] == [] && st.daemons[d] == Daemon(0, 0, [])
  }

  /** The states of one run, from empty ledgers and caches; no daemon is named "server". */
  ghost predicate IsRun(su: Setup, sts: seq<State>, steps: seq<Step>) {
    && |sts| == |steps| + 1 && Fresh(sts[0])
    && forall i :: 0 <= i < |steps| ==> Allowed(su, sts[i], steps[i]) && sts[i + 1] == Next(su, sts[i], steps[i])
  }

  // ---- what every step keeps ----

  /** The cache is the team copy of a server prefix that reaches at least to the pull cursor. */
  ghost predicate CacheCovers(su: Setup, server: Log, d: string, dm: Daemon) {
    exists reach: nat :: dm.pullCursor <= reach && CacheOk(su.net.srv.cfg.c, dm.cache, server, reach, d)
  }

  ghost predicate Inv(su: Setup, st: State) {
    && SyncRuns.ServerOk(su.net, st.world.locals, st.world.server)
    && SyncRuns.LocalsOk(su.net.srv.cfg.c, st.world.locals)
    && st.daemons.Keys == st.world.locals.Keys && SERVER_ORIGIN !in st.world.locals
    && (forall d :: d in st.daemons ==> st.daemons[d].pushCursor <= |st.world.locals[d]|)
    && (forall d :: d in st.daemons ==> CacheCovers(su, st.world.server, d, st.daemons[d]))
  }

  /** Ledgers only grow, and no daemon comes or goes. */
  ghost predicate Grows(w: World, w': World) {
    && w.server <= w'.server && w'.locals.Keys == w.locals.Keys
    && forall d :: d in w.locals ==> w.locals[d] <= w'.locals[d]
  }

  /** What the push half proves of the server log is what the pull half needs of it. */
  lemma {:induction false} PushedServerIsGood(net: Net, locals: map<string, Log>, server: Log)
    requires SyncRuns.ServerOk(net, locals, server) && SERVER_ORIGIN !in locals
    ensures GoodServer(net.srv.cfg.c, server)
  {
    hide WellFormed, OriginsDistinct, SyncRuns.Mirrors;
    forall i | 0 <= i < |server| ensures !Own(server[i], SERVER_ORIGIN) {
      assert SyncRuns.MirrorOk(net, locals, server[i]);
    }
  }

  lemma {:induction false} TryGrows(cfg: Config, log: Log, call: Call)
    requires WellFormed(cfg.c, log)
    ensures log <= Try(cfg, log, call)
  {
    SyncRuns.LocalWriteKeeps(cfg.c, cfg, log, call);
  }

  lemma {:induction false} EffectKeeps(su: Setup, w: World, ev: SyncRuns.Event)
    requires SyncRuns.RefusesEmpty(su.net.srv) && SyncRuns.Allowed(su.net, w, ev)
    requires SyncRuns.ServerOk(su.net, w.locals, w.server) && SyncRuns.LocalsOk(su.net.srv.cfg.c, w.locals)
    ensures var w' := SyncRuns.Next(su.net, w, ev);
      && Grows(w, w')
      && SyncRuns.ServerOk(su.net, w'.locals, w'.server) && SyncRuns.LocalsOk(su.net.srv.cfg.c, w'.locals)
  {
    hide SyncRuns.ServerOk, WellFormed, Try, PushAll;
    SyncRuns.NextKeeps(su.net, w, ev);
    match ev
    case LocalWrite(d, call) => TryGrows(Config(su.net.srv.cfg.c, su.net.signer(d)), w.locals[d], call);
    case Push(p, request, processed) => AnswersMatch(su.net.srv, p, w.server, SortBySeq(request)[..processed]);
    case ServerWrite(call) => ServerGrowsBy(su.net, w, call);
  }

  lemma {:induction false} ServerGrowsBy(net: Net, w: World, call: Call)
    requires SyncRuns.ServerOk(net, w.locals, w.server)
    ensures w.server <= Try(net.srv.cfg, w.server, call)
  {
    hide WellFormed;
    TryGrows(net.srv.cfg, w.server, call);
  }

  /** A pushed page offers local records after the cursor. */
  lemma {:induction false} OfferIsLocal(c: Primitives, local: Log, cur: nat, size: int, share: Envelope -> bool)
    requires WellFormed(c, local) && cur <= |local| && size > 0
    ensures var hi := cur + |PageAt(local, cur, size)|;
      && hi <= |local|
      && (forall e :: e in OfferAt(local, cur, size, share) ==> e in local && cur < e.seqno <= hi)
      && (forall e :: e in local && cur < e.seqno <= hi && e.stream != REJECTED_STREAM && share(e) ==>
            e in OfferAt(local, cur, size, share))
  {
    hide Follows;
    var page := PageAt(local, cur, size);
    var hi := cur + |page|;
    OfferMembers(page, share);
    assert page == local[cur..hi];
    PageIsAhead(c, local, cur, page);
  }

  lemma {:induction false} EffectAllowed(su: Setup, st: State, step: Step)
    requires Allowed(su, st, step) && Inv(su, st) && (step.Write? || step.PushPage?)
    ensures SyncRuns.Allowed(su.net, st.world, Effect(su, st, step))
  {
    hide SyncRuns.ServerOk, WellFormed, CacheCovers, PageAt, OfferAt;
    if step.PushPage? {
      var local, cur := st.world.locals[step.daemon], st.daemons[step.daemon].pushCursor;
      OfferIsLocal(su.net.srv.cfg.c, local, cur, step.size, step.share);
    }
  }

  lemma {:induction false} CoversMore(su: Setup, server: Log, more: Log, d: string, dm: Daemon)
    requires CacheCovers(su, server, d, dm) && server <= more
    ensures CacheCovers(su, more, d, dm)
  {
    hide CacheOk;
    var reach: nat :| dm.pullCursor <= reach && CacheOk(su.net.srv.cfg.c, dm.cache, server, reach, d);
    ServerGrows(su.net.srv.cfg.c, dm.cache, server, more, reach, d);
  }

  lemma {:induction false} PullKeeps(su: Setup, st: State, step: Step)
    requires Inv(su, st) && step.PullPage? && Allowed(su, st, step)
    ensures CacheCovers(su, st.world.server, step.daemon, Next(su, st, step).daemons[step.daemon])
  {
    hide CacheOk, Received, GoodServer, Page, SyncRuns.ServerOk, SyncRuns.LocalsOk;
    var d, c, server := step.daemon, su.net.srv.cfg.c, st.world.server;
    var dm := st.daemons[d];
    PushedServerIsGood(su.net, st.world.locals, server);
    assert CacheCovers(su, server, d, dm);
    var reach: nat :| dm.pullCursor <= reach && CacheOk(c, dm.cache, server, reach, d);
    var r := PageKeeps(CacheConfig(su, d), su.decodes, d, dm.cache, server, reach, dm.pullCursor, step.size, step.k,
      step.cached, step.done);
  }

  lemma {:induction false} LowerCursor(su: Setup, server: Log, d: string, dm: Daemon, n: nat)
    requires CacheCovers(su, server, d, dm) && n <= dm.pullCursor
    ensures CacheCovers(su, server, d, dm.(pullCursor := n))
  {
    hide CacheOk;
  }

  lemma {:induction false} SamePull(su: Setup, server: Log, d: string, dm: Daemon, n: nat)
    requires CacheCovers(su, server, d, dm)
    ensures CacheCovers(su, server, d, dm.(pushCursor := n))
  {
    hide CacheOk;
  }

  lemma {:induction false} StepKeeps(su: Setup, st: State, step: Step)
    requires SyncRuns.RefusesEmpty(su.net.srv) && Inv(su, st) && Allowed(su, st, step)
    ensures Inv(su, Next(su, st, step)) && Grows(st.world, Next(su, st, step).world)
  {
    hide SyncRuns.ServerOk, SyncRuns.LocalsOk, CacheCovers, SyncRuns.Next, PushAll, Received, OfferAt, PageAt;
    var st' := Next(su, st, step);
    if step.Write? || step.PushPage? {
      EffectAllowed(su, st, step);
      EffectKeeps(su, st.world, Effect(su, st, step));
      CursorInLedger(su, st, step);
      forall d | d in st'.daemons ensures CacheCovers(su, st'.world.server, d, st'.daemons[d]) {
        CoversMore(su, st.world.server, st'.world.server, d, st.daemons[d]);
        SamePull(su, st'.world.server, d, st.daemons[d], st'.daemons[d].pushCursor);
      }
    } else if step.PullPage? {
      PullKeeps(su, st, step);
    } else if step.ResetPull? {
      LowerCursor(su, st.world.server, step.daemon, st.daemons[step.daemon], step.earlier);
    } else {
      SamePull(su, st.world.server, step.daemon, st.daemons[step.daemon], step.earlier);
    }
  }

  lemma {:induction false} CursorInLedger(su: Setup, st: State, step: Step)
    requires Inv(su, st) && Allowed(su, st, step) && (step.Write? || step.PushPage?)
    requires Grows(st.world, Next(su, st, step).world)
    ensures forall d :: d in st.daemons ==>
      Next(su, st, step).daemons[d].pushCursor <= |Next(su, st, step).world.locals[d]|
  {
    hide SyncRuns.ServerOk, WellFormed, CacheCovers, SyncRuns.Next, PushAll, OfferAt, PageAt;
    if step.PushPage? {
      OfferIsLocal(su.net.srv.cfg.c, st.world.locals[step.daemon], st.daemons[step.daemon].pushCursor, step.size,
        step.share);
    }
  }

  lemma {:induction false} FreshIsOk(su: Setup, st: State)
    requires Fresh(st)
    ensures Inv(su, st)
  {
    forall d | d in st.daemons ensures CacheCovers(su, st.world.server, d, st.daemons[d]) {
      assert st.world.server[..0] == [];
      assert Items([]) == [];
      assert CacheOk(su.net.srv.cfg.c, [], st.world.server, 0, d);
    }
  }

  lemma {:induction false} RunInv(su: Setup, sts: seq<State>, steps: seq<Step>, n: nat)
    requires SyncRuns.RefusesEmpty(su.net.srv) && IsRun(su, sts, steps) && n < |sts|
    ensures Inv(su, sts[n])
  {
    hide Inv, Allowed, Next;
    if n == 0 {
      FreshIsOk(su, sts[0]);
    } else {
      RunInv(su, sts, steps, n - 1);
      StepKeeps(su, sts[n - 1], steps[n - 1]);
    }
  }

  /**
   * Safety at every moment of every run: each (daemon, local seq) is on the server at most once;
   * server stream versions are 1, 2, ...; each synced record keeps the daemon's version, hashes,
   * body and signature and still verifies under the daemon's key; and a stream written by one
   * daemon only is a copy of the first records of that daemon's stream.
   */
  lemma {:induction false} SyncSafety(su: Setup, sts: seq<State>, steps: seq<Step>, n: nat)
    requires SyncRuns.RefusesEmpty(su.net.srv) && IsRun(su, sts, steps) && n < |sts|
    ensures var w := sts[n].world;
      && (forall i, j :: 0 <= i < j < |w.server| ==> !SameOrigin(w.server[i], w.server[j]))
      && (forall s, k :: 0 <= k < |StreamOf(w.server, s)| ==> StreamOf(w.server, s)[k].ver == k + 1)
      && (forall i :: 0 <= i < |w.server| ==> SyncRuns.MirrorOk(su.net, w.locals, w.server[i]))
      && (forall stream, d :: d in w.locals && SyncRuns.SoleWriter(w.server, stream, d) ==>
            SyncRuns.MirrorPrefix(su.net.srv.cfg.c, w.server, w.locals[d], stream))
  {
    hide IsRun, Follows, SyncRuns.Mirrors, CacheCovers;
    var w := sts[n].world;
    RunInv(su, sts, steps, n);
    RunFacts(su.net.srv.cfg.c, w.server);
    forall stream, d | d in w.locals && SyncRuns.SoleWriter(w.server, stream, d)
      ensures SyncRuns.MirrorPrefix(su.net.srv.cfg.c, w.server, w.locals[d], stream)
    {
      SyncRuns.SoleWriterPrefix(su.net, w.locals, w.server, stream, d);
    }
  }

  // ---- what a push cursor promises ----

  /** Every push of this daemon so far let the stream's records through. */
  ghost predicate AlwaysShared(steps: seq<Step>, d: string, stream: string) {
    forall i :: 0 <= i < |steps| && steps[i].PushPage? && steps[i].daemon == d ==> Passes(steps[i].share, stream)
  }

  /** A stream only this daemon writes, whose records the server accepts from it. */
  ghost predicate Qualifies(su: Setup, w: World, d: string, stream: string) {
    && d in w.locals && stream != REJECTED_STREAM && SyncRuns.SoleWriter(w.server, stream, d)
    && forall e :: e in w.locals[d] && e.stream == stream ==> Acceptable(su.net.srv, PusherOf(su, d), e)
  }

  lemma {:induction false} QualifiedBefore(su: Setup, w: World, w': World, d: string, stream: string)
    requires Grows(w, w') && Qualifies(su, w', d, stream)
    ensures Qualifies(su, w, d, stream)
  {
    hide Acceptable;
    forall i | 0 <= i < |w.server| && w.server[i].stream == stream
      ensures w.server[i].origin.Some? && w.server[i].origin.value.daemon == d
    {
      assert w'.server[i] == w.server[i];
    }
    assert forall e :: e in w.locals[d] ==> e in w'.locals[d];
  }

  lemma {:induction false} CoverGrows(w: World, w': World, d: string, stream: string, cur: nat)
    requires Grows(w, w') && d in w.locals && cur <= |w.locals[d]|
    requires SyncRuns.CoveredUpTo(w.server, w.locals[d], stream, cur)
    requires forall i :: 0 <= i < |w'.locals[d]| ==> w'.locals[d][i].seqno == i + 1
    ensures SyncRuns.CoveredUpTo(w'.server, w'.locals[d], stream, cur)
  {
    SyncRuns.StreamPrefix(w'.server, stream, |w.server|);
    assert w'.server[..|w.server|] == w.server;
    forall e | e in w'.locals[d] && e.stream == stream && e.seqno <= cur
      ensures e.ver <= |StreamOf(w'.server, stream)| {
      var i :| 0 <= i < |w'.locals[d]| && w'.locals[d][i] == e;
      assert w.locals[d][i] == e;
    }
  }

  lemma {:induction false} SoleWhenQualified(su: Setup, st: State, d: string, stream: string)
    requires SyncRuns.RefusesEmpty(su.net.srv) && Inv(su, st) && Qualifies(su, st.world, d, stream)
    ensures SyncRuns.Sole(su.net, st.world.locals, st.world.server, PusherOf(su, d), stream)
  {
    hide SyncRuns.ServerOk, SyncRuns.LocalsOk, CacheCovers, Acceptable, SyncRuns.SoleWriter;
  }

  /** The state after an answered page. */
  lemma {:induction false} AnsweredNext(su: Setup, st: State, step: Step)
    requires step.PushPage? && step.answered && Allowed(su, st, step)
    ensures var d, st' := step.daemon, Next(su, st, step);
      var local, cur := st.world.locals[d], st.daemons[d].pushCursor;
      var run := PushAll(su.net.srv, PusherOf(su, d), st.world.server,
        SortBySeq(OfferAt(local, cur, step.size, step.share)));
      && !run.failed && st'.world == SyncRuns.World(run.log, st.world.locals)
      && d in st'.daemons && st'.daemons[d].pushCursor == cur + |PageAt(local, cur, step.size)|
  {
    hide PushAll, OfferAt, PageAt;
    var local, cur := st.world.locals[step.daemon], st.daemons[step.daemon].pushCursor;
    var evs := SortBySeq(OfferAt(local, cur, step.size, step.share));
    assert evs[..step.processed] == evs;
  }

  /** An answered page moves the cursor over records that are on the server. */
  lemma {:induction false} PageCovers(su: Setup, st: State, step: Step, stream: string)
    requires SyncRuns.RefusesEmpty(su.net.srv) && Inv(su, st) && step.PushPage? && step.answered
    requires Allowed(su, st, step)
    requires Passes(step.share, stream) && Qualifies(su, st.world, step.daemon, stream)
    requires SyncRuns.CoveredUpTo(st.world.server, st.world.locals[step.daemon], stream,
      st.daemons[step.daemon].pushCursor)
    ensures var st' := Next(su, st, step);
      && step.daemon in st'.world.locals && step.daemon in st'.daemons
      && SyncRuns.CoveredUpTo(st'.world.server, st'.world.locals[step.daemon], stream,
        st'.daemons[step.daemon].pushCursor)
  {
    SoleWhenQualified(su, st, step.daemon, stream);
    AnsweredNext(su, st, step);
    LocalIsOk(su, st, step.daemon);
    InLedger(su, st, step.daemon);
    hide Inv, Next, Allowed, PushAll, OfferAt, PageAt, Acceptable, SyncRuns.CoveredUpTo, SyncRuns.Sole;
    hide SyncRuns.SoleWriter;
    var d, w := step.daemon, st.world;
    var local, cur := w.locals[d], st.daemons[d].pushCursor;
    OfferIsLocal(su.net.srv.cfg.c, local, cur, step.size, step.share);
    SyncRuns.AnsweredPushCovers(su.net, w.locals, w.server, PusherOf(su, d), stream,
      OfferAt(local, cur, step.size, step.share), cur, cur + |PageAt(local, cur, step.size)|);
  }

  lemma {:induction false} LocalIsOk(su: Setup, st: State, d: string)
    requires Inv(su, st) && d in st.world.locals
    ensures WellFormed(su.net.srv.cfg.c, st.world.locals[d]) && d in st.daemons
    ensures forall i :: 0 <= i < |st.world.locals[d]| ==> st.world.locals[d][i].seqno == i + 1
  {
    hide SyncRuns.ServerOk;
    RunFacts(su.net.srv.cfg.c, st.world.locals[d]);
  }

  lemma {:induction false} CoverStep(su: Setup, st: State, step: Step, d: string, stream: string)
    requires SyncRuns.RefusesEmpty(su.net.srv) && Inv(su, st) && Allowed(su, st, step)
    requires d in st.daemons && (step.PushPage? && step.daemon == d ==> Passes(step.share, stream))
    requires Qualifies(su, st.world, d, stream)
    requires SyncRuns.CoveredUpTo(st.world.server, st.world.locals[d], stream, st.daemons[d].pushCursor)
    ensures var st' := Next(su, st, step);
      && d in st'.daemons && d in st'.world.locals
      && SyncRuns.CoveredUpTo(st'.world.server, st'.world.locals[d], stream, st'.daemons[d].pushCursor)
  {
    hide Inv, SyncRuns.Next, Qualifies, PushAll, Received, OfferAt, PageAt, SyncRuns.CoveredUpTo;
    var st' := Next(su, st, step);
    StepKeeps(su, st, step);
    InLedger(su, st, d);
    LocalIsOk(su, st', d);
    if step.PushPage? && step.daemon == d && step.answered {
      PageCovers(su, st, step, stream);
    } else {
      CoverGrows(st.world, st'.world, d, stream, st.daemons[d].pushCursor);
      CoverLess(st'.world, d, stream, st.daemons[d].pushCursor, st'.daemons[d].pushCursor);
    }
  }

  lemma {:induction false} InLedger(su: Setup, st: State, d: string)
    requires Inv(su, st) && d in st.daemons
    ensures d in st.world.locals && st.daemons[d].pushCursor <= |st.world.locals[d]|
  {
  }

  lemma {:induction false} CoverLess(w: World, d: string, stream: string, cur: nat, less: nat)
    requires d in w.locals && SyncRuns.CoveredUpTo(w.server, w.locals[d], stream, cur) && less <= cur
    ensures SyncRuns.CoveredUpTo(w.server, w.locals[d], stream, less)
  {
  }

  /**
   * At every moment of every run, for a stream that only this daemon writes, whose records its pushes
   * let through and the server accepts: every local record up to the push cursor is on the server.
   */
  lemma {:induction false} CursorIsCovered(su: Setup, sts: seq<State>, steps: seq<Step>, n: nat, d: string,
      stream: string)
    requires SyncRuns.RefusesEmpty(su.net.srv) && IsRun(su, sts, steps) && n < |sts|
    requires d in sts[n].daemons && AlwaysShared(steps[..n], d, stream) && Qualifies(su, sts[n].world, d, stream)
    ensures d in sts[n].world.locals
    ensures SyncRuns.CoveredUpTo(sts[n].world.server, sts[n].world.locals[d], stream, sts[n].daemons[d].pushCursor)
  {
    hide Inv, Allowed, Next, Qualifies, Passes, SyncRuns.CoveredUpTo;
    RunInv(su, sts, steps, n);
    if n == 0 {
      NothingToCover(sts[0], d, stream);
    } else {
      var st, step := sts[n - 1], steps[n - 1];
      assert sts[n - 1 + 1] == Next(su, st, step);
      RunInv(su, sts, steps, n - 1);
      StepKeeps(su, st, step);
      QualifiedBefore(su, st.world, sts[n].world, d, stream);
      KnownBefore(su, st, sts[n], d);
      assert forall i :: 0 <= i < n - 1 ==> steps[..n - 1][i] == steps[..n][i];
      assert steps[..n][n - 1] == step;
      CursorIsCovered(su, sts, steps, n - 1, d, stream);
      CoverStep(su, st, step, d, stream);
    }
  }

  lemma {:induction false} NothingToCover(st: State, d: string, stream: string)
    requires Fresh(st) && d in st.daemons
    ensures d in st.world.locals
      && SyncRuns.CoveredUpTo(st.world.server, st.world.locals[d], stream, st.daemons[d].pushCursor)
  {
  }

  lemma {:induction false} KnownBefore(su: Setup, st: State, st': State, d: string)
    requires Inv(su, st) && Inv(su, st') && Grows(st.world, st'.world) && d in st'.daemons
    ensures d in st.daemons
  {
  }

  /**
   * Convergence over whole runs: with the push cursor at the head of its ledger, the server's copy of
   * such a stream is the whole stream, record for record, however the run got there.
   */
  lemma {:induction false} PushesConverge(su: Setup, sts: seq<State>, steps: seq<Step>, n: nat, d: string,
      stream: string)
    requires SyncRuns.RefusesEmpty(su.net.srv) && IsRun(su, sts, steps) && n < |sts|
    requires d in sts[n].daemons && AlwaysShared(steps[..n], d, stream) && Qualifies(su, sts[n].world, d, stream)
    ensures d in sts[n].world.locals
    ensures var w := sts[n].world;
      && SyncRuns.MirrorPrefix(su.net.srv.cfg.c, w.server, w.locals[d], stream)
      && (sts[n].daemons[d].pushCursor == |w.locals[d]| ==>
            |StreamOf(w.server, stream)| == |StreamOf(w.locals[d], stream)|)
  {
    hide IsRun, SyncRuns.CoveredUpTo, SyncRuns.ServerOk, SyncRuns.LocalsOk, CacheCovers, Acceptable;
    hide SyncRuns.MirrorPrefix;
    RunInv(su, sts, steps, n);
    var w := sts[n].world;
    SyncRuns.SoleWriterPrefix(su.net, w.locals, w.server, stream, d);
    CursorIsCovered(su, sts, steps, n, d, stream);
    if sts[n].daemons[d].pushCursor == |w.locals[d]| {
      SyncRuns.CoveredIsCopied(su.net, w.locals, w.server, PusherOf(su, d), stream);
    }
  }

  // ---- what a cache holds ----

  /** A daemon's own record as other daemons see it. */
  function LocalItem(d: string, e: Envelope): Item {
    Item(d, e.seqno, e.stream, e.kind, e.v, e.ts, e.actor, e.meta, e.body, e.idem)
  }

  /** The item is what the daemon it names wrote, or what the server itself wrote. */
  ghost predicate Genuine(w: World, x: Item) {
    if x.daemon == SERVER_ORIGIN then
      1 <= x.localSeq <= |w.server| && w.server[x.localSeq - 1].origin.None? && ItemOf(w.server[x.localSeq - 1]) == x
    else
      && x.daemon in w.locals && 1 <= x.localSeq <= |w.locals[x.daemon]|
      && LocalItem(x.daemon, w.locals[x.daemon][x.localSeq - 1]) == x
  }

  lemma {:induction false} ServerItemIsGenuine(su: Setup, st: State, i: nat)
    requires Inv(su, st) && i < |st.world.server|
    ensures Genuine(st.world, ItemOf(st.world.server[i]))
  {
    hide CacheCovers, Verify, OriginsDistinct;
    var w, c := st.world, su.net.srv.cfg.c;
    var s := w.server[i];
    SeqAt(c, w.server, i);
    assert SyncRuns.MirrorOk(su.net, w.locals, s);
    if s.origin.Some? {
      var o := s.origin.value;
      LocalIsOk(su, st, o.daemon);
    }
  }

  /**
   * At every moment of every run a daemon's cache is, in server order and each once, the team layer
   * without its own records of a prefix of the server log that reaches at least to its pull cursor;
   * and every item is what the daemon it names wrote in its own ledger, or the server's own record.
   */
  lemma {:induction false} CacheIsAPrefixCopy(su: Setup, sts: seq<State>, steps: seq<Step>, n: nat, d: string)
    returns (reach: nat)
    requires SyncRuns.RefusesEmpty(su.net.srv) && IsRun(su, sts, steps) && n < |sts| && d in sts[n].daemons
    ensures var w, dm := sts[n].world, sts[n].daemons[d];
      && dm.pullCursor <= reach <= |w.server|
      && Items(dm.cache) == TeamCopy(w.server[..reach], d)
      && forall x :: x in Items(dm.cache) ==> Genuine(w, x)
  {
    hide IsRun, Genuine, SyncRuns.ServerOk, SyncRuns.LocalsOk, TeamCopy;
    RunInv(su, sts, steps, n);
    var w, dm := sts[n].world, sts[n].daemons[d];
    assert CacheCovers(su, w.server, d, dm);
    reach :| dm.pullCursor <= reach && CacheOk(su.net.srv.cfg.c, dm.cache, w.server, reach, d);
    TeamCopyMembers(w.server, reach, d);
    forall x | x in Items(dm.cache) ensures Genuine(w, x) {
      var i :| 0 <= i < reach && ItemOf(w.server[i]) == x;
      ServerItemIsGenuine(su, sts[n], i);
    }
  }

  /** A covered record of a stream only one daemon writes is the server record at its version. */
  lemma {:induction false} CoveredItem(su: Setup, st: State, d: string, stream: string, e: Envelope) returns (i: nat)
    requires Inv(su, st) && d in st.world.locals && SyncRuns.SoleWriter(st.world.server, stream, d)
    requires e in st.world.locals[d] && e.stream == stream && e.ver <= |StreamOf(st.world.server, stream)|
    ensures i < |st.world.server| && ItemOf(st.world.server[i]) == LocalItem(d, e)
    ensures st.world.server[i].stream == stream && Own(st.world.server[i], d)
  {
    hide CacheCovers, Follows, OriginsDistinct, Verify;
    var w, c := st.world, su.net.srv.cfg.c;
    LocalIsOk(su, st, d);
    SyncRuns.LocalRecord(c, w.locals[d], e);
    var s := StreamOf(w.server, stream)[e.ver - 1];
    StreamVersions(c, w.server, stream);
    StreamOfMembers(w.server, stream, s);
    i :| 0 <= i < |w.server| && w.server[i] == s;
    assert SyncRuns.MirrorOk(su.net, w.locals, w.server[i]);
    var o := s.origin.value;
    SyncRuns.LocalRecord(c, w.locals[d], w.locals[d][o.localSeq - 1]);
  }

  /**
   * End to end: a team-layer record of a stream only daemon a writes, below the push cursor of a, is in
   * the cache of every other daemon whose pull cursor is at the server's head.
   */
  lemma {:induction false} RecordsAreDelivered(su: Setup, sts: seq<State>, steps: seq<Step>, n: nat, a: string,
      b: string, e: Envelope)
    requires SyncRuns.RefusesEmpty(su.net.srv) && IsRun(su, sts, steps) && n < |sts| && a != b
    requires a in sts[n].daemons && b in sts[n].daemons && TeamLayer(e.stream)
    requires AlwaysShared(steps[..n], a, e.stream) && Qualifies(su, sts[n].world, a, e.stream)
    requires e in sts[n].world.locals[a] && e.seqno <= sts[n].daemons[a].pushCursor
    requires sts[n].daemons[b].pullCursor == |sts[n].world.server|
    ensures LocalItem(a, e) in Items(sts[n].daemons[b].cache)
  {
    hide IsRun, Inv, TeamCopy, TeamLayer, Acceptable, Genuine, ItemOf, LocalItem;
    var w := sts[n].world;
    RunInv(su, sts, steps, n);
    CursorIsCovered(su, sts, steps, n, a, e.stream);
    var i := CoveredItem(su, sts[n], a, e.stream, e);
    var reach := CacheIsAPrefixCopy(su, sts, steps, n, b);
    TeamCopyMembers(w.server, reach, b);
  }
}
