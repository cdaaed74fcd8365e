/**
 * The daemon side of the sync protocol: it offers its records page by page, and copies the team
 * layer the server hands out into its cache (internal/app/team.go, internal/app/sync.go).
 */
module Syncers {
  import opened Prelude
  import opened Envelopes
  import opened Ledgers
  import opened MemoryLedger
  import opened OrgRuntime
  import opened Team
  import SyncRuns

  const SERVER_ORIGIN := "server"
  const DEFAULT_PULL_LIMIT := 500

  // ---- the server's page ----

  datatype PullResponse = PullResponse(events: Log, cursor: int, more: bool)

  function TeamRecords(log: Log): Log {
    if log == [] then []
    else (if TeamLayer(log[0].stream) then [log[0]] else []) + TeamRecords(log[1..])
  }

  function PageSize(pullLimit: int, limit: int): (n: int)
    ensures n > 0
  {
    var max := if pullLimit <= 0 then DEFAULT_PULL_LIMIT else pullLimit;
    if limit <= 0 || limit > max then max else limit
  }

  /** The page after the cursor: its team records, the last seq scanned and whether it was full. */
  method ServerPull(ledger: Ledger, since: nat, pullLimit: int, limit: int) returns (res: PullResponse)
    requires ledger.Valid()
    ensures res == Page(ledger.all, since, PageSize(pullLimit, limit))
  {
    hide WellFormed, StreamsAgree, IdemAgree, OriginsAgree;
    var size := PageSize(pullLimit, limit);
    var batch := ledger.ReadAll(since + 1, size);
    forall i | 0 <= i < |batch| ensures batch[i].seqno == since + i + 1 {
      SeqAt(ledger.cfg.c, ledger.all, since + i);
    }
    res := FilterPage(batch, since, size);
  }

  /** The loop over one page. */
  method FilterPage(batch: Log, since: nat, size: int) returns (res: PullResponse)
    requires forall i :: 0 <= i < |batch| ==> batch[i].seqno == since + i + 1
    ensures res == PullResponse(TeamRecords(batch), since + |batch|, |batch| == size)
  {
    hide TeamLayer;
    var cursor, events := since, [];
    for i := 0 to |batch|
      invariant cursor == since + i
      invariant events + TeamRecords(batch[i..]) == TeamRecords(batch)
    {
      var e := batch[i];
      assert batch[i..][0] == e && batch[i..][1..] == batch[i + 1..];
      cursor := e.seqno;
      if TeamLayer(e.stream) {
        events := events + [e];
      }
    }
    return PullResponse(events, cursor, |batch| == size);
  }

  function Page(log: Log, since: nat, size: int): PullResponse {
    var batch := ReadAllSpec(log, since + 1, size);
    PullResponse(TeamRecords(batch), since + |batch|, |batch| == size)
  }

  // ---- the daemon's copy ----

  /** A record as both sides can see it: where it came from and what it says. */
  datatype Item = Item(
    daemon: string, localSeq: int, stream: string, kind: string, v: int, ts: nat, actor: Actor,
    meta: EventMeta, body: Bytes, idem: string)

  function ItemOf(e: Envelope): Item {
    var (d, n) := if e.origin.Some? then (e.origin.value.daemon, e.origin.value.localSeq) else (SERVER_ORIGIN, e.seqno);
    Item(d, n, e.stream, e.kind, e.v, e.ts, e.actor, e.meta, e.body, e.idem)
  }

  predicate SamePlace(x: Item, y: Item) {
    x.daemon == y.daemon && x.localSeq == y.localSeq
  }

  predicate Own(e: Envelope, daemon: string) {
    e.origin.Some? && e.origin.value.daemon == daemon
  }

  /** What the daemon should hold of a server log: the team layer without its own records, in order. */
  function TeamCopy(server: Log, daemon: string): seq<Item> {
    if server == [] then []
    else
      var e := server[|server| - 1];
      TeamCopy(server[..|server| - 1], daemon) +
        (if TeamLayer(e.stream) && !Own(e, daemon) then [ItemOf(e)] else [])
  }

  function Items(cache: Log): seq<Item> {
    seq(|cache|, i requires 0 <= i < |cache| => ItemOf(cache[i]))
  }

  function CacheRecord(e: Envelope): Envelope {
    e.(seqno := 0, origin := if e.origin.None? then Some(Origin(SERVER_ORIGIN, e.seqno, [])) else e.origin)
  }

  /** One received record: the new cache, or a failure that ends the pull. */
  function PullOne(cfg: Config, decodes: (string, int, Bytes) -> bool, daemon: string, cache: Log,
      e: Envelope): Result<Log, AppendError> {
    if Own(e, daemon) then Ok(cache)
    else if !decodes(e.kind, e.v, e.body) then Err(BadEnvelope)
    else
      var c := CacheRecord(e);
      if HasUsedOrigin(cache, c) then Ok(cache)
      else
        match Append(cfg, cache, e.stream, ANY_VERSION, [c])
        case Ok(l) => Ok(l)
        case Err(DuplicateOrigin) => Ok(cache)
        case Err(DuplicateIdem) => Ok(cache)
        case Err(err) => Err(err)
  }

  /** The page size is the caller's when it is positive and within the server's, which is 500 unless it is set. */
  lemma {:induction false} PageSizeIs(pullLimit: int, limit: int)
    ensures var n, max := PageSize(pullLimit, limit), PageSize(pullLimit, 0);
      && 0 < n <= max && (0 < limit <= max ==> n == limit) && (limit > max ==> n == max)
      && (pullLimit > 0 ==> max == pullLimit) && PageSize(0, 0) == 500 && (pullLimit < 0 ==> max == 500)
  {
  }

  /** What becomes of one record: its own daemon's is passed over, and one that cannot be read ends the pull. */
  lemma {:induction false} PullOneReads(cfg: Config, decodes: (string, int, Bytes) -> bool, daemon: string, cache: Log,
      e: Envelope)
    ensures var r := PullOne(cfg, decodes, daemon, cache, e);
      && (Own(e, daemon) ==> r == Ok(cache))
      && (!Own(e, daemon) && !decodes(e.kind, e.v, e.body) ==> r.Err?)
      && (r.Ok? && r.value != cache ==>
            && |r.value| == |cache| + 1 && r.value[..|cache|] == cache
            && ItemOf(r.value[|cache|]) == ItemOf(e).(ts := Microseconds(e.ts)))
  {
    hide Append, HasUsedOrigin, IdemUsed;
    if Append(cfg, cache, e.stream, ANY_VERSION, [CacheRecord(e)]).Ok? {
      var s := AppendOne(cfg, cache, e.stream, ANY_VERSION, CacheRecord(e));
    }
  }

  /** The received records of a page, one after another; the first failure ends it. */
  function CacheAll(cfg: Config, decodes: (string, int, Bytes) -> bool, daemon: string, cache: Log,
      evs: Log): Result<Log, AppendError> {
    if evs == [] then Ok(cache)
    else
      match CacheAll(cfg, decodes, daemon, cache, evs[..|evs| - 1])
      case Err(e) => Err(e)
      case Ok(c) => PullOne(cfg, decodes, daemon, c, evs[|evs| - 1])
  }

  /** A server log as the sync protocol leaves it; no daemon is named "server". */
  ghost predicate GoodServer(c: Primitives, server: Log) {
    && WellFormed(c, server) && OriginsDistinct(server)
    && forall i :: 0 <= i < |server| ==> !Own(server[i], SERVER_ORIGIN)
  }

  /** The cache holds exactly the team copy of the first reach server records. */
  ghost predicate CacheOk(c: Primitives, cache: Log, server: Log, reach: nat, daemon: string) {
    && WellFormed(c, cache) && reach <= |server|
    && (forall i :: 0 <= i < |cache| ==> cache[i].origin.Some?)
    && Items(cache) == TeamCopy(server[..reach], daemon)
  }

  lemma {:induction false} TeamCopySnoc(server: Log, n: nat, daemon: string)
    requires n < |server|
    ensures TeamCopy(server[..n + 1], daemon) == TeamCopy(server[..n], daemon) +
      (if TeamLayer(server[n].stream) && !Own(server[n], daemon) then [ItemOf(server[n])] else [])
  {
    assert server[..n + 1][..n] == server[..n];
  }

  /** Every item of the copy is some record of the log, and every copied record is an item. */
  lemma {:induction false} TeamCopyMembers(server: Log, n: nat, daemon: string)
    requires n <= |server|
    ensures forall x :: x in TeamCopy(server[..n], daemon) ==> exists i :: 0 <= i < n && ItemOf(server[i]) == x
    ensures forall i :: 0 <= i < n && TeamLayer(server[i].stream) && !Own(server[i], daemon) ==>
      ItemOf(server[i]) in TeamCopy(server[..n], daemon)
  {
    hide TeamLayer, Own, ItemOf;
    if n > 0 {
      TeamCopyMembers(server, n - 1, daemon);
      TeamCopySnoc(server, n - 1, daemon);
    }
  }

  lemma {:induction false} ItemsSnoc(cache: Log, s: Envelope)
    ensures Items(cache + [s]) == Items(cache) + [ItemOf(s)]
  {
  }

  /** Two server records never look alike: origins are distinct and "server" seqs are unique. */
  lemma {:induction false} ItemsDiffer(c: Primitives, server: Log, i: nat, j: nat)
    requires GoodServer(c, server) && i < |server| && j < |server| && i != j
    ensures !SamePlace(ItemOf(server[i]), ItemOf(server[j]))
  {
    hide Verify;
    assert Follows(c, server[..i], server[i]) && Follows(c, server[..j], server[j]);
    assert !Own(server[i], SERVER_ORIGIN) && !Own(server[j], SERVER_ORIGIN);
    if i < j {
      assert !SameOrigin(server[i], server[j]);
    } else {
      assert !SameOrigin(server[j], server[i]);
    }
  }

  /** The cache knows an origin exactly when the copy has an item from there. */
  lemma {:induction false} CacheKnows(c: Primitives, cache: Log, server: Log, reach: nat, daemon: string, e: Envelope)
    requires CacheOk(c, cache, server, reach, daemon)
    ensures HasUsedOrigin(cache, CacheRecord(e)) <==>
      (exists x :: x in TeamCopy(server[..reach], daemon) && SamePlace(x, ItemOf(e)))
  {
    hide WellFormed;
    var items := Items(cache);
    var o := CacheRecord(e).origin.value;
    forall i | 0 <= i < |cache| ensures
      FromOrigin(cache[i], o.daemon, o.localSeq) <==> SamePlace(items[i], ItemOf(e))
    {
      assert items[i] == ItemOf(cache[i]);
    }
    if HasUsedOrigin(cache, CacheRecord(e)) {
      var i :| 0 <= i < |cache| && FromOrigin(cache[i], o.daemon, o.localSeq);
      assert items[i] in items;
    }
    if x :| x in items && SamePlace(x, ItemOf(e)) {
      var i :| 0 <= i < |items| && items[i] == x;
      assert FromOrigin(cache[i], o.daemon, o.localSeq);
    }
  }

  /** A record below the reach is known already, the record at the reach is new. */
  lemma {:induction false} KnownBelowReach(c: Primitives, cache: Log, server: Log, reach: nat, daemon: string, i: nat)
    requires GoodServer(c, server) && CacheOk(c, cache, server, reach, daemon) && i <= reach && i < |server|
    requires TeamLayer(server[i].stream) && !Own(server[i], daemon)
    ensures HasUsedOrigin(cache, CacheRecord(server[i])) <==> i < reach
  {
    hide GoodServer, CacheOk;
    CacheKnows(c, cache, server, reach, daemon, server[i]);
    ReachBound(c, cache, server, reach, daemon);
    TeamCopyMembers(server, reach, daemon);
    if i == reach {
      forall x | x in TeamCopy(server[..reach], daemon)
        ensures !SamePlace(x, ItemOf(server[i]))
      {
        var j :| 0 <= j < reach && ItemOf(server[j]) == x;
        ItemsDiffer(c, server, j, i);
      }
    } else {
      assert ItemOf(server[i]) in TeamCopy(server[..reach], daemon);
      assert SamePlace(ItemOf(server[i]), ItemOf(server[i]));
    }
  }

  /** A new record never meets its idempotency key in the cache. */
  lemma {:induction false} NewKeyIsFree(c: Primitives, cache: Log, server: Log, reach: nat, daemon: string)
    requires GoodServer(c, server) && CacheOk(c, cache, server, reach, daemon) && reach < |server|
    ensures var e := server[reach]; e.idem != "" ==> !IdemUsed(cache, e.stream, e.idem)
  {
    hide Follows;
    var e := server[reach];
    TeamCopyMembers(server, reach, daemon);
    forall i | 0 <= i < |cache| ensures e.idem != "" ==> !(cache[i].stream == e.stream && cache[i].idem == e.idem) {
      var x := Items(cache)[i];
      assert x in Items(cache);
      var j :| 0 <= j < reach && ItemOf(server[j]) == x;
      KeyUsedOnce(c, server, j, reach);
    }
  }

  /** The copy is appended: nothing refuses it, whatever the cache's own versions are. */
  lemma {:induction false} NewRecordFits(cfg: Config, cache: Log, server: Log, reach: nat, daemon: string)
    requires GoodServer(cfg.c, server) && CacheOk(cfg.c, cache, server, reach, daemon) && reach < |server|
    requires TeamLayer(server[reach].stream) && !Own(server[reach], daemon)
    ensures Refusal(cache, server[reach].stream, ANY_VERSION, [CacheRecord(server[reach])]).None?
  {
    hide GoodServer, CacheOk;
    var e := server[reach];
    KnownBelowReach(cfg.c, cache, server, reach, daemon, reach);
    NewKeyIsFree(cfg.c, cache, server, reach, daemon);
    var evs := [CacheRecord(e)];
    assert !IdemClashAt(cache, e.stream, evs, 0);
    assert !HasUsedOrigin(cache, evs[0]);
  }

  lemma {:induction false} NewRecordExtends(cfg: Config, cache: Log, server: Log, reach: nat, daemon: string)
    requires GoodServer(cfg.c, server) && CacheOk(cfg.c, cache, server, reach, daemon) && reach < |server|
    requires TeamLayer(server[reach].stream) && !Own(server[reach], daemon)
    requires Append(cfg, cache, server[reach].stream, ANY_VERSION, [CacheRecord(server[reach])]).Ok?
    ensures CacheOk(cfg.c, Append(cfg, cache, server[reach].stream, ANY_VERSION, [CacheRecord(server[reach])]).value,
      server, reach + 1, daemon)
  {
    hide Append, Verify;
    var e := server[reach];
    var s := AppendOne(cfg, cache, e.stream, ANY_VERSION, CacheRecord(e));
    assert Follows(cfg.c, server[..reach], e);
    assert ItemOf(s) == ItemOf(e);
    WellFormedSnoc(cfg.c, cache, s);
    ItemsSnoc(cache, s);
    TeamCopySnoc(server, reach, daemon);
  }

  function Max(a: nat, b: nat): nat {
    if a < b then b else a
  }

  /** One received record moves the reach to cover it, or changes nothing and fails. */
  lemma {:induction false} PullOneKeeps(cfg: Config, decodes: (string, int, Bytes) -> bool, daemon: string,
      cache: Log, server: Log, reach: nat, i: nat)
    requires GoodServer(cfg.c, server) && CacheOk(cfg.c, cache, server, reach, daemon) && i <= reach && i < |server|
    requires TeamLayer(server[i].stream)
    ensures PullOne(cfg, decodes, daemon, cache, server[i]).Ok? ==>
      CacheOk(cfg.c, PullOne(cfg, decodes, daemon, cache, server[i]).value, server, Max(reach, i + 1), daemon)
  {
    hide GoodServer, CacheOk, SealOn, Refusal;
    if Own(server[i], daemon) {
      if i == reach {
        SkipOne(cfg.c, cache, server, reach, daemon);
      }
    } else {
      KnownBelowReach(cfg.c, cache, server, reach, daemon, i);
      if i == reach {
        NewRecordFits(cfg, cache, server, reach, daemon);
        SealOnNoRefusal(cfg, cache, server[i].stream, [CacheRecord(server[i])]);
        if Append(cfg, cache, server[i].stream, ANY_VERSION, [CacheRecord(server[i])]).Ok? {
          NewRecordExtends(cfg, cache, server, reach, daemon);
        }
      }
    }
  }

  /** A record that is not copied moves the reach and leaves the cache alone. */
  lemma {:induction false} SkipOne(c: Primitives, cache: Log, server: Log, reach: nat, daemon: string)
    requires CacheOk(c, cache, server, reach, daemon) && reach < |server|
    requires !TeamLayer(server[reach].stream) || Own(server[reach], daemon)
    ensures CacheOk(c, cache, server, reach + 1, daemon)
  {
    TeamCopySnoc(server, reach, daemon);
  }

  lemma {:induction false} SkipMany(c: Primitives, cache: Log, server: Log, reach: nat, upTo: nat, daemon: string)
    requires CacheOk(c, cache, server, reach, daemon) && reach <= upTo <= |server|
    requires forall i :: reach <= i < upTo ==> !TeamLayer(server[i].stream)
    ensures CacheOk(c, cache, server, upTo, daemon)
    decreases upTo - reach
  {
    if reach < upTo {
      SkipOne(c, cache, server, reach, daemon);
      SkipMany(c, cache, server, reach + 1, upTo, daemon);
    }
  }

  /** The first team record of a stretch of the log. */
  lemma {:induction false} FirstTeamRecord(s: Log) returns (m: nat)
    requires TeamRecords(s) != []
    ensures m < |s| && TeamLayer(s[m].stream) && s[m] == TeamRecords(s)[0]
    ensures forall i :: 0 <= i < m ==> !TeamLayer(s[i].stream)
    ensures TeamRecords(s[m + 1..]) == TeamRecords(s)[1..]
  {
    hide TeamLayer;
    if TeamLayer(s[0].stream) {
      m := 0;
    } else {
      var k := FirstTeamRecord(s[1..]);
      m := k + 1;
      assert s[1..][k + 1..] == s[m + 1..];
    }
  }

  lemma {:induction false} NoTeamRecords(s: Log)
    requires TeamRecords(s) == []
    ensures forall i :: 0 <= i < |s| ==> !TeamLayer(s[i].stream)
  {
    if s != [] {
      NoTeamRecords(s[1..]);
    }
  }

  lemma {:induction false} PageSlice(server: Log, since: nat, size: int)
    requires since <= |server| && size > 0
    ensures var page := Page(server, since, size);
      && since <= page.cursor <= |server| && TeamRecords(server[since..page.cursor]) == page.events
      && (page.more ==> since < page.cursor) && (!page.more ==> page.cursor == |server|)
  {
    assert ReadAllSpec(server, since + 1, size) == server[since..Page(server, since, size).cursor];
  }

  /** The next received record of a page, and the reach after the records the server filtered out before it. */
  lemma {:induction false} NextReceived(c: Primitives, cache: Log, server: Log, reach: nat, q: nat, hi: nat,
      daemon: string)
    returns (i: nat, r: nat)
    requires q <= hi <= |server| && q <= reach && TeamRecords(server[q..hi]) != []
    requires CacheOk(c, cache, server, reach, daemon)
    ensures q <= i < hi && TeamLayer(server[i].stream) && server[i] == TeamRecords(server[q..hi])[0]
    ensures TeamRecords(server[i + 1..hi]) == TeamRecords(server[q..hi])[1..]
    ensures i <= r && reach <= r && CacheOk(c, cache, server, r, daemon)
  {
    hide CacheOk;
    var m := FirstTeamRecord(server[q..hi]);
    i, r := q + m, Max(reach, q + m);
    assert server[q..hi][m + 1..] == server[i + 1..hi];
    if reach < i {
      forall k | reach <= k < i ensures !TeamLayer(server[k].stream) {
        assert server[k] == server[q..hi][k - q];
      }
      SkipMany(c, cache, server, reach, i, daemon);
    }
  }

  lemma {:induction false} EndOfPage(c: Primitives, cache: Log, server: Log, reach: nat, q: nat, hi: nat,
      daemon: string) returns (r: nat)
    requires q <= hi <= |server| && q <= reach && TeamRecords(server[q..hi]) == []
    requires CacheOk(c, cache, server, reach, daemon)
    ensures reach <= r && hi <= r && CacheOk(c, cache, server, r, daemon)
  {
    hide CacheOk;
    r := Max(reach, hi);
    NoTeamRecords(server[q..hi]);
    if reach < hi {
      forall k | reach <= k < hi ensures !TeamLayer(server[k].stream) {
        assert server[k] == server[q..hi][k - q];
      }
      SkipMany(c, cache, server, reach, hi, daemon);
    }
  }

  // ---- the daemon's offers ----

  const DEFAULT_PUSH_BATCH := 200

  function Slice(log: Log, lo: nat, hi: nat): Log {
    if lo <= hi <= |log| then log[lo..hi] else []
  }

  /** The records of a stretch that travel: never the Rejected stream, and only what the filters pass. */
  function Offer(log: Log, share: Envelope -> bool): Log {
    if log == [] then []
    else
      var e := log[|log| - 1];
      Offer(log[..|log| - 1], share) + (if e.stream != REJECTED_STREAM && share(e) then [e] else [])
  }

  function Concat(logs: seq<Log>): Log {
    if logs == [] then [] else Concat(logs[..|logs| - 1]) + logs[|logs| - 1]
  }

  method OfferPage(page: Log, share: Envelope -> bool) returns (offer: Log)
    ensures offer == Offer(page, share)
  {
    offer := [];
    for i := 0 to |page|
      invariant offer == Offer(page[..i], share)
    {
      assert page[..i + 1][..i] == page[..i];
      if page[i].stream != REJECTED_STREAM && share(page[i]) {
        offer := offer + [page[i]];
      }
    }
    assert page[..|page|] == page;
  }

  lemma {:induction false} OfferConcat(a: Log, b: Log, share: Envelope -> bool)
    ensures Offer(a + b, share) == Offer(a, share) + Offer(b, share)
    decreases |b|
  {
    if b == [] {
      assert a + b == a;
    } else {
      OfferConcat(a, b[..|b| - 1], share);
      assert (a + b)[..|a + b| - 1] == a + b[..|b| - 1];
    }
  }

  lemma {:induction false} OfferMembers(log: Log, share: Envelope -> bool)
    ensures forall e :: e in Offer(log, share) <==> e in log && e.stream != REJECTED_STREAM && share(e)
  {
    if log != [] {
      OfferMembers(log[..|log| - 1], share);
      assert log == log[..|log| - 1] + [log[|log| - 1]];
    }
  }

  lemma {:induction false} NothingOffered(log: Log, cur: nat, share: Envelope -> bool)
    ensures Concat([]) == Offer(Slice(log, cur, cur), share)
  {
    assert Slice(log, cur, cur) == [];
  }

  /** A page read at the cursor: the next records, numbered after it; short only at the head. */
  lemma {:induction false} ReadPage(c: Primitives, log: Log, cur: nat, size: int, share: Envelope -> bool)
    requires WellFormed(c, log) && size > 0
    ensures var page := ReadAllSpec(log, cur + 1, size);
      && (page == [] <==> cur >= |log|)
      && (page != [] ==>
        cur + |page| <= |log| && page == log[cur..cur + |page|] && page[|page| - 1].seqno == cur + |page|)
      && (page != [] && |page| < size ==> cur + |page| == |log|)
      && (forall e :: e in Offer(page, share) ==> e in log && e.seqno > cur)
  {
    hide Follows;
    var page := ReadAllSpec(log, cur + 1, size);
    OfferMembers(page, share);
    if page != [] {
      SeqAt(c, log, cur + |page| - 1);
      forall e | e in page ensures e in log && e.seqno > cur {
        var i :| 0 <= i < |page| && page[i] == e;
        SeqAt(c, log, cur + i);
      }
    }
  }

  /** Adding the next page's request extends what was answered for. */
  lemma {:induction false} OfferNextPage(log: Log, start: nat, cur: nat, page: Log, share: Envelope -> bool,
      answered: seq<Log>)
    requires start <= cur && cur + |page| <= |log| && page == log[cur..cur + |page|]
    requires Concat(answered) == Offer(Slice(log, start, cur), share)
    ensures var next := if Offer(page, share) == [] then answered else answered + [Offer(page, share)];
      Concat(next) == Offer(Slice(log, start, cur + |page|), share)
  {
    assert log[start..cur + |page|] == log[start..cur] + page;
    OfferConcat(log[start..cur], page, share);
    assert (answered + [Offer(page, share)])[..|answered|] == answered;
  }

  /** The first k records of a page are cached, all of them when the page is done. */
  ghost predicate Received(cfg: Config, decodes: (string, int, Bytes) -> bool, daemon: string, before: Log,
      evs: Log, k: nat, after: Log, done: bool) {
    k <= |evs| && CacheAll(cfg, decodes, daemon, before, evs[..k]) == Ok(after) && (done ==> k == |evs|)
  }

  lemma {:induction false} NothingCached(cfg: Config, decodes: (string, int, Bytes) -> bool, daemon: string, cache: Log)
    ensures CacheAll(cfg, decodes, daemon, cache, []) == Ok(cache)
  {
  }

  lemma {:induction false} CacheAllNext(cfg: Config, decodes: (string, int, Bytes) -> bool, daemon: string,
      cache: Log, evs: Log, j: nat, c: Log)
    requires j < |evs| && CacheAll(cfg, decodes, daemon, cache, evs[..j]) == Ok(c)
    ensures CacheAll(cfg, decodes, daemon, cache, evs[..j + 1]) == PullOne(cfg, decodes, daemon, c, evs[j])
  {
    hide PullOne;
    assert evs[..j + 1][..j] == evs[..j];
  }

  // ---- pushed pages ----

  /** What goes wrong with one page: failures on the server, and a reply that does not arrive. */
  datatype PageFault = PageFault(plan: nat -> Fault, last: nat, replyLost: bool)

  /** Nothing goes wrong; the last catch-up reads a log of n records. */
  ghost predicate Clean(f: PageFault, n: nat) {
    !f.replyLost && (forall i: nat :: f.plan(i).NoFault?) && f.last >= n
  }

  /** The server's log after the answered requests. */
  function Sent(srv: Server, p: Pusher, log: Log, offers: seq<Log>): Log {
    if offers == [] then log
    else PushAll(srv, p, Sent(srv, p, log, offers[..|offers| - 1]), SortBySeq(offers[|offers| - 1])).log
  }

  /** The server's log after some prefix of a request. */
  ghost predicate PartlySent(srv: Server, p: Pusher, log: Log, offer: Log, l: Log) {
    exists k :: 0 <= k <= |SortBySeq(offer)| && l == PushAll(srv, p, log, SortBySeq(offer)[..k]).log
  }

  lemma {:induction false} NothingSent(srv: Server, p: Pusher, log: Log)
    ensures Sent(srv, p, log, []) == log
  {
  }

  lemma {:induction false} SentNext(srv: Server, p: Pusher, log: Log, offers: seq<Log>, offer: Log)
    ensures Sent(srv, p, log, offers + [offer]) == PushAll(srv, p, Sent(srv, p, log, offers), SortBySeq(offer)).log
  {
    hide PushAll;
    assert (offers + [offer])[..|offers|] == offers;
  }

  lemma {:induction false} NothingPushed(srv: Server, p: Pusher, log: Log)
    ensures PushAll(srv, p, log, SortBySeq([])) == PushRun(log, [], false)
  {
  }

  ghost predicate Passes(share: Envelope -> bool, stream: string) {
    forall e: Envelope :: e.stream == stream ==> share(e)
  }

  /** The network's view of this daemon and this server. */
  ghost predicate Describes(net: SyncRuns.Net, locals: map<string, Log>, srv: Server, p: Pusher, local: Log) {
    net.srv == srv && p.daemon in locals && locals[p.daemon] == local
  }

  /** A stream only this daemon writes, shared and acceptable, whose records up to cur are on the server. */
  ghost predicate PushedUpTo(net: SyncRuns.Net, locals: map<string, Log>, server: Log, p: Pusher,
      share: Envelope -> bool, stream: string, cur: int) {
    && SyncRuns.Sole(net, locals, server, p, stream) && Passes(share, stream)
    && (forall e :: e in locals[p.daemon] && e.stream == stream ==> Acceptable(net.srv, p, e))
    && SyncRuns.CoveredUpTo(server, locals[p.daemon], stream, cur)
  }

  /** A page that is not answered: part of it may be on the server, and something went wrong. */
  lemma {:induction false} LostPage(srv: Server, p: Pusher, before: Log, after: Log, c: Primitives, local: Log,
      offer: Log, fault: PageFault, ok: bool)
    requires !ok || fault.replyLost
    requires WellFormed(c, local) && forall e :: e in offer ==> e in local
    requires exists k :: 0 <= k <= |SortBySeq(offer)| && after == PushAll(srv, p, before, SortBySeq(offer)[..k]).log
    requires
      && (forall i :: 0 <= i < |SortBySeq(offer)| ==> fault.plan(i).NoFault?)
      && !PushAll(srv, p, before, SortBySeq(offer)).failed
      ==> after == PushAll(srv, p, before, SortBySeq(offer)).log && (fault.last >= |after| ==> ok)
    ensures PartlySent(srv, p, before, offer, after)
    ensures AlwaysSigns(srv.cfg) ==> !Clean(fault, |after|)
  {
    hide PushAll, AlwaysSigns;
    if AlwaysSigns(srv.cfg) {
      var evs := SortBySeq(offer);
      SortedMembers(offer);
      forall e | e in evs ensures e.kind != "" {
        NamedKind(c, local, e);
      }
      PushAllWorks(srv, p, before, evs);
    }
  }

  lemma {:induction false} LedgerIsWellFormed(l: Ledger)
    requires l.Valid()
    ensures WellFormed(l.cfg.c, l.all)
  {
  }

  /** The client's call: the server handles the request and the reply arrives or not. */
  method Send(org: Org, p: Pusher, offer: Log, fault: PageFault, ghost c: Primitives,
      ghost local: Log) returns (ok: bool)
    requires org.Valid() && WellFormed(c, local) && forall e :: e in offer ==> e in local
    modifies org, org.ledger
    ensures org.Valid()
    ensures ok ==> PushAll(org.srv, p, old(org.ledger.all), SortBySeq(offer)).log == org.ledger.all
    ensures ok ==> !PushAll(org.srv, p, old(org.ledger.all), SortBySeq(offer)).failed
    ensures PartlySent(org.srv, p, old(org.ledger.all), offer, org.ledger.all)
    ensures !ok && AlwaysSigns(org.srv.cfg) ==> !Clean(fault, |org.ledger.all|)
  {
    hide WellFormed, StreamsAgree, IdemAgree, OriginsAgree, OriginsDistinct, PushAll, AlwaysSigns, Clean;
    ghost var before := org.ledger.all;
    var res, done := org.Push(p, offer, fault.plan, fault.last);
    if !done || fault.replyLost {
      LostPage(org.srv, p, before, org.ledger.all, c, local, offer, fault, done);
      return false;
    }
    return true;
  }

  lemma {:induction false} NamedKind(c: Primitives, log: Log, e: Envelope)
    requires WellFormed(c, log) && e in log
    ensures e.kind != ""
  {
    hide Verify;
    var i :| 0 <= i < |log| && log[i] == e;
    assert Follows(c, log[..i], log[i]);
  }

  /** If the records up to cur0 were on the server at first, those up to cur are on it now. */
  ghost predicate StaysPushed(net: SyncRuns.Net, locals: map<string, Log>, srv: Server, p: Pusher,
      share: Envelope -> bool, stream: string, local: Log, first: Log, cur0: nat, now: Log, cur: nat) {
    Describes(net, locals, srv, p, local) && PushedUpTo(net, locals, first, p, share, stream, cur0) ==>
      PushedUpTo(net, locals, now, p, share, stream, cur)
  }

  lemma {:induction false} StillPushed(net: SyncRuns.Net, locals: map<string, Log>, srv: Server, p: Pusher,
      share: Envelope -> bool, stream: string, local: Log, first: Log, cur: nat)
    ensures StaysPushed(net, locals, srv, p, share, stream, local, first, cur, first, cur)
  {
  }

  lemma {:induction false} PartKeepsPushed(net: SyncRuns.Net, locals: map<string, Log>, srv: Server, p: Pusher,
      share: Envelope -> bool, stream: string, local: Log, first: Log, cur0: nat, before: Log, after: Log, cur: nat,
      offer: Log)
    requires StaysPushed(net, locals, srv, p, share, stream, local, first, cur0, before, cur)
    requires PartlySent(srv, p, before, offer, after) && forall e :: e in offer ==> e in local
    ensures StaysPushed(net, locals, srv, p, share, stream, local, first, cur0, after, cur)
  {
    hide PushAll, Acceptable, SyncRuns.Sole, StreamOf;
    if Describes(net, locals, srv, p, local) && PushedUpTo(net, locals, first, p, share, stream, cur0) {
      var k :| 0 <= k <= |SortBySeq(offer)| && after == PushAll(srv, p, before, SortBySeq(offer)[..k]).log;
      var evs := SortBySeq(offer)[..k];
      SortedMembers(offer);
      SyncRuns.SoleAfterAll(net, locals, before, p, stream, evs);
    }
  }

  lemma {:induction false} PageKeepsPushed(net: SyncRuns.Net, locals: map<string, Log>, srv: Server, p: Pusher,
      share: Envelope -> bool, stream: string, local: Log, first: Log, cur0: nat, before: Log, after: Log, cur: nat,
      page: Log, offer: Log)
    requires StaysPushed(net, locals, srv, p, share, stream, local, first, cur0, before, cur)
    requires cur + |page| <= |local| && page == local[cur..cur + |page|] && offer == Offer(page, share)
    requires PushAll(srv, p, before, SortBySeq(offer)).log == after && !PushAll(srv, p, before, SortBySeq(offer)).failed
    ensures StaysPushed(net, locals, srv, p, share, stream, local, first, cur0, after, cur + |page|)
  {
    hide PushAll, Acceptable, SyncRuns.Sole, StreamOf, SyncRuns.CoveredUpTo, WellFormed, Offer, Passes;
    if Describes(net, locals, srv, p, local) && PushedUpTo(net, locals, first, p, share, stream, cur0) {
      SyncRuns.SoleParts(net, locals, before, p, stream);
      SyncRuns.SoleStream(net, locals, before, p, stream);
      OfferIsWhole(net.srv.cfg.c, local, cur, page, share, stream);
      SyncRuns.AnsweredPushCovers(net, locals, before, p, stream, offer, cur, cur + |page|);
    }
  }

  /** A page offers local records after the cursor, and all of a stream the sharing rule passes. */
  lemma {:induction false} OfferIsWhole(c: Primitives, local: Log, cur: nat, page: Log, share: Envelope -> bool,
      stream: string)
    requires WellFormed(c, local) && cur + |page| <= |local| && page == local[cur..cur + |page|]
    requires stream != REJECTED_STREAM && Passes(share, stream)
    ensures forall e :: e in Offer(page, share) ==> e in local && e.seqno <= cur + |page|
    ensures forall e :: e in local && e.stream == stream && cur < e.seqno <= cur + |page| ==> e in Offer(page, share)
  {
    hide WellFormed, Offer;
    OfferMembers(page, share);
    PageIsAhead(c, local, cur, page);
  }

  /** The records of a page are exactly those after the cursor and up to its end. */
  lemma {:induction false} PageIsAhead(c: Primitives, local: Log, cur: nat, page: Log)
    requires WellFormed(c, local) && cur + |page| <= |local| && page == local[cur..cur + |page|]
    ensures forall e :: e in page <==> e in local && cur < e.seqno <= cur + |page|
  {
    hide Follows;
    forall e | e in page ensures e in local && cur < e.seqno <= cur + |page| {
      var i :| 0 <= i < |page| && page[i] == e;
      SeqAt(c, local, cur + i);
    }
    forall e | e in local && cur < e.seqno <= cur + |page| ensures e in page {
      SyncRuns.LocalRecord(c, local, e);
      assert page[e.seqno - 1 - cur] == e;
    }
  }

  /** Every record the daemon receives decodes, and the cache's signer never fails. */
  ghost predicate Receivable(cfg: Config, decodes: (string, int, Bytes) -> bool, daemon: string, server: Log) {
    AlwaysSigns(cfg) && forall e :: e in server && TeamLayer(e.stream) ==> ReceivableRecord(decodes, daemon, e)
  }

  predicate ReceivableRecord(decodes: (string, int, Bytes) -> bool, daemon: string, e: Envelope) {
    Own(e, daemon) || decodes(e.kind, e.v, e.body)
  }

  lemma {:induction false} ReceivableWorks(cfg: Config, decodes: (string, int, Bytes) -> bool, daemon: string,
      server: Log, cache: Log, e: Envelope)
    requires GoodServer(cfg.c, server) && e in server && TeamLayer(e.stream)
    ensures Receivable(cfg, decodes, daemon, server) ==> PullOne(cfg, decodes, daemon, cache, e).Ok?
  {
    hide AlwaysSigns, SealOn, IdemClash, OriginClash, Follows, OriginsDistinct;
    NamedKind(cfg.c, server, e);
    if Receivable(cfg, decodes, daemon, server) {
      assert ReceivableRecord(decodes, daemon, e);
      if Refusal(cache, e.stream, ANY_VERSION, [CacheRecord(e)]).None? {
        AppendOneWorks(cfg, cache, e.stream, ANY_VERSION, CacheRecord(e));
      }
    }
  }

  /** Where a failure strikes while one received record is handled. */
  datatype PullFault = NoFault | BeforeAppend | AfterAppend

  class Syncer {
    const daemon: string
    const decodes: (string, int, Bytes) -> bool
    const cache: Ledger
    var pushCursor: nat
    var pullCursor: nat
    /** How much of the server log the cache covers. */
    ghost var reach: nat

    ghost predicate Valid(server: Log)
      reads this, cache
    {
      && GoodServer(cache.cfg.c, server) && cache.Valid()
      && pullCursor <= reach && CacheOk(cache.cfg.c, cache.all, server, reach, daemon)
    }

    constructor (daemon: string, decodes: (string, int, Bytes) -> bool, cache: Ledger)
      requires cache.Valid() && cache.all == []
      ensures this.cache == cache && this.daemon == daemon && this.decodes == decodes && pullCursor == 0
        && pushCursor == 0
      ensures forall server :: GoodServer(cache.cfg.c, server) ==> Valid(server)
    {
      this.daemon, this.decodes, this.cache := daemon, decodes, cache;
      pushCursor, pullCursor, reach := 0, 0, 0;
      new;
      forall server | GoodServer(cache.cfg.c, server) ensures Valid(server) {
        assert server[..0] == [];
        assert Items([]) == [];
      }
    }

    /**
     * Push, against the server's own runtime. Every shareable record the cursor passes was in exactly
     * one answered request, in local order; a lost reply leaves the cursor before its page, so the
     * page is offered again. The server's log is what the answered requests make of it, followed by
     * some prefix of the lost one. For a stream only this daemon writes, whose records the sharing
     * rule passes and the server accepts, what is below the cursor is on the server.
     */
    method Push(local: Ledger, org: Org, p: Pusher, share: Envelope -> bool, batch: int, faults: nat -> PageFault,
        ghost net: SyncRuns.Net, ghost locals: map<string, Log>, ghost stream: string)
      returns (answered: seq<Log>, lost: Option<Log>)
      requires local.Valid() && org.Valid() && local != org.ledger
      modifies this`pushCursor, org, org.ledger
      ensures org.Valid()
      ensures old(pushCursor) <= pushCursor
      ensures Concat(answered) == Offer(Slice(local.all, old(pushCursor), pushCursor), share)
      ensures lost.None? ==> pushCursor >= |local.all|
      ensures lost.Some? ==> pushCursor < |local.all| && lost.value != []
      ensures lost.Some? ==> forall e :: e in lost.value ==> e in local.all && e.seqno > pushCursor
      ensures lost.None? ==> org.ledger.all == Sent(org.srv, p, old(org.ledger.all), answered)
      ensures lost.Some? ==>
        PartlySent(org.srv, p, Sent(org.srv, p, old(org.ledger.all), answered), lost.value, org.ledger.all)
      ensures lost.Some? && AlwaysSigns(org.srv.cfg) ==> !Clean(faults(|answered|), |org.ledger.all|)
      ensures StaysPushed(net, locals, org.srv, p, share, stream, local.all,
        old(org.ledger.all), old(pushCursor), org.ledger.all, pushCursor)
    {
      hide WellFormed, StreamsAgree, IdemAgree, OriginsAgree, ReadAllSpec, Offer, Concat, Slice, StaysPushed;
      hide OriginsDistinct, PushAll, AlwaysSigns, PartlySent, Sent, Clean, Ledger.Valid, Org.Valid;
      var size := if batch <= 0 then DEFAULT_PUSH_BATCH else batch;
      answered, lost := [], None;
      ghost var start := pushCursor;
      NothingOffered(local.all, start, share);
      NothingSent(org.srv, p, org.ledger.all);
      StillPushed(net, locals, org.srv, p, share, stream, local.all, org.ledger.all, pushCursor);
      while true
        invariant start <= pushCursor && org.Valid() && local.Valid() && local.all == old(local.all)
        invariant Concat(answered) == Offer(Slice(local.all, start, pushCursor), share)
        invariant org.ledger.all == Sent(org.srv, p, old(org.ledger.all), answered)
        invariant StaysPushed(net, locals, org.srv, p, share, stream, local.all,
          old(org.ledger.all), start, org.ledger.all, pushCursor)
        decreases |local.all| - pushCursor
      {
        var page := local.ReadAll(pushCursor + 1, size);
        LedgerIsWellFormed(local);
        ReadPage(local.cfg.c, local.all, pushCursor, size, share);
        if |page| == 0 {
          return;
        }
        var offer := OfferPage(page, share);
        ghost var before := org.ledger.all;
        if |offer| > 0 {
          var fault := faults(|answered|);
          var ok := Send(org, p, offer, fault, local.cfg.c, local.all);
          if !ok {
            lost := Some(offer);
            PartKeepsPushed(net, locals, org.srv, p, share, stream, local.all, old(org.ledger.all), start, before,
              org.ledger.all, pushCursor, offer);
            return;
          }
        } else {
          NothingPushed(org.srv, p, before);
        }
        PageKeepsPushed(net, locals, org.srv, p, share, stream, local.all, old(org.ledger.all), start, before,
          org.ledger.all, pushCursor, page, offer);
        OfferNextPage(local.all, start, pushCursor, page, share, answered);
        if |offer| > 0 {
          SentNext(org.srv, p, old(org.ledger.all), answered, offer);
          answered := answered + [offer];
        }
        pushCursor := page[|page| - 1].seqno;
        if |page| < size {
          return;
        }
      }
    }

    /** The body of the loop over received records; a projection can fail after the record is cached. */
    method CacheOne(e: Envelope, fault: PullFault) returns (ok: bool)
      requires cache.Valid()
      modifies cache
      ensures cache.Valid()
      ensures ok || cache.all != old(cache.all) ==>
        PullOne(cache.cfg, decodes, daemon, old(cache.all), e) == Ok(cache.all)
      ensures fault.NoFault? && PullOne(cache.cfg, decodes, daemon, old(cache.all), e).Ok? ==> ok
    {
      hide WellFormed, StreamsAgree, IdemAgree, OriginsAgree, Ledgers.Append;
      if Own(e, daemon) {
        return true;
      }
      if fault.BeforeAppend? || !decodes(e.kind, e.v, e.body) {
        return false;
      }
      var c := CacheRecord(e);
      var found := cache.FindOrigin(c.origin.value.daemon, c.origin.value.localSeq);
      if found.Some? {
        return true;
      }
      var rng := cache.Append(e.stream, ANY_VERSION, [c]);
      if rng.Err? {
        return rng.error in {DuplicateOrigin, DuplicateIdem};
      }
      return !fault.AfterAppend?;
    }

    /** One page, received records only; a fault breaks it off after some of them. */
    method CachePage(server: Log, size: int, plan: nat -> PullFault) returns (ok: bool)
      requires Valid(server) && size > 0
      modifies this, cache
      ensures Valid(server)
      ensures old(pullCursor) <= pullCursor
      ensures ok ==> pullCursor == Page(server, old(pullCursor), size).cursor
      ensures !ok ==> pullCursor == old(pullCursor)
      ensures exists k ::
        Received(cache.cfg, decodes, daemon, old(cache.all), Page(server, old(pullCursor), size).events, k,
          cache.all, ok)
      ensures (forall j: nat :: plan(j).NoFault?) && Receivable(cache.cfg, decodes, daemon, server) ==> ok
    {
      hide GoodServer, CacheOk, PullOne, WellFormed, StreamsAgree, IdemAgree, OriginsAgree, TeamRecords, TeamLayer;
      hide Page, CacheAll, Receivable;
      NothingCached(cache.cfg, decodes, daemon, cache.all);
      var page := Page(server, pullCursor, size);
      ReachBound(cache.cfg.c, cache.all, server, reach, daemon);
      ghost var hi, q := page.cursor, pullCursor;
      PageSlice(server, pullCursor, size);
      for j := 0 to |page.events|
        invariant Valid(server) && pullCursor == old(pullCursor)
        invariant pullCursor <= q <= hi <= |server| && q <= reach
        invariant TeamRecords(server[q..hi]) == page.events[j..]
        invariant CacheAll(cache.cfg, decodes, daemon, old(cache.all), page.events[..j]) == Ok(cache.all)
      {
        CacheAllNext(cache.cfg, decodes, daemon, old(cache.all), page.events, j, cache.all);
        ghost var i, r := NextReceived(cache.cfg.c, cache.all, server, reach, q, hi, daemon);
        PullOneKeeps(cache.cfg, decodes, daemon, cache.all, server, r, i);
        ghost var before := cache.all;
        ReceivableWorks(cache.cfg, decodes, daemon, server, before, page.events[j]);
        var done := CacheOne(page.events[j], plan(j));
        if !done {
          if cache.all != before {
            reach := Max(r, i + 1);
          }
          assert Received(cache.cfg, decodes, daemon, old(cache.all), page.events,
            if cache.all == before then j else j + 1, cache.all, false);
          return false;
        }
        reach, q := Max(r, i + 1), i + 1;
      }
      reach := EndOfPage(cache.cfg.c, cache.all, server, reach, q, hi, daemon);
      pullCursor := page.cursor;
      assert page.events[..|page.events|] == page.events;
      assert Received(cache.cfg, decodes, daemon, old(cache.all), page.events, |page.events|, cache.all, true);
      return true;
    }

    /** Pull terminates on a finite log; without a fault the cache is the team copy of all of it. */
    method Pull(server: Log, size: int, plan: (nat, nat) -> PullFault) returns (ok: bool)
      requires Valid(server) && size > 0
      modifies this, cache
      ensures Valid(server)
      ensures old(pullCursor) <= pullCursor
      ensures ok ==> pullCursor == |server| && Items(cache.all) == TeamCopy(server, daemon)
      ensures (forall n: nat, j: nat :: plan(n, j).NoFault?) && Receivable(cache.cfg, decodes, daemon, server) ==> ok
    {
      hide GoodServer, WellFormed, StreamsAgree, IdemAgree, OriginsAgree, TeamCopy, Received, CacheOk, Page, Receivable;
      var n: nat := 0;
      while true
        invariant Valid(server) && old(pullCursor) <= pullCursor
        decreases |server| - pullCursor
      {
        ReachBound(cache.cfg.c, cache.all, server, reach, daemon);
        PageSlice(server, pullCursor, size);
        var page := Page(server, pullCursor, size);
        ok := CachePage(server, size, (j: nat) => plan(n, j));
        if !ok {
          return;
        }
        if !page.more {
          FullReach(cache.cfg.c, cache.all, server, reach, daemon);
          return;
        }
        ReachBound(cache.cfg.c, cache.all, server, reach, daemon);
        n := n + 1;
      }
    }

    /** The cursor file is lost or rolled back: an earlier cursor is always safe. */
    method Reset(server: Log, cursor: nat)
      requires Valid(server) && cursor <= pullCursor
      modifies this
      ensures Valid(server) && pullCursor == cursor && reach == old(reach)
    {
      pullCursor := cursor;
    }
  }

  lemma {:induction false} ReachBound(c: Primitives, cache: Log, server: Log, reach: nat, daemon: string)
    requires CacheOk(c, cache, server, reach, daemon)
    ensures reach <= |server|
  {
  }

  lemma {:induction false} FullReach(c: Primitives, cache: Log, server: Log, reach: nat, daemon: string)
    requires CacheOk(c, cache, server, reach, daemon) && reach >= |server|
    ensures reach == |server| && Items(cache) == TeamCopy(server, daemon)
  {
    assert server[..|server|] == server;
  }

  /** New server records do not disturb what the cache covers. */
  lemma {:induction false} ServerGrows(c: Primitives, cache: Log, server: Log, l: Log, reach: nat, daemon: string)
    requires CacheOk(c, cache, server, reach, daemon) && server <= l
    ensures CacheOk(c, cache, l, reach, daemon)
  {
    assert l[..reach] == server[..reach];
  }

  /** After k records of a page: the cache covers up to r, and q is where the rest of the page starts. */
  lemma {:induction false} PagePrefixKeeps(cfg: Config, decodes: (string, int, Bytes) -> bool, daemon: string,
      cache: Log, server: Log, reach: nat, since: nat, hi: nat, k: nat, after: Log)
    returns (q: nat, r: nat)
    requires GoodServer(cfg.c, server) && CacheOk(cfg.c, cache, server, reach, daemon)
    requires since <= hi <= |server| && since <= reach && k <= |TeamRecords(server[since..hi])|
    requires CacheAll(cfg, decodes, daemon, cache, TeamRecords(server[since..hi])[..k]) == Ok(after)
    ensures since <= q <= hi && q <= r && reach <= r && CacheOk(cfg.c, after, server, r, daemon)
    ensures TeamRecords(server[q..hi]) == TeamRecords(server[since..hi])[k..]
    decreases k
  {
    hide GoodServer, CacheOk, PullOne, TeamRecords;
    var evs := TeamRecords(server[since..hi]);
    q, r := since, reach;
    if k > 0 {
      assert evs[..k][..k - 1] == evs[..k - 1];
      var c := CacheAll(cfg, decodes, daemon, cache, evs[..k - 1]).value;
      q, r := PagePrefixKeeps(cfg, decodes, daemon, cache, server, reach, since, hi, k - 1, c);
      var i, r1 := NextReceived(cfg.c, c, server, r, q, hi, daemon);
      assert server[i] == evs[k - 1];
      PullOneKeeps(cfg, decodes, daemon, c, server, r1, i);
      q, r := i + 1, Max(r1, i + 1);
    }
  }

  /** A page pulled at the cursor, finished or broken off: the cache covers at least to the cursor it leaves. */
  lemma {:induction false} PageKeeps(cfg: Config, decodes: (string, int, Bytes) -> bool, daemon: string, cache: Log,
      server: Log, reach: nat, cursor: nat, size: int, k: nat, after: Log, done: bool)
    returns (r: nat)
    requires GoodServer(cfg.c, server) && cursor <= reach && CacheOk(cfg.c, cache, server, reach, daemon) && size > 0
    requires Received(cfg, decodes, daemon, cache, Page(server, cursor, size).events, k, after, done)
    ensures CacheOk(cfg.c, after, server, r, daemon)
    ensures (if done then Page(server, cursor, size).cursor else cursor) <= r
  {
    hide GoodServer, CacheOk, TeamRecords, CacheAll;
    ReachBound(cfg.c, cache, server, reach, daemon);
    PageSlice(server, cursor, size);
    var hi := Page(server, cursor, size).cursor;
    var q;
    q, r := PagePrefixKeeps(cfg, decodes, daemon, cache, server, reach, cursor, hi, k, after);
    if done {
      r := EndOfPage(cfg.c, after, server, r, q, hi, daemon);
    }
  }
}
