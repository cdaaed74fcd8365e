/**
 * One tenant's runtime on the server: the ledger, the cursor and the projections, changed by pushes
 * and by gate commands under the org lock (internal/app/team.go, rebuild.go, cursor.go, rejected.go,
 * pipeline.go). Projections are folds of the records handed to them, so the model keeps the list of
 * handed-over records: any projection is a function of it.
 */
module OrgRuntime {
  import opened Prelude
  import opened Envelopes
  import opened Ledgers
  import opened MemoryLedger
  import opened Team
  import P = Pipelines

  const PAGE := 500

  /** Where an infrastructure failure strikes while one record is pushed. */
  datatype Fault =
    | NoFault
    | FindFails                // the origin lookup fails
    | AppendFails              // the append fails for a reason that is not a refusal
    | CatchUpFails(after: nat) // the catch-up before a rejection breaks off after some records
    | RecordFails              // the rejection cannot be appended
    | RereadFails              // the rejection is appended and cannot be read back

  lemma {:induction false} DistinctSnoc(log: Log, s: Envelope)
    requires OriginsDistinct(log) && !HasUsedOrigin(log, s)
    ensures OriginsDistinct(log + [s])
  {
    var l := log + [s];
    forall i, j | 0 <= i < j < |l| ensures !SameOrigin(l[i], l[j]) {
      assert l[i] == log[i];
      assert j < |log| ==> l[j] == log[j];
    }
  }

  /** With distinct origins the lookup has one possible answer. */
  lemma {:induction false} OriginSeqIsUnique(log: Log, daemon: string, n: int, k: nat)
    requires OriginsDistinct(log) && 1 <= k <= |log| && FromOrigin(log[k - 1], daemon, n)
    ensures OriginSeq(log, daemon, n) == k
  {
    OriginSeqFinds(log, daemon, n);
    assert OriginUsed(log, daemon, n);
    var m := OriginSeq(log, daemon, n);
    SameOriginOrder(log, m - 1, k - 1);
    SameOriginOrder(log, k - 1, m - 1);
  }

  lemma {:induction false} SameOriginOrder(log: Log, i: nat, j: nat)
    requires OriginsDistinct(log) && i < |log| && j < |log| && SameOrigin(log[i], log[j])
    ensures i >= j
  {
  }

  /** The outcomes of a command after which its caller gets an answer. */
  predicate Answered(o: P.Outcome) {
    o.Wrote? || o.Replayed? || o.Nothing?
  }

  /** The earlier record that a key names on a stream is the one the ledger looks up. */
  lemma {:induction false} LookupIsKeyVersion(log: Log, stream: string, key: string, e: Envelope)
    requires IdemUsed(log, stream, key)
    requires forall f :: f in log && f.stream == stream && f.idem == key ==> f == e
    ensures e.ver == P.KeyVersion(log, stream, key)
  {
    P.KeyVersionFinds(log, stream, key);
  }

  /** A refused batch of wrapped events whose key clashes means the key is on the stream. */
  lemma {:induction false} ClashIsUsedKey<S, C, X, E>(agg: P.Aggregate<S, C, X, E>, log: Log, stream: string,
      version: int, events: seq<E>, key: string, st: P.Stamp)
    ensures IdemClash(log, stream, P.WrapAll(agg, events, key, st)) ==> key != "" && IdemUsed(log, stream, key)
  {
    var evs := P.WrapAll(agg, events, key, st);
    if IdemClash(log, stream, evs) {
      var j :| 0 <= j < |evs| && IdemClashAt(log, stream, evs, j);
      assert j == 0;
    }
  }

  class Org {
    const srv: Server
    const ledger: Ledger
    var cursor: nat
    var applied: Log

    /** The projections are exactly the ledger up to the cursor, each record once and in order. */
    ghost predicate Valid()
      reads this, ledger
    {
      && ledger.Valid() && ledger.cfg == srv.cfg && OriginsDistinct(ledger.all)
      && cursor <= |ledger.all| && applied == ledger.all[..cursor]
    }

    ghost predicate CaughtUp()
      reads this, ledger
    {
      Valid() && cursor == |ledger.all|
    }

    /** An org over an existing ledger, before its first replay. */
    constructor (srv: Server, ledger: Ledger)
      requires ledger.Valid() && ledger.cfg == srv.cfg && OriginsDistinct(ledger.all)
      ensures Valid() && this.srv == srv && this.ledger == ledger && cursor == 0
    {
      this.srv, this.ledger := srv, ledger;
      cursor, applied := 0, [];
    }

    /** Hands the next record to every projector; the cursor is one of them. */
    method Project(e: Envelope)
      requires Valid() && cursor < |ledger.all| && e == ledger.all[cursor]
      modifies this
      ensures Valid() && cursor == old(cursor) + 1
    {
      hide WellFormed, StreamsAgree, IdemAgree, OriginsAgree, OriginsDistinct;
      SeqAt(ledger.cfg.c, ledger.all, cursor);
      assert ledger.all[..cursor + 1] == ledger.all[..cursor] + [e];
      applied := applied + [e];
      if e.seqno > cursor {
        cursor := e.seqno;
      }
    }

    /** The paged replay from the cursor. A read or decode failure strikes after budget records. */
    method Replay(budget: nat) returns (ok: bool)
      requires Valid()
      modifies this
      ensures Valid() && cursor >= old(cursor)
      ensures ok ==> CaughtUp()
      ensures ok <==> budget >= |ledger.all| - old(cursor)
    {
      hide WellFormed, StreamsAgree, IdemAgree, OriginsAgree, OriginsDistinct;
      var left := budget;
      while true
        invariant Valid() && cursor >= old(cursor) && left == budget - (cursor - old(cursor))
        decreases |ledger.all| - cursor
      {
        var batch := ledger.ReadAll(cursor + 1, PAGE);
        if |batch| == 0 {
          return true;
        }
        ghost var start := cursor;
        for i := 0 to |batch|
          invariant Valid() && cursor == start + i && cursor >= old(cursor) && left == budget - (cursor - old(cursor))
        {
          if left == 0 {
            return false;
          }
          Project(batch[i]);
          left := left - 1;
        }
        if |batch| < PAGE {
          return true;
        }
      }
    }

    method CatchUp(budget: nat) returns (ok: bool)
      requires Valid()
      modifies this
      ensures Valid() && cursor >= old(cursor)
      ensures ok ==> CaughtUp()
      ensures ok <==> budget >= |ledger.all| - old(cursor)
    {
      hide WellFormed, StreamsAgree, IdemAgree, OriginsAgree, OriginsDistinct;
      var head := ledger.GetHead();
      if head.seqno <= cursor {
        return true;
      }
      ok := Replay(budget);
    }

    /** Appends a rejection and hands it to the projectors, unless it cannot be read back. */
    method RecordRejection(r: Envelope, reread: bool) returns (ok: bool)
      requires CaughtUp() && r.origin.None?
      modifies this, ledger
      ensures Valid()
      ensures ok == Append(srv.cfg, old(ledger.all), REJECTED_STREAM, ANY_VERSION, [r]).Ok?
      ensures ledger.all == Try(srv.cfg, old(ledger.all), Call(REJECTED_STREAM, ANY_VERSION, [r]))
      ensures ok && reread ==> CaughtUp()
      ensures !ok ==> CaughtUp()
    {
      hide WellFormed, StreamsAgree, IdemAgree, OriginsAgree, OriginsDistinct, Ledgers.Append, Follows;
      ghost var log := ledger.all;
      var rng := ledger.Append(REJECTED_STREAM, ANY_VERSION, [r]);
      if rng.Err? {
        return false;
      }
      ghost var s := AppendOne(srv.cfg, log, REJECTED_STREAM, ANY_VERSION, r);
      StreamOfSnoc(log, s, REJECTED_STREAM);
      DistinctSnoc(log, s);
      assert ledger.all[..cursor] == log;
      if reread {
        var written := ledger.Read(REJECTED_STREAM, rng.value.fromVer);
        Project(written[0]);
      }
      return true;
    }

    /** The reject closure of Push with record set: catch up first, then record. */
    method Refuse(e: Envelope, code: Code, fault: Fault) returns (a: Option<Answer>)
      requires Valid()
      modifies this, ledger
      ensures Valid()
      ensures a.Some? ==> RecordAndRefuse(srv, old(ledger.all), e, code) == Ok(Step(ledger.all, a.value))
      ensures a.None? ==> ledger.all == old(ledger.all)
      ensures fault.NoFault? && RecordAndRefuse(srv, old(ledger.all), e, code).Ok? ==> a.Some?
    {
      hide WellFormed, StreamsAgree, IdemAgree, OriginsAgree, OriginsDistinct, Ledgers.Append;
      var ok := CatchUp(if fault.CatchUpFails? then fault.after else |ledger.all|);
      if !ok || fault.RecordFails? {
        return None;
      }
      ok := RecordRejection(RejectionRecord(srv, e, code), !fault.RereadFails?);
      return if ok then Some(Rejected(e.seqno, code)) else None;
    }

    /** One iteration of Push; no answer means the request ends with an error here. */
    method PushRecord(p: Pusher, e: Envelope, fault: Fault) returns (a: Option<Answer>)
      requires Valid()
      modifies this, ledger
      ensures Valid()
      ensures a.Some? ==> PushOne(srv, p, old(ledger.all), e) == Ok(Step(ledger.all, a.value))
      ensures a.None? ==> ledger.all == old(ledger.all)
      ensures fault.NoFault? && PushOne(srv, p, old(ledger.all), e).Ok? ==> a.Some?
    {
      hide WellFormed, StreamsAgree, IdemAgree, OriginsAgree, OriginsDistinct, Ledgers.Append, Authenticate, Authorize;
      hide RecordAndRefuse, Follows;
      if fault.FindFails? {
        return None;
      }
      var found := ledger.FindOrigin(p.daemon, e.seqno);
      if found.Some? {
        OriginSeqIsUnique(ledger.all, p.daemon, e.seqno, found.value);
        return Some(Accepted(e.seqno, found.value, true));
      }
      var code := Authenticate(srv, p, e);
      if code.Some? {
        return Some(Rejected(e.seqno, code.value));
      }
      code := Authorize(srv, p, e);
      if code.Some? {
        a := Refuse(e, code.value, fault);
        return;
      }
      if fault.AppendFails? {
        return None;
      }
      a := AppendPushed(p, e, fault);
    }

    /** The append of an authorized record and the answers for its refusals. */
    method AppendPushed(p: Pusher, e: Envelope, fault: Fault) returns (a: Option<Answer>)
      requires Valid() && !OriginUsed(ledger.all, p.daemon, e.seqno) && Acceptable(srv, p, e)
      modifies this, ledger
      ensures Valid()
      ensures a.Some? ==> PushOne(srv, p, old(ledger.all), e) == Ok(Step(ledger.all, a.value))
      ensures a.None? ==> ledger.all == old(ledger.all)
      ensures fault.NoFault? && PushOne(srv, p, old(ledger.all), e).Ok? ==> a.Some?
    {
      hide WellFormed, StreamsAgree, IdemAgree, OriginsAgree, OriginsDistinct, Ledgers.Append, Authenticate, Authorize;
      hide RecordAndRefuse, Follows;
      ghost var log := ledger.all;
      var rng := ledger.Append(e.stream, e.ver - 1, [SyncCopy(p.daemon, e)]);
      match rng
      case Ok(r) =>
        ghost var s := AppendOne(srv.cfg, log, e.stream, e.ver - 1, SyncCopy(p.daemon, e));
        DistinctSnoc(log, s);
        assert ledger.all[..cursor] == log[..cursor];
        return Some(Accepted(e.seqno, r.fromSeq, false));
      case Err(VersionConflict) =>
        a := Refuse(e, Conflict, fault);
      case Err(DuplicateIdem) =>
        a := Refuse(e, DuplicateKey, fault);
      case Err(_) =>
        return None;
    }

    /**
     * Push. An answered request leaves the projections at the head; a request that breaks off
     * leaves the ledger after some prefix of the records and the projections consistent with it.
     */
    method Push(p: Pusher, request: seq<Envelope>, plan: nat -> Fault, last: nat) returns (res: seq<Answer>, ok: bool)
      requires Valid()
      modifies this, ledger
      ensures Valid()
      ensures exists k ::
                && 0 <= k <= |SortBySeq(request)|
                && ledger.all == PushAll(srv, p, old(ledger.all), SortBySeq(request)[..k]).log
      ensures ok ==> CaughtUp()
      ensures ok ==> PushAll(srv, p, old(ledger.all), SortBySeq(request)) == PushRun(ledger.all, res, false)
      ensures
        && (forall i :: 0 <= i < |SortBySeq(request)| ==> plan(i).NoFault?)
        && !PushAll(srv, p, old(ledger.all), SortBySeq(request)).failed
        && last >= |PushAll(srv, p, old(ledger.all), SortBySeq(request)).log|
        ==> ok
      ensures
        && (forall i :: 0 <= i < |SortBySeq(request)| ==> plan(i).NoFault?)
        && !PushAll(srv, p, old(ledger.all), SortBySeq(request)).failed
        ==> ledger.all == PushAll(srv, p, old(ledger.all), SortBySeq(request)).log
    {
      hide WellFormed, StreamsAgree, IdemAgree, OriginsAgree, OriginsDistinct, PushOne;
      var evs := SortBySeq(request);
      res := [];
      for i := 0 to |evs|
        invariant Valid()
        invariant PushAll(srv, p, old(ledger.all), evs[..i]) == PushRun(ledger.all, res, false)
      {
        ghost var before := ledger.all;
        var a := PushRecord(p, evs[i], plan(i));
        assert evs[..i + 1][..i] == evs[..i];
        if a.None? {
          assert ledger.all == PushAll(srv, p, old(ledger.all), evs[..i]).log;
          assert plan(i).NoFault? ==> PushAll(srv, p, old(ledger.all), evs[..i + 1]).failed;
          FailureStays(srv, p, old(ledger.all), evs, i + 1);
          return res, false;
        }
        res := res + [a.value];
      }
      assert evs[..|evs|] == evs;
      assert ledger.all == PushAll(srv, p, old(ledger.all), evs[..|evs|]).log;
      ok := CatchUp(last);
    }

    /**
     * The pipeline on a caught-up org: one call, alone under the lock. The projections are behind
     * afterwards only when a written record could not be read back.
     */
    method Handle<S, C, X, E>(agg: P.Aggregate<S, C, X, E>, c: C, actorOk: bool, x: X, st: P.Stamp,
        rejection: string -> Bytes, reread: bool)
      returns (outcome: P.Outcome)
      requires CaughtUp()
      modifies this, ledger
      ensures Valid()
      ensures (ledger.all, outcome) == P.Handled(agg, srv.cfg, old(ledger.all), c, actorOk, x, st, rejection)
      ensures CaughtUp() || (!reread && (outcome.Wrote? || outcome.Refused?))
    {
      hide WellFormed, StreamsAgree, IdemAgree, OriginsAgree, OriginsDistinct, Ledgers.Append, P.Replay, P.KeyVersion;
      var stream, key := agg.stream(c), agg.key(c);
      if !actorOk {
        var done := RecordRejection(P.RejectedAs(st, agg.stream(c), rejection("unauthenticated")), reread);
        return P.Refused("unauthenticated");
      }
      if key != "" {
        var prev := ledger.Lookup(stream, key);
        if prev.Some? {
          LookupIsKeyVersion(ledger.all, stream, key, prev.value);
          return P.Replayed(prev.value.ver);
        }
      }
      var envs := ledger.Read(stream, 0);
      assert envs == StreamOf(ledger.all, stream);
      var s := P.Load(agg, stream, envs);
      if s.None? {
        return P.Failed;
      }
      outcome := Conclude(agg, c, s.value, x, st, rejection, reread, |envs|);
    }

    /** Decide on the loaded state, then write what was decided. */
    method Conclude<S, C, X, E>(agg: P.Aggregate<S, C, X, E>, c: C, s: S, x: X, st: P.Stamp, rejection: string -> Bytes,
        reread: bool, version: nat)
      returns (outcome: P.Outcome)
      requires CaughtUp() && version == |StreamOf(ledger.all, agg.stream(c))|
      modifies this, ledger
      ensures Valid()
      ensures (ledger.all, outcome) == P.Concluded(agg, srv.cfg, old(ledger.all), c, s, x, st, rejection)
      ensures CaughtUp() || (!reread && (outcome.Wrote? || outcome.Refused?))
    {
      hide WellFormed, StreamsAgree, IdemAgree, OriginsAgree, OriginsDistinct, Ledgers.Append, P.KeyVersion;
      var d := agg.decide(s, c, x);
      match d
      case Reject(code) =>
        var done := RecordRejection(P.RejectedAs(st, agg.stream(c), rejection(d.code)), reread);
        return P.Refused(code);
      case Broken =>
        return P.Failed;
      case Emit(events) =>
        if events == [] {
          return P.Nothing;
        }
        outcome := AppendAndPublish(agg, c, events, st, reread, version);
    }

    /** Steps 5 and 6 of the pipeline: append at the loaded version, then project what was written. */
    method AppendAndPublish<S, C, X, E>(agg: P.Aggregate<S, C, X, E>, c: C, events: seq<E>, st: P.Stamp,
        reread: bool, version: nat)
      returns (outcome: P.Outcome)
      requires CaughtUp() && version == |StreamOf(ledger.all, agg.stream(c))| && events != []
      modifies this, ledger
      ensures Valid()
      ensures match Append(srv.cfg, old(ledger.all), agg.stream(c), version, P.WrapAll(agg, events, agg.key(c), st))
        case Ok(l) => ledger.all == l && outcome == P.Wrote(version, |events|)
        case Err(err) =>
          && ledger.all == old(ledger.all)
          && outcome == if err == DuplicateIdem then P.Replayed(P.KeyVersion(ledger.all, agg.stream(c), agg.key(c)))
            else P.Failed
      ensures CaughtUp() || (!reread && outcome.Wrote?)
    {
      hide WellFormed, StreamsAgree, IdemAgree, OriginsAgree, OriginsDistinct, CopyOn, P.KeyVersion, SealOn;
      var stream, key := agg.stream(c), agg.key(c);
      var batch := P.WrapAll(agg, events, key, st);
      ghost var log := ledger.all;
      var rng := ledger.Append(stream, version, batch);
      if rng.Err? {
        ClashIsUsedKey(agg, log, stream, version, events, key, st);
        SealOnNoRefusal(srv.cfg, log, stream, batch);
        if rng.error == DuplicateIdem {
          var prev := ledger.Lookup(stream, key);
          LookupIsKeyVersion(log, stream, key, prev.value);
          return P.Replayed(prev.value.ver);
        }
        return P.Failed;
      }
      hide Ledgers.Append;
      Publish(log, stream, version, batch, rng.value, reread);
      return P.Wrote(version, |events|);
    }

    /** Reads the appended batch back and hands it over record by record. */
    method Publish(ghost log: Log, stream: string, version: nat, batch: seq<Envelope>, rng: Range, reread: bool)
      requires ledger.Valid() && ledger.cfg == srv.cfg && OriginsDistinct(log) && WellFormed(srv.cfg.c, log)
      requires cursor == |log| && applied == log && version == |StreamOf(log, stream)|
      requires Append(srv.cfg, log, stream, version, batch) == Ok(ledger.all) && rng == RangeOf(log, ledger.all, stream)
      requires forall e :: e in batch ==> e.origin.None?
      modifies this
      ensures Valid() && (reread ==> CaughtUp())
    {
      hide WellFormed, StreamsAgree, IdemAgree, OriginsAgree, OriginsDistinct, Ledgers.Append, CopyOn;
      ghost var l := ledger.all;
      AppendKeeps(srv.cfg, log, stream, version, batch);
      NoOriginsAdded(srv.cfg, log, stream, version, batch);
      assert l[..cursor] == log;
      if !reread {
        return;
      }
      var written := ledger.Read(stream, rng.fromVer);
      assert written == l[|log|..];
      for i := 0 to |written|
        invariant Valid() && cursor == |log| + i && ledger.all == l
      {
        Project(written[i]);
      }
    }

    /** The state of a stream as the projections know it: nothing when no record of it was handed over. */
    method Projected<S, C, X, E>(agg: P.Aggregate<S, C, X, E>, stream: string) returns (s: Option<S>, known: bool)
      requires CaughtUp()
      ensures known <==> StreamOf(ledger.all, stream) != []
      ensures s == P.Replay(agg, stream, StreamOf(ledger.all, stream))
    {
      hide WellFormed, StreamsAgree, IdemAgree, OriginsAgree, OriginsDistinct;
      assert applied == ledger.all;
      var envs := StreamOf(applied, stream);
      s := P.Load(agg, stream, envs);
      known := envs != [];
    }

    /** RequestGate: catch up, run the command, answer with the gate the projections now hold. */
    method RequestGate<S, C, X, E>(agg: P.Aggregate<S, C, X, E>, c: C, actorOk: bool, x: X, st: P.Stamp,
        rejection: string -> Bytes, budget: nat, reread: bool)
      returns (gate: Option<S>, ok: bool)
      requires Valid()
      modifies this, ledger
      ensures Valid()
      ensures var (l, o) := P.Handled(agg, srv.cfg, old(ledger.all), c, actorOk, x, st, rejection);
        && (ledger.all == old(ledger.all) || ledger.all == l)
        && (ok <==>
              && budget >= |old(ledger.all)| - old(cursor) && Answered(o) && (reread || !o.Wrote?)
              && StreamOf(l, agg.stream(c)) != [])
        && (ok ==> CaughtUp() && ledger.all == l && gate == P.Replay(agg, agg.stream(c), StreamOf(l, agg.stream(c))))
    {
      hide WellFormed, StreamsAgree, IdemAgree, OriginsAgree, OriginsDistinct, P.Handled, P.Replay;
      gate, ok := None, false;
      var up := CatchUp(budget);
      if !up {
        return;
      }
      var o := Handle(agg, c, actorOk, x, st, rejection, reread);
      if !Answered(o) || (!reread && o.Wrote?) {
        return;
      }
      gate, ok := Projected(agg, agg.stream(c));
    }

    /** ResolveGate: an unknown gate is answered from the projections, which by then know every record. */
    method ResolveGate<S, C, X, E>(agg: P.Aggregate<S, C, X, E>, c: C, actorOk: bool, x: X, st: P.Stamp,
        rejection: string -> Bytes, budget: nat, reread: bool)
      returns (gate: Option<S>, ok: bool, known: bool)
      requires Valid()
      modifies this, ledger
      ensures Valid()
      ensures var (l, o) := P.Handled(agg, srv.cfg, old(ledger.all), c, actorOk, x, st, rejection);
        && (known <==> budget >= |old(ledger.all)| - old(cursor) && StreamOf(old(ledger.all), agg.stream(c)) != [])
        && ledger.all == (if known then l else old(ledger.all))
        && (ok <==> known && Answered(o) && (reread || !o.Wrote?))
        && (ok ==> CaughtUp() && gate == P.Replay(agg, agg.stream(c), StreamOf(l, agg.stream(c))))
    {
      hide WellFormed, StreamsAgree, IdemAgree, OriginsAgree, OriginsDistinct, P.Handled, P.Replay;
      gate, ok, known := None, false, false;
      var up := CatchUp(budget);
      if !up {
        return;
      }
      gate, known := Projected(agg, agg.stream(c));
      if !known {
        return;
      }
      var o := Handle(agg, c, actorOk, x, st, rejection, reread);
      if !Answered(o) || (!reread && o.Wrote?) {
        return;
      }
      ok := true;
      var still: bool;
      gate, still := Projected(agg, agg.stream(c));
    }
  }

  lemma {:induction false} FailureStays(srv: Server, p: Pusher, log: Log, evs: seq<Envelope>, n: nat)
    requires n <= |evs|
    ensures PushAll(srv, p, log, evs[..n]).failed ==> PushAll(srv, p, log, evs).failed
    decreases |evs|
  {
    hide PushOne;
    if n < |evs| {
      assert evs[..|evs| - 1][..n] == evs[..n];
      FailureStays(srv, p, log, evs[..|evs| - 1], n);
    } else {
      assert evs[..n] == evs;
    }
  }

  lemma {:induction false} NoOriginsAdded(cfg: Config, log: Log, stream: string, expected: int, evs: seq<Envelope>)
    requires OriginsDistinct(log) && Append(cfg, log, stream, expected, evs).Ok?
    requires forall e :: e in evs ==> e.origin.None?
    ensures OriginsDistinct(Append(cfg, log, stream, expected, evs).value)
  {
    hide Append;
    forall i, j | 0 <= i < j < |evs| ensures !SameOrigin(evs[i], evs[j]) {
      assert evs[i] in evs;
    }
    OriginsStayDistinct(cfg, log, stream, expected, evs);
  }
}
