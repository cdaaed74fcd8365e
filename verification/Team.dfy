/**
 * The sync receiver (internal/app/team.go): what one push does to the server log, and what every
 * run of pushes, local writes and server writes keeps.
 */
module Team {
  import opened Prelude
  import opened Envelopes
  import opened Ledgers

  const REJECTED_STREAM := "rejected"

  /** Streams that may reach the server. */
  predicate Shareable(stream: string) {
    TeamLayer(stream) || "change/" <= stream || "gate/" <= stream || "session/" <= stream
  }

  /** Streams of the pull copy every daemon receives. */
  predicate TeamLayer(stream: string) {
    "constraint/" <= stream || "decision/" <= stream || "scope/" <= stream || "anchor/" <= stream
  }

  /** The stream is this kind's stream of some id. */
  ghost predicate IsOf(stream: string, kind: string) {
    exists id :: stream == kind + id
  }

  lemma {:induction false} PrefixIsOf(stream: string, kind: string)
    ensures kind <= stream <==> IsOf(stream, kind)
  {
    if kind <= stream {
      assert stream == kind + stream[|kind|..];
    }
  }

  /**
   * Every daemon receives the streams of constraints, decisions, scopes and anchors, whatever their
   * ids; the server also takes those of changes, gates and sessions, and nothing else.
   */
  lemma {:induction false} StreamsByLayer(stream: string)
    ensures TeamLayer(stream) <==>
      || IsOf(stream, "constraint/") || IsOf(stream, "decision/") || IsOf(stream, "scope/") || IsOf(stream, "anchor/")
    ensures Shareable(stream) <==>
      TeamLayer(stream) || IsOf(stream, "change/") || IsOf(stream, "gate/") || IsOf(stream, "session/")
    ensures !Shareable(REJECTED_STREAM)
  {
    hide IsOf;
    PrefixIsOf(stream, "constraint/");
    PrefixIsOf(stream, "decision/");
    PrefixIsOf(stream, "scope/");
    PrefixIsOf(stream, "anchor/");
    PrefixIsOf(stream, "change/");
    PrefixIsOf(stream, "gate/");
    PrefixIsOf(stream, "session/");
    assert REJECTED_STREAM[0] == 'r';
  }

  datatype Code =
    | BadHash | BadSignature | NotShareable | Unauthorized | UnknownEvent | Conflict | DuplicateKey

  /** The server's ledger configuration, key checker, codec, rejection encoder and clock reading. */
  datatype Server = Server(
    cfg: Config, verifySig: (string, Bytes, Bytes) -> bool, decodes: (string, int, Bytes) -> bool,
    rejection: (Envelope, Code) -> Bytes, now: nat)

  /** The authenticated pusher: a registered daemon, its public key and its user. */
  datatype Pusher = Pusher(daemon: string, pub: string, user: string)

  datatype Answer =
    | Accepted(localSeq: int, seqno: int, duplicate: bool)
    | Rejected(localSeq: int, code: Code)

  /** Whether the record is what the pushing daemon sealed and signed; these refusals are answered and not recorded. */
  function Authenticate(srv: Server, p: Pusher, e: Envelope): Option<Code> {
    if e.ver < 1 || e.seqno < 1 then Some(BadHash)
    else if Verify(srv.cfg.c, e, e.prevHash).Some? then Some(BadHash)
    else if !srv.verifySig(p.pub, e.hash, e.sig) then Some(BadSignature)
    else None
  }

  /** Rules whose refusals are recorded. */
  function Authorize(srv: Server, p: Pusher, e: Envelope): Option<Code> {
    if !Shareable(e.stream) then Some(NotShareable)
    else if !e.actor.Valid() then Some(Unauthorized)
    else if e.actor.kind.Human? && e.actor.id != p.user then Some(Unauthorized)
    else if e.actor.kind.Agent? && e.actor.owner != p.user then Some(Unauthorized)
    else if !srv.decodes(e.kind, e.v, e.body) then Some(UnknownEvent)
    else None
  }

  predicate Acceptable(srv: Server, p: Pusher, e: Envelope) {
    Authenticate(srv, p, e).None? && Authorize(srv, p, e).None?
  }

  /** The record the server re-chains: no seq, and the place it came from. */
  function SyncCopy(daemon: string, e: Envelope): Envelope {
    e.(seqno := 0, origin := Some(Origin(daemon, e.seqno, e.prevHash)))
  }

  /** A record of the Rejected stream before it is sealed: who was refused on which stream. */
  function RejectedRecord(ts: nat, actor: Actor, target: string, body: Bytes): Envelope {
    Envelope(0, "", 0, "Rejected", 1, ts, actor, EventMeta([target], "", 0), body, [], [], [], [], [], "", None)
  }

  function RejectionRecord(srv: Server, e: Envelope, code: Code): Envelope {
    RejectedRecord(srv.now, e.actor, e.stream, srv.rejection(e, code))
  }

  function Record(srv: Server, log: Log, e: Envelope, code: Code): Result<Log, AppendError> {
    Append(srv.cfg, log, REJECTED_STREAM, ANY_VERSION, [RejectionRecord(srv, e, code)])
  }

  /** The seq of the latest record with this origin, 0 when there is none. */
  function OriginSeq(log: Log, daemon: string, localSeq: int): nat {
    if log == [] then 0
    else if FromOrigin(log[|log| - 1], daemon, localSeq) then |log|
    else OriginSeq(log[..|log| - 1], daemon, localSeq)
  }

  datatype Step = Step(log: Log, answer: Answer)

  function RecordAndRefuse(srv: Server, log: Log, e: Envelope, code: Code): Result<Step, AppendError> {
    match Record(srv, log, e, code)
    case Ok(l) => Ok(Step(l, Rejected(e.seqno, code)))
    case Err(err) => Err(err)
  }

  function AppendCopy(srv: Server, p: Pusher, log: Log, e: Envelope): Result<Log, AppendError> {
    Append(srv.cfg, log, e.stream, e.ver - 1, [SyncCopy(p.daemon, e)])
  }

  /**
   * One record of a push: its answer and the new log, or a ledger failure that ends the request.
   * A known origin is answered first, so the append never reports one.
   */
  function PushOne(srv: Server, p: Pusher, log: Log, e: Envelope): Result<Step, AppendError> {
    if OriginUsed(log, p.daemon, e.seqno) then
      Ok(Step(log, Accepted(e.seqno, OriginSeq(log, p.daemon, e.seqno), true)))
    else if Authenticate(srv, p, e).Some? then
      Ok(Step(log, Rejected(e.seqno, Authenticate(srv, p, e).value)))
    else if Authorize(srv, p, e).Some? then
      RecordAndRefuse(srv, log, e, Authorize(srv, p, e).value)
    else
      match AppendCopy(srv, p, log, e)
      case Ok(l) => Ok(Step(l, Accepted(e.seqno, |l|, false)))
      case Err(VersionConflict) => RecordAndRefuse(srv, log, e, Conflict)
      case Err(DuplicateIdem) => RecordAndRefuse(srv, log, e, DuplicateKey)
      case Err(err) => Err(err)
  }

  datatype PushRun = PushRun(log: Log, answers: seq<Answer>, failed: bool)

  /** The loop of Push over the records in local order. A failure keeps what was done before it. */
  function PushAll(srv: Server, p: Pusher, log: Log, evs: seq<Envelope>): PushRun {
    if evs == [] then PushRun(log, [], false)
    else
      var r := PushAll(srv, p, log, evs[..|evs| - 1]);
      if r.failed then r
      else
        match PushOne(srv, p, r.log, evs[|evs| - 1])
        case Ok(s) => PushRun(s.log, r.answers + [s.answer], false)
        case Err(_) => r.(failed := true)
  }

  // ---- ordering the request ----

  /** Inserts after every record with a seq not above the new one. */
  function InsertBySeq(sorted: seq<Envelope>, e: Envelope): seq<Envelope> {
    if sorted == [] || sorted[|sorted| - 1].seqno <= e.seqno then sorted + [e]
    else InsertBySeq(sorted[..|sorted| - 1], e) + [sorted[|sorted| - 1]]
  }

  /** The stable sort of the request by local seq. */
  function SortBySeq(evs: seq<Envelope>): seq<Envelope> {
    if evs == [] then [] else InsertBySeq(SortBySeq(evs[..|evs| - 1]), evs[|evs| - 1])
  }

  function WithSeq(evs: seq<Envelope>, n: int): seq<Envelope> {
    if evs == [] then []
    else WithSeq(evs[..|evs| - 1], n) + (if evs[|evs| - 1].seqno == n then [evs[|evs| - 1]] else [])
  }

  ghost predicate Sorted(evs: seq<Envelope>) {
    forall i, j :: 0 <= i <= j < |evs| ==> evs[i].seqno <= evs[j].seqno
  }

  lemma {:induction false} WithSeqSnoc(evs: seq<Envelope>, e: Envelope, n: int)
    ensures WithSeq(evs + [e], n) == WithSeq(evs, n) + (if e.seqno == n then [e] else [])
  {
    assert (evs + [e])[..|evs|] == evs;
  }

  lemma {:induction false} InsertSorts(s: seq<Envelope>, e: Envelope)
    requires Sorted(s)
    ensures Sorted(InsertBySeq(s, e))
  {
    if s != [] && s[|s| - 1].seqno > e.seqno {
      var s0, z := s[..|s| - 1], s[|s| - 1];
      InsertSorts(s0, e);
      InsertKeeps(s0, e);
      var r := InsertBySeq(s0, e);
      forall i | 0 <= i < |r| ensures r[i].seqno <= z.seqno {
        assert r[i] in multiset(r);
        assert r[i] == e || r[i] in s0;
      }
    }
  }

  lemma {:induction false} InsertKeeps(s: seq<Envelope>, e: Envelope)
    ensures multiset(InsertBySeq(s, e)) == multiset(s) + multiset{e}
  {
    if s != [] && s[|s| - 1].seqno > e.seqno {
      InsertKeeps(s[..|s| - 1], e);
      assert s == s[..|s| - 1] + [s[|s| - 1]];
    }
  }

  lemma {:induction false} InsertIsStable(s: seq<Envelope>, e: Envelope, n: int)
    ensures WithSeq(InsertBySeq(s, e), n) == WithSeq(s, n) + (if e.seqno == n then [e] else [])
  {
    if s == [] || s[|s| - 1].seqno <= e.seqno {
      WithSeqSnoc(s, e, n);
    } else {
      InsertIsStable(s[..|s| - 1], e, n);
      WithSeqSnoc(InsertBySeq(s[..|s| - 1], e), s[|s| - 1], n);
    }
  }

  /** The request is processed in local order, every record once, equal seqs in the order sent. */
  lemma {:induction false} SortIsStable(evs: seq<Envelope>)
    ensures Sorted(SortBySeq(evs))
    ensures multiset(SortBySeq(evs)) == multiset(evs)
    ensures forall n :: WithSeq(SortBySeq(evs), n) == WithSeq(evs, n)
  {
    if evs != [] {
      var s, e := SortBySeq(evs[..|evs| - 1]), evs[|evs| - 1];
      SortIsStable(evs[..|evs| - 1]);
      InsertSorts(s, e);
      InsertKeeps(s, e);
      assert evs == evs[..|evs| - 1] + [e];
      forall n ensures WithSeq(InsertBySeq(s, e), n) == WithSeq(evs, n) {
        InsertIsStable(s, e, n);
      }
    }
  }

  lemma {:induction false} SortedMembers(evs: seq<Envelope>)
    ensures forall e :: e in SortBySeq(evs) <==> e in evs
    ensures |SortBySeq(evs)| == |evs|
  {
    hide SortBySeq, Sorted, WithSeq;
    SortIsStable(evs);
    assert forall e :: e in SortBySeq(evs) <==> e in multiset(SortBySeq(evs));
    assert |multiset(SortBySeq(evs))| == |multiset(evs)|;
  }

  // ---- every answered record has one answer ----

  function LocalSeqs(evs: seq<Envelope>): seq<int> {
    seq(|evs|, i requires 0 <= i < |evs| => evs[i].seqno)
  }

  function AnswerSeqs(answers: seq<Answer>): seq<int> {
    seq(|answers|, i requires 0 <= i < |answers| => answers[i].localSeq)
  }

  /** The i-th answer is about the i-th record, and an accepting one names the server record made from it. */
  lemma {:induction false} AnswersMatch(srv: Server, p: Pusher, log: Log, evs: seq<Envelope>)
    ensures var r := PushAll(srv, p, log, evs);
      && |r.answers| <= |evs| && AnswerSeqs(r.answers) == LocalSeqs(evs[..|r.answers|])
      && (!r.failed ==> |r.answers| == |evs|)
      && log <= r.log
      && forall i :: 0 <= i < |r.answers| ==> AnswerHolds(r.log, p.daemon, r.answers[i])
  {
    hide PushOne;
    if evs == [] {
      assert AnswerSeqs([]) == LocalSeqs([]);
    } else {
      var n := |evs| - 1;
      AnswersMatch(srv, p, log, evs[..n]);
      var r0, r := PushAll(srv, p, log, evs[..n]), PushAll(srv, p, log, evs);
      assert evs[..n][..|r0.answers|] == evs[..|r0.answers|];
      assert evs[..n][..n] == evs[..n];
      if !r0.failed && PushOne(srv, p, r0.log, evs[n]).Ok? {
        PushOneAnswers(srv, p, r0.log, evs[n]);
        var a := r.answers[n];
        assert r.answers == r0.answers + [a];
        forall i | 0 <= i < |r.answers| ensures AnswerHolds(r.log, p.daemon, r.answers[i]) {
          if i < n {
            assert AnswerHolds(r0.log, p.daemon, r0.answers[i]);
            AnswerStays(r0.log, r.log, p.daemon, r.answers[i]);
          }
        }
        assert evs[..|r.answers|] == evs;
        forall i | 0 <= i < n ensures r.answers[i].localSeq == evs[i].seqno {
          assert AnswerSeqs(r0.answers)[i] == LocalSeqs(evs[..n])[i];
        }
        assert AnswerSeqs(r.answers) == LocalSeqs(evs);
      }
    }
  }

  ghost predicate AnswerHolds(log: Log, daemon: string, a: Answer) {
    a.Accepted? ==> 1 <= a.seqno <= |log| && FromOrigin(log[a.seqno - 1], daemon, a.localSeq)
  }

  lemma {:induction false} AnswerStays(log: Log, l: Log, daemon: string, a: Answer)
    requires log <= l && AnswerHolds(log, daemon, a)
    ensures AnswerHolds(l, daemon, a)
  {
  }

  lemma {:induction false} OriginSeqFinds(log: Log, daemon: string, n: int)
    ensures OriginSeq(log, daemon, n) <= |log|
    ensures OriginUsed(log, daemon, n) ==>
      OriginSeq(log, daemon, n) > 0 && FromOrigin(log[OriginSeq(log, daemon, n) - 1], daemon, n)
  {
    if log != [] && !FromOrigin(log[|log| - 1], daemon, n) {
      OriginSeqFinds(log[..|log| - 1], daemon, n);
      if OriginUsed(log, daemon, n) {
        var i :| 0 <= i < |log| && FromOrigin(log[i], daemon, n);
        assert log[..|log| - 1][i] == log[i];
      }
    }
  }

  lemma {:induction false} AppendOne(cfg: Config, log: Log, stream: string, expected: int,
      e: Envelope) returns (s: Envelope)
    requires Append(cfg, log, stream, expected, [e]).Ok?
    ensures Append(cfg, log, stream, expected, [e]).value == log + [s]
    ensures CopyOn(s, e, stream)
    ensures e.idem != "" ==> !IdemUsed(log, stream, e.idem)
    ensures Follows(cfg.c, log, s)
    ensures expected != ANY_VERSION ==> s.ver == expected + 1
    ensures !HasUsedOrigin(log, e)
  {
    var l := AppendSeals(cfg, log, stream, expected, [e]);
    var l0: Log;
    l0, s := SealOnSnoc(cfg, log, stream, [e]);
    assert [e][..0] == [];
    assert l0 == log;
    assert !IdemClashAt(log, stream, [e], 0);
    assert !HasUsedOrigin(log, [e][0]);
  }

  lemma {:induction false} PushOneAnswers(srv: Server, p: Pusher, log: Log, e: Envelope)
    requires PushOne(srv, p, log, e).Ok?
    ensures var s := PushOne(srv, p, log, e).value;
      s.answer.localSeq == e.seqno && log <= s.log && AnswerHolds(s.log, p.daemon, s.answer)
  {
    hide Append, Authenticate, Authorize, Follows;
    if OriginUsed(log, p.daemon, e.seqno) {
      OriginSeqFinds(log, p.daemon, e.seqno);
    } else if Acceptable(srv, p, e) && AppendCopy(srv, p, log, e).Ok? {
      var s := AppendOne(srv.cfg, log, e.stream, e.ver - 1, SyncCopy(p.daemon, e));
    } else {
      forall code | Record(srv, log, e, code).Ok? ensures log <= Record(srv, log, e, code).value {
        var s := AppendOne(srv.cfg, log, REJECTED_STREAM, ANY_VERSION, RejectionRecord(srv, e, code));
      }
    }
  }

  // ---- what an answer means ----

  /** The record's actor is the pusher's user or an agent that user owns. */
  predicate ActsFor(p: Pusher, a: Actor) {
    a.Valid() && ((a.kind.Human? && a.id == p.user) || (a.kind.Agent? && a.owner == p.user))
  }

  /**
   * A newly accepted record was sealed by its daemon as it arrived and signed with the pusher's key,
   * on a stream that may be shared, by someone the pusher speaks for; the server's last record is the
   * one made from it, carries its body under the same signed hash, and still verifies with that key.
   */
  lemma {:induction false} AcceptedIsGenuine(srv: Server, p: Pusher, log: Log, e: Envelope)
    requires PushOne(srv, p, log, e).Ok?
    requires PushOne(srv, p, log, e).value.answer.Accepted? && !PushOne(srv, p, log, e).value.answer.duplicate
    ensures !OriginUsed(log, p.daemon, e.seqno) && e.ver == |StreamOf(log, e.stream)| + 1 && e.seqno >= 1
    ensures Verify(srv.cfg.c, e, e.prevHash).None? && (e.ts % 1000 == 0 ==> Seal(srv.cfg.c, e, e.prevHash) == e)
    ensures srv.verifySig(p.pub, e.hash, e.sig) && srv.decodes(e.kind, e.v, e.body)
    ensures Shareable(e.stream) && ActsFor(p, e.actor)
    ensures var l := PushOne(srv, p, log, e).value.log;
      && |l| == |log| + 1 && l[..|log|] == log && PushOne(srv, p, log, e).value.answer.seqno == |l|
      && var s := l[|log|];
         && s.stream == e.stream && s.ver == e.ver && s.kind == e.kind && s.v == e.v && s.actor == e.actor
         && s.meta == e.meta && s.body == e.body && s.idem == e.idem && FromOrigin(s, p.daemon, e.seqno)
         && (e.ts % 1000 == 0 && e.sig != [] ==>
               && s.ts == e.ts && s.sig == e.sig && OriginHash(srv.cfg.c, s) == e.hash
               && srv.verifySig(p.pub, OriginHash(srv.cfg.c, s), s.sig))
  {
    hide Append, Shareable, IdemUsed;
    var c := srv.cfg.c;
    var s := AppendOne(srv.cfg, log, e.stream, e.ver - 1, SyncCopy(p.daemon, e));
    assert e.ver - 1 == |StreamOf(log, e.stream)|;
    if e.ts % 1000 == 0 {
      VerifiedIsSealed(c, e, e.prevHash);
      assert Verify(c, s, HeadHash([], log)) == None;
      assert MetaOf(s) == MetaOf(e);
    }
  }

  /** The five refusals that leave a record, and the two that do not. */
  predicate Recorded(code: Code) {
    code in {NotShareable, Unauthorized, UnknownEvent, Conflict, DuplicateKey}
  }

  /** Why a record is refused, said about the record and the log. */
  ghost predicate Deserves(srv: Server, p: Pusher, log: Log, e: Envelope, code: Code) {
    match code
    case BadHash => e.ver < 1 || e.seqno < 1 || Verify(srv.cfg.c, e, e.prevHash).Some?
    case BadSignature => !srv.verifySig(p.pub, e.hash, e.sig)
    case NotShareable => !Shareable(e.stream)
    case Unauthorized => !ActsFor(p, e.actor)
    case UnknownEvent => !srv.decodes(e.kind, e.v, e.body)
    case Conflict => e.ver != |StreamOf(log, e.stream)| + 1
    case DuplicateKey => e.idem != "" && IdemUsed(log, e.stream, e.idem)
  }

  /**
   * A refusal names a rule that the record really breaks. A record that the daemon did not seal or
   * sign leaves no trace; every other refusal leaves exactly one record on the Rejected stream, which
   * names the actor and the stream it was meant for.
   */
  lemma {:induction false} RefusalsAreTrue(srv: Server, p: Pusher, log: Log, e: Envelope)
    requires PushOne(srv, p, log, e).Ok? && PushOne(srv, p, log, e).value.answer.Rejected?
    ensures var l, a := PushOne(srv, p, log, e).value.log, PushOne(srv, p, log, e).value.answer;
      && !OriginUsed(log, p.daemon, e.seqno)
      && Deserves(srv, p, log, e, a.code)
      && (!Recorded(a.code) ==> l == log)
      && (Recorded(a.code) ==>
            && |l| == |log| + 1 && l[..|log|] == log
            && l[|log|].stream == REJECTED_STREAM && l[|log|].kind == "Rejected" && l[|log|].v == 1
            && l[|log|].actor == e.actor && l[|log|].ts <= srv.now < l[|log|].ts + 1000
            && l[|log|].meta == EventMeta([e.stream], "", 0) && l[|log|].body == srv.rejection(e, a.code)
            && l[|log|].origin.None?)
  {
    hide Append, Shareable, IdemUsed, Seal, Verify;
    var code := PushOne(srv, p, log, e).value.answer.code;
    if Authenticate(srv, p, e).None? {
      var s := AppendOne(srv.cfg, log, REJECTED_STREAM, ANY_VERSION, RejectionRecord(srv, e, code));
      if Authorize(srv, p, e).None? {
        CopyRefused(srv, p, log, e);
      }
    }
  }

  lemma {:induction false} CopyRefused(srv: Server, p: Pusher, log: Log, e: Envelope)
    ensures AppendCopy(srv, p, log, e) == Err(VersionConflict) ==> e.ver != |StreamOf(log, e.stream)| + 1
    ensures AppendCopy(srv, p, log, e) == Err(DuplicateIdem) ==> e.idem != "" && IdemUsed(log, e.stream, e.idem)
  {
    hide SealOn, IdemUsed;
    SealOnNoRefusal(srv.cfg, log, e.stream, [SyncCopy(p.daemon, e)]);
  }

  // ---- a request without failures ----

  /** The server's signer, if there is one, never fails. */
  ghost predicate AlwaysSigns(cfg: Config) {
    cfg.sign.None? || forall h :: cfg.sign.value(h).Some?
  }

  lemma {:induction false} AppendOneWorks(cfg: Config, log: Log, stream: string, expected: int, e: Envelope)
    requires AlwaysSigns(cfg) && stream != "" && e.kind != "" && Refusal(log, stream, expected, [e]).None?
    ensures Append(cfg, log, stream, expected, [e]).Ok?
  {
    hide Refusal;
    assert [e][..0] == [];
    assert SealOn(cfg, log, stream, []) == Ok(log);
    assert SealNext(cfg, log, stream, |StreamOf(log, stream)| + 1, e).Ok?;
  }

  /** Nothing else stops a batch that passes the checks. */
  lemma {:induction false} BatchWorks(cfg: Config, log: Log, stream: string, expected: int, evs: seq<Envelope>)
    requires AlwaysSigns(cfg) && stream != "" && forall e :: e in evs ==> e.kind != ""
    ensures Refusal(log, stream, expected, evs).None? ==> Append(cfg, log, stream, expected, evs).Ok?
  {
    hide Refusal, AlwaysSigns;
    SealWorks(cfg, log, stream, evs);
  }

  lemma {:induction false} SealWorks(cfg: Config, log: Log, stream: string, evs: seq<Envelope>)
    requires AlwaysSigns(cfg) && stream != "" && forall e :: e in evs ==> e.kind != ""
    ensures SealOn(cfg, log, stream, evs).Ok?
    decreases |evs|
  {
    if evs != [] {
      var n := |evs| - 1;
      assert forall e :: e in evs[..n] ==> e in evs;
      SealWorks(cfg, log, stream, evs[..n]);
      assert evs[n] in evs;
    }
  }

  lemma {:induction false} RecordWorks(srv: Server, log: Log, e: Envelope, code: Code)
    requires AlwaysSigns(srv.cfg)
    ensures Record(srv, log, e, code).Ok?
  {
    hide Append, AlwaysSigns;
    var r := RejectionRecord(srv, e, code);
    assert !IdemClashAt(log, REJECTED_STREAM, [r], 0) && !HasUsedOrigin(log, [r][0]);
    AppendOneWorks(srv.cfg, log, REJECTED_STREAM, ANY_VERSION, r);
  }

  /** The append of an authorized record of a new origin only ever reports a conflict or a used key. */
  lemma {:induction false} CopyWorks(srv: Server, p: Pusher, log: Log, e: Envelope)
    requires AlwaysSigns(srv.cfg) && e.kind != "" && e.stream != "" && !OriginUsed(log, p.daemon, e.seqno)
    ensures var r := AppendCopy(srv, p, log, e); r.Err? ==> r.error in {VersionConflict, DuplicateIdem}
  {
    hide AlwaysSigns, SealOn, IdemClash;
    var c := SyncCopy(p.daemon, e);
    assert !HasUsedOrigin(log, [c][0]);
    if Refusal(log, e.stream, e.ver - 1, [c]).None? {
      AppendOneWorks(srv.cfg, log, e.stream, e.ver - 1, c);
    }
  }

  /** With a signer that never fails every record gets its answer, whatever it is. */
  lemma {:induction false} PushOneWorks(srv: Server, p: Pusher, log: Log, e: Envelope)
    requires AlwaysSigns(srv.cfg) && e.kind != ""
    ensures PushOne(srv, p, log, e).Ok?
  {
    hide AlwaysSigns, Append, OriginUsed, OriginSeq, Authenticate, Record, AppendCopy;
    forall code ensures Record(srv, log, e, code).Ok? {
      RecordWorks(srv, log, e, code);
    }
    if !OriginUsed(log, p.daemon, e.seqno) && Authorize(srv, p, e).None? {
      SharedIsNamed(e.stream);
      CopyWorks(srv, p, log, e);
    }
  }

  lemma {:induction false} SharedIsNamed(stream: string)
    ensures Shareable(stream) ==> stream != ""
  {
  }

  /** A record that breaks no rule and fits its stream is accepted. */
  lemma {:induction false} GenuineIsAccepted(srv: Server, p: Pusher, log: Log, e: Envelope)
    requires AlwaysSigns(srv.cfg) && e.kind != "" && !OriginUsed(log, p.daemon, e.seqno)
    requires e.ver >= 1 && e.seqno >= 1 && forall code :: !Deserves(srv, p, log, e, code)
    ensures PushOne(srv, p, log, e).Ok? && PushOne(srv, p, log, e).value.answer.Accepted?
    ensures !PushOne(srv, p, log, e).value.answer.duplicate
  {
    hide AlwaysSigns, Append, IdemUsed, Verify, Shareable;
    PushOneWorks(srv, p, log, e);
    if PushOne(srv, p, log, e).value.answer.Rejected? {
      RefusalsAreTrue(srv, p, log, e);
    }
  }

  /** With a signer that never fails no request breaks off. */
  lemma {:induction false} PushAllWorks(srv: Server, p: Pusher, log: Log, evs: seq<Envelope>)
    requires AlwaysSigns(srv.cfg) && forall e :: e in evs ==> e.kind != ""
    ensures !PushAll(srv, p, log, evs).failed
  {
    hide PushOne, AlwaysSigns;
    if evs != [] {
      var n := |evs| - 1;
      assert forall e :: e in evs[..n] ==> e in evs;
      PushAllWorks(srv, p, log, evs[..n]);
      PushOneWorks(srv, p, PushAll(srv, p, log, evs[..n]).log, evs[n]);
    }
  }
}
