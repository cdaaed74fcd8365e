# Verified model of keelage

keelage records agent work in an append-only, hash-chained ledger. Commands run through pure
Decide/Apply aggregates, in-memory read models answer questions about the result, daemons sync their
ledgers to a team server, and the server's log carries an RFC 6962 Merkle tree. This project models
those parts in Dafny and proves what they promise over whole runs.

`dafny verify dfyconfig.toml` checks everything.

## What is modelled

- **Records and chain** (`Envelope.dfy`): seal, verify, the chain and what its head binds.
- **Ledger** (`Ledger.dfy`, `MemoryLedger.dfy`): append as a function on logs, and the class with one
  log and three indexes that implements it.
- **Sync** (`Team.dfy`, `SyncRuns.dfy`, `Syncer.dfy`, `SyncProtocol.dfy`, `Org.dfy`): the receiver, the
  daemon side, and both as one machine. A run of `SyncProtocol.dfy` interleaves any number of daemons,
  each with a ledger, a push cursor, a pull cursor and a cache: local writes, pages pushed at the
  cursor, pushes of arbitrary selections of records, requests that break off after any record, lost
  replies, server writes, page pulls that break off, cursor resets. `Org.dfy` is the server's tenant
  runtime with an infrastructure failure possible at every step; `Syncer.Push` runs against it.
- **Pipeline** (`Pipeline.dfy`, `Wiring.dfy`): authorize, look up, load, decide and append as separate
  steps of any number of handlers over one ledger, and several aggregate types on one pipeline.
- **Aggregates** (`Change.dfy`, `Autonomy.dfy`, `Constraint.dfy`, `Sessions.dfy`): changes, scopes,
  gates, constraints and sessions: what each command does, when it is refused, and what holds over
  all command runs.
- **Read models** (`ReadModels.dfy`, `ConstraintIndex.dfy`, `ChangeIndex.dfy`, `ScopeIndex.dfy`,
  `GateIndex.dfy`, `ScopeKeys.dfy`, `Sorting.dfy`): indexes against replay, listings and scope resolution.
- **Merkle log** (`Merkle.dfy`, `Consistency.dfy`): the incremental node store against the recursive
  tree hash, inclusion proofs and consistency proofs.
- **Printers and parsers** (`SyntaxTree.dfy`, `ManagedBlock.dfy`, `Signature.dfy`).
- **Session capture** (`Hooks.dfy`, `SessionStream.dfy`): hook events onto session streams, and those
  streams as the pipeline writes them.

SHA-256 is an arbitrary function to 32 bytes, so every binding result reads "equal, or here are two
different inputs with one digest". The canonical JSON of the sealed meta, the event codec, Ed25519
signing and verification, `path.Match`, Unicode classes, prompt classification, relative paths, clocks
and failures are parameters. Integers are unbounded and times are integers. An idempotency key is a
pair of stream and key; the joined string of the code keeps pairs apart as long as streams hold no NUL.
A session stream is a pair of tool and session id in the same way.

Places where the code does less than its comments say, with the exact condition proved:

- `Append` rejects origins that are on the log and does not compare origins within one batch
  (`Ledgers.OriginsStayDistinct`).
- `VerifyBundle` hashes meta hash and body hash as one run of bytes, so it does not fix the boundary
  between them (`Merkle.BundleBindsRecord`, `Merkle.ShiftedBundleVerifies`).
- `RemoveBlock` leaves "the rest untouched" only for text that is empty or ends in exactly one newline
  after other text (`ManagedBlocks.RemoveUndoesUpsert`).
- The review and stale states of a constraint are listed and checked for, and no event leads to them
  (`ConstraintIndexes.EntriesAgree` carries that invariant).

## Model

| member | source | states |
|---|---|---|
| `Envelopes.VerifyChain` | internal/core/envelope.go:173-184 | Succeeds exactly when every record verifies against its predecessor and the seqs have no gap, and then returns the head hash. |
| `Envelopes.SealVerifies` | internal/core/envelope.go:133-148 | A sealed envelope verifies against the predecessor it was sealed on; its hash is 32 bytes, its time is cut to the microsecond, and nothing but time and hashes moves. |
| `Envelopes.VerifiedIsSealed` | internal/core/envelope.go:133-167 | A record verifies exactly when sealing it again on that predecessor changes nothing. |
| `Envelopes.VerifyReports` | internal/core/envelope.go:151-167 | A failed check reports the first part that does not fit: predecessor, then body, then meta, then hash. |
| `Envelopes.RecordBinding` | internal/core/envelope.go:108-126 | Two verified records with one chain hash have the same predecessor hash and agree on stream, version, kind, schema, time, actor, meta and body, or two different hashed inputs with one digest are returned, or their different sealed metas have one encoding. |
| `Envelopes.HeadBindsHistory` | internal/core/envelope.go:151-184 | Two chains verified from genesis with one non-empty head have the same length and agree record by record on every sealed field and the body, or a collision among the inputs they hashed is returned, or two records at one place have different sealed metas with one encoding. |
| `Envelopes.ActorsAreNamed` | internal/core/ids.go:39-55 | Every valid actor is a human or an agent with an id, and an agent has an owner. |
| `Ledgers.AppendKeeps` | internal/adapter/memory/ledger.go:53-124 | A successful append keeps the log well formed, leaves every earlier record alone, and adds exactly the batch, in order, on the one stream. |
| `Ledgers.OriginsStayDistinct` | internal/adapter/memory/ledger.go:74-85 | Origins stay distinct exactly when the batch itself repeats none: the check looks at the log only, so a batch with a repeated origin is accepted. |
| `Ledgers.RepeatedOriginIsAccepted` | internal/adapter/memory/ledger.go:74-81 | A concrete batch that carries one origin twice and is accepted. |
| `Ledgers.EveryRunIsWellFormed` | internal/adapter/memory/ledger.go:53-124 | After any sequence of append calls, failed ones included: one verified chain, seqs 1..n, versions 1..k on every stream, and distinct origins when no batch repeats one. |
| `Ledgers.EveryRecordIsSigned` | internal/adapter/memory/ledger.go:92-109 | After any sequence of append calls of unsigned records, every record carries the signature of its own hash by the signer, and none any when there is no signer. |
| `Ledgers.RunGoesOn` | internal/adapter/memory/ledger.go:53-124 | Runs of append calls start at the empty log and go on by the effect of one call at a time. |
| `Ledgers.StreamVersions` | internal/adapter/memory/ledger.go:86-109 | The k-th record of a stream has version k. |
| `Ledgers.StreamOfMembers` | internal/adapter/memory/ledger.go:127-138 | A stream lists exactly the records of the log that are on it. |
| `Ledgers.SealOnNoRefusal` | internal/adapter/memory/ledger.go:92-109 | Once the checks have passed, only a bad envelope or a failing signer can stop a batch. |
| `MemoryLedger.Ledger.constructor` | internal/adapter/memory/ledger.go:26-28 | A new ledger is empty and its three indexes agree with the empty log. |
| `MemoryLedger.Ledger.Append` | internal/adapter/memory/ledger.go:53-124 | The log, the stream index, the key index and the origin index move together to what one append specifies, or nothing changes and the refusal is the first failing check in the order key, origin, version. |
| `MemoryLedger.Ledger.CheckAppend` | internal/adapter/memory/ledger.go:54-85 | The loops over the indexes find exactly the clashes that the log itself has. |
| `MemoryLedger.Ledger.Commit` | internal/adapter/memory/ledger.go:110-120 | Writing a sealed batch keeps all three indexes in agreement with the log. |
| `MemoryLedger.SealBatch` | internal/adapter/memory/ledger.go:92-109 | The whole batch is sealed as the specification of sealing on the log says, or its first failure is returned before anything is written. |
| `MemoryLedger.Ledger.Read` | internal/adapter/memory/ledger.go:127-138 | Exactly the records of the stream from the given version on, oldest first. |
| `MemoryLedger.Ledger.ReadAll` | internal/adapter/memory/ledger.go:141-155 | Exactly the records from the given seq on, cut to the limit when there is one. |
| `MemoryLedger.ReadAllCuts` | internal/adapter/memory/ledger.go:141-155 | A page starts at the seq asked for and is as long as a positive limit and the log allow. |
| `MemoryLedger.ReadIsSuffix` | internal/adapter/memory/ledger.go:127-138 | What is read of a stream is exactly its records from that version on, the end of the stream. |
| `MemoryLedger.Ledger.GetHead` | internal/adapter/memory/ledger.go:158-166 | The number of records and the hash of the last one. |
| `MemoryLedger.Ledger.FindOrigin` | internal/adapter/memory/ledger.go:169-177 | Finds a seq exactly when some record has that origin, and then the record at that seq has it. |
| `MemoryLedger.Ledger.Lookup` | internal/adapter/memory/ledger.go:180-188 | Finds a record exactly when the key is on the stream, and then it is the only record there with that key. |
| `Team.SortIsStable` | internal/app/team.go:207-213 | The request is processed in local order: sorted, every record once, equal seqs in the order sent. |
| `Team.AnswersMatch` | internal/app/team.go:228-304 | Every record of an answered request has exactly one answer, in order, and every accepting answer names a server record with that origin; a request that breaks off answers a prefix. |
| `Team.AcceptedIsGenuine` | internal/app/team.go:228-285 | A newly accepted record verified as it arrived, was signed with the key of the pusher, is on a shareable stream, is the work of the user of the pusher or of an agent that user owns, and decodes; the last record of the server carries its body and every other field under the hash that was signed, and verifies with that key. |
| `Team.RefusalsAreTrue` | internal/app/team.go:214-293 | A refusal names a rule that the record really breaks; one that was not sealed or signed leaves no trace, and every other refusal leaves exactly one record on the Rejected stream naming the actor, the stream and the code. |
| `Team.GenuineIsAccepted` | internal/app/team.go:228-285 | A record of a new origin that breaks none of the rules is accepted. |
| `Team.StreamsByLayer` | internal/app/team.go:18-38 | Every daemon receives the streams of constraints, decisions, scopes and anchors; the server also takes those of changes, gates and sessions, and nothing else. |
| `Team.PushAllWorks` | internal/app/team.go:207-304 | With a signer that never fails no request breaks off, whatever the records and the log are. |
| `Team.OriginSeqFinds` | internal/app/team.go:229-231 | The seq reported for a duplicate is the seq of a record with that origin. |
| `SyncProtocol.SyncSafety` | internal/app/team.go:207-304 | At every moment of every run of local writes, server writes, pushes of pages or of any subsets in any order, broken requests, lost replies, page pulls and cursor resets: each (daemon, local seq) is on the server at most once; stream versions are contiguous; every synced record keeps version, hashes, body and signature, its origin hash is the chain hash of the daemon record, and it verifies under the daemon key; a stream with one writer is a copy of a prefix of the stream of that daemon. |
| `SyncProtocol.CursorIsCovered` | internal/app/sync.go:92-131 | At every moment of every such run, for a stream only this daemon writes, whose records its pushes let through and the server accepts: every local record up to the push cursor is on the server. |
| `SyncProtocol.PushesConverge` | internal/app/sync.go:92-131 | Convergence over whole runs: for such a stream the server holds a copy of a prefix, and of the whole stream when the push cursor is at the head of the ledger, however many pages, lost replies and resets it took. |
| `SyncProtocol.PushedServerIsGood` | internal/app/team.go:228-304 | What pushes keep of the server log is what pulls rely on: a well-formed log with distinct origins, none of them the name under which caches file server records. |
| `SyncProtocol.CacheIsAPrefixCopy` | internal/app/sync.go:135-191 | At every moment of every such run there is a prefix of the server log, reaching at least to the pull cursor, whose team layer without this daemon is exactly the cache: by origin, stream, kind and body, each once and in server order; and every cached item is the record that the daemon it names wrote at that local seq, or the own record of the server. |
| `SyncProtocol.RecordsAreDelivered` | internal/app/sync.go:92-191 | End to end: a team-layer record of a stream only daemon a writes, below the push cursor of a, is in the cache of every other daemon whose pull cursor is at the head of the server. |
| `SyncProtocol.StepKeeps` | internal/app/sync.go:92-191 | Every step keeps the joint invariant of the server log, the daemon ledgers, both cursors and the caches, and no ledger loses a record. |
| `SyncRuns.CopyMirrors` | internal/app/team.go:242-279 | Re-chaining a record changes its place only: meta hash and body hash come out the same and the origin hash is the hash the daemon signed. |
| `SyncRuns.PushOneKeeps` | internal/app/team.go:228-294 | Whatever becomes of one pushed record, the server log keeps the sync invariant. |
| `SyncRuns.SoleWriterPrefix` | internal/app/team.go:273-290 | A server stream whose records all come from one daemon mirrors the first records of that daemon stream, one for one. |
| `SyncRuns.AnsweredPushCovers` | internal/app/team.go:207-304 | When the records of a stream only this daemon writes are on the server up to a cursor and an answered request offers the acceptable ones from there to a later seq, the server holds them up to that seq, whatever else the request holds. |
| `SyncRuns.CoveredIsCopied` | internal/app/team.go:273-290 | When every local record of a stream only this daemon writes is on the server, the server stream is a copy of the whole daemon stream. |
| `Syncers.ServerPull` | internal/app/team.go:307-332 | The team-layer records of one page of the log after the cursor, the last seq scanned, and whether the page was full. |
| `Syncers.PageSizeIs` | internal/app/team.go:307-320 | The page size is that of the caller when positive and within that of the server, which is 500 unless it is set. |
| `Syncers.Syncer.Push` | internal/app/sync.go:92-131 | Run against the server runtime: the answered requests, joined, are exactly the shareable records between the old and the new cursor, in order; the server log is what those requests make of it, followed by some prefix of a lost one; a lost reply leaves the cursor before its page and needs a failure; without one the cursor reaches the head; what is below the cursor stays on the server. |
| `Syncers.Send` | internal/app/sync.go:113-123 | A reply that arrives means the server handled every record; a lost one leaves the server after some prefix of the request, and is lost only through a failure. |
| `Syncers.OfferMembers` | internal/app/sync.go:106-112 | What is offered from a stretch is exactly its records that the sharing rules pass and that are not on the Rejected stream. |
| `Syncers.Syncer.CacheOne` | internal/app/sync.go:143-182 | One received record does to the cache what the specification of receiving says, also when its projection fails afterwards, or fails and leaves it alone; without a fault a record that can be received is. |
| `Syncers.PullOneReads` | internal/app/sync.go:143-182 | An own record is passed over, one that does not decode ends the pull, and a cached one is what was received. |
| `Syncers.Syncer.CachePage` | internal/app/sync.go:138-184 | A page, broken off anywhere or not, caches a prefix of its records and keeps the cache a copy of a server prefix that reaches at least to the cursor; the cursor moves only over a finished page; without a fault a page of decodable records finishes. |
| `Syncers.Syncer.Pull` | internal/app/sync.go:135-191 | Pull terminates on a finite log; however it ends the cache stays a prefix copy, a normal end leaves it equal to the team copy of the whole log, and without a fault it ends normally when the records decode. |
| `Syncers.Syncer.Reset` | internal/app/sync.go:14-23 | The cursor pair lives in a file of its own; when the file is lost or rolled back, the earlier cursor is safe: the cache stays a copy of the same prefix. |
| `Syncers.KnownBelowReach` | internal/app/sync.go:157-164 | The cache knows the origin of a record exactly when the record is below the prefix it covers, so a repeated record is skipped and the next one never is. |
| `Syncers.NewRecordFits` | internal/app/sync.go:165-172 | The next record is never refused by the cache, neither by its origin nor by its key. |
| `OrgRuntime.Org.Project` | internal/app/cursor.go:22-29 | Handing over the next record moves the cursor by exactly one and keeps the projections equal to the log up to the cursor. |
| `OrgRuntime.Org.Replay` | internal/app/rebuild.go:21-47 | The paged replay hands over every record after the cursor once and in order, terminates, keeps the projections consistent when it breaks off, and ends at the head exactly when no failure strikes before it. |
| `OrgRuntime.Org.CatchUp` | internal/app/team.go:112-122 | Returns normally exactly when no failure strikes before the head, and then the projections are at the head. |
| `OrgRuntime.Org.RecordRejection` | internal/app/rejected.go:15-36 | A rejection is appended on its own stream and projected; no record before it is skipped. |
| `OrgRuntime.Org.Refuse` | internal/app/team.go:214-227 | Catches up before it records, so a recorded rejection never makes the cursor jump over a pushed record; on failure nothing is written; without a fault the rejection is recorded and answered. |
| `OrgRuntime.Org.PushRecord` | internal/app/team.go:228-294 | One iteration answers and writes what the specification of one pushed record says, or ends the request with the ledger as it was; without a fault it answers; the projections stay the log up to the cursor. |
| `OrgRuntime.Org.AppendPushed` | internal/app/team.go:273-293 | An authorized record is re-chained at its own version, or its conflict or duplicate key is recorded and answered; without a fault one of the two happens. |
| `OrgRuntime.Org.Push` | internal/app/team.go:192-304 | Whatever fails and wherever, the ledger is that of some prefix of the sorted request and the projections equal the log up to the cursor; an answered request has all its answers and leaves the cursor at the head; without a fault the whole request is processed and answered. |
| `OrgRuntime.Org.Handle` | internal/app/pipeline.go:88-222 | One command of any aggregate on a caught-up org leaves exactly the ledger and the outcome of an uninterrupted pipeline call; the projections are consistent on every path and behind only when a written record could not be read back. |
| `OrgRuntime.Org.Conclude` | internal/app/pipeline.go:127-222 | The decision on the loaded state is written, refused with a record, or reported without one, as the pipeline says. |
| `OrgRuntime.Org.AppendAndPublish` | internal/app/pipeline.go:148-189 | The decided batch is appended at the loaded version and projected record by record, or nothing is written; a used key reports the version of the record that carries it. |
| `OrgRuntime.Org.RequestGate` | internal/app/team.go:335-359 | Returns a gate exactly when nothing fails, the command is answered and the gate exists afterwards; the returned gate is the replay of its stream on the resulting ledger and the cursor is at the head. |
| `OrgRuntime.Org.ResolveGate` | internal/app/team.go:362-385 | A gate is known exactly when its stream has a record, because the projections know every record by then; an unknown one writes nothing; a normal return carries the replay of the gate stream after the command. |
| `OrgRuntime.Org.Projected` | internal/app/team.go:351-358 | What the projections of a caught-up org know of a stream is its replay, and they know it exactly when the stream has records. |
| `Pipelines.EveryStreamIsLegal` | internal/app/pipeline.go:88-193 | For any number of handlers interleaved in any way between load, decide and append, every batch on every stream was decided against exactly the replay of the earlier records of that stream. |
| `Pipelines.AppendStepKeeps` | internal/app/pipeline.go:148-179 | An append that succeeds proves the loaded version is still the stream version, so the batch extends a legal history. |
| `Pipelines.EveryWriteIsWhole` | internal/app/pipeline.go:88-222 | Every step of every run writes nothing, one whole decided batch on the command stream, or the one record of its own rejection on the Rejected stream. |
| `Pipelines.OneWritePerCall` | internal/app/pipeline.go:88-222 | No two steps of one call both write. |
| `Pipelines.UsedKeyAddsNothing` | internal/app/pipeline.go:98-108 | A key that is on the stream adds nothing to it wherever the handler stands, and the retry reports the version of the record that carries the key. |
| `Pipelines.KeyVersionFinds` | internal/app/pipeline.go:98-108 | The reported version is that of a record of the stream with that key. |
| `Pipelines.Load` | internal/app/pipeline.go:110-125 | The loop over the stream computes its replay, or fails on a record that does not decode. |
| `Pipelines.HandledIsFourSteps` | internal/app/pipeline.go:88-222 | An uninterrupted call is four steps of the interleaved machine, so the server runtime and the concurrent model run the same pipeline. |
| `Pipelines.HandledKeepsLegal` | internal/app/pipeline.go:88-222 | On any ledger, whatever its other streams hold, an uninterrupted call keeps its own stream legal and moves no other stream but the Rejected one. |
| `Pipelines.CallLeaves` | internal/app/pipeline.go:88-222 | With a working signer an uninterrupted call leaves: exactly one Rejected record naming actor, stream and code when the caller is not authenticated or the command is turned down; its whole batch when it is carried out; and nothing when the key was used, the stream cannot be read or there is nothing to do. Which of these it is follows from the actor, the key and the decision on the replay. |
| `Pipelines.EveryAnswerIsTrue` | internal/app/pipeline.go:88-222 | At every moment of every run, whatever the interleaving, an answered call was answered truthfully: a refusal was called for and the answering step wrote it down, a success wrote the whole batch, a replay found the key, every other answer wrote nothing; a caller who is not authenticated is refused. |
| `Pipelines.EveryCallCanEnd` | internal/app/pipeline.go:88-222 | From every moment of every run any further call can be made, and alone it ends in what the uninterrupted call leaves. |
| `Pipelines.RunKeeps` | internal/app/pipeline.go:110-179 | At every moment of every run the ledger is well formed, all streams are legal and each handler remembers the replay of a prefix of its stream. |
| `Wiring.PartsOfBoth` | internal/app/wire.go:22-41 | On a ledger shared by two aggregate types, the streams of each type are legal runs of that type alone and hold all of its events. |
| `Wiring.CallsAreTheTypesOwn` | internal/app/wire.go:22-41 | On the ledger of any run of a shared pipeline, a call leaves and answers exactly what the pipeline of its own type alone would. |
| `Wiring.RunsFeedTheReadModels` | internal/app/wire.go:22-41 | Whatever commands of one aggregate type and of any number of others run concurrently on one pipeline, at every moment the streams of the type are what its read model relies on. |
| `Wiring.ConstraintsWired` | internal/app/wire.go:22-41 | Constraint commands address constraint streams only, their events decode as theirs alone and their read model follows them. |
| `Wiring.ChangesWired` | internal/app/wire.go:22-41 | Change commands address change streams only, their events decode as theirs alone and their read model follows them. |
| `Wiring.ScopesWired` | internal/app/wire.go:22-41 | Scope commands address scope streams only, their events decode as theirs alone and their read model follows them. |
| `Wiring.InForceInEveryRun` | internal/app/projection.go:182-199 | At every moment of every run of constraint commands and commands of any other types, InForce lists exactly the human-verified, unretired constraints that contain the target. |
| `Wiring.EffectiveInEveryRun` | internal/app/projection.go:69-89 | At every moment of every run of scope commands and commands of any other types, the effective level and cap are the narrowest level and smallest cap of the replayed scope streams that contain the target. |
| `Wiring.GatesWired` | internal/app/wire.go:22-41 | Gate commands address gate streams only, their events decode as theirs alone and their read model follows them. |
| `Wiring.GatesJustifiedInEveryRun` | internal/app/team.go:40-68 | At every moment of every run of gate commands and commands of any other types, a gate is indexed exactly when its stream has records, and one shown as allowed was allowed by the policy when a record of its stream was decided, or by a human with a reason. |
| `ReadModels.IndexAgrees` | internal/app/projection.go:42-63 | On a log whose events name their own streams, in any interleaving, an index entry exists exactly when its stream was touched and equals the view of replaying that stream. |
| `ReadModels.EntryIsReplay` | internal/app/projection.go:42-63 | The same for every ledger written through the pipeline, with the invariant of the aggregate and the shape of its events holding on each stream. |
| `ReadModels.LegalStreamsKeep` | internal/app/pipeline.go:110-146 | What Decide and Apply keep from batch to batch holds of the replay of every legal stream and of all its events. |
| `ReadModels.Projector.Handle` | internal/app/projection.go:133-170 | The entries stay the projection of the records seen, one more now, and only the entry the event names moves. |
| `ReadModels.Projector.HandleAll` | internal/app/rebuild.go:14-47 | After a rebuild the entries are the projection of the whole log. |
| `ReadModels.Projector.Get` | internal/app/projection.go:173-179 | An entry is found exactly when its own stream was touched, and is then the view of replaying that stream. |
| `ConstraintIndexes.EntriesAgree` | internal/app/projection.go:133-170 | Each constraint entry equals the kept fields of replaying its own stream and carries its own id; there is one exactly when the stream is not empty. |
| `ConstraintIndexes.VerifiedHistory` | internal/core/harness/constraint.go:345-465 | A replayed constraint is verified exactly when a human verified it and no later record retired, superseded or redrafted it. |
| `ConstraintIndexes.InForce` | internal/app/projection.go:182-199 | Whatever the order in which the map is read: the applying entries, each once, widest first and then by id, and no other listing satisfies that. |
| `ConstraintIndexes.EarlierIsWider` | internal/app/projection.go:191-197 | The listing goes by width, wider scopes first, and by id among equal widths. |
| `ConstraintIndexes.InForceIsExact` | internal/app/projection.go:182-199 | On a ledger written through the pipeline InForce lists exactly the human-verified, unretired constraints that contain the target, with the fields of their own replay. |
| `ConstraintIndexes.InForceNow` | internal/app/projection.go:182-199 | On the live index of a ledger the pipeline wrote, InForce returns, in order, exactly the human-verified, unretired constraints that contain the target. |
| `Constraints.DraftStep` | internal/core/harness/constraint.go:291-328 | The first well-formed draft fixes every field, within the cap for an autonomy constraint; a second changes nothing. |
| `Constraints.VerifyStep` | internal/core/harness/constraint.go:345-358 | A human verifies what was generated or has to be looked at again; nothing else verifies. |
| `Constraints.PromoteStep` | internal/core/harness/constraint.go:360-389 | A verified constraint moves to another scope that contains its own exactly when a human promotes it with an origin and an explanation, within the cap for an autonomy constraint. |
| `Constraints.DemoteStep` | internal/core/harness/constraint.go:391-408 | A live constraint moves to another scope inside its own exactly with a reason. |
| `Constraints.EndStep` | internal/core/harness/constraint.go:330-432 | A live constraint ends by naming another successor or by retirement, and is otherwise bound to valid anchors. |
| `Constraints.RecordsTell` | internal/core/harness/constraint.go:269-465 | The one record of a command names the constraint, the actor and the time, and says what was asked and from where to where the scope moved. |
| `Constraints.RefusalsAreTrue` | internal/core/harness/constraint.go:269-432 | A command that needs an existing one is refused as not found without it, and any other refusal names a rule that the command really breaks. |
| `ChangeIndexes.EntriesAgree` | internal/app/projection.go:288-329 | Each change entry equals the shared fields of replaying its own stream, for which the change invariant holds. |
| `ChangeIndexes.SettledEntriesAreSound` | internal/core/accountability/change.go:467-531 | An entry that says settled stands for a change with impact that was deployed, judged with reasons, not refused last, approved by a human where required, and observed or left for the outcome window. |
| `ScopeKeys.ParseScopeKey` | internal/core/scope.go:43-70 | Succeeds exactly on the canonical form of a valid key, and then returns that key. |
| `ScopeKeys.ParseInverts` | internal/core/scope.go:37-70 | Parsing is the exact inverse of printing on valid keys, in both directions. |
| `ScopeKeys.CanonicalForm` | internal/core/scope.go:35-41 | The canonical form names the six axes in their order, each with its value. |
| `ScopeKeys.PathNeedsRepo` | internal/core/scope.go:73-91 | A path is valid exactly with a repo, a readable pattern and no reserved character, on an otherwise valid key. |
| `ScopeKeys.StrIsInjective` | internal/core/scope.go:37-41 | Two valid keys with one canonical form are one key, so a map keyed by the form is a map keyed by the scope. |
| `ScopeKeys.StrLessAt` | internal/core/scope.go:152-177 | The order of canonical forms is that of the first character in which they differ, a beginning coming first. |
| `ScopeKeys.OrdersGoByWidth` | internal/core/scope.go:152-177 | Constraints come wide first and context narrow first; among equal widths both go by canonical form. |
| `ScopeKeys.WidthCounts` | internal/core/scope.go:93-102 | The global key has width 6, and setting any one of the six axes narrows a key by one. |
| `ScopeKeys.ContainsByAxis` | internal/core/scope.go:104-123 | The global key contains everything; on each of the five plain axes a key contains a target exactly when the key without that axis does and the axis is unset or equal. |
| `ScopeKeys.ContainsByPath` | internal/core/scope.go:124-150 | A set path never contains a target without one and always its equal; a directory pattern contains the directory and all below it, two stars contain every path, and any other pattern what path.Match says. |
| `ScopeKeys.Resolve` | internal/core/scope.go:152-177 | The keys that contain the target, one per canonical form, in strict order: from wide to narrow for constraints, from narrow to wide for context, ties by canonical form. |
| `ScopeIndexes.ScopeIndex.Handle` | internal/app/projection.go:42-63 | The entries stay the projection of the records seen, one more now, and only the entry of the scope that the event names moves. |
| `ScopeIndexes.ScopeIndex.Effective` | internal/app/projection.go:69-89 | The cap is the minimum over the containing scopes, the level is that of the narrowest one, ties by canonical form, cut to the cap; no other pair satisfies this, so the map order does not matter. |
| `ScopeIndexes.ScopeIndex.EffectiveNow` | internal/app/projection.go:69-89 | On the live index of a ledger the pipeline wrote: the cap is the smallest that the scope streams containing the target replay to, the level is the one the narrowest of them replays to, cut to the cap. |
| `ScopeIndexes.EffectiveIsExact` | internal/app/projection.go:69-89 | The same for every such ledger and every pair the index may answer. |
| `ScopeIndexes.EffectiveIsUnique` | internal/app/projection.go:69-89 | The effective level and cap are determined by the entries alone. |
| `ScopeIndexes.EntriesAgree` | internal/app/projection.go:42-63 | Each scope entry equals the key, level and cap of replaying the scope stream; a scope without an entry replays to L0 and no cap. |
| `ScopeIndexes.TighteningNeverLoosens` | internal/core/harness/scope.go:133-207 | Lowering a cap, lowering a level or recording a regression in any scope never moves the gate answer up the order deny, ask, allow, for any target, requested level and judges. |
| `ScopeIndexes.LoweredEffective` | internal/app/projection.go:69-89 | Lower levels and caps, and new scopes at L0, never raise the effective level or cap of any target, even when the narrowest scope changes. |
| `Scopes.AutonomyStep` | internal/core/harness/scope.go:133-171 | The level becomes the one asked for exactly when a human asks for a valid level within the cap that is lower, or one step higher for a named change on fresh, sufficient evidence without regressions; otherwise nothing moves. |
| `Scopes.CapStep` | internal/core/harness/scope.go:173-194 | The cap becomes the one asked for exactly when a human asks for a valid one for a named change, and then the level is cut to it; otherwise nothing moves. |
| `Scopes.RegressionStep` | internal/core/harness/scope.go:196-207 | A regression on a valid scope is counted, lowers the level one step and moves the demotion mark to now; at the bottom the level stays. |
| `Scopes.RecordsTell` | internal/core/harness/scope.go:133-207 | The records of a command name the scope, the change, the actor and the time, and tell from where to where level and cap moved; one is there for each that moved, and one for each regression. |
| `Scopes.RefusalsAreTrue` | internal/core/harness/scope.go:133-207 | A refusal names a rule that the command really breaks. |
| `Scopes.TransitionIsAStep` | internal/core/level.go:60-88 | A step up is one level and is undone by a step down, neither leaves the range, and the ends and unknown levels stay. |
| `Scopes.RaisesAreEarned` | internal/core/harness/scope.go:133-233 | In every run on a clock that does not go back: the level stays within the cap after each command, and each raise is one step by a human with a change reference on evidence no older than every earlier regression. |
| `Scopes.TighteningLowers` | internal/core/harness/scope.go:133-207 | The tightening commands never raise the level or the cap of their scope. |
| `Gates.PolicyIsMonotone` | internal/core/accountability/gate.go:179-189 | A lower cap and a lower level never move the answer up. |
| `Gates.PolicyAnswers` | internal/core/accountability/gate.go:179-189 | Deny exactly above the cap; allow exactly within cap and level with no other owner. |
| `Gates.RequestStep` | internal/core/accountability/gate.go:191-229 | The first well-formed request of an agent fixes the answer of the policy, or opens the gate for the policy time to live; a later one changes nothing. |
| `Gates.ResolveStep` | internal/core/accountability/gate.go:231-261 | An open gate takes a reasoned allow or deny of a human, one of the owners if there are any, before it runs out; nothing else resolves it. |
| `Gates.ExpireStep` | internal/core/accountability/gate.go:263-275 | An open gate whose time has come is closed without an answer, and no other. |
| `Gates.RefusalsAreTrue` | internal/core/accountability/gate.go:191-275 | A command that needs an existing one is refused as not found without it, and any other refusal names a rule that the command really breaks. |
| `Gates.AllowsAreJustified` | internal/core/accountability/gate.go:191-298 | In every run an allowed gate was allowed by the policy when it was asked, within cap and level and with no other owner, or by a human with a reason. |
| `Gates.AnswersAreFinal` | internal/core/accountability/gate.go:191-298 | A decided, resolved or expired gate never changes again. |
| `GateIndexes.LegalIsRun` | internal/core/accountability/gate.go:168-298 | The records of a legal gate stream are those of one run of gate commands, one record a step, each decided against the replay before it, and the stream replays to that run. |
| `GateIndexes.LegalGatesAreJustified` | internal/core/accountability/gate.go:179-298 | Every legal gate stream replays, and if it replays to allow, one of its records was decided by a request within cap and level with no other owner, or a human allowed it with a reason. |
| `GateIndexes.EntriesAgree` | internal/app/team.go:40-68 | On a ledger the pipeline wrote, the gate index holds an entry exactly when the gate stream has records, and the entry is the gate the stream replays to. |
| `GateIndexes.HandledIsJustified` | internal/app/pipeline.go:88-222 | An uninterrupted call on a legal gate stream leaves a legal one that replays to a justified gate. |
| `GateIndexes.Request` | internal/app/team.go:335-359 | A gate that the server returns for a request on a legal stream, and that allows, is justified by the records of its stream. |
| `GateIndexes.Resolve` | internal/app/team.go:362-385 | The same for a gate returned after an answer was recorded. |
| `Changes.JudgmentsAllow` | internal/core/accountability/change.go:502-534 | Finds no refusal exactly when the last judgment is not a reject, a human approved where required and every required owner approved; otherwise it reports the first failing rule. |
| `Changes.AllowedMeans` | internal/core/accountability/change.go:502-534 | The judgments allow a change exactly when the last is no reject, a human approved where required, and every owner has a judgment of their own that is no reject. |
| `Changes.OpenStep` | internal/core/accountability/change.go:333-370 | The first well-formed open fixes identity, intent, impact, sessions and level, with L0 for the harness, and its record says all of it; otherwise nothing moves. |
| `Changes.ProposalStep` | internal/core/accountability/change.go:372-386 | A valid proposal joins the earlier ones until deployment, and only then. |
| `Changes.JudgeStep` | internal/core/accountability/change.go:388-424 | A new judgment of someone who may judge, with a reason when there is impact, is added until deployment, and only then; agents judge plain changes from L1 on. |
| `Changes.DeployStep` | internal/core/accountability/change.go:426-446 | With impact a change is deployed exactly on judgments that allow it, without impact unjudged as well. |
| `Changes.OutcomeStep` | internal/core/accountability/change.go:448-465 | A deployed change takes one outcome, at its own time or now. |
| `Changes.SettleStep` | internal/core/accountability/change.go:467-499 | Without impact a change settles with nothing derived; with impact exactly when it is observed or its window is over, its judgments allow it for the owners of the command, and no agent settles it below L2. |
| `Changes.RefusalsAreTrue` | internal/core/accountability/change.go:313-534 | A command that needs an existing one is refused as not found without it, and any other refusal names a rule that the command really breaks. |
| `Changes.StepKeeps` | internal/core/accountability/change.go:313-566 | Every command keeps the change invariant. |
| `Changes.SettledChangesAreSound` | internal/core/accountability/change.go:333-566 | In every run of commands, whatever the policy of each, a settled change with impact was deployed, has a reason on every judgment and a latest judgment that is not a reject, has a human approval when opened at L0 or L1 or on the harness, has an outcome or the outcome window of the command that settled it had passed, has an approval of every owner that command had to ask, and was not settled by an agent below L2. |
| `Changes.RunGoesOn` | internal/core/accountability/change.go:537-566 | Runs of commands start at the absent change and go on by the step of one command at a time. |
| `Changes.SettledIsFinal` | internal/core/accountability/change.go:372-499 | A settled change refuses every command. |
| `Merkle.ParentsToStore` | internal/merkle/merkle.go:46-66 | No fetch misses; the result is exactly the subtrees completed by the new leaf, each with its tree hash, none stored before. |
| `Merkle.NodeStore.AppendRecord` | internal/adapter/postgres/ledger.go:84-136 | After each record the store holds exactly the complete subtrees of the leaves so far, each with its tree hash of section 2.1 of RFC 6962, and no node is written twice. |
| `Merkle.Root` | internal/merkle/merkle.go:70-88 | For every size up to the length of the log, whenever asked, the tree hash of that many leaves. |
| `Merkle.ProofsAreComplete` | internal/merkle/merkle.go:91-110 | The proof built from the store for any leaf of any size is the audit path of section 2.1.1 of RFC 6962 and leads the leaf to the root of that size. |
| `Merkle.PathLeadsToRoot` | internal/merkle/merkle.go:122-124 | The audit path of a leaf leads it to the tree hash, for every tree. |
| `Merkle.PathFits` | internal/merkle/merkle.go:122-124 | A path is checked to the end exactly when it is as long as the audit path of that place in that tree. |
| `Merkle.ProofsAreSound` | internal/merkle/merkle.go:122-124 | A path that leads to the root proves its leaf, or two different hashed inputs with one digest are returned. |
| `Merkle.BundleBindsRecord` | internal/merkle/merkle.go:177-188 | A verified bundle under the root of the log carries the hashes of the record run together, or a collision is returned; it names exactly those hashes if and only if its meta hash is 32 bytes long. |
| `Merkle.ShiftedBundleVerifies` | internal/merkle/merkle.go:177-188 | A concrete bundle that verifies although its meta hash and body hash are not those of the record: one byte is moved across the boundary. |
| `Consistency.PathLeadsToRoots` | internal/merkle/merkle.go:126-129 | The path of section 2.1.2 of RFC 6962 leads to the roots of both sizes, for every pair of sizes. |
| `Consistency.PathFits` | internal/merkle/merkle.go:126-129 | A path is checked to the end exactly when it is as long as the consistency path of the two sizes. |
| `Consistency.ConsistencyIsComplete` | internal/merkle/merkle.go:112-129 | The proof built from the store between any two sizes of the log is the path of section 2.1.2 of RFC 6962 and is accepted with the two roots. |
| `Consistency.ConsistencyIsSound` | internal/merkle/merkle.go:126-129 | An accepted path between the roots of two logs means the older log is the first part of the newer one, leaf by leaf, or two different hashed inputs with one digest are returned. |
| `Consistency.PrefixesHaveProofs` | internal/merkle/merkle.go:112-129 | Conversely, two logs of which one is the first part of the other have an accepted path. |
| `Consistency.RootBindsLeaves` | internal/merkle/merkle.go:70-88 | Two logs of one length with one root are equal leaf by leaf, or a collision is returned. |
| `Consistency.RootBindsLog` | internal/merkle/merkle.go:25-88 | A root binds the whole log and its length: two logs of records of any lengths with one root are the same record by record, or two different hashed inputs with one digest are returned. |
| `SyntaxTrees.Dump` | internal/adapter/treesitter/csrc/keelage_ts.c:129-155 | The cursor walk terminates, its depth is never negative, and it emits the preorder of the tree with depths. |
| `SyntaxTrees.Rebuild` | internal/adapter/treesitter/treesitter.go:351-384 | For any dump the children lists are the ordered inverse of the parents; for a nested one the parent of each node is the last earlier node one level up. |
| `SyntaxTrees.RoundTrip` | internal/adapter/treesitter/treesitter.go:351-384 | Whatever the tree, nodes rebuilt from its dump read back as the same tree. |
| `SyntaxTrees.Transfer` | internal/adapter/treesitter/treesitter.go:351-384 | Dump and rebuild, end to end, give back the same tree. |
| `Signatures.NormalizeSignature` | internal/core/realization/syntax.go:164-181 | The loop over the trimmed text gives the non-space runes with one blank at each word-to-word separation of the whole text. |
| `Signatures.SameNormalForm` | internal/core/realization/syntax.go:164-185 | Two signatures have the same normal form exactly when they have the same non-space runes in order and the same word-to-word separations. |
| `Signatures.NormalIsIdempotent` | internal/core/realization/syntax.go:164-185 | Normalising twice changes nothing. |
| `Sessions.AppendNew` | internal/core/accountability/session.go:244-248 | The new elements follow the list, each once, in order of first appearance. |
| `Sessions.RunKeeps` | internal/core/accountability/session.go:164-258 | In every run of session commands the turns are numbered 1, 2, ..., the touched files are those of the turns in order of first touch without repetition, and the judgment candidates are exactly the redirect and revert turns. |
| `Sessions.StartStep` | internal/core/accountability/session.go:164-185 | The first start by a valid agent opens an empty session; another start changes nothing. |
| `Sessions.TurnStep` | internal/core/accountability/session.go:164-258 | A turn of a known class joins an open session with its number and files, and with a candidate exactly when it is a redirect or revert. |
| `Sessions.EndStep` | internal/core/accountability/session.go:164-258 | The end closes an open session once, with the given or the derived summary. |
| `Sessions.ShareStep` | internal/core/accountability/session.go:164-258 | A human shares the summary or the judgments of a session that has ended, and nothing else is shared. |
| `Sessions.RefusalsAreTrue` | internal/core/accountability/session.go:164-219 | A command that needs an existing one is refused as not found without it, and any other refusal names a rule that the command really breaks. |
| `Sessions.MergeIsAssociative` | internal/core/accountability/session.go:244-248 | Adding new files to a list directly, or through a list of the new files without repetitions, gives the same list. |
| `Hooks.Hooks.CloseTurn` | internal/app/hooks.go:113-127 | Records the open turn unless it holds nothing to record, and opens an empty one; other sessions do not move. |
| `Hooks.Hooks.Edit` | internal/app/hooks.go:191-209 | Every edited file inside the root is added once to the session list and once to the turn list. |
| `Hooks.Hooks.Hook` | internal/app/hooks.go:162-228 | One event moves exactly the session it names, as specified, and no other session, turn or stream. |
| `SessionStreams.RecordedIsHandled` | internal/app/hooks.go:98-107 | A captured command is a pipeline call: on a ledger whose session stream shows the events and keys of the capture model, the call leaves a ledger that shows what recording the command leaves, or fails, through the signer only, with the stream as it was; no other stream moves but the Rejected one. |
| `SessionStreams.StreamsAreOwn` | internal/core/accountability/session.go:70-81 | Tools without a slash in their names give every session a stream of its own, which may be shared and is not part of the pull copy. |
| `SessionStreams.StartNamesTheStream` | internal/core/accountability/session.go:164-185 | The start recorded on a stream is of the session the stream is named after. |
| `Hooks.WatchedFollows` | internal/app/hooks.go:162-247 | At every moment before the end the remembered files are those replayed from the ledger followed by those of the open turn, each once. |
| `Hooks.TouchedListsAgree` | internal/app/hooks.go:162-247 | For one session handled one event at a time from start to end, whatever prompts, edits and reverts came in between, the touched list in memory is, as a sequence, the one replayed from the ledger. |
| `Hooks.TurnsAreRecorded` | internal/app/hooks.go:113-127 | For one session handled one event at a time, at its end and at any moment before: the turns on the ledger are, in order, one for each prompt, revert or end that closed edits inside the root, with exactly those files, and one for each redirect or revert of an open turn without any; the class and signal say which it was. |
| `Hooks.SessionIsIdentified` | internal/app/hooks.go:162-247 | In every such run the prompts are counted, the end and its reason are those of the last event, and once started the session on the ledger carries the id, the tool of the first event, the agent of the two and the repository that the first start saw. |
| `Hooks.RelativeIs` | internal/app/hooks.go:191-209 | A file is kept exactly when it lies inside the root, under its relative name, in the order edited. |
| `ManagedBlocks.FindBlock` | internal/core/supply/render.go:66-80 | The first matched block with the id: its recorded hash and the text between its markers. |
| `ManagedBlocks.UpsertBlock` | internal/core/supply/render.go:84-113 | The first block with the id is replaced in place with the newlines around it kept and every other byte preserved; without one the block is appended after a blank line. |
| `ManagedBlocks.RemoveBlock` | internal/core/supply/render.go:117-137 | The first block with the id is cut out and the trailing newlines of the rest are reduced to one. |
| `ManagedBlocks.OneMatch` | internal/core/supply/render.go:50-50 | After an upsert into a text without begin markers the pattern has exactly one match: the block just written, with the newline before it and the one after it. |
| `ManagedBlocks.FindAfterUpsert` | internal/core/supply/render.go:60-113 | Find after upsert returns the body and its hash. |
| `ManagedBlocks.RemoveAfterUpsert` | internal/core/supply/render.go:84-137 | Remove after upsert leaves the text with its trailing newlines reduced to one. |
| `ManagedBlocks.RemoveUndoesUpsert` | internal/core/supply/render.go:84-137 | Remove after upsert gives the text back byte for byte if and only if the text is empty or ends in exactly one newline after other text. |
| `ManagedBlocks.RemoveAddsANewline` | internal/core/supply/render.go:84-137 | A concrete text without a final newline that comes back with one. |
| `ManagedBlocks.LastUpsertWins` | internal/core/supply/render.go:84-113 | A second upsert equals upserting the last body directly. |
| `ManagedBlocks.MatchIsABlock` | internal/core/supply/render.go:50-50 | Whatever the pattern matches is the newline before it if there is one, a begin marker with a solid id and hash, the shortest body up to an end marker, and the newline after it if there is one. |
| `ManagedBlocks.UpsertInPlace` | internal/core/supply/render.go:82-113 | An upsert of an id that is there changes only the bytes from its begin marker to its end marker. |
| `ManagedBlocks.FoundIsBetween` | internal/core/supply/render.go:64-80 | The body found is all that stands between the markers of the first block with the id, up to the newline before the end marker; a block whose end marker is not on a line of its own has none. |

## Left out

- Command line, HTTP, Unix sockets, MCP, GitHub, git, SQL text, files, wasm memory: input and output.
- JSON, Ed25519 and the compact-range library of the Merkle log: parameters, or the definitions of RFC 6962.
- The signed checkpoint text, and consistency with the empty tree, which has no leaf to bind.
- Legal histories of server streams written by two daemons: Push checks versions and does not run Decide again, so a later record can be accepted after its predecessor conflicted.
- The version reported on a replayed multi-event command: it is that of the first event of the batch.
- The personal filters of the daemon (person-axis scopes and constraints, unshared sessions): the sharing rule of a push is a parameter.
- Upload of a session that is shared after the push cursor passed its first records.
- Decision and Anchor aggregates: they have the shape of the ones modelled, and the wiring results take any further types as a parameter.
- Inbox, history, the sorted list of gates and text rendering for people; regular expressions that classify turns; the fallback summary text of a session.
- `UpdatedAt` and `Scope` of a change entry: the aggregate does not keep them, so there is nothing to agree with.
- Two processes writing one SQLite file: the projection results are for the single-process org runtime.
- Containment of one glob in another: `Contains` treats the target as a literal path, and nothing here assumes it is transitive.
- Hooks.TouchedListsAgree: a ledger that cannot be written while a turn is closed loses that turn, so storage failures are not part of the run.
- ManagedBlocks.FindAfterUpsert: stated for text without begin markers, ids without white space and bodies without the end marker, the domain the writer is used on.
- GateIndexes.Request: the justification is for gate streams that were legal before the call, because Push re-chains gate records without running Decide on them.
- GateIndexes.Resolve: as for GateIndexes.Request.
- SyncProtocol.CacheIsAPrefixCopy: no daemon is named "server", because the cache files server records under that name.
