# Verification of Berth's protocols and codecs

Dafny models of the parts of Berth where a mistake is hard to see: protocols that interleave, state that
survives a crash, and text that one program prints and another reads back. Every model follows the code's own
branches, limits and error cases, and each main result is a statement over all inputs or all runs.

`dafny verify dfyconfig.toml` checks the project. Deep proofs are split into many small lemmas; `hide` keeps each one cheap.

## What is modelled

**The audit log's lock** (`FileLock`, `FileLockGap`, `FileLockLoop`). Creating with O_EXCL, opening, reading, unlinking and dying
are separate steps of any number of processes, in any order, and any call may fail. The two lock implementations of the
repository (the audit package's, which leaves a file behind whose write failed, and the notes app's, which takes it back) are
steps of one machine. `FileLock` proves mutual exclusion over all runs; `FileLockLoop` is the retry loop of one process while
no other acts. The assumptions are guards of the steps: one host, pids and inode numbers never reused, a half-written file
judged stale only once its creator does not go on to hold it, and `.break` never abandoned by whoever created it.

**The audit log** (`Json`, `JsonRoundTrip`, `JsonPrefix`, `JsonCanonical`, `Redact`, `AuditChain`, `AuditFile`, `AuditLog`,
`AuditLogProof`, `AuditLogRuns`, `AuditLogFork`, `AuditLogLost`). Text is a sequence of UTF-16 code units. `Json` has JSON.stringify, JSON.parse (the
whole grammar) and the sorted-key printer; `AuditChain` the hash chain and its two verifiers; `AuditFile` one JSONL
file, its backward reader and the repair of a torn line; `AuditLog` any number of writers sharing one rotated log, on top of
`FileLock`, any of which may fail or die at any call; the one exception is `AuditLog.LosesHead`, below. A record counts as
written with its last brace: from then on a reader parses it. `Redact` is what is done to a caller's values before. The hash
function is a parameter. Nothing is assumed of it except, where heads are compared, that digests are 64 units long; that a head
commits to its history is stated up to a collision.

**The notes app** (`Notes`). Updates are queued in each process, run under the same lock, and replace `notes.json` by
renaming a temporary file written piece by piece.

**The agent loop** (`Conversation`, `Context`, `Agents`, `SessionGap`). Provider, tools, cancellation and the awaited calls at
which the process dies are oracles; of a run that dies the checkpoint last saved and the session are left. The assumption on
tool-call ids is `Agent.Honest`: those of a turn are distinct and none is the id of a result in the history it answers.

**Crews of agents** (`Crew`). Sequences, loops and pipelines of deterministic steps, with a checkpoint after each.

**The context bus** (`Bus`, `BusRuns`, `Frames`). Reader and writer tasks, the subscriber map's lock, a publisher offering its event to one
queue after another, and the clean-up of a connection; and the length-prefixed frames on its sockets.

**The secrets file** (`Shell`, `Secrets`, `Partition`). The printer, and a reader by sections 2.2.1, 2.2.2 and 2.3 of the
POSIX.1-2017 Shell Command Language that gives up on anything it does not know, so a text it reads to the end runs
nothing hidden.

**The database connectors** (`Rows`, `Postgres`, `MySql`) and **the text chunker** (`Chunks`).

## Where the code falls short of its promise

- `FileLockGap.DeadBreakerLosesExclusion`, `FailedWriteLosesExclusion`: clearing a `.break` that was left behind is check-then-unlink.
  Once a process abandons the one it created, two live processes can come to hold the lock, and runs from no files get there.
  `FileLock.AbandonedBy` lists how:
  it dies, its write of `.break` fails and the file is left, or its unlinking of it fails. Without that,
  `FileLock.MutualExclusion` holds on every run; `HappensKeepsInvIff` is exact.
- `AuditLogLost.NextRecordForks`, `AuditLogFork.StoppedRotationForks`: the chain's head is looked for in the live file and in
  `<path>.1` only. A rotation that moves a live file without a complete record aside hides all older records, until the writer that
  rotated has written its own record, which continues them. If it stops before that, by death or failure (`AuditLog.LosesHead`),
  the next record starts over from the genesis: `AuditLogLost.NextRecordForks`, on every run from there on, whoever writes it.
  Verification then rejects the log exactly if an older record is still on disk. `StoppedRotationForks` is a run from no files.
  `AuditLogProof.HappensKeepsInvIff`: nothing else breaks the log's invariant.
- `Agents.Agent.Run`, `SessionGap.ResultWithoutCall`: a session gets the messages from an index of the compacted list on, the
  index being where the run began in the uncompacted one. It stays complete exactly when the message that many places, and as
  many more as compactions dropped, into the uncompacted history is no tool result (`SessionHolds`); nothing dropped, it is the run's input.
- `JsonCanonical.ReparseKeepsCanonical`, `AuditFile.UnportableDoesNotLink`: canonicalize prints a date as `{}` and a function-valued field as
  null, JSON.stringify an ISO string and nothing. Such a record would not verify, exactly if it holds either;
  `Redact.RedactedIsFit`: no redacted value does, and the sink redacts whatever is not of a fixed type.
- `Chunks.ChunkText`, `NoRoomNoProgress`: with `maxChars` 0 and a text that is not blank the loop does not end, and it does otherwise.

## Model

| member | source | states |
|---|---|---|
| FileLock.HappensFileEffect | packages/audit/src/file-lock.ts:121-203 | whatever one process does, or fails to do, creates at most one file, writes at most its own, and unlinks only from the places that may |
| FileLock.AbandonedStays | packages/audit/src/file-lock.ts:195-199 | a lock file whose creator is gone or gave it up is never held again, so what was judged stale stays stale |
| FileLock.MainStays | packages/audit/src/file-lock.ts:195-199 | no other process takes the main lock away from a live owner, nor replaces a stale one that a breaker holding `.break` judged |
| FileLock.BreakStaysOwned | packages/audit/src/file-lock.ts:179-202 | `.break` belongs to a live process that is going to unlink it, exactly unless its creator abandons it |
| FileLock.AbandonedBy | packages/audit/src/file-lock.ts:121-151 | it is abandoned by death, by a failed write that is not taken back, and by a failed release, and by nothing else |
| FileLock.HappensKeepsInvIff | packages/audit/src/file-lock.ts:73-203 | every system call, failure, start and death keeps the protocol's invariant, exactly unless it abandons `.break` |
| FileLock.RunKeepsInv | packages/audit/src/file-lock.ts:73-203 | the invariant holds at every point of every run in which no `.break` is abandoned |
| FileLock.MutualExclusion | packages/audit/src/file-lock.ts:21-44 | at every point of every such run at most one live process holds the lock, and for it held() is true |
| FileLock.HolderUndisturbed | packages/audit/src/file-lock.ts:101-114 | no step of another process removes or replaces a live holder's lock |
| FileLockGap.BreaksUp | packages/audit/src/file-lock.ts:175-203 | a live process that goes for a stale lock, with `.break` free, gets as far as unlinking it |
| FileLockGap.AbandonedBreakLosesExclusion | packages/audit/src/file-lock.ts:181-192 | two processes that read an abandoned `.break` while the main lock is stale can both come to hold the lock |
| FileLockGap.DeadBreakerLosesExclusion | packages/audit/src/file-lock.ts:184-187 | so after a run from no files and the death of a process that holds `.break` |
| FileLockGap.FailedWriteLosesExclusion | packages/audit/src/file-lock.ts:129-134 | and after a run from no files and a failed write of `.break`, with only the stale lock's owner dead |
| FileLockLoop.LockDir.TryCreate | packages/audit/src/file-lock.ts:121-135 | true exactly if there was no file, which then holds the owner |
| FileLockLoop.LockDir.RemoveIfOwned | packages/audit/src/file-lock.ts:145-151 | unlinks the file exactly if it holds the owner |
| FileLockLoop.LockDir.BreakIfStale | packages/audit/src/file-lock.ts:175-203 | removes a stale main lock, or the stale `.break` in its way, nothing else, and leaves no `.break` of its own |
| FileLockLoop.LockDir.AcquireFileLock | packages/audit/src/file-lock.ts:73-86 | alone, the retry loop takes a free lock and a stale one given time for its retries, leaves a live holder's and a half-written one that is not old enough alone, and gives up only after the deadline |
| JsonRoundTrip.RoundTrip | packages/audit/src/sink.ts:372 | JSON.parse undoes JSON.stringify on every tree of plain values |
| JsonPrefix.ValueExtends | packages/audit/src/sink.ts:370-376 | text after a value does not change how the value parses |
| JsonPrefix.PrefixRejected | packages/audit/src/sink.ts:374 | no proper prefix of a printed object parses, so a torn line is never taken for a record |
| JsonCanonical.CanonicalizeIsFaithful | packages/audit/src/sink.ts:17-24 | two values print the same exactly when they are equal up to key order, undefined fields, what reads as null, and dates read as empty objects |
| JsonCanonical.ReparseKeepsCanonical | packages/audit/src/sink.ts:11-16 | a value written with JSON.stringify and parsed again prints the same canonical text, exactly if it holds no date and no function-valued field |
| Redact.RedactedIsFit | packages/audit/src/redact.ts:50-104 | of any value: what is left is portable, hides every field with a secret key, and is bounded in depth and in the length of arrays |
| Redact.RedactedIsPortable | packages/audit/src/sink.ts:178-186 | so a redacted value hashes the same once read back |
| AuditChain.VerifiedIsLongest | packages/audit/src/sink.ts:275-289 | the verified prefix is a chain, and the record after it does not continue it |
| AuditChain.VerifiedConcat | packages/audit/src/sink.ts:266-289 | verifying two stretches in turn, the second from the first's head, is verifying both together |
| AuditChain.ChainIffVerified | packages/audit/src/sink.ts:275-289 | all records verify exactly when every one links to its predecessor |
| AuditChain.VerifyAuditChain | packages/audit/src/sink.ts:275-289 | finds the first record that breaks the chain, why, and the head before it; valid exactly when the records are a chain |
| AuditChain.SegmentVerdict | packages/audit/src/sink.ts:346-360 | a segment's own verdict from the head so far is the verdict on the whole |
| AuditChain.VerifyAuditSegments | packages/audit/src/sink.ts:333-363 | over any split into segments, the same verdict and head as verifyAuditChain over the concatenation from the first record's predecessor, with the failing segment named |
| AuditChain.HeadCommitsToHistory | packages/audit/src/sink.ts:275-289 | two chains from genesis with one head record the same events, or the hash function collides on what was hashed for them |
| AuditFile.AppendToClosed | packages/audit/src/sink.ts:369-376 | appending to a file that ends with a newline adds exactly the appended records |
| AuditFile.RepairKeeps | packages/audit/src/sink.ts:63-67 | closing a torn line changes no record |
| AuditFile.NewestHead | packages/audit/src/sink.ts:85-96 | walking lines backwards finds the head of the last line that has one |
| AuditFile.WindowHead | packages/audit/src/sink.ts:77-99 | a head found in a window of bytes that starts anywhere in the file is the whole file's |
| AuditFile.ReadHead | packages/audit/src/sink.ts:68-105 | over bytes, with any decoding that is right about newlines: the growing windows end, return the head a scan of the whole file gives, and leave the file newline-terminated |
| AuditFile.ReadAuditFile | packages/audit/src/sink.ts:366-378 | returns the lines that parse, in order |
| AuditFile.MadeRecordLinks | packages/audit/src/sink.ts:177-188 | a record made after a head, as it is read back, links to it, has its sequence number and leaves the next head |
| AuditFile.UnportableDoesNotLink | packages/audit/src/sink.ts:187-193 | a record of a payload its line cannot say hashes another text once read back, and links only if the two texts collide |
| AuditFile.PrefixOfLine | packages/audit/src/sink.ts:193 | a file that ends in part of a record's line holds that record exactly once its last brace is there |
| AuditLogProof.RenamedKeeps | packages/audit/src/sink.ts:164-167 | one renaming of a rotation keeps the records and their order |
| AuditLogProof.MovedAside | packages/audit/src/sink.ts:168 | the live file's records become the newest rotated ones |
| AuditLogProof.OldestDropped | packages/audit/src/sink.ts:162-163 | deleting the oldest segment drops only the oldest records |
| AuditLogProof.FileHead | packages/audit/src/sink.ts:138-150 | a file whose records end the history leaves the history's head |
| AuditLogProof.CacheStays | packages/audit/src/sink.ts:133-145 | whatever other writers do, a cached head is right while inode and size still match |
| AuditLogProof.WriteDisk | packages/audit/src/sink.ts:193 | each partial write of a line keeps the log well-formed, wherever it stops, and its head findable or with the writer |
| AuditLogProof.HolderFinds | packages/audit/src/sink.ts:147-149 | a writer inside that has no record pending finds the head: nobody else can be carrying it |
| AuditLogProof.HolderStepKeepsInv | packages/audit/src/sink.ts:138-213 | every step of a writer inside the lock, and every failure but one that loses the head, keeps the log's invariant |
| AuditLogProof.LockStepKeepsInv | packages/audit/src/sink.ts:175 | so does every step of the lock protocol |
| AuditLogProof.HappensKeepsInvIff | packages/audit/src/sink.ts:152-213 | whatever happens keeps the invariant, exactly unless a writer stops while only it knows the head |
| AuditLogRuns.RunKeepsInv | packages/audit/src/sink.ts:128-214 | the invariant holds at every point of every run of any number of writers in which none does |
| AuditLogRuns.SuffixVerifies | packages/audit/src/sink.ts:320-332 | the last records of a history form a chain from whatever predecessor the oldest names, numbered consecutively |
| AuditLogRuns.LogAlwaysVerifies | packages/audit/src/sink.ts:122-127 | at every moment of every such run the records on disk are the last of the history, linked and numbered without a gap, and verification accepts them; the newest is among them, but while a rotation that keeps one segment has thrown it away |
| AuditLogRuns.ReadSegments | packages/cli/src/commands/audit/verify.ts:10-17 | reading every segment oldest first gives the records on disk in order |
| AuditLogRuns.VerifyLog | packages/cli/src/commands/audit/verify.ts:33-35 | at any limit on the segments it looks at, the command finds the chain unbroken, up to the head of the newest record |
| AuditLogRuns.HistoryOnlyGrows | packages/audit/src/sink.ts:193 | a step adds at most one record to the history and takes none away |
| AuditLogRuns.WrittenIsOnDisk | packages/audit/src/sink.ts:193-204 | once a writer is done, its record is on disk, as the newest |
| AuditLogRuns.StillHeld | packages/audit/src/sink.ts:190-192 | assertHeld never throws for a writer inside |
| AuditLogRuns.HeadFoundIffFindable | packages/audit/src/sink.ts:147-149 | the head looked up is the history's exactly if there is none, or the live file or the newest segment holds a record |
| AuditLogRuns.ReaderFindsHead | packages/audit/src/sink.ts:138-150 | on every such run a writer that looks for the head finds the history's, whatever was rotated before |
| AuditLogFork.StoppedRotationForks | packages/audit/src/sink.ts:147-213 | a run from no files, of one writer: after a failure between a rotation and its record, verification rejects the log |
| AuditLogLost.LostStillVerifies | packages/audit/src/sink.ts:147-213 | once a head was lost, verification accepts the log on every run until the next record |
| AuditLogLost.NextRecordForks | packages/audit/src/sink.ts:147-213 | the next record, on every run, links to the genesis, and from then on verification rejects the log exactly if a record was still on disk, whose hash is not the genesis |
| Notes.RenameKeepsInv | apps/notes/src/index.ts:49-67 | renaming the temporary file commits the update on top of all before it |
| Notes.HolderStepKeepsInv | apps/notes/src/index.ts:92-99 | every step of an update, and every failure, keeps the file whole and up to date |
| Notes.LockStepKeepsInv | apps/notes/src/file-lock.ts:134-154 | so does every step of the lock protocol, and of telling callers the outcome |
| Notes.RunKeepsInv | apps/notes/src/index.ts:82-99 | the invariant holds at every point of every run |
| Notes.LogOnlyGrows | apps/notes/src/index.ts:82-99 | committed updates and outcomes are never taken back |
| Notes.FoldShows | apps/notes/src/index.ts:111-146 | every committed addition and completion shows in the list after all updates |
| Notes.FileIsFold | apps/notes/src/index.ts:43-48 | notes.json is always whole, and is the committed updates applied one after another, each process's in the order queued, each once |
| Notes.NoLostUpdate | apps/notes/src/index.ts:82-90 | an update for which updateNotes resolved shows in every later list; one for which it rejected never took effect |
| Conversation.NextResult | experimental/agents/src/agent.ts:425-426 | adding the next missing call's result leaves exactly the other calls missing |
| Conversation.CutKeepsComplete | experimental/agents/src/context.ts:113-139 | a cut before any message that is no result keeps a complete history complete |
| Conversation.CutCompleteIff | experimental/agents/src/agent.ts:433-436 | a slice of a complete history is complete exactly when it does not start with a result |
| Conversation.NothingPending | experimental/agents/src/agent.ts:155-167 | a complete history has no pending calls |
| Conversation.PendingIffFresh | experimental/agents/src/agent.ts:160-167 | pendingToolCalls finds exactly the missing calls, exactly when none has the id of a result already there |
| Context.GroupBoundaries | experimental/agents/src/context.ts:128-138 | returns, in increasing order, exactly the indices of messages that are no results |
| Context.ChooseCut | experimental/agents/src/context.ts:174-181 | chooses the first permitted cut whose rest fits, else the deepest |
| Context.CompactMessages | experimental/agents/src/context.ts:156-197 | nothing changes while the history fits or nothing may be dropped; otherwise the result is the best cut's rest, after a summary |
| Context.BestCutUnique | experimental/agents/src/context.ts:174-182 | there is one best cut |
| Context.CompactionKeeps | experimental/agents/src/context.ts:88-94 | the protected tail is kept, and a complete history stays complete |
| Context.CompactionFits | experimental/agents/src/context.ts:147-155 | if a permitted cut fits, the result fits and drops no more than it; else as much as permitted is dropped |
| Context.CompactionIsIdempotent | experimental/agents/src/context.ts:156-197 | without a summarizer, compacting again changes nothing |
| Context.EmergencyDrops | experimental/agents/src/context.ts:199-212 | after an overflow, something is dropped exactly if something may be and the history exceeds the emergency budget, as it does unless the reserve is negative |
| Agents.Agent.RunToolCall | experimental/agents/src/agent.ts:346-427 | a call adds its value or its failure as its result, one entry to each log; a refusal or a cancellation ends the run with both as they were |
| Agents.Agent.RunNextCall | experimental/agents/src/agent.ts:587-597 | each call but the last of a turn is followed by a checkpoint of the history and the log as they are |
| Agents.Agent.RunToolCalls | experimental/agents/src/agent.ts:587-597 | just the missing calls are run, in order, and then the history is complete; on the way the saved log lacks at most one entry |
| Agents.Agent.RunPending | experimental/agents/src/agent.ts:448-462 | exactly the missing calls are run, and the completed history is saved before the provider is asked |
| Agents.Agent.Consult | experimental/agents/src/agent.ts:467-536 | what is sent is the compacted history, and complete; an overflow is retried once, after dropping something, and given up exactly if nothing may be dropped; an aborted call ends a cancelled run as cancelled |
| Agents.Agent.FinalTurn | experimental/agents/src/agent.ts:550-583 | a returned answer matches the schema, trips no guardrail, ends the history and is what is saved; why the run ends otherwise |
| Agents.Agent.SessionExtends | experimental/agents/src/agent.ts:429-436 | what is added to a session leaves it complete exactly if it starts with no tool result, said of the uncompacted history |
| Agents.Agent.UseTurn | experimental/agents/src/agent.ts:545-599 | a cut-off turn is not used at all; any other leads to the history it asks for, or ends the run for a reason in the turn |
| Agents.Agent.TakeTurns | experimental/agents/src/agent.ts:464-612 | each history sent comes of the one before it by the provider's reply, its results and compaction; the last reply explains the end; at the limit the run is saved as failed |
| Agents.Agent.LoopWith | experimental/agents/src/agent.ts:313-613 | the same from any resumable history; every history sent is complete and every checkpoint resumable; at most maxTurns - startTurn + 1 provider calls; the saved log lacks at most one entry, or the calls that were pending |
| Agents.Agent.Run | experimental/agents/src/agent.ts:233-262 | the same for a run of its own, from the session's history and the input; what is added to the session, and exactly when that leaves it complete |
| SessionGap.ResultWithoutCall | experimental/agents/src/agent.ts:433-436 | a run on which nothing fails leaves its session with the result of a call that is not in it |
| Agents.Agent.Resume | experimental/agents/src/agent.ts:274-299 | a finished run gives its answer again and does nothing; any other goes on from what is saved, running first exactly the calls that have no result there |
| Agents.Lifetime | experimental/agents/src/agent.ts:264-299 | over a run and any number of resumptions, each in a process of its own set up in its own way and crashing anywhere, no provider is sent an unanswered call |
| Agents.Lifetimes | experimental/agents/src/agent.ts:245-262 | the same over any number of such runs on one session, until one finds it incomplete |
| Crew.Composition.Sequential | experimental/agents/src/crew.ts:151-197 | a rerun returns what an uninterrupted run returns, and begins at most one step more than it saves |
| Crew.Composition.LoopUntil | experimental/agents/src/crew.ts:284-315 | the same for a loop |
| Crew.Composition.Pipeline | experimental/agents/src/crew.ts:378-401 | the same for a pipeline |
| Crew.Composition.RepairOutput | experimental/agents/src/crew.ts:111-135 | returns the repaired text, or the failure, the specification gives |
| Crew.Composition.SequentialUntilDone | experimental/agents/src/crew.ts:144-150 | over any crashes, the result of one uninterrupted run, with at most one step begun again for each |
| Crew.Composition.LoopUntilDone | experimental/agents/src/crew.ts:276-283 | the same for a loop |
| Crew.Composition.PipelineUntilDone | experimental/agents/src/crew.ts:378-401 | and for a pipeline |
| Crew.EndsWhereItShould | experimental/agents/src/crew.ts:276-283 | the loop ends after the first iteration that satisfies its condition, or at its limit, and runs at least once |
| Crew.RepairedIsFirstValid | experimental/agents/src/crew.ts:119-134 | a repaired text is the first repair that matches the schema; the failure means none within the limit does |
| Bus.QuietKeeps | packages/context-bus-daemon/src/main.rs:149-212 | reading, acknowledging, writing and closing keep the daemon's invariant |
| Bus.OfferKeeps | packages/context-bus-daemon/src/main.rs:226-232 | so does offering an event to one queue |
| Bus.LeaveKeeps | packages/context-bus-daemon/src/main.rs:243-261 | so does the clean-up, which leaves no sender of the connection in the map |
| Bus.StepKeeps | packages/context-bus-daemon/src/main.rs:149-266 | every step of every task keeps it |
| BusRuns.Delivery | packages/context-bus-daemon/src/main.rs:35-68 | every publish was for exactly those subscribed when it got the lock, but its publisher; a connection receives only such events, in lock order, each at most once; each is taken, refused by a queue full or closed at the time, or still to be offered, and only one of these; no queue exceeds 256 |
| BusRuns.OthersLeaveAlone | packages/context-bus-daemon/src/main.rs:243-261 | after the clean-up no other connection's step touches a connection |
| BusRuns.Closes | packages/context-bus-daemon/src/main.rs:243-266 | after the clean-up, however the tasks take turns, a connection is closed after at most as many of its own steps as its rank, at most 259, and until then can take one |
| BusRuns.LockIsReleased | packages/context-bus-daemon/src/main.rs:215-236 | however the tasks take turns, whoever holds the map's lock gives it back after no more of its own steps than it has offers to make, and one; and it can always take the next |
| BusRuns.Disconnects | packages/context-bus-daemon/src/main.rs:243-266 | disconnecting never deadlocks: at every point of every run such a connection, or the lock's holder it waits for, can take a step |
| BusRuns.LeavesNoSender | packages/context-bus-daemon/src/main.rs:255-263 | from its clean-up on, no topic ever has a sender of a connection again |
| Frames.Stream.ReadFrame | packages/context-bus-daemon/src/main.rs:282-305 | a frame is the header's length of bytes; a stream that ends in a header has ended, one that ends in a body is an error, and a length over the limit is refused |
| Frames.FrameRoundTrip | packages/context-bus-daemon/src/main.rs:282-312 | a frame is read back as written exactly when it is within the limit |
| Frames.CutStream | packages/context-bus-daemon/src/main.rs:282-312 | wherever a stream of frames is cut, the first frames are read whole and nothing else |
| Frames.Relay | packages/context-bus-daemon/src/main.rs:154-181 | what a writer task sends and a reader loop takes off a connection that fails after any number of bytes are the first of the frames |
| Secrets.SerializeSecretsEnvFile | packages/docker-orchestrator/src/secrets.ts:277-290 | prints the file, or names the first secret a shell cannot represent |
| Secrets.ReadEscaped | packages/docker-orchestrator/src/secrets.ts:266-271 | within single quotes, with its quotes escaped, any value is read as it is |
| Secrets.ReadCommentLine | packages/docker-orchestrator/src/secrets.ts:278-282 | a comment line is skipped, whatever quotes are in it |
| Secrets.SourcingExports | packages/docker-orchestrator/src/secrets.ts:277-290 | sourcing the file exports exactly the secrets and runs nothing, exactly when no value holds a NUL |
| Secrets.ExportedIs | packages/docker-orchestrator/src/secrets.ts:283-288 | with distinct names each secret has its own value and every other variable keeps its own |
| Partition.PartitionSecretEnv | packages/docker-orchestrator/src/secrets.ts:121-130 | every variable goes one way, with its value: to the secrets exactly if it is declared or looks secret |
| Partition.CollectOwners | packages/docker-orchestrator/src/secrets.ts:176-188 | collects who declares each secret, and the declarations without a value, in order |
| Partition.PartitionSecretsPerApp | packages/docker-orchestrator/src/secrets.ts:172-203 | a declared secret goes to exactly the apps that declare it and leaves the shared file; any other stays there |
| Rows.Collector.Add | apps/postgres/src/index.ts:195-211 | takes a row while it fits both limits, and none after the first that does not |
| Rows.ShapeRows | apps/postgres/src/index.ts:213-217 | keeps the longest first stretch of rows within both limits, and says whether it is all |
| Rows.CappedUnique | apps/postgres/src/index.ts:191-217 | there is one way to cap a result |
| Postgres.Collect | apps/postgres/src/index.ts:357-382 | the batched loop ends, keeps what the simple form keeps of the whole result, and asks for at most max + 1 rows |
| Postgres.CollectBothWays | apps/postgres/src/index.ts:213-217 | both forms give the same rows and the same word on truncation |
| MySql.Query.OnResult | apps/mysql/src/index.ts:432-440 | statuses are remembered, rows of the first set collected; one that does not fit settles the call |
| MySql.Query.Handle | apps/mysql/src/index.ts:399-449 | after any events the promise is settled at most once, by the first event that decides |
| MySql.Collect | apps/mysql/src/index.ts:383-450 | on every order of events, settled once, with what the first deciding event calls for |
| MySql.Connection.PutBack | apps/mysql/src/index.ts:581-589 | the connection is released only after a reset, and closed otherwise |
| MySql.Connection.Execute | apps/mysql/src/index.ts:496-509 | COMMIT only in read-write mode and after the statement's own end |
| MySql.Connection.Run | apps/mysql/src/index.ts:469-522 | the connection is released clean or closed, once; the server is asked to end the statement exactly if it ran out of time or over the cap; COMMIT only for a whole result in time; an answer that is not cut off is committed |
| Chunks.ChunkText | experimental/agents/src/retrieval.ts:103-129 | the chunks are the trimmed windows of the trimmed text, or the text itself if it fits one; the loop ends exactly if a window has room or the text is blank |
| Chunks.Advances | experimental/agents/src/retrieval.ts:124-126 | the next window always starts later, so the fallback for a stalled start is never taken |
| Chunks.EndsAtBreak | experimental/agents/src/retrieval.ts:115-121 | a window ends with the last paragraph or sentence end past its middle, and is full if there is none |
| Chunks.WindowsTile | experimental/agents/src/retrieval.ts:111-127 | no window is longer than allowed, and neighbours share exactly the clamped overlap |
| Chunks.Covered | experimental/agents/src/retrieval.ts:93-102 | no unit of the text is missed |

## Left out

- FileLock.MutualExclusion: nothing is claimed once a `.break` was abandoned; `FileLockGap` shows why.
- Locks of other hosts, and judging a half-written lock by its age beyond the stated assumption: a bet on time.
- FileLockLoop.LockDir.AcquireFileLock: one process while no other acts and no call fails; time passes only while it sleeps.
- FileLockLoop.LockDir.TryCreate: a write that fails after the create; `FileLock.ErrorStep` has it.
- AuditFile.ReadHead: a record whose `seq` is no whole number counts as 0.
- AuditFile.ReadAuditFile: a line that parses to a value that is no object counts as a record without fields.
- AuditLogProof.WriteDisk: sizes are counted in UTF-16 units, not in bytes, and a write appends whole units; existsSync and renames that fail are failures of the writer, never wrong answers.
- Values with a toJSON of their own that are no dates, objects met twice in one value, keys an object inherits, and the file's mode.
- AuditLogRuns.LogAlwaysVerifies: for maxFiles of at least 1, and runs that lose no head; `AuditLogLost` has what follows if one is lost, up to the next record.
- JsonCanonical.CanonicalizeIsFaithful: a number is the text it is spelled with; that JavaScript spells a number one way is not proved.
- Notes.FileIsFold: a file is half-written or holds a whole list; the text of the list is not modelled, nor what a power loss does to an unsynced file.
- Agents.Agent.LoopWith: tracing, streaming, timers, a summarizer that fails, and the wording of errors; a crash between a tool's effect and its log entry.
- Crew.Composition.Sequential: steps are deterministic and a store and a run id are given; repairs are not counted as steps. Routing, parallel and manager crews.
- Bus.StepKeeps: protobuf, peer identities, and an operating system that stops a write without ever failing it.
- Partition.PartitionSecretEnv: which names look secret is a parameter; objects are finite maps, without inherited keys.
- Postgres.Collect: COPY, columns and row counts, and a negative cap.
- Rows.Collector.Add: how a cell is shaped is a parameter.
- MySql.Connection.Run: what becomes of a KILL, and how errors are worded.
- Chunks.ChunkText: a negative maxChars or overlapChars.
- Docker, sockets, sandboxing, governance, the Python agent, and the rest of the repository.
