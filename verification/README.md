# typedb-mcp, modelled and proved

A Dafny model of the stateful core of `typedb-mcp`, the MCP server that gives an agent sessions, transactions,
queries and database migrations on a TypeDB server. `dafny verify dfyconfig.toml` checks all of it.

| file | what it models |
|---|---|
| `Frames.dfy`, `Bits.dfy` | the length-delimited record scanner that guards an import, and the 64-bit word operations it uses |
| `FileSystem.dfy`, `Migration.dfy` | export and import as multi-step procedures on a disk shared with other processes, where every call may fail |
| `Coordinator.dfy` | reservations of database names |
| `Snapshots.dfy` | what every outcome of an export or import says about files and driver calls, and what text a schema is accepted as |
| `Supervisor.dfy` | the migration worker thread, its queue and flags, the callers, the session locks and a shutdown, as one transition system |
| `Replies.dfy` | which answer a migration gets and why, who is refused, and when the worker stops |
| `Stack.dfy`, `Classifier.dfy` | reading error codes out of a driver message, and the classifier that decides whether a transaction is kept |
| `Drain.dfy` | draining an answer stream under a cap |
| `Upstream.dfy` | the database server behind the driver: transactions, pending writes, a ledger of persisted ones, the log of wire operations |
| `Kernel.dfy` | the lock-held sections of the session tools, as methods on a session and a driver, each equal to a specification function |
| `Answers.dfy` | what the answer of each of those sections tells about the session, the writes and the wire |
| `Runs.dfy` | any number of sessions and calls, one such section per step, with a server that may lose a transaction at any moment |
| `Store.dfy` | the session store and one pass of the reaper, as methods on mutable maps and sessions |
| `Lifetimes.dfy` | session ids and idle transactions against the clock, over whole histories |
| `Admin.dfy`, `Freshness.dfy` | creating, deleting and importing databases, and the schema gate, with whole calls as steps |

What the server answers, when it answers and which faults occur are parameters or oracles about which nothing is
assumed, so a statement proved here holds for all of them. What is assumed:

* a commit that returns an error has persisted nothing, and a transaction that ends without a successful commit has
  its writes discarded (`Upstream`);
* a write in a READ transaction is not executed by the server, and a transaction the server has lost answers no query
  and no commit with success (`Heard`, `CommitFault` in `Kernel`);
* session ids are fresh, and the staging names of a job are fresh and used by no other process (`reserved` in `FileSystem`);
* a destination path is not itself a staging name;
* copying a source file reads it at one instant: without this a copy made while another process overwrites the source
  could mix old and new bytes; validation, manifest and import would still agree on the bytes that were staged;
* other processes do not remove or replace a file the job has created, staged or published (`OthersAct` in `FileSystem`);
  otherwise the removal of a partial destination after a failed copy could hit a file of theirs;
* in `Lifetimes` a resolve is one step; in `Freshness` a whole call is one step and nobody else uses the server.

Times are in nanoseconds. Text is a sequence of characters, files are sequences of bytes shorter than 2^64.

## What the code does that its own words do not say

* `publish_noclobber` creates the destination before it opens the staged file. When that open fails the destination
  stays behind, empty (`Migration.PublishNoclobber`).
* When the second publication of an export fails while removing its staged file, both destinations are left, complete,
  although the message names only the first.
* A successful import leaves its two staged copies on disk, because success disarms the guard (`Migration.Import`).
* `do_migration` on a session with an open transaction asks for a snapshot while it holds that session's lock: it does
  not return (`Supervisor.OpenTransactionBlocks`).
* `do_delete_database` asks for a snapshot of the caller's session while it holds the lock of the session in which its
  scan found an open transaction. If that is the caller's own session, because another call opened a transaction there
  after the first check, it does not return either (`Supervisor.DeleteScanBlocks`).
* `do_create_database` and `do_delete_database` accept a name of more than 128 characters, and then answer that the
  database operation is busy (`Admin.LongNamesAreBusy`).
* The classifier looks for `[CODE]` as a substring and `extract_codes` reads groups from left to right. The two can
  disagree on a message with an unclosed bracket in a group; `Stack.ReadingsAgreeIff` says exactly when they do.
* `retriable_in_same_tx` is right for every `query`. After `commit`, `checkpoint` and `read_once` it can be true with
  no transaction open; `Kernel.CommitFlagIff` and `Kernel.ReadOnceFlagIff` say exactly when it is right.
* The doc comment of `query_answer_to_json` speaks of a count; the code returns a truncation flag, which is modelled.

## Model

| member | source | states |
|---|---|---|
| Frames.ValidateFrames | crates/typedb-mcp-core/src/migration.rs:507-539 | the scanner accepts a file iff it is a concatenation of records, each a varint length below 2^64 in at most ten bytes and a payload of that length; a rejection carries the one reason that applies |
| Frames.ReadVarint | crates/typedb-mcp-core/src/migration.rs:514-532 | the inner loop ends with a header of at most ten bytes and its base-128 value, or exactly on a truncated or overflowing one, and never reads past the end |
| Frames.AccumulateIsAddition | crates/typedb-mcp-core/src/migration.rs:523-527 | or-ing a digit in at bit 7k is adding it with weight 128^k; no bit is lost out of 64 |
| Frames.Masks | crates/typedb-mcp-core/src/migration.rs:527-528 | masking with 127 takes the seven value bits and masking with 128 the continuation bit |
| Frames.TenthByte | crates/typedb-mcp-core/src/migration.rs:524-526 | the test on the byte at shift 63 is exactly the 64-bit bound on the header's value |
| Frames.SplitUnique | crates/typedb-mcp-core/src/migration.rs:507-539 | a framed file splits into records in one way only |
| Frames.RejectedIsNotFramed | crates/typedb-mcp-core/src/migration.rs:507-539 | a file on which the scan gets stuck after whole records has no other split into records |
| Frames.VerdictUnique | crates/typedb-mcp-core/src/migration.rs:507-539 | no file warrants two verdicts, or two reasons |
| Frames.EncodeRoundTrip | crates/typedb-mcp-core/src/migration.rs:507-539 | every list of payloads encoded by a reference encoder is framed and is read back as itself, whatever the split |
| Frames.EncodedHeader | crates/typedb-mcp-core/src/migration.rs:514-532 | the reference encoding of a length below 2^64 is a header with that value |
| FileSystem.UpdateConcat | crates/typedb-mcp-core/src/migration.rs:619-634 | absorbing two chunks is absorbing their concatenation |
| FileSystem.Disk.AbsorbAll | crates/typedb-mcp-core/src/migration.rs:619-632 | the read loop counts and absorbs every byte once, whatever chunks come back, and takes a number of reads that the chunks determine |
| FileSystem.Disk.HashFile | crates/typedb-mcp-core/src/migration.rs:619-634 | size and digest are those of the whole file |
| FileSystem.Disk.CreateNew | crates/typedb-mcp-core/src/migration.rs:576 | exclusive creation: at the very moment of the call, and whatever the path was before, it says that the file exists iff a file is there; then nothing is created and what another process put there stays |
| FileSystem.Disk.RoundKeeps | crates/typedb-mcp-core/src/migration.rs:575-594 | after every round of the other processes their files are exactly what they themselves have made of the files the job began with; the only exceptions are the paths at which the job created a file when they were free |
| FileSystem.Disk.ValidKeepsBase | crates/typedb-mcp-core/src/migration.rs:575-594 | between any two steps of a job, every file that existed when it began and that no other process touches is on disk with its bytes |
| FileSystem.Disk.Cleanup | crates/typedb-mcp-core/src/migration.rs:607-618 | of the job's files only the two staging files are removed, and both are if removals work; the files of other processes are as those made them |
| Migration.PublishNoclobber | crates/typedb-mcp-core/src/migration.rs:575-594 | for every outcome, fault and interference: exactly which files of the job exist afterwards and with what bytes; it says that the destination exists iff another process has a file there at the moment of creation, and then creates nothing and leaves that file to its owner; without faults it succeeds iff the staged file exists and the destination does not |
| Migration.ValidateExportInputs | crates/typedb-mcp-core/src/migration.rs:416-456 | lets through only two distinct acceptable paths and changes nothing; without interference exactly those that are both free |
| Migration.PublishBoth | crates/typedb-mcp-core/src/migration.rs:291-300 | hashing and publishing one after the other: what each failing step leaves; each destination is created only if it is free at the moment of its own creation, and is reported as existing iff it is not; with a data destination that exists, the schema destination is the only file published |
| Migration.Export | crates/typedb-mcp-core/src/migration.rs:273-313 | on every outcome, with every fault and interference, files of other processes are exactly what those processes made of them: one that existed when the job began and that nobody else touches keeps its bytes, and one put at a destination after the validation is not overwritten, because each destination is created only if free at that moment and reported as existing iff not; success leaves exactly the two destinations with the staged bytes, described by the manifest, and no staging file; a failure leaves at most what a failed publication leaves, and with failing removals nothing but staging leftovers and beginnings of the staged bytes; if nobody interferes and no file call fails it succeeds iff the paths are fit, distinct and free, there is space, and the driver delivers both files |
| Migration.ValidateSchema | crates/typedb-mcp-core/src/migration.rs:473-484 | an accepted file of the job is within the cap and UTF-8; without faults a file is accepted iff it exists, is within the cap and is UTF-8 |
| Migration.ValidatePair | crates/typedb-mcp-core/src/migration.rs:405-415 | lets through only two distinct sources and changes nothing; without faults exactly those that exist, with a schema within the cap and UTF-8 |
| Migration.StageSnapshot | crates/typedb-mcp-core/src/migration.rs:325-331 | the staged copies hold bytes that the two source paths really had, as told from the files at the start and what the other processes did, at some time during the call; the schema is within the cap and UTF-8, the data framed to the end; without faults it succeeds iff the sources are like that, and the copies are the sources |
| Migration.ImportSnapshot | crates/typedb-mcp-core/src/migration.rs:332-366 | which driver calls are made, in which order and with which bytes, for every outcome |
| Migration.ImportGuarded | crates/typedb-mcp-core/src/migration.rs:324-368 | everything under the staging guard: the driver calls, and that a failure leaves nothing of the job's if removals work |
| Migration.Import | crates/typedb-mcp-core/src/migration.rs:314-368 | the backend import is called at most once, only after the database was said to be absent, with bytes the two source paths had at some time during the job, validated, and described by the manifest; what each outcome leaves on disk; files of other processes are as those made them; if nobody interferes and no file call fails it succeeds iff the sources exist and are fit, there is space, the database is absent and the backend accepts, and then the backend gets the very source files |
| Snapshots.ExportTells | crates/typedb-mcp-core/src/migration.rs:273-313 | for every outcome of an export, from the files left alone: success iff exactly the two destinations hold the staged bytes that the manifest counts and digests; a failure leaves at most the schema destination, or one empty destination behind a staged file that could not be opened |
| Snapshots.PublishTells | crates/typedb-mcp-core/src/migration.rs:575-594 | publishing touches no third file; a destination that exists is left as it is; the staged file goes only after its whole content is at the destination |
| Snapshots.ExportDecides | crates/typedb-mcp-core/src/migration.rs:273-313 | without interference an export succeeds iff paths, space and staged files are good, and otherwise names the first of these that is not |
| Snapshots.ImportTells | crates/typedb-mcp-core/src/migration.rs:314-368 | for every outcome of an import, from the driver calls alone: one import call at most, directly after the answer that the database is absent, with a schema that is UTF-8 and within the cap, data framed to the end and both from the sources; success iff that call was answered with success, and the manifest describes its bytes |
| Snapshots.AcceptedIsEncoded | crates/typedb-mcp-core/src/migration.rs:473-484 | bytes accepted as text are the UTF-8 form of the text they decode to |
| Snapshots.EncodedIsAccepted | crates/typedb-mcp-core/src/migration.rs:473-484 | the UTF-8 form of every text is accepted, and decodes to that text only |
| Coordinator.OperationCoordinator.TryReserve | crates/typedb-mcp-core/src/coordinator.rs:39-54 | succeeds iff the name is valid and free; then exactly that name is added, with one live reservation |
| Coordinator.OperationCoordinator.Release | crates/typedb-mcp-core/src/coordinator.rs:22-28 | dropping a live reservation frees its name and no other |
| Coordinator.OperationCoordinator.IsReserved | crates/typedb-mcp-core/src/coordinator.rs:55-57 | true iff a live reservation has that name |
| Supervisor.StepKeepsInv | crates/typedb-mcp-core/src/migration.rs:149-259 | every step of a caller, of the worker, of shutdown and of other lock users keeps permits, reservations, locks, queue, channels and flags consistent, and the flags go one way |
| Supervisor.TokensMoved | crates/typedb-mcp-core/src/migration.rs:108-118 | when one call's permit, reservation and lock change together with the shared semaphore, name set and lock table, each is still held by exactly one call |
| Supervisor.SingleFlight | crates/typedb-mcp-core/src/migration.rs:108-118 | in every state of every run at most one job is queued or running, and it holds the permit, its name and its session lock whether or not its caller is still there |
| Supervisor.ReservationsAreNames | crates/typedb-mcp-core/src/coordinator.rs:13-57 | in every state the reserved names are those of the live reservations, without duplicates |
| Supervisor.UpstreamExclusion | crates/typedb-mcp-core/src/tools.rs:873-885 | creates, deletes, exports and imports on one database name never overlap |
| Supervisor.ReleaseBeforeResponse | crates/typedb-mcp-core/src/tools.rs:730-776 | when a call returns after submit, its permit, reservation and session lock are free |
| Supervisor.ShutdownSafety | crates/typedb-mcp-core/src/migration.rs:191-205 | once shutdown can report Completed no backend call is running, then or at any later time, whatever submits race with it |
| Supervisor.AllSettledWhenGone | crates/typedb-mcp-core/src/migration.rs:161-179 | when the worker is gone every accepted job holds nothing and its channel carries a reply or is closed |
| Supervisor.OneAnswer | crates/typedb-mcp-core/src/migration.rs:171 | over every run a reply or a closed channel is final, so a job is answered once; which of the two it is, `Replies.WhyThisAnswer` says |
| Supervisor.WorkerCanMove | crates/typedb-mcp-core/src/migration.rs:161-179 | the worker is never stuck before it is gone |
| Supervisor.StopDrains | crates/typedb-mcp-core/src/migration.rs:161-179 | after stop, no step moves the end further away and every worker step brings it nearer |
| Supervisor.ShutdownDrains | crates/typedb-mcp-core/src/migration.rs:191-205 | after stop, the number of worker steps in any continuation is bounded by a function of the state at stop |
| Supervisor.OpenTransactionBlocks | crates/typedb-mcp-core/src/tools.rs:720-729 | the snapshot that the refusal for an open transaction asks for needs the session lock which the same call holds: in no later state is it possible, the call never gets past it and nobody else gets the lock, until it is cancelled |
| Supervisor.DeleteScanBlocks | crates/typedb-mcp-core/src/tools.rs:940-957 | a delete whose scan finds an open transaction in the caller's own session asks for a snapshot under that session's lock: it is never possible and the call never gets past it, until it is cancelled |
| Replies.WhyThisAnswer | crates/typedb-mcp-core/src/migration.rs:161-179 | over every run: a job's channel carries a reply only after a step in which the worker finished serving that job, and is closed unanswered only after a panic while serving it, or after the worker had stopped and discarded it |
| Replies.WhyItStopped | crates/typedb-mcp-core/src/migration.rs:161-179 | over every run: a worker that discards jobs or is gone has either found the stop flag and set `completed`, or panicked |
| Replies.RefusalRefuses | crates/typedb-mcp-core/src/migration.rs:206-259 | exactly when admission is closed, the permit or the name taken, the name or path unfit, or the worker gone does the step of a submit refuse |
| Replies.WhyRefused | crates/typedb-mcp-core/src/migration.rs:206-259 | over every run: a call was refused only by such a step of its own |
| Replies.SubmitAccepted | crates/typedb-mcp-core/src/migration.rs:206-259 | with none of these in the way a submit takes permit and name and puts the job with all it holds into the queue |
| Replies.JobReplies | crates/typedb-mcp-core/src/migration.rs:171 | a job that is served gets its result sent when it has finished, whatever it was, and the worker goes on with its loop |
| Replies.JobReleases | crates/typedb-mcp-core/src/migration.rs:108-118 | then permit, name and session lock are given back in this order, and nothing else |
| Replies.CallerReturns | crates/typedb-mcp-core/src/tools.rs:730-776 | and the caller gets that reply and can return once the session lock is free |
| Replies.WorkerLoops | crates/typedb-mcp-core/src/migration.rs:161-179 | the worker leaves iff it finds the stop flag, and then sets `completed` |
| Replies.WorkerTakesJobs | crates/typedb-mcp-core/src/migration.rs:162-164 | it serves the job that has waited longest |
| Replies.ServesOnItsBackend | crates/typedb-mcp-core/src/migration.rs:149-154 | a worker that could not build its backend stays in its loop and serves jobs without a backend call |
| Replies.ShutdownTells | crates/typedb-mcp-core/src/migration.rs:191-196 | a shutdown closes admission and then raises the stop flag |
| Replies.AdminGetsName | crates/typedb-mcp-core/src/tools.rs:873-885 | a create or delete gets its name iff it is valid and free |
| Replies.AdminReturns | crates/typedb-mcp-core/src/tools.rs:884-885 | and gives it back when the server has answered |
| Stack.ExtractCodes | crates/typedb-mcp-core/src/envelope.rs:234-256 | the scan computes the left-to-right reading of the message |
| Stack.ExtractionInvertsRendering | crates/typedb-mcp-core/src/envelope.rs:234-256 | for any free text and groups, extraction returns exactly the code groups, in order |
| Stack.StackReadsBack | crates/typedb-mcp-core/src/envelope.rs:234-256 | a stack written as texts without opening bracket and codes of capitals and digits in brackets between them is read back as exactly those codes, each as often as written and in order |
| Stack.OnlyCodesFrom | crates/typedb-mcp-core/src/envelope.rs:244-250 | from no message is anything read but nonempty strings of capitals and digits |
| Stack.EveryMessageSplits | crates/typedb-mcp-core/src/envelope.rs:234-256 | every message is such a rendering, up to an unclosed bracket at the end |
| Stack.MarkersAreLocal | crates/typedb-mcp-core/src/error.rs:135-213 | a substring test for a marker succeeds iff it does inside one group, or in the unclosed tail |
| Stack.MarkerIsMembership | crates/typedb-mcp-core/src/error.rs:135-213 | on a code stack the substring test for a code is membership in the extracted list |
| Stack.FamilyIsPrefix | crates/typedb-mcp-core/src/error.rs:135-213 | on a code stack the substring test for a family is a prefix test on the extracted list |
| Stack.ReadingsAgreeIff | crates/typedb-mcp-core/src/error.rs:135-213 | for every message and code, extraction and the substring test agree iff the code is a group of the message or no group has swallowed it after an inner bracket |
| Stack.ReadingsCanDiffer | crates/typedb-mcp-core/src/error.rs:135-213 | a message on which they do not |
| Classifier.ClassifierReadsCodes | crates/typedb-mcp-core/src/error.rs:135-213 | on a code stack the classifier is a function of the extracted list |
| Classifier.OrderIrrelevant | crates/typedb-mcp-core/src/error.rs:135-213 | the class does not depend on the order of the stack, on repetition or on free text |
| Classifier.RetriableIff | crates/typedb-mcp-core/src/error.rs:100-213 | a server error is retriable in the same transaction iff it has a recoverable marker and none of the write-pipeline, commit, TSV12 or TSV13 ones, whatever the top code |
| Classifier.FatalCodeDecides | crates/typedb-mcp-core/src/error.rs:135-213 | one fatal code at any depth of the stack is enough |
| Classifier.FirstRowDecides | crates/typedb-mcp-core/src/error.rs:135-204 | which class it is: that of the first row of a table of codes and families that the message hits, whatever the top code |
| Classifier.OtherwiseTopCode | crates/typedb-mcp-core/src/error.rs:207-212 | a message that hits no row is classified by the top code alone |
| Classifier.WithoutStack | crates/typedb-mcp-core/src/error.rs:249-268 | a closed transaction is an idle timeout; any other error without a stack means that TypeDB was not reached |
| Drain.DrainCapped | crates/typedb-mcp-core/src/typedb.rs:280-317 | the loop stops at the first broken poll, at the end, or at the first item past the cap, and returns what came before |
| Drain.QueryAnswerToJson | crates/typedb-mcp-core/src/typedb.rs:267-319 | each form of answer is materialized that way |
| Drain.DrainUnique | crates/typedb-mcp-core/src/typedb.rs:280-317 | the outcome is determined by the stream and the cap |
| Drain.AllOrNothing | crates/typedb-mcp-core/src/typedb.rs:280-317 | at most cap items, in stream order, and the flag is set iff there are more |
| Drain.FailsIff | crates/typedb-mcp-core/src/typedb.rs:280-317 | an error is reported iff a poll up to the one past the cap is broken first |
| Drain.DrainOutcome | crates/typedb-mcp-core/src/typedb.rs:280-317 | which outcome it is, told from the stream alone |
| Kernel.Driver.Release | crates/typedb-mcp-core/src/session.rs:64-69 | READ is closed, WRITE and SCHEMA are rolled back |
| Kernel.SessionState.StashOpenTx | crates/typedb-mcp-core/src/core.rs:626-640 | fills the slot; a transaction already there would be lost |
| Kernel.SessionState.DoOpenAny | crates/typedb-mcp-core/src/tools.rs:1049-1111 | guards in the order reserved, open, gate; on success the slot holds the fresh transaction, and nothing was overwritten |
| Kernel.SessionState.DoQuery | crates/typedb-mcp-core/src/tools.rs:1113-1191 | the section's whole effect on session, server and envelope, spelled out by `Answers.QueryTellsAnswer` and `Answers.QueryTellsState`; a live transaction's answer is the materialized one |
| Kernel.SessionState.DoCheckpoint | crates/typedb-mcp-core/src/tools.rs:1193-1272 | commit, then reopen only after success; every failing branch leaves the slot empty |
| Kernel.SessionState.DoCommit | crates/typedb-mcp-core/src/tools.rs:1274-1333 | the slot is emptied and the commit sent, except for READ; what the answer says about the writes is spelled out by `Answers.CommitTells` |
| Kernel.SessionState.DoRollback | crates/typedb-mcp-core/src/tools.rs:1335-1362 | the slot is emptied and released by kind; with no transaction it is a success that did nothing |
| Kernel.SessionState.DoReadOnce | crates/typedb-mcp-core/src/tools.rs:1364-1445 | open, query, drain and close in that order within one section; the session is unchanged |
| Kernel.SessionState.WithReadTx | crates/typedb-mcp-core/src/core.rs:322-403 | the same with any closure |
| Kernel.SessionState.WithCurrentTx | crates/typedb-mcp-core/src/core.rs:447-491 | a closure in the session's own transaction, kept iff the error class is retriable |
| Kernel.SessionState.WithOwnedTx | crates/typedb-mcp-core/src/core.rs:495-548 | up to the point where the lock is dropped the transaction is local and the slot untouched |
| Kernel.FinishOwned | crates/typedb-mcp-core/src/core.rs:550-601 | commit, rollback or rollback after an error, by the closure's decision |
| Kernel.SessionState.EmptyTheSlot | crates/typedb-mcp-core/src/session.rs:169-180 | the session holds nothing afterwards and what it held is released by kind |
| Kernel.QueryFlag | crates/typedb-mcp-core/src/tools.rs:1118-1189 | a failed query's flag is true iff the slot still holds a transaction; for a server stack iff it has a recoverable marker and no fatal one |
| Kernel.CurrentFlag | crates/typedb-mcp-core/src/core.rs:447-491 | the same for `with_current_tx` |
| Kernel.SaysOpenIff | crates/typedb-mcp-core/src/error.rs:100-213 | a driver error is retriable in the same transaction iff it is a server stack with a recoverable marker and no fatal one |
| Kernel.CommitFlagIff | crates/typedb-mcp-core/src/tools.rs:1193-1333 | the flag of a failed commit or checkpoint tells the truth unless the server refused with a stack that has a recoverable marker and no fatal one |
| Kernel.CommitFlagCanBeWrong | crates/typedb-mcp-core/src/tools.rs:1304-1330 | a refused commit whose flag says the transaction is open |
| Kernel.ReadOnceFlagIff | crates/typedb-mcp-core/src/tools.rs:1411-1443 | the flag of a failed `read_once` tells the truth unless a call failed with such a stack, or the answer was over the cap |
| Kernel.ReadOnceFlagCanBeWrong | crates/typedb-mcp-core/src/tools.rs:1424-1434 | every answer over the cap: the envelope says a transaction is open and there is none |
| Kernel.WholeAnswer | crates/typedb-mcp-core/src/tools.rs:1137-1161 | there is a success envelope iff the stream ends within the cap, and then it carries the whole answer item for item; over the cap the answer is refused |
| Kernel.CheckpointPersists | crates/typedb-mcp-core/src/tools.rs:1220-1271 | a checkpoint persists all pending writes or discards them all, independently of the reopening, and the slot is filled again iff both succeed |
| Kernel.LimitKeepsWrites | crates/typedb-mcp-core/src/tools.rs:1141-1155 | behind a refused oversized answer the writes are still pending in a transaction still open |
| Kernel.QueriesMove | crates/typedb-mcp-core/src/core.rs:468 | whatever queries a closure runs, its holder keeps the same transaction and the books stay in order |
| Kernel.OwnedFinishProper | crates/typedb-mcp-core/src/core.rs:550-601 | every decision finishes the local transaction |
| Kernel.ReadProper | crates/typedb-mcp-core/src/tools.rs:1364-1445 | a one-shot READ transaction is opened and finished within the section, and persists nothing |
| Answers.OpenTells | crates/typedb-mcp-core/src/tools.rs:1049-1111 | opening succeeds iff no guard refuses and the server opens; the slot then holds a fresh transaction of that database and kind; otherwise nothing changes and the first reason is given |
| Answers.QueryTellsAnswer | crates/typedb-mcp-core/src/tools.rs:1113-1191 | success iff the transaction is alive and its answer came within the cap, and then with that answer; otherwise the reason |
| Answers.QueryTellsState | crates/typedb-mcp-core/src/tools.rs:1113-1191 | after a success or a retriable failure the session has the same transaction, stamped, with all earlier writes and its own pending; after any other failure it has none, the handle is dropped and the writes are discarded; nothing is persisted and no other transaction is touched |
| Answers.QueriesTell | crates/typedb-mcp-core/src/core.rs:468 | the queries of a closure are all sent, and have written together what one query with all their writes would |
| Answers.CurrentTells | crates/typedb-mcp-core/src/core.rs:447-491 | the same two statements for a closure in the session's transaction |
| Answers.CommitTells | crates/typedb-mcp-core/src/tools.rs:1274-1333 | for WRITE and SCHEMA: success iff the server accepts, iff the ledger grows by exactly the pending writes; a failure carries the server's reason and all pending writes are discarded; without a transaction or for READ nothing changes |
| Answers.CheckpointTells | crates/typedb-mcp-core/src/tools.rs:1193-1272 | success iff commit and reopening both go through, and the new transaction has the same database and kind; each failure with its reason and what has become of the writes |
| Answers.RollbackTells | crates/typedb-mcp-core/src/tools.rs:1335-1362 | says truly whether there was a transaction, and ends it with the call its kind takes, its writes discarded; a reaped slot is emptied in the same way |
| Answers.ReadTells | crates/typedb-mcp-core/src/tools.rs:1364-1445 | behind the guards, a READ transaction is opened, queried and closed in this order; session, ledger and all other transactions are as before and nothing was written |
| Answers.OwnedTells | crates/typedb-mcp-core/src/core.rs:495-548 | behind the guards, a fresh transaction of the closure's kind holds exactly what the closure wrote |
| Answers.OwnedFinishTells | crates/typedb-mcp-core/src/core.rs:550-601 | the answer is a success iff that is the closure's decision and, if it decided to commit, the commit went through; the writes are persisted then and discarded otherwise |
| Upstream.CommitKeeps | crates/typedb-mcp-core/src/tools.rs:1303-1311 | a successful commit appends all pending writes of the transaction in order and keeps every write in exactly one place |
| Upstream.EndMoves | crates/typedb-mcp-core/src/session.rs:64-69 | any other ending leaves the ledger as it is, every write in exactly one place, and the transaction finished once |
| Upstream.QueryMoves | crates/typedb-mcp-core/src/tools.rs:1134 | a query leaves its holder with the same transaction, the ledger as it is, and every write in exactly one place |
| Upstream.MovesThen | crates/typedb-mcp-core/src/tools.rs:1193-1272 | such moves compose |
| Runs.StepKeepsInv | crates/typedb-mcp-core/src/tools.rs:1049-1445 | every section of every tool, the reaper, a purge, a cancelled closure and a server abort keep the books in order and every unfinished transaction with exactly one holder |
| Runs.HolderMoves | crates/typedb-mcp-core/src/session.rs:73-89 | a step on one holder disturbs no other |
| Runs.StepPersists | crates/typedb-mcp-core/src/tools.rs:1193-1333 | the ledger grows only by a commit, checkpoint or closure commit that goes through, and then by exactly the pending writes of the transaction it names |
| Runs.WriteConservation | crates/typedb-mcp-core/src/tools.rs:1113-1362 | in every state of every run each write is in exactly one of pending, persisted and discarded; if pending, its own transaction has exactly one holder |
| Runs.DecidedForGood | crates/typedb-mcp-core/src/tools.rs:1113-1362 | a persisted write stays persisted, a discarded one stays discarded |
| Runs.PersistedByCommit | crates/typedb-mcp-core/src/tools.rs:1193-1333 | a persisted write got there in one commit that went through, asked for by the holder of the transaction it was made in; the ledger names it once |
| Runs.TransactionConservation | crates/typedb-mcp-core/src/session.rs:73-89 | every transaction ever opened has exactly one holder or is finished, never both, and is finished once |
| Runs.PartsOnlyWithFinished | crates/typedb-mcp-core/src/session.rs:73-89 | a holder parts with a transaction only in its own step, which has ended it; it was merely dropped iff the step is one that drops it |
| Runs.StepDrops | crates/typedb-mcp-core/src/tools.rs:1118-1189 | a handle is dropped without a call by exactly these steps: a vanishing session, a cancelled closure, and a query or closure that failed with a class that is not retriable |
| Runs.DroppedOnlyThen | crates/typedb-mcp-core/src/core.rs:626-640 | in every run, a transaction that was ever dropped was dropped in such a step, by its holder; so no stash overwrote it |
| Runs.NoneOverwritten | crates/typedb-mcp-core/src/tools.rs:1049-1272 | opening changes nothing when the slot is occupied; a checkpoint gives up a transaction only to its own commit; neither drops one |
| Runs.ReadsStayReads | crates/typedb-mcp-core/src/session.rs:52-70 | in every run neither commit nor rollback is sent for a READ transaction |
| Answers.SlotEnds | crates/typedb-mcp-core/src/session.rs:64-69 | a reaped slot's transaction is released by kind, that of a vanished session dropped; either way its writes are discarded and it has no holder |
| Answers.LocalEnds | crates/typedb-mcp-core/src/core.rs:550-601 | a closure's transaction is persisted iff the closure commits and the server accepts, and discarded otherwise, also when the call is cancelled; it has no holder afterwards |
| Store.SessionStore.Start | crates/typedb-mcp-core/src/session.rs:112-131 | adds one session, empty and with a fresh deadline, and touches no other |
| Store.SessionStore.ResolveAndTouch | crates/typedb-mcp-core/src/session.rs:139-193 | unknown, expired or success, exactly; success refreshes only that deadline, expiry removes the session and releases what it held |
| Store.SessionStore.InvalidateSchemaSeen | crates/typedb-mcp-core/src/session.rs:226-233 | every session but the excepted one loses that gate and nothing else |
| Store.SessionStore.Remove | crates/typedb-mcp-core/src/session.rs:237-239 | removes that session and returns it if it was there |
| Store.SessionStore.OpenOn | crates/typedb-mcp-core/src/tools.rs:940-957 | true iff some session has a transaction open on the database |
| Store.SessionStore.Visit | crates/typedb-mcp-core/src/session.rs:300-349 | one visit of the reaper: an expired session leaves the store, an unexpired READ, WRITE or SCHEMA transaction is released iff it has been idle for the `read`, `write` or `schema` timeout, and otherwise nothing changes; and what it released |
| Store.SessionStore.Pass | crates/typedb-mcp-core/src/session.rs:291-353 | one pass visits every session whose lock is free once, leaves each as a visit would, and releases what each visit takes, once and in that order |
| Store.VisitTells | crates/typedb-mcp-core/src/session.rs:300-349 | an unexpired session with a READ transaction loses it to a visit iff `now` is at or after its last activity plus the READ timeout, and likewise for WRITE and SCHEMA with theirs |
| Store.TakenOrLeft | crates/typedb-mcp-core/src/session.rs:300-349 | what a visit takes and what it leaves make up what the session held |
| Store.ReleaseAllTells | crates/typedb-mcp-core/src/session.rs:340-348 | a pass sends one close or rollback for each transaction it takes, in order; none of them is alive afterwards and every other one is as it was |
| Store.InvalidateTells | crates/typedb-mcp-core/src/session.rs:226-233 | the sessions are the same, the excepted one as it was, and each other one lacks that gate and has everything else it had |
| Lifetimes.ResolveDecides | crates/typedb-mcp-core/src/session.rs:139-193 | over a whole history: a resolve succeeds iff the id was started, never purged, and now is before the last touch plus the time to live; Expired and Unknown likewise exactly |
| Lifetimes.ExpiredOnce | crates/typedb-mcp-core/src/session.rs:90-98 | Expired is reported at most once, and Unknown ever after |
| Lifetimes.PurgedStaysUnknown | crates/typedb-mcp-core/src/session.rs:90-98 | a purged id never resolves again, whoever purged it |
| Lifetimes.OnlyExpiredRemoved | crates/typedb-mcp-core/src/session.rs:301-327 | although it looks and removes in separate steps, the reaper never removes a session that could still be resolved |
| Lifetimes.PurgeReleasesOnce | crates/typedb-mcp-core/src/session.rs:160-191 | over a history: the transaction of a session that an expired resolve or the reaper takes out of the store is released exactly once, by that purger, and until then still held |
| Lifetimes.NeverReapedEarly | crates/typedb-mcp-core/src/session.rs:329-348 | over a history: no transaction is reaped before it has been idle for the timeout of its own kind, `read` for READ, `write` for WRITE and `schema` for SCHEMA |
| Lifetimes.SectionsStamp | crates/typedb-mcp-core/src/tools.rs:1113-1191 | every section of every tool leaves its slot alone, empties it, or leaves in it a transaction stamped with its own time; a query that keeps its transaction stamps it even when it fails |
| Lifetimes.SlotKept | crates/typedb-mcp-core/src/session.rs:329-348 | over a history: a transaction that no tool uses stays in its slot until a visit finds it due |
| Lifetimes.ReapedInTime | crates/typedb-mcp-core/src/session.rs:290-348 | over a history: an unused transaction of a session that lives on, whose lock the reaper gets in passes at most a tick apart, is taken out by the first visit of a pass at or after its deadline, and that pass is before deadline plus tick; at an age of at most five quarters of its timeout when every timeout is at least 20 s |
| Lifetimes.PassIsSteps | crates/typedb-mcp-core/src/session.rs:291-353 | the reaper's steps over the sessions it gets the lock of leave the store as one pass of the store's reaper does |
| Lifetimes.TickTells | crates/typedb-mcp-core/src/session.rs:290 | the reaper sleeps at least 5 s, and otherwise the largest whole quarter of the shortest of the three timeouts |
| Admin.DoGetSchema | crates/typedb-mcp-core/src/tools.rs:1008-1047 | the gate is granted iff the schema was fetched |
| Admin.DoCreateDatabase | crates/typedb-mcp-core/src/tools.rs:845-902 | success iff the name is accepted, valid and free, the caller has no transaction open and the server creates it; the class of the first guard that fails; the reservation is gone afterwards |
| Admin.DoDeleteDatabase | crates/typedb-mcp-core/src/tools.rs:904-993 | success iff the name is accepted, confirmed, valid and free, the caller has no transaction open and no session has one on the database, and the server deletes it; the class of the first guard that fails; on success every session loses its gate for it, otherwise nothing changes |
| Admin.LongNamesAreBusy | crates/typedb-mcp-core/src/tools.rs:927-966 | with nothing else against it, an accepted name is refused as busy iff it has more than 128 characters |
| Admin.LongNameIsBusy | crates/typedb-mcp-core/src/tools.rs:995-1006 | such a name |
| Freshness.StepKeepsInv | crates/typedb-mcp-core/src/tools.rs:753-757 | every whole call keeps: a gate's database exists and the schema version its session knows is the current one; an open transaction's database exists |
| Freshness.GatesAreFresh | crates/typedb-mcp-core/src/session.rs:222-233 | the same for every state of every run |
| Freshness.OpensOnFreshSchema | crates/typedb-mcp-core/src/tools.rs:1076-1085 | a transaction is only opened on a database whose current schema its session knows |
| Freshness.WriterKeepsItsGates | crates/typedb-mcp-core/src/tools.rs:1235-1271 | a schema commit, checkpoint (reopened or not) or closure leaves the writer exactly the gates it had and takes that one gate from every other session |
| Freshness.CreateTells | crates/typedb-mcp-core/src/tools.rs:845-902 | a database comes into being iff nothing stands against its creation, with a version no session knows; nothing else changes |
| Freshness.DeleteTells | crates/typedb-mcp-core/src/tools.rs:904-993 | a database goes away iff it is confirmed, its name valid and free, and no session has a transaction on it, nor the caller on any; every gate for it goes with it and no other |
| Freshness.GetSchemaTells | crates/typedb-mcp-core/src/tools.rs:1008-1047 | a gate is granted iff the schema was fetched, to that session alone, and then for the current version |
| Freshness.ImportTells | crates/typedb-mcp-core/src/tools.rs:752-757 | an import that may have written gives the database a version no session knows; a successful one takes the gate for it from every other session |
| Freshness.SchemaChanges | crates/typedb-mcp-core/src/tools.rs:1193-1333 | a tool on a session changes a schema iff it commits or checkpoints a SCHEMA transaction and the server accepts |
| Freshness.ClosureChanges | crates/typedb-mcp-core/src/core.rs:550-601 | a closure changes a schema iff it is a SCHEMA closure that decides to commit and the server accepts |

## Left out

- The driver, MCP routing and JSON envelopes, the texts of messages and of `next_moves`, HTTP and stdio start-up, TLS, credentials, diagnostics, tracing, configuration loading: I/O and wiring.
- `typedb-driver` itself is not part of this model; `Upstream` is an abstract server in its place.
- SHA-256: the digest is any function that absorbs bytes one after the other.
- `statvfs`, `canonicalize` and the textual checks on paths: their results are parameters of `Migration.Export` and `Migration.Import`.
- JSON rendering of concepts, the extension map of a session, the tool router, version parsing and the release scripts: easy members.
- Cancellation of a tool call while it holds a session lock, and panics there; `Runs` has cancellation of a closure call, a vanishing session and a server abort instead.
- `Supervisor`: the lock waits inside `invalidate_schema_seen_except` after a successful import, the branch where every sender is gone, and poisoned mutexes.
- `Supervisor`: the protocol is a transition system, not methods, because it is about interleavings; the coordinator, the stores and the handlers are classes.
- Migration.StageSnapshot: reads the staged data once; an I/O error in the middle of the scan is that one read failing.
- FileSystem.Disk.HashFile: reads the file once and fails as the chunked reads would; nobody else writes to a staged file meanwhile.
- Stack.ExtractCodes: works on characters; the byte offsets of multi-byte text do not appear.
- Drain.QueryAnswerToJson: the `query_type` label is not part of the result.
- Kernel.SessionState.DoQuery: what a query means is not modelled, only how many writes it executes and whether the server tears the transaction down.
- Kernel.SessionState.WithOwnedTx: nothing keeps two transactions of one session from being open at once here, because the code drops the session lock before commit or rollback; `Runs` treats the local transaction as a holder of its own.
- Freshness.StepKeepsInv: is about whole calls; `get_schema` fetches before it locks and a delete scans before it reserves, so it does not hold section by section.
- Lifetimes.ResolveDecides: treats a resolve as one step, although the code reads the clock before it takes the session lock.
- Lifetimes.PurgeReleasesOnce: is about sessions whose slot no call uses between the purge and the release; what such a late call opens is followed in `Runs`.
- Lifetimes.ReapedInTime: is about a session whose lock the reaper gets at least once a tick; a session busy at every pass is not reaped. Times are those a pass reads when it begins.
- Admin.DoDeleteDatabase: the method is one uninterrupted call; the wait for the caller's own lock during the scan is a step of `Supervisor`, which has no other scan steps.
