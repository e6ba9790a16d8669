# Verification model of the GOAT AI backend's stateful services

This project models the protocols of the backend that have to stay correct over whole runs, and proves what
they promise. Run `dafny verify dfyconfig.toml` to check everything.

| modules | what they model |
|---|---|
| `SandboxTables`, `SqliteSandboxStore`, `SandboxExecutor`, `SandboxService` | the durable code-sandbox execution: tables and transactions, the SQLite store as an object, the executor as a step machine and as a method, reaper and recovery |
| `SandboxProtocol`, `SandboxRuns`, `SandboxRaces` | executors, cancellers, reapers, log readers, reconnecting clients and crashes interleaved; the theorems over every run; two races with their exact conditions |
| `SandboxVerdict`, `SandboxTimelines`, `SandboxAnswers` | what rows, timelines and callers are told in the end, in terms of the provider's items and the actions of a run |
| `SandboxBackends`, `PostgresTransactions` | SQLite and Postgres compared; Postgres transactions interleaved statement by statement |
| `PostgresProtocol`, `PostgresRuns`, `PostgresTorn` | the actors of the protocol on interleaved transactions that may abort; their runs against runs of the protocol; a run that tears the stream columns off the log |
| `SandboxEndpoints`, `SandboxSupervisor` | submit, cancel, retry and log-stream handlers; cancel tokens |
| `Utf8`, `OutputAccumulator` | the byte-budgeted output accumulator on UTF-8 boundaries |
| `IsoTime`, `Idempotency`, `IdempotencyRuns`, `IdempotencyHistory`, `PostgresIdempotency` | expiry as text, the idempotency table, runs of many requests, their verdicts told from the actions, and interleaved Postgres claims |
| `RateLimiter` | policy, pruned store and limiter against the full history |
| `OutputBuffer`, `ChatOutcome`, `ChatResult`, `ChatStream`, `SseFrames` | the moderated buffer, the chat stream's phases, what a run shows and saves, and the wire format with its reader |
| `Chunker`, `Similarity` | greedy packing of paragraphs; bag-of-words vectors and search |
| `SessionCodec`, `SessionLists`, `SessionBuilding`, `SessionRows` | session payloads, what their lists hold, what a conversation becomes when it is stored and read again, the message rows derived from them, and the operations on both |
| `Metrics` | label escaping and request counters |

Services that update fields are classes whose methods are tied to functions of the old state; the theorems are
about those functions. Database transactions are atomic steps, and for Postgres also single statements.
Providers and models are arbitrary finite event sequences that may raise. Safeguards, hashes, the chart-block
pattern, artifact validation and square roots are parameters. Floats are reals.

## What the proofs found

- The truncation marker depends on how output was split: a chunk that ends exactly at the budget makes the cut
  silent (`SplitChangesMarker`; when it matters is `SplitIndependence`).
- A log stream can send done and miss a chunk. After done the log is final exactly when no executor that still owns
  the run can log (`DoneIsFinalExactly`). One is left behind only by a cancel that takes effect after its claim: of
  a canceller that had seen the run queued, or of another executor, dispatched earlier, that finds its token set
  while a recovery job, say, owns the run (`LateLoggerRoutes`). Both happen in runs from the start
  (`ChunkAfterDoneReachable`).
- When logging a chunk fails, the executor catches the exception with the chunk already in its accumulator, and
  fails the run with text that is not in the log. The columns then disagree with the log for good, unless the
  executor finds a cancel requested or the row already terminal, or dies first (`ColumnsExactly`, `TornReachable`).
- A reaper that races a live executor corrupts the stream columns exactly when something was logged after its read
  (`ReaperRaceExact`); `ReaperRaceReachable` is such a run.
- An idempotency claim in Postgres can answer with a conflict where the serial store would claim: exactly when the
  row it finds has another hash, is expired by its own clock, and was committed too late for it to delete
  (`EveryCommitIsSerial`, `LateCommitOvertakes`).
- `retry_after` is truncated, so waiting exactly that long can end in another denial (`RetryAloneExact`,
  `RetryCanBeTooShort`); one more second is always enough.
- Chunk offsets leave out the blank lines between chunks, so `char_start` of chunk j is short by exactly 2j and right
  for the first chunk only (`OffsetsDrift`).
- The Postgres repository records a timed-out failure under the event name of an ordinary failure, the SQLite one
  under its own; the timelines are equal exactly when SQLite recorded no timeout (`TimelinesExact`).
- Deleting sessions by owner or tenant picks files by their own owner and tenant. A deletion leaves a file behind its
  session, or takes a file of a session that stays, only where a session and its files were stored under different
  owners, as when a session changes hands (`OrphansExactly`, `MatchedExactly`, `ChangedHands`). Otherwise a file is without a session exactly as long as its session
  has not been stored since the file was registered: a chat run registers its files first, and where it has no
  session or storing fails they stay alone (`OrphansNeverHadASession`).
- Two details that the code has and its comments do not mention are modelled as coded: the answer's artifacts are
  attached to every assistant message with the same text, and an answer equal to the file-context
  acknowledgement is not stored (`SessionCodec.BuildRoundTrip`).

## Assumptions

- Writes succeed, except where a result or a frame says otherwise, and in the modules on interleaved Postgres
  transactions, where every transaction may abort. A failed transaction changes nothing.
- The startup reaper runs only when no executor of the host owns the execution; `ReaperRaceExact` says what
  happens otherwise.
- A holder of an idempotency key stores or releases before its row expires; `LateRequestTakesKey` says what
  happens otherwise. One clock that never goes back serves all requests.
- Rate-limit evaluations are not interleaved, and time does not go back.
- A safeguard gives the same verdict on the same text.

## Model

| member | source | states |
|---|---|---|
| `SandboxRuns.LifecycleOfEveryRun` | backend/services/code_sandbox_execution_service.py:132-166 | over every interleaving of executors, cancellers, reapers, recovery, readers and crashes: the provider runs at most once; the timeline holds one queued, at most one started and at most one terminal event; folding it gives the status column |
| `SandboxRuns.LogOfEveryRun` | backend/services/code_sandbox_log_store.py:73-118 | in every reachable state sequence numbers are 1..n, `last_log_seq` counts the log rows, each log row has exactly one log event, and the stream columns equal the chunks put together, also after a terminal update overwrote them |
| `SandboxRuns.TerminalForever` | backend/services/code_sandbox_execution_store.py:347-567 | a terminal status and its outcome never change again, and logs and events only grow |
| `SandboxRuns.StreamOfEveryRun` | backend/application/code_sandbox.py:515-550 | a log stream interleaved with any writer has sent exactly the stretch of the log after its start, gap-free and in order; once it is done it has sent every chunk committed before the end |
| `SandboxRuns.StatusFrames` | backend/application/code_sandbox.py:518-536 | a log stream sends at most three status frames, each further along, and done only after the terminal one |
| `SandboxRuns.ReconnectExactlyOnce` | backend/application/code_sandbox.py:515-550 | over any number of connections to one run, each starting from the last number received, what has arrived is the log after the start: each chunk once, in order, without gap; and when the last stream has sent done and all of it arrived, nothing committed before the end is missing, and nothing at all if the run was not cancelled |
| `SandboxRuns.CrashThenRestart` | backend/main.py:111-124 | on either backend, after a crash at any step of any run, reaping and queued recovery leave the execution terminal and every logged chunk in place |
| `SandboxRuns.RunKeepsInv` | backend/services/code_sandbox_execution_service.py:132-386 | every action of every thread keeps the invariant of the protocol, on both backends |
| `SandboxRaces.DoneIsFinalExactly` | backend/application/code_sandbox.py:546-548 | in any run, once a stream has sent done, the log stays as it is for ever if and only if no executor that still owns the run can log: none has claimed it with a budget, streams with room left, or has final output to drain that fits in part |
| `SandboxRaces.DoneIsWholeExactly` | backend/application/code_sandbox.py:538-548 | a done stream that started within the log has the whole log for ever if and only if it has it now and no executor can log |
| `SandboxRaces.DoneSendsAll` | backend/application/code_sandbox.py:538-548 | at the moment it sends done it has the whole log |
| `SandboxRaces.DoneIsComplete` | backend/application/code_sandbox.py:546-548 | without a cancel nobody can log: a done stream has the whole log, and it stays so |
| `SandboxRaces.LateLoggerRoutes` | backend/services/code_sandbox_execution_service.py:148-157 | a run that ended while an executor still owns it was ended by one of two steps: a canceller that had seen it queued, or an admitted executor that found its cancel token set |
| `SandboxRaces.EndedUnderOwner` | backend/services/code_sandbox_execution_store.py:527-567 | one action: nothing else ends a row that has an owner |
| `SandboxRaces.ChunkAfterDone` | backend/application/code_sandbox.py:538-548 | from every ended state with an executor that can log, a stream opened now sends done and then a chunk is logged that it never sends |
| `SandboxRaces.ChunkAfterDoneReachable` | backend/services/code_sandbox_execution_service.py:148-166 | such a run from the start, by either of the two steps; a token found set was asked for by a canceller of the run |
| `SandboxRaces.ReaperRaceExact` | backend/services/code_sandbox_execution_service.py:352-384 | a reaper that raced a live executor leaves the columns in agreement with the log exactly when `last_log_seq` had not moved since its read |
| `SandboxRaces.ReaperRaceReachable` | backend/services/code_sandbox_execution_service.py:352-384 | and it can move: a run from the start after which the reaper leaves columns that disagree with the log |
| `SandboxBackends.BackendsAgree` | backend/services/code_sandbox_runtime.py:633-699 | the looser Postgres completion guard gives the same rows, logs, threads and statuses as SQLite on every run of the application |
| `SandboxBackends.TimelinesExact` | backend/services/code_sandbox_runtime.py:701-760 | on every run the Postgres timeline is the SQLite one with the timeout kind replaced by failure, and the two are equal if and only if SQLite recorded no timeout |
| `PostgresRuns.CommitsToARun` | backend/services/code_sandbox_runtime.py:973-1134 | executors, cancellers, reapers and readers whose transactions interleave statement by statement, with aborts, crashes and work on other executions: as long as no append of a streaming executor fails, the committed tables and the threads are those of a run of the protocol |
| `PostgresRuns.ColumnsExactly` | backend/services/code_sandbox_execution_service.py:192-230 | failed appends included: log, timeline and status stay consistent in every run, and the stream columns agree with the log if and only if no executor that caught a failed append has failed a row still alive, its poll having found no cancel |
| `PostgresRuns.RunsNear` | backend/services/code_sandbox_execution_service.py:144-252 | every run of the application stays close to a run of the protocol: the same threads but for those that caught a failed append, the same tables but for torn columns |
| `PostgresRuns.HappeningNear` | backend/services/code_sandbox_execution_service.py:144-252 | whatever happens to the execution is one action of the protocol, or none; a caught failure looks like a provider that raises |
| `PostgresRuns.InterleavedStream` | backend/application/code_sandbox.py:515-550 | a log stream over interleaved statements has sent the committed log after its start, and all of it when done without a cancel, failed appends included |
| `PostgresTorn.TornReachable` | backend/services/code_sandbox_execution_service.py:192-230 | it happens: a run from an empty repository, statement by statement, whose failed row holds a chunk that the log does not |
| `PostgresProtocol.MoveMoved` | backend/services/code_sandbox_runtime.py:973-1134 | every statement, commit and abort of any connection changes nothing of the execution, or is the one step, or the one failure, of the thread that waited for it |
| `PostgresTransactions.InterleavedIsSerial` | backend/services/code_sandbox_runtime.py:973-1134 | with the statements of all transactions interleaved, and any of them aborting, what is committed is what the transactions leave one after the other in commit order |
| `PostgresTransactions.CommittedNumbersAreDense` | backend/services/postgres_runtime_support.py:127-143 | log and event numbers committed under any interleaving are unique and dense |
| `PostgresTransactions.OneNumbererAtATime` | backend/services/postgres_runtime_support.py:111-124 | the parent-row lock lets one transaction per execution past its MAX read |
| `PostgresTransactions.NoKeyConflict` | backend/services/code_sandbox_runtime.py:1090-1134 | no INSERT of a log or event row meets a taken key |
| `PostgresTransactions.CommitIsSerial` | backend/services/code_sandbox_runtime.py:973-1039 | a commit adds exactly its transaction to the serial history |
| `SandboxVerdict.VerdictOfResult` | backend/services/code_sandbox_execution_service.py:183-311 | a run whose provider ends with a last result is cancelled if that says so, completed exactly if it reports no timeout, no error and no exit code but zero, and failed otherwise; the row then holds its exit code, timeout and error, both times, and what the budget keeps of each stream, and the timeline ends with that verdict |
| `SandboxVerdict.VerdictWithoutResult` | backend/services/code_sandbox_execution_service.py:202-252 | a run whose provider raises or ends without a result is cancelled if the poll finds that requested, and failed with its own detail otherwise; what the budget keeps of each stream stays |
| `SandboxVerdict.VerdictWithoutStart` | backend/services/code_sandbox_execution_service.py:144-166 | a run cancelled before its start never starts and says so; one that has ended, or is somebody else's, is left alone |
| `SandboxVerdict.VerdictOfReaper` | backend/services/code_sandbox_execution_service.py:338-386 | a reaped run is failed, with a timeout exactly when the time since its start has reached its limit |
| `SandboxVerdict.VerdictOfRestart` | backend/main.py:111-124 | after a restart a queued execution ends as its own provider's run says, without any poll of a cancel token |
| `SandboxVerdict.DenialExactly` | backend/services/code_sandbox_execution_store.py:492-525 | only a queued execution is denied; its row then says when and why, and its timeline ends with the denial |
| `SandboxTimelines.ColumnsOfEveryRun` | backend/services/code_sandbox_execution_store.py:271-646 | in every run the execution exists from its first creation on, with that creation's timeout; end, error, exit code, timeout flag and start are filled exactly when the status says so; each event has its number and the status of its kind |
| `SandboxTimelines.LogEventsOfEveryRun` | backend/services/code_sandbox_log_store.py:73-118 | in every run the i-th log event names the stream, the number and the size in UTF-8 bytes of the i-th chunk |
| `SandboxAnswers.CancelExactly` | backend/application/code_sandbox.py:327-384 | a cancel shows a queued execution as the store then holds it, leaves a running one as it is but for a request on its timeline and waits for it, and refuses any other |
| `SandboxAnswers.WaitExactly` | backend/application/code_sandbox.py:369-384 | the wait shows the first row read that no longer runs; it ends in a conflict if all of them run |
| `SandboxAnswers.InlineAnswer` | backend/application/code_sandbox.py:291-307 | a new execution that is run at once is shown as its provider's run says; the caller gets the provider's exception exactly when the provider was reached and raised |
| `SandboxAnswers.TokensAfterStart` | backend/application/code_sandbox.py:291-307 | a run done at once leaves no cancel token of its id behind and touches no other; one handed over leaves all as they are |
| `SandboxAnswers.SubmittedExactly` | backend/application/code_sandbox.py:255-290 | a new execution is queued, with its timeout and nothing else, and its timeline begins |
| `SandboxService.SoloEnds` | backend/services/code_sandbox_execution_service.py:132-311 | on either backend, for every finite provider stream (chunks, results, none, an exception) a claimed execution ends terminal with consistent tables and nothing lost |
| `SandboxService.ExecuteExecution` | backend/services/code_sandbox_execution_service.py:132-314 | one undisturbed execution does to its tables what the step machine does and touches no other; its token is registered and released; it raises exactly when asked to and the provider was reached and raised; what the row then holds say the lemmas of `SandboxVerdict` |
| `SandboxService.RunRegistered` | backend/services/code_sandbox_execution_service.py:144-311 | the part between registration and release |
| `SandboxService.ConsumeStream` | backend/services/code_sandbox_execution_service.py:183-201 | the loop over provider items: chunks are clipped and logged to their stream, the last final result is kept |
| `SandboxService.SettleRun` | backend/services/code_sandbox_execution_service.py:254-311 | the tail of a run with a final result: its output is logged, then the row is marked; which mark that is says `SandboxVerdict.VerdictOfResult` |
| `SandboxService.MarkBroken` | backend/services/code_sandbox_execution_service.py:202-252 | after an exception or without a final result the row is cancelled if that was requested, otherwise failed with the accumulated output |
| `SandboxService.AppendAndLog` | backend/services/code_sandbox_execution_service.py:192-199 | a non-empty clipped text becomes one log chunk, an empty one nothing |
| `SandboxService.ReapAbandoned` | backend/services/code_sandbox_execution_service.py:338-386 | exactly the running executions are failed, each with its own timeout verdict, and they are returned in queue order |
| `SandboxService.RecoverQueued` | backend/services/code_sandbox_execution_service.py:317-335 | exactly the queued executions are run, and they are returned in queue order |
| `SandboxService.RecoverAfterRestart` | backend/main.py:114-124 | the startup job on a quiet store: reap first, then run what is queued |
| `SandboxService.RestartEnds` | backend/main.py:114-124 | on either backend, from any consistent tables a restart ends every execution and keeps every logged chunk |
| `SandboxService.ReapedOk` | backend/services/code_sandbox_execution_service.py:356-384 | on either backend, reaping a run nobody executes fails it, keeps its log, columns and consistency, and records whether it timed out |
| `SandboxExecutor.ExecStepOk` | backend/services/code_sandbox_execution_service.py:144-311 | every step of an executor keeps the tables consistent, lets them only grow, and leaves the executor in agreement with the row |
| `SandboxExecutor.ChunkLogged` | backend/services/code_sandbox_execution_service.py:188-199 | feeding an accumulator and logging what it hands on keeps accumulator and stream column equal |
| `SandboxExecutor.ClaimOk` | backend/services/code_sandbox_execution_store.py:347-377 | a start claims a queued row once and stamps it as started |
| `SandboxExecutor.LastStepOk` | backend/services/code_sandbox_execution_service.py:202-311 | the last step of a run agrees with the columns it overwrites |
| `SandboxProtocol.ReaderLists` | backend/application/code_sandbox.py:538-544 | listing after the last number sent extends what was sent to the whole log |
| `SandboxTables.ApplyKeepsTables` | backend/services/code_sandbox_execution_store.py:271-646 | every transaction keeps rows, log and timeline consistent |
| `SandboxTables.ApplyGrows` | backend/services/code_sandbox_execution_store.py:347-567 | no transaction takes back a log row, an event or a terminal outcome |
| `SandboxTables.FoldGivesStatus` | backend/services/code_sandbox_execution_store.py:609-646 | the status column is what the lifecycle events say |
| `SandboxTables.NextLogSeqDense` | backend/services/sqlite_persistence_utils.py:77-86 | MAX + 1 on dense rows is their count plus one |
| `SandboxTables.ListOrdered` | backend/services/code_sandbox_log_store.py:45-71 | whatever the stored order, listing gives exactly the rows above the number, each as often as it is stored, by rising number |
| `SandboxTables.ListDense` | backend/services/code_sandbox_log_store.py:45-71 | listing chunks after position n returns exactly the rows after position n |
| `SqliteSandboxStore.SqliteExecutionStore.CreateExecution` | backend/services/code_sandbox_execution_store.py:271-345 | a new id gets a queued row and its queued event; a known id is refused |
| `SqliteSandboxStore.SqliteExecutionStore.Mark` | backend/services/code_sandbox_execution_store.py:347-567 | a guarded update and its event happen together or not at all, and only on this id |
| `SqliteSandboxStore.SqliteExecutionStore.AppendEventInTransaction` | backend/services/code_sandbox_execution_store.py:609-646 | an event row is appended under the next number of its execution |
| `SqliteSandboxStore.SqliteExecutionStore.AppendExecutionEvent` | backend/services/code_sandbox_execution_store.py:569-588 | a note is appended to the timeline and changes nothing else |
| `SqliteSandboxStore.SqliteExecutionStore.WriteChunk` | backend/services/code_sandbox_log_store.py:73-106 | the chunk is inserted, `last_log_seq` and the stream column of the parent follow |
| `SqliteSandboxStore.SqliteExecutionStore.AppendLogChunk` | backend/services/code_sandbox_log_store.py:73-118 | chunk, parent row and log event are written as one transaction under the next number |
| `SqliteSandboxStore.SqliteExecutionStore.ListChunks` | backend/services/code_sandbox_log_store.py:45-71 | the rows after a sequence number, in order |
| `SqliteSandboxStore.SqliteExecutionStore.GetExecution` | backend/services/code_sandbox_execution_store.py:205-213 | the row of an id, if there is one |
| `SqliteSandboxStore.SqliteExecutionStore.ListExecutionIdsByStatus` | backend/services/code_sandbox_execution_store.py:590-607 | exactly the ids with the status, each once, in the order in which they were queued |
| `SqliteSandboxStore.NextScopedLogSequence` | backend/services/sqlite_persistence_utils.py:77-86 | COALESCE(MAX, 0) + 1 over the rows of the scope |
| `SqliteSandboxStore.NextScopedEventSequence` | backend/services/sqlite_persistence_utils.py:77-86 | the same over event rows |
| `SandboxEndpoints.CancelExecution` | backend/application/code_sandbox.py:327-384 | the cancel handler does to the tables what both steps of the canceller do, sets the token of a running execution only, and answers with the cancelled row, the row it settled on, or a conflict |
| `SandboxEndpoints.WaitForEnd` | backend/application/code_sandbox.py:369-384 | the wait answers with the first row that is no longer running |
| `SandboxEndpoints.RetryExecution` | backend/application/code_sandbox.py:387-465 | a finished execution gets a retry note only; the new one gets a fresh row and the two events of its creation, and is handed over, or run to its end and shown, or its exception passed on; anything else is refused and changes nothing |
| `SandboxEndpoints.SubmitExecution` | backend/application/code_sandbox.py:255-307 | a new execution is created and handed over, or run to its end and shown, or its exception passed on |
| `SandboxEndpoints.StartExecution` | backend/application/code_sandbox.py:291-307 | the choice between both |
| `SandboxEndpoints.WaitSeesTheEnd` | backend/application/code_sandbox.py:369-384 | in any run of the protocol the wait of a cancel ends in a conflict, or with a terminal row whose outcome the execution keeps |
| `SandboxAnswers.StreamExactly` | backend/application/code_sandbox.py:515-550 | a log stream asked for what comes after a number, over a log that grows while it reads, sends the log as it is when it first sees the execution ended, from the first chunk above that number on, each status as it changes, and done |
| `SandboxEndpoints.GenerateLogs` | backend/application/code_sandbox.py:515-550 | the generator loop is the reader of the protocol, round by round |
| `SandboxEndpoints.SendChunks` | backend/application/code_sandbox.py:538-544 | every listed chunk is sent and the last number is their maximum |
| `SandboxSupervisor.TokenTellsRequests` | backend/services/code_sandbox_supervisor.py:30-45 | after any calls the token of an id is set exactly when a cancel was requested for it since its last release, before or after registration |
| `SandboxSupervisor.StaleTokenStays` | backend/services/code_sandbox_supervisor.py:42-45 | a token handed out before a release is never set by anything later |
| `SandboxSupervisor.InProcessCodeSandboxSupervisor.RegisterExecution` | backend/services/code_sandbox_supervisor.py:30-34 | the token of an id, made on first use |
| `SandboxSupervisor.InProcessCodeSandboxSupervisor.RequestCancelOf` | backend/services/code_sandbox_supervisor.py:36-40 | sets the token of the id and no other |
| `SandboxSupervisor.InProcessCodeSandboxSupervisor.ReleaseExecution` | backend/services/code_sandbox_supervisor.py:42-45 | drops the token of the id and leaves its flag |
| `OutputAccumulator.KeptText` | backend/services/code_sandbox_execution_service.py:51-75 | without its marker the text is the longest prefix of the joined input whose UTF-8 size fits the budget; the marker is there exactly when some chunk straddled an unexhausted budget |
| `OutputAccumulator.SplitIndependence` | backend/services/code_sandbox_execution_service.py:51-75 | two splits of the same output keep the same text exactly when both or neither straddle |
| `OutputAccumulator.SplitChangesMarker` | backend/services/code_sandbox_execution_service.py:56-72 | output that ends a chunk exactly at the budget is cut without a marker |
| `OutputAccumulator.BoundedSize` | backend/services/code_sandbox_execution_service.py:56-72 | the text takes at most the budget plus the 19 bytes of the marker |
| `OutputAccumulator.AppendGrowsText` | backend/services/code_sandbox_execution_service.py:51-72 | what an append hands on is exactly what it adds to the text |
| `OutputAccumulator.BoundedTextAccumulator.AppendText` | backend/services/code_sandbox_execution_service.py:51-72 | one append: the remaining budget, the cut on a character boundary, the marker |
| `OutputAccumulator.BoundedTextAccumulator.Text` | backend/services/code_sandbox_execution_service.py:73-75 | the parts joined |
| `OutputAccumulator.BoundedTextAccumulator.constructor` | backend/services/code_sandbox_execution_service.py:47-50 | an empty accumulator with its budget |
| `Utf8.DecodeCut` | backend/services/code_sandbox_execution_service.py:62-64 | decoding a byte prefix and ignoring errors yields the longest prefix of characters that fits |
| `Utf8.FitIsLongest` | backend/services/code_sandbox_execution_service.py:62-64 | the prefix fits, and any longer one does not |
| `Utf8.RoundTrip` | backend/services/code_sandbox_execution_service.py:55-64 | decoding an encoding gives the text back |
| `IsoTime.IsoOrder` | backend/services/idempotency_service.py:93-102 | comparing the `isoformat` strings is comparing the times, although zero microseconds are left out |
| `IsoTime.PlusSecondsIsLater` | backend/services/idempotency_service.py:95-95 | adding the lifetime gives the calendar time that many seconds later |
| `IsoTime.IsoLayout` | backend/services/idempotency_service.py:94-95 | the text is YYYY-MM-DDTHH:MM:SS, then six digits of microseconds unless those are zero, then the offset |
| `IsoTime.PadReadsBack` | backend/services/idempotency_service.py:94-95 | each number in it is read back, and consists of digits |
| `IsoTime.OverflowExactly` | backend/services/idempotency_service.py:95-95 | adding the lifetime fails exactly when it ends after the year 9999 |
| `IsoTime.DaysInYears` | backend/services/idempotency_service.py:95-95 | the days before a year are those of the Gregorian calendar in closed form |
| `IsoTime.FractionOrder` | backend/services/idempotency_service.py:142-142 | an omitted fraction sorts before every written one |
| `Idempotency.SecondExpiryCheckUnreachable` | backend/services/idempotency_service.py:142-163 | after the purge the second look at the expiry never fires |
| `Idempotency.PurgeByTime` | backend/services/idempotency_service.py:99-102 | the purge removes exactly the rows whose time has come |
| `Idempotency.FreshRowLives` | backend/services/idempotency_service.py:95-95 | a row written now lives exactly the store's lifetime |
| `Idempotency.SqliteIdempotencyStore.ClaimKey` | backend/services/idempotency_service.py:85-179 | purge, then take a free key, or judge the row that is there |
| `Idempotency.SqliteIdempotencyStore.StoreCompletedResponse` | backend/services/idempotency_service.py:181-215 | completes the row of this key and hash only; that it is replayed from then on says `IdempotencyHistory.CompletedIsReplayed` |
| `Idempotency.SqliteIdempotencyStore.ReleasePendingKey` | backend/services/idempotency_service.py:217-239 | removes the row of this key and hash while it is pending |
| `Idempotency.CaptureIdempotentStream` | backend/application/chat.py:292-313 | every chunk is passed on; the concatenation is stored when a done mark was seen, otherwise the claim is released; what later requests are told then say `CompletedIsReplayed` and `BrokenIsFree` |
| `Idempotency.FindText` | backend/application/chat.py:302-302 | the substring test |
| `IdempotencyRuns.OneHolderPerKey` | backend/services/idempotency_service.py:85-179 | at most one request holds a key in every run |
| `IdempotencyRuns.VerdictOfEveryRequest` | backend/services/idempotency_service.py:85-179 | in every run, on the rows: a claim exactly when no row of the key is alive, a conflict exactly when a living row has another hash, and a replay of exactly the chunks that an earlier holder of the key sent in the same run, with a done mark among them |
| `IdempotencyHistory.ReplayOfStream` | backend/application/chat.py:292-313 | a replay is given exactly where the last thing that happened to the key is a stream, begun by a request with this hash and ended with a done mark among its chunks less than one lifetime ago; it gives the chunks sent between that claim and that end, in order |
| `IdempotencyHistory.HolderHasSent` | backend/application/chat.py:298-307 | what a holder has captured are the chunks of its sends since its claim |
| `IdempotencyHistory.ReplayExactly` | backend/services/idempotency_service.py:85-215 | over every run: a request is answered with a replay exactly when the last thing that happened to its key is a stream with this hash that ended with its done mark less than one lifetime ago, and then with all the chunks of that stream |
| `IdempotencyHistory.CompletedIsReplayed` | backend/application/chat.py:292-313 | a stream that ended with its done mark is replayed whole to every same request within the lifetime, until the key is claimed again |
| `IdempotencyHistory.BrokenIsFree` | backend/services/idempotency_service.py:217-239 | after a stream that broke off or ended without the mark any request gets the key |
| `IdempotencyHistory.VerdictOfHistory` | backend/services/idempotency_service.py:85-239 | what a request is told is a function of the last claim or end of its key: in progress or conflict after a claim, replay or conflict after a completion, for one lifetime each, and otherwise the key |
| `IdempotencyHistory.VerdictWithoutHistory` | backend/services/idempotency_service.py:104-118 | a key that was never claimed is free |
| `IdempotencyRuns.CompletedWasSent` | backend/application/chat.py:292-313 | in every run whatever is stored as completed was sent by a holder of that key in an earlier action |
| `IdempotencyRuns.LateRequestTakesKey` | backend/services/idempotency_service.py:99-135 | a second request takes a key from its holder exactly when it comes at or after the holder's deadline |
| `IdempotencyRuns.RunKeepsInv` | backend/services/idempotency_service.py:85-239 | every action keeps rows, holders and history in agreement |
| `PostgresIdempotency.EveryCommitIsSerial` | backend/services/idempotency_service.py:250-379 | with claims on this and on other keys interleaved statement by statement, each commit decides as the serial store on the row committed at that moment if and only if that row is not one which the transaction did not delete, has another hash, and is expired by its own clock |
| `PostgresIdempotency.EveryPurgeIsSerial` | backend/services/idempotency_service.py:261-264 | the DELETE of a claim on another key takes this row only if it is expired, and its commit is the serial purge unless the expired row was committed after it |
| `PostgresIdempotency.EndsAreSerial` | backend/services/idempotency_service.py:381-440 | storing a response and releasing a claim do to the row what the serial store does, once no claim holds it |
| `PostgresIdempotency.LateCommitOvertakes` | backend/services/idempotency_service.py:261-290 | that exception is real, for every pair of hashes and clocks that allow it |
| `PostgresIdempotency.RunKeepsInv` | backend/services/idempotency_service.py:250-440 | the row lock keeps what a transaction read true until it commits |
| `PostgresIdempotency.CommitIsSerial` | backend/services/idempotency_service.py:266-379 | one commit against the serial claim |
| `RateLimiter.PruningLosesNothing` | backend/services/rate_limiter.py:44-54 | for every run with a clock that never goes back, the pruned buckets decide as the full history of admissions |
| `RateLimiter.LimiterExactly` | backend/domain/rate_limit_policy.py:66-78 | any run told from its requests and its own answers alone: a request is let in exactly when fewer than `max_requests` of its key were let in during the window before it, and no window sees more |
| `RateLimiter.RetryExactly` | backend/domain/rate_limit_policy.py:75-77 | in any run a denied client is told to wait until the oldest admission of the window leaves it, in whole seconds and at least one |
| `RateLimiter.NoWindowOverfull` | backend/domain/rate_limit_policy.py:66-78 | no window (t - W, t] of any run holds more than `max_requests` admissions |
| `RateLimiter.DenialsOfEveryRun` | backend/domain/rate_limit_policy.py:66-78 | in every run a request is denied exactly when its key's window is full |
| `RateLimiter.DeniedExactlyWhenFull` | backend/domain/rate_limit_policy.py:70-78 | on any well-spaced history a denial means exactly `max_requests` admissions in the window |
| `RateLimiter.RetryAfterBounds` | backend/domain/rate_limit_policy.py:75-77 | `retry_after` lies between one second and the window |
| `RateLimiter.FreedExactly` | backend/domain/rate_limit_policy.py:66-78 | with no admission in between, a later request is let in exactly when the oldest one has left the window |
| `RateLimiter.RetryPlusOneFrees` | backend/domain/rate_limit_policy.py:76-76 | waiting one second longer than told always frees a slot |
| `RateLimiter.RetryAloneExact` | backend/domain/rate_limit_policy.py:76-76 | waiting exactly as long as told frees a slot if and only if the wait is at most a second or a whole number of seconds |
| `RateLimiter.RetryCanBeTooShort` | backend/domain/rate_limit_policy.py:76-76 | a concrete request that does as told and is denied again |
| `RateLimiter.Decide` | backend/domain/rate_limit_policy.py:33-37 | a decision meets its own invariant: no delay when allowed, at least one second when not |
| `RateLimiter.InMemorySlidingWindowRateLimitStore.GetTimestamps` | backend/services/rate_limit_store.py:28-34 | pops expired timestamps off the front, in the stored bucket too |
| `RateLimiter.InMemorySlidingWindowRateLimitStore.ReplaceTimestamps` | backend/services/rate_limit_store.py:36-40 | stores the timestamps sorted |
| `RateLimiter.StoredSlidingWindowRateLimiter.Evaluate` | backend/services/rate_limiter.py:44-54 | read, decide, and write back only on admission |
| `OutputBuffer.FeedShape` | backend/services/chat_stream_run.py:73-90 | after any pushes: emitted then pending tokens are the non-empty tokens pushed up to the first unsafe text, and exactly all but the hold-back of the safe ones are out |
| `OutputBuffer.EmittedBehindSafeText` | backend/services/chat_stream_run.py:84-90 | each emitted prefix lies at least the hold-back behind a text judged safe |
| `OutputBuffer.BlockedIsFinal` | backend/services/chat_stream_run.py:75-82 | after a block nothing is emitted and nothing changes |
| `OutputBuffer.FlushCompletes` | backend/services/chat_stream_run.py:92-103 | a flush completes the stream exactly; it blocks newly if and only if nothing was pushed and the empty text is unsafe |
| `OutputBuffer.StreamingOutputBuffer.constructor` | backend/services/chat_stream_run.py:55-67 | an empty buffer whose hold-back is never negative |
| `OutputBuffer.StreamingOutputBuffer.PushToken` | backend/services/chat_stream_run.py:73-90 | one push on the buffer's fields |
| `OutputBuffer.StreamingOutputBuffer.FlushTokens` | backend/services/chat_stream_run.py:92-103 | one flush on the buffer's fields |
| `OutputBuffer.StreamingOutputBuffer.IsSafe` | backend/services/chat_stream_run.py:105-112 | everything is safe without a safeguard |
| `ChatStream.ChatRun.Stream` | backend/services/chat_stream_service.py:96-109 | for every model stream, fault, verdict and storage failure the frames are exactly the rendering of the run's script (thoughts at once, tokens when due, nothing after the cut) followed by the frames of its end, and so is the saved result; the lemmas of `ChatResult` say what these come to |
| `ChatStream.ChatRun.Answer` | backend/services/chat_stream_service.py:97-109 | the same for a run that was let in |
| `ChatStream.ChatRun.EmitFault` | backend/services/chat_stream_service.py:100-109 | the error tail of a run whose model phase raised |
| `ChatOutcome.ThoughtsKeepTheirPlace` | backend/services/chat_stream_driver.py:32-43 | a thought before the cut is sent right after the tokens that were due by then, and no others |
| `ChatOutcome.OneDoneAndItIsLast` | backend/services/chat_stream_service.py:96-109 | every run has exactly one done frame, and it is last |
| `ChatResult.SavedExactly` | backend/services/chat_stream_finalize.py:18-124 | the frames of every run tell what it saves: an error frame comes exactly with the first trouble (the fault, the empty answer, a failed file or a failed saving); without one exactly one result is saved and with one none; it is the refusal, shown last, or the text of all tokens shown without its charts, with the chart that was sent |
| `ChatResult.TokensExactly` | backend/services/chat_stream_finalize.py:18-101 | the tokens shown are those that trail the safe part of the text by the hold-back, then the refusal where there is one, and all of the text where the answer is let through |
| `ChatResult.ThoughtsExactly` | backend/services/chat_stream_driver.py:32-43 | the thoughts shown are those before the first text that makes the answer unsafe |
| `ChatResult.FramesInOrder` | backend/services/chat_stream_finalize.py:49-124 | tokens and thoughts, then files, the chart, an error and done come in this order in every run |
| `ChatResult.SearchWithFind` | backend/services/chat_stream_driver.py:90-125 | the first tool call that finds something, fails or raises decides the search path: the thoughts before it, then the follow-up, the apology or the exception |
| `ChatResult.SearchWithoutFind` | backend/services/chat_stream_driver.py:126-155 | without one it is a direct search, unless the tool stream raised |
| `ChatResult.ChartWithSpec` | backend/services/chat_stream_driver.py:158-201 | the first call that compiles decides the chart path: what was said before it, the follow-up, and its chart |
| `ChatResult.ChartWithoutSpec` | backend/services/chat_stream_driver.py:162-201 | without one everything is said, and the plain answer if that holds no text |
| `ChatResult.PlainScript` | backend/services/chat_stream_driver.py:204-214 | every other path is the plain answer |
| `ChatOutcome.SavedIsWhatWasShown` | backend/services/chat_stream_finalize.py:28-101 | whatever is saved is one result: the refusal, shown last, or the chart-stripped text of all token frames, judged safe; when one is saved says `ChatResult.SavedExactly` |
| `ChatOutcome.ShownTextIsSafe` | backend/services/chat_stream_driver.py:18-29 | every prefix of the text shown before a refusal was judged safe, with the hold-back ahead of it unless the whole answer was let through |
| `ChatOutcome.CapturedExactlyWhenWhole` | backend/application/chat.py:292-313 | the idempotency capture takes what it has passed on for complete exactly when that is the whole run, or when an artifact or chart frame in it spells the done mark |
| `ChatStream.ChatRun.InputGuard` | backend/services/chat_stream_driver.py:46-74 | an unsafe input is refused before the model is asked |
| `ChatStream.ChatRun.YieldBlockedResponse` | backend/services/chat_orchestration.py:457-531 | a refusal frame, saved under its own title, then done, with an error frame before it if saving failed |
| `ChatStream.ChatRun.LlmPhase` | backend/services/chat_stream_driver.py:77-87 | the path taken plays its script until the text is cut |
| `ChatStream.ChatRun.StreamWebSearch` | backend/services/chat_stream_driver.py:90-155 | tool calls first, a direct search if they bring nothing, an apology if searching fails |
| `ChatStream.ChatRun.SearchWithTools` | backend/services/chat_stream_driver.py:100-125 | thoughts pass, text is dropped, the first call that brings a context or fails ends the loop |
| `ChatStream.ChatRun.StreamNativeChart` | backend/services/chat_stream_driver.py:158-201 | a compiled chart is followed up, and a silent model is asked again without tools |
| `ChatStream.ChatRun.ChartWithTools` | backend/services/chat_stream_driver.py:162-188 | text and thoughts pass until a block or the first call that compiles |
| `ChatStream.ChatRun.Consume` | backend/services/chat_stream_driver.py:204-214 | a stream is left as soon as the output is blocked, before it can raise |
| `ChatStream.ChatRun.StreamPlainCompletion` | backend/services/chat_stream_driver.py:204-214 | the plain path |
| `ChatStream.ChatRun.ConsumeItem` | backend/services/chat_stream_driver.py:32-43 | a thought is sent, a text goes through the buffer |
| `ChatStream.ChatRun.EmitThinking` | backend/services/chat_stream_driver.py:13-15 | a thinking frame for a non-empty text |
| `ChatStream.ChatRun.EmitContent` | backend/services/chat_stream_driver.py:18-29 | a non-empty text is remembered and pushed |
| `ChatStream.ChatRun.EmitCompletion` | backend/services/chat_stream_finalize.py:18-124 | the error tail, the empty answer, the last review, and the two endings |
| `ChatStream.ChatRun.EmitAnswer` | backend/services/chat_stream_finalize.py:49-101 | an allowed answer is flushed whole and completed |
| `ChatStream.ChatRun.EmitTail` | backend/services/chat_stream_finalize.py:54-101 | files, chart, saving, done, or the error tail where writing fails; the saving this comes to is `ChatResult.SavedExactly` |
| `ChatStream.ChatRun.EmitArtifacts` | backend/services/chat_stream_finalize.py:54-61 | one frame for each file |
| `ChatStream.ChatRun.constructor` | backend/services/chat_stream_run.py:216-223 | a fresh run holds back one token with a safeguard and none without |
| `SseFrames.StreamRoundTrip` | backend/services/sse.py:9-26 | any concatenation of token, thinking, error and done frames splits back into the same frames |
| `SseFrames.StreamInjective` | backend/services/sse.py:9-26 | the bytes determine the frames |
| `SseFrames.PayloadRoundTrip` | backend/services/sse.py:9-26 | a payload tells its frame, whatever its text |
| `SseFrames.EscapeRoundTrip` | backend/services/sse.py:9-11 | an escaped string is read back exactly, whatever follows |
| `SseFrames.OnlyDoneHasTheMark` | backend/application/chat.py:302-303 | a frame contains the text by which done is recognised if and only if it is done |
| `SseFrames.ReadFrame` | backend/services/sse.py:11-11 | a frame is dispatched as its payload and the stream goes on after it |
| `Chunker.ChunkText` | backend/services/knowledge_pipeline.py:91-128 | groups are one paragraph or fit, no other such grouping has fewer, chunk j has index j, its group's text and the range after chunk j-1 |
| `Chunker.ChunkSize` | backend/services/knowledge_pipeline.py:98-117 | a chunk holds one paragraph or has at most `max_chars` characters, and would have more with a blank line and the next paragraph |
| `Chunker.GreedyStaysAhead` | backend/services/knowledge_pipeline.py:98-117 | the greedy cuts are never behind those of another grouping |
| `Chunker.WholeDocument` | backend/services/knowledge_pipeline.py:98-128 | the chunks joined are the paragraphs joined |
| `Chunker.OffsetsDrift` | backend/services/knowledge_pipeline.py:100-127 | chunk j starts in the joined text exactly 2j characters after its recorded start, so the record is right for the first chunk only |
| `Similarity.SimilarityRange` | backend/services/knowledge_pipeline.py:276-291 | similarity lies in [0, 1] and is positive exactly when the texts share a bucket |
| `Similarity.SelfSimilarity` | backend/services/knowledge_pipeline.py:276-291 | a text with a token has similarity 1 with itself |
| `Similarity.VectorOfMultiset` | backend/services/knowledge_pipeline.py:276-285 | the vector depends on the multiset of tokens only |
| `Similarity.VectorFacts` | backend/services/knowledge_pipeline.py:276-285 | a vector has 128 non-negative entries, positive in the buckets its text uses, and length one |
| `Similarity.EmbedText` | backend/services/knowledge_pipeline.py:276-285 | the loop counts the tokens per bucket and divides by their length |
| `Similarity.SearchVectorIndex` | backend/services/knowledge_pipeline.py:161-192 | the loops collect the positive scores of the documents let through, and sort them |
| `Similarity.CosineByPosition` | backend/services/knowledge_pipeline.py:288-291 | the similarity is the sum of the products of the entries, and zero for vectors of different lengths |
| `Similarity.SearchExact` | backend/services/knowledge_pipeline.py:171-192 | a search returns one hit for each chunk that scores above zero in a document let through by the filter, and no other; each reports its own chunk, document, file, snippet and cosine; they come by falling cosine, equal ones in the order of the index |
| `SessionRows.RunKeepsAgreement` | backend/services/log_service.py:298-622 | through any operations each session's rows are the visible messages of its payload, and an absent session has none |
| `SessionRows.ReadBackIsDecode` | backend/services/log_service.py:482-523 | reading through rows, merge and decode equals decoding the payload alone |
| `SessionRows.ConversationReadsBack` | backend/services/log_service.py:298-433 | a built conversation, stored after any operations and renamed any number of times, is read back message for message |
| `SessionRows.SessionOfHistory` | backend/services/log_service.py:298-433 | over every sequence of operations, a stored session has the creation time of the operation that created it, the payload, owner, tenant and title of the one that stored it last, and the title and time of the renaming after that, if any |
| `SessionRows.DeleteAllExactly` | backend/services/log_service.py:563-622 | a deletion by owner or tenant removes exactly the sessions, and the files, that match each one that is given, and without any all of them |
| `SessionRows.ResultsExactly` | backend/services/log_service.py:298-710 | an operation fails exactly for an unknown session, a payload that cannot be stored or a known file id, and then changes nothing |
| `SessionRows.SessionLog.UpsertSession` | backend/services/log_service.py:298-404 | stores the payload with its rows, keeps the creation time, and changes nothing when the payload cannot be stored |
| `SessionRows.SessionLog.ReplaceSessionMessages` | backend/services/log_service.py:135-171 | the rows of a session become the visible messages of the payload, in order |
| `SessionRows.SessionLog.RenameSessionTitle` | backend/services/log_service.py:407-433 | changes title and time of a known session, nothing else |
| `SessionRows.SessionLog.DeleteSession` | backend/services/log_service.py:526-560 | removes a known session with its rows and its files |
| `SessionRows.DeletedIsGone` | backend/services/log_service.py:526-560 | nothing of a deleted session stays, and nothing else changes |
| `SessionRows.SessionLog.DeleteAllSessions` | backend/services/log_service.py:563-622 | removes exactly the selected sessions with their rows, and the files that are themselves selected by owner and tenant |
| `SessionRows.OrphansExactly` | backend/services/log_service.py:597-610 | a filtered deletion leaves no file behind its session if and only if every file of a deleted session has the selected owner and tenant itself |
| `SessionRows.RunKeepsMatched` | backend/services/log_service.py:298-622 | while sessions and their files go to the same owner and tenant, the files of stored sessions have the owner and tenant of their session in every run, files registered before their session included |
| `SessionRows.MatchedExactly` | backend/services/log_service.py:298-622 | one operation keeps that if and only if it stores no session under somebody who does not own its files, and adds no file to a stored session of somebody else |
| `SessionRows.OrphansNeverHadASession` | backend/services/chat_stream_finalize.py:54-101 | then a file is without its session if and only if the session has not been stored at any moment since the file was registered |
| `SessionRows.DeletedWithTheirSession` | backend/services/log_service.py:578-612 | and a deletion takes a file of a stored session exactly when it takes the session |
| `SessionRows.ChangedHands` | backend/services/log_service.py:324-333 | a session stored again under another owner: deleting by the new owner leaves its file behind, deleting by the old one takes the file of a session that stays |
| `SessionRows.SessionLog.CreateChatArtifact` | backend/services/log_service.py:625-710 | a new id gets its row, a known one is refused |
| `SessionRows.SessionLog.FetchSessionMessages` | backend/services/log_service.py:174-209 | the rows of a session as message objects in order, or nothing |
| `SessionRows.SessionLog.GetSession` | backend/services/log_service.py:482-523 | the stored row with its message rows laid over the payload |
| `SessionCodec.BuildRoundTrip` | backend/services/session_message_codec.py:114-160 | decoding what was built gives back the kept messages in order, the latest file context, chart, documents, source and persona |
| `SessionBuilding.ConversationExactly` | backend/services/session_message_codec.py:114-277 | a conversation stored and read again is its turns but for files and their acknowledgements, in order, each with its role, text and clean ids, and with the artifacts where it has the text of the answer; with the content of the last file, the chart, the complete documents, the source and the persona |
| `SessionBuilding.RaisesExactly` | backend/services/session_message_codec.py:148-160 | building raises exactly for a chart without a version and for a persona with a compound theme |
| `SessionCodec.BuildSessionPayload` | backend/services/session_message_codec.py:114-160 | builds the payload, and raises on a chart without a version or a theme that cannot be looked up |
| `SessionCodec.CollectMessages` | backend/services/session_message_codec.py:130-147 | file contexts and their acknowledgements are left out, the latest file context is remembered |
| `SessionCodec.PayloadVisibleMessages` | backend/services/log_service.py:79-105 | the rows of a payload: items with a known role and text, their clean ids and raw artifacts, in order |
| `SessionCodec.DecodeSessionPayload` | backend/services/session_message_codec.py:202-277 | objects, old lists and anything else are decoded; a newer version is refused, and a role or theme that is a list or an object raises |
| `SessionCodec.DecodeLegacyPayload` | backend/services/session_message_codec.py:163-199 | the fold over an old role-tagged list; `LegacyExact` says what that is |
| `SessionCodec.LegacyExact` | backend/services/session_message_codec.py:163-199 | an old list decodes to its items with a role and a text that are not tagged, normalised, in order; to the content of the last file context; to the chart of the last chart item if that parses to an object; and to nothing else |
| `SessionLists.ObjectExactly` | backend/services/session_message_codec.py:202-277 | a payload object of a newer version is refused, one with a compound role or theme raises, and any other decodes field by field: a chart that is an object, a context that is a text, the source named or else implied, a persona with a known theme |
| `SessionLists.MessagesExactly` | backend/services/session_message_codec.py:80-111 | the messages a payload decodes to and the rows it is stored with are its items with a known role and a text, in order: role and content as they stand there, ids stripped and blank ones left out, artifacts all in the row and the valid ones when decoded |
| `SessionLists.DocumentsExactly` | backend/services/session_message_codec.py:227-249 | its documents are the items with all three fields filled, in order, each field as it stands there |
| `SessionLists.StripExactly` | backend/services/session_message_codec.py:90-93 | stripping takes the blank ends off and nothing else |
| `SessionCodec.NormalizedMessages` | backend/services/session_message_codec.py:214-219 | the messages of a payload, normalised, in order, unless a role raises |
| `SessionCodec.WellFormedDocuments` | backend/services/session_message_codec.py:227-249 | the loop over the documents; `SessionLists.DocumentsExactly` says which it keeps |
| `SessionCodec.MergeIsTransparent` | backend/services/log_service.py:219-229 | laying rows over a payload object changes nothing that decoding sees, wherever decoding the messages does not raise |
| `SessionCodec.RowKeepsMessage` | backend/services/session_message_codec.py:80-111 | a row normalises to the message of the item it was made from |
| `SessionCodec.StripIdempotent` | backend/services/session_message_codec.py:90-93 | stripping twice is stripping once |
| `SessionCodec.BuiltIsStorable` | backend/services/log_service.py:79-105 | a built payload can always be stored |
| `Metrics.EscapeIsCharacterwise` | backend/platform/prometheus_metrics.py:76-77 | the three chained replacements are one map over the characters |
| `Metrics.LabelRoundTrip` | backend/platform/prometheus_metrics.py:76-77 | an escaped label value is read back exactly: no line break, no quote that ends it early |
| `Metrics.LineTellsItsLabels` | backend/platform/prometheus_metrics.py:128-137 | two counters never give the same line |
| `Metrics.CountersOfEveryRun` | backend/platform/prometheus_metrics.py:80-94 | over every run each bucket counts the durations within its bound and each labelled counter its exchanges |
| `Metrics.SumOfEveryRun` | backend/platform/prometheus_metrics.py:80-94 | over every run the sum of the histogram is the time that all exchanges took |
| `Metrics.HistogramAgrees` | backend/platform/prometheus_metrics.py:86-94 | the histogram is cumulative, its last bucket is the count, and so is the sum of the labelled counters |
| `Metrics.HttpMetrics.RecordHttpRequest` | backend/platform/prometheus_metrics.py:80-94 | one exchange updates its counter, the sum, the count and every bucket whose bound it meets |

## Left out

- Docker and subprocess providers, threads, queues and dispatch: the provider is a finite stream.
- HTTP routers, authorisation, feature gates, cookies, object storage and the frontend.
- SandboxProtocol.ReaderStep: a record that becomes invisible to the caller ends the source's generator with an exception; the model keeps it visible.
- SandboxTables.Row: columns that no guard reads are not modelled (provider name, output files, isolation level, updated_at); of the times only start and finish are.
- SqliteSandboxStore.SqliteExecutionStore.ListExecutionIdsByStatus: the order by queue time is the order of creation.
- SandboxEndpoints.RetryExecution: whether the run is handed over is a parameter, since the mode column is not in the row; the fresh id is a precondition.
- SandboxEndpoints.CancelExecution: rows read while waiting are parameters, since other actors write them; `WaitSeesTheEnd` takes them from a run.
- SandboxProtocol.Enabled: the supervisor's tokens appear in the interleaved protocol as an arbitrary answer to "is a cancel requested".
- PostgresProtocol.AppNext: a thread has one open transaction at a time, and reads are single statements.
- SandboxService.RunRegistered: on SQLite an append is taken to succeed; what a failing one leads to is shown on Postgres (`PostgresRuns.ColumnsExactly`).
- PostgresTransactions: other executions' locks are independent; deadlock, serialisation failures and connection loss appear as aborts.
- PostgresIdempotency: one key at a time; claims on other keys appear through the DELETE that takes this key's row too, and deadlocks over several rows as aborts.
- Idempotency.PurgeByTime: text comparison is by code point, as SQLite does; a Postgres collation could differ.
- IsoTime.IsoOrder: UTC times with four-digit years only.
- Utf8.RoundTrip: lone surrogates, which Python strings can hold and UTF-8 cannot, are not characters here.
- SseFrames.StreamRoundTrip: status, log, artifact and chart frames, whose payloads are nested JSON, are not encoded; of the escapes with a code the reader knows those below 100 hexadecimal, which are all the encoder writes.
- ChatStream.ChatRun.Stream: an exception outside the model phase that is not one of the caught storage errors, a safeguard that raises, and a client that goes away (the generator closed from outside) are not modelled; neither are timings, telemetry and the metric for completed streams.
- ChatOutcome.Words: the wording of refusals and errors is a parameter.
- RateLimiter.Evaluated: keys are given; the hash of the subject is not modelled.
- Chunker.ChunkText: splitting a document into stripped, non-empty paragraphs by regular expression is its input; blank documents are its empty list.
- Similarity.EmbedText: tokenising by regular expression and lower-casing are its input; rounding of floats is not modelled.
- Similarity.SearchVectorIndex: reading payloads from the object store, and vectors that are not numbers.
- SessionRows.SessionLog.UpsertSession: older table layouts without owner or tenant columns, and the audit log; JSON text is taken as the value it stands for.
- SessionCodec.IsFileContext: the look of an old upload prompt is a parameter.
- Metrics.HttpMetrics.RecordHttpRequest: durations that are not numbers; upper-casing is a parameter; the other metric families have no histogram and are left out.
- Reranking, the workbench task store, settings and model internals.
