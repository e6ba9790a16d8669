/** The request handlers over the SQLite store: cancel, retry, and the loop that streams the log. What other
    actors do to the tables while a handler waits is given to it as what it reads. */
module SandboxEndpoints {
  import opened Wrappers
  import opened SandboxTables
  import opened SandboxExecutor
  import opened SandboxService
  import opened SandboxProtocol
  import opened SandboxRuns
  import opened SqliteSandboxStore
  import opened SandboxSupervisor

  // ---------- cancel ----------

  datatype Answer = Shown(row: Row) | NoSuchExecution | Conflict | Disappeared | ProviderFailed

  /** The first row read that is not running, among those read before the deadline. */
  function Settled(polls: seq<Option<Row>>): Answer {
    if polls == [] then Conflict
    else if polls[0].None? then Disappeared
    else if polls[0].value.status != Running then Shown(polls[0].value)
    else Settled(polls[1..])
  }

  /** Both steps of the canceller of `SandboxProtocol`, with nothing in between. */
  function CancelledAlone(now: Env, x: Exec): Exec {
    if x.row.None? then x
    else CancellerStep(Sqlite, CancellerStep(Sqlite, CancelEntered, now, x).0, now, x).1
  }

  predicate RunningIn(x: Exec) { x.row.Some? && x.row.value.status == Running }

  /** What the caller is told: a queued execution is shown as cancelled, a running one as it ends up. */
  function CancelAnswer(now: Env, x: Exec, polls: seq<Option<Row>>): Answer {
    if x.row.None? then NoSuchExecution
    else if x.row.value.status == Queued then Shown(Updated(Cancel(now.now, CANCELLED_BEFORE_START), x.row.value))
    else if x.row.value.status == Running then Settled(polls)
    else Conflict
  }

  lemma CancelCases(now: Env, x: Exec)
    requires x.row.Some?
    ensures x.row.value.status == Queued ==>
              && CancelledAlone(now, x) == Apply(Sqlite, Cancel(now.now, CANCELLED_BEFORE_START), x)
              && CancelledAlone(now, x).row == Some(Updated(Cancel(now.now, CANCELLED_BEFORE_START), x.row.value))
    ensures x.row.value.status == Running ==> CancelledAlone(now, x) == Apply(Sqlite, Note(EvCancelRequested, Running), x)
    ensures x.row.value.status != Queued && x.row.value.status != Running ==> CancelledAlone(now, x) == x
  {
  }

  method WaitForEnd(polls: seq<Option<Row>>) returns (answer: Answer)
    ensures answer == Settled(polls)
  {
    for i := 0 to |polls|
      invariant Settled(polls) == Settled(polls[i..])
    {
      assert polls[i..][1..] == polls[i + 1..];
      if polls[i].None? {
        return Disappeared;
      }
      if polls[i].value.status != Running {
        return Shown(polls[i].value);
      }
    }
    return Conflict;
  }

  /** The rows read while waiting are those of a run, at or after the moment when the execution was seen running. */
  ghost predicate ReadInRun(b: Backend, maxBytes: int, actions: seq<Action>, from: nat, polls: seq<Option<Row>>, points: seq<nat>)
    requires from <= |actions|
  {
    && |points| == |polls|
    && forall i :: 0 <= i < |points| ==>
         from <= points[i] <= |actions| && polls[i] == StateAt(b, maxBytes, actions, points[i]).x.row
  }

  /** Whatever else happens in the run, the wait ends in a conflict or with the outcome that the execution keeps. */
  lemma {:induction false} WaitSeesTheEnd(b: Backend, maxBytes: int, actions: seq<Action>, from: nat,
                                          polls: seq<Option<Row>>, points: seq<nat>)
    requires from <= |actions| && RunningIn(StateAt(b, maxBytes, actions, from).x)
    requires ReadInRun(b, maxBytes, actions, from, polls, points)
    ensures Settled(polls) == Conflict
            || (&& Settled(polls).Shown? && Terminal(Settled(polls).row.status)
                && var x := Run(b, maxBytes, START, actions).x;
                   x.row.Some? && SameOutcome(Settled(polls).row, x.row.value))
  {
    if polls != [] {
      OnePoll(b, maxBytes, actions, from, points[0]);
      if polls[0].value.status == Running {
        WaitSeesTheEnd(b, maxBytes, actions, from, polls[1..], points[1..]);
      }
    }
  }

  lemma OnePoll(b: Backend, maxBytes: int, actions: seq<Action>, from: nat, n: nat)
    requires from <= n <= |actions| && RunningIn(StateAt(b, maxBytes, actions, from).x)
    ensures var row := StateAt(b, maxBytes, actions, n).x.row;
            && row.Some?
            && (row.value.status != Running ==>
                  && Terminal(row.value.status)
                  && var x := Run(b, maxBytes, START, actions).x; x.row.Some? && SameOutcome(row.value, x.row.value))
  {
    LogsOfPrefixes(b, maxBytes, actions, from, n);
    LogsOfPrefixes(b, maxBytes, actions, n, |actions|);
    assert actions[..|actions|] == actions;
  }

  /** Cancel a queued execution at once; ask a running one to stop and wait for it. `polls` are the rows read
      while waiting, the last one after the deadline. */
  method CancelExecution(store: SqliteExecutionStore, supervisor: InProcessCodeSandboxSupervisor, id: ExecutionId,
                         now: Env, polls: seq<Option<Row>>)
    returns (answer: Answer)
    requires store.Valid() && supervisor.Valid()
    modifies store, supervisor, supervisor.cancelEvents.Values
    ensures store.Valid() && supervisor.Valid()
    ensures forall o :: o != id ==> store.View(o) == old(store.View(o))
    ensures store.View(id) == CancelledAlone(now, old(store.View(id)))
    ensures supervisor.State() ==
              if RunningIn(old(store.View(id))) then Called(old(supervisor.State()), RequestCancel(id)) else old(supervisor.State())
    ensures answer == CancelAnswer(now, old(store.View(id)), polls)
  {
    var record := store.GetExecution(id);
    if record.None? {
      return NoSuchExecution;
    }
    CancelCases(now, store.View(id));
    if record.value.status == Queued {
      var _ := store.Mark(id, Cancel(now.now, CANCELLED_BEFORE_START));
      var updated := store.GetExecution(id);
      if updated.None? {
        return Disappeared;
      }
      return Shown(updated.value);
    }
    if record.value.status != Running {
      return Conflict;
    }
    store.AppendExecutionEvent(id, EvCancelRequested, Running);
    supervisor.RequestCancelOf(id);
    answer := WaitForEnd(polls);
  }

  // ---------- submit and retry ----------

  /** How a new execution is run: by another thread later, or here, with the run that it meets. */
  datatype Mode = Dispatched | Inline(w: Solo)

  /** A new execution, and one created by a retry. */
  function Submitted(timeoutSec: int): Exec {
    Exec(Some(FreshRow(timeoutSec)), [], [EventRow(1, EvQueued, Queued)])
  }

  function Resubmitted(timeoutSec: int): Exec {
    Exec(Some(FreshRow(timeoutSec)), [], [EventRow(1, EvQueued, Queued), EventRow(2, EvRetryCreated, Queued)])
  }

  /** What starting makes of a new execution. */
  function Begun(maxBytes: int, mode: Mode, x: Exec): Exec {
    if mode.Inline? then RunSolo(Sqlite, maxBytes, Entered, mode.w, x) else x
  }

  /** The answer to the caller: the row as it is now, or the provider's exception. */
  function BegunAnswer(maxBytes: int, mode: Mode, x: Exec): Answer
    requires Begun(maxBytes, mode, x).row.Some?
  {
    if mode.Inline? && mode.w.raises && ReachesProvider(mode.w, x) then ProviderFailed
    else Shown(Begun(maxBytes, mode, x).row.value)
  }

  function BegunControl(mode: Mode, c: Control, id: ExecutionId): Control {
    if mode.Inline? then Called(Called(c, Register(id)), Release(id)) else c
  }

  /** A queued execution without log is run to its end when it is run here. */
  lemma BegunEnds(maxBytes: int, mode: Mode, x: Exec)
    requires TablesOk(x) && x.row.Some? && x.row.value.status == Queued
    ensures var y := Begun(maxBytes, mode, x);
            TablesOk(y) && y.row.Some? && (mode.Inline? ==> Terminal(y.row.value.status))
  {
    if mode.Inline? {
      SoloEnds(Sqlite, maxBytes, Entered, mode.w, x);
    }
  }

  /** Hand the new execution over or run it, and show it. */
  method StartExecution(store: SqliteExecutionStore, supervisor: InProcessCodeSandboxSupervisor, id: ExecutionId,
                        maxBytes: int, mode: Mode)
    returns (answer: Answer)
    requires store.Valid() && supervisor.Valid()
    requires TablesOk(store.View(id)) && store.View(id).row.Some? && store.View(id).row.value.status == Queued
    modifies store, supervisor
    ensures store.Valid() && supervisor.Valid()
    ensures forall o :: o != id ==> store.View(o) == old(store.View(o))
    ensures store.View(id) == Begun(maxBytes, mode, old(store.View(id))) && store.View(id).row.Some?
    ensures mode.Inline? ==> Terminal(store.View(id).row.value.status)
    ensures supervisor.State() == BegunControl(mode, old(supervisor.State()), id)
    ensures answer == BegunAnswer(maxBytes, mode, old(store.View(id)))
  {
    BegunEnds(maxBytes, mode, store.View(id));
    if mode.Inline? {
      var raised := ExecuteExecution(store, supervisor, id, maxBytes, mode.w, true);
      if raised {
        return ProviderFailed;
      }
    }
    var record := store.GetExecution(id);
    return Shown(record.value);
  }

  /** Create an execution under a fresh id and start it. */
  method SubmitExecution(store: SqliteExecutionStore, supervisor: InProcessCodeSandboxSupervisor, id: ExecutionId,
                         timeoutSec: int, maxBytes: int, mode: Mode)
    returns (answer: Answer)
    requires store.Valid() && supervisor.Valid() && store.View(id) == NOTHING
    modifies store, supervisor
    ensures store.Valid() && supervisor.Valid()
    ensures forall o :: o != id ==> store.View(o) == old(store.View(o))
    ensures store.View(id) == Begun(maxBytes, mode, Submitted(timeoutSec)) && store.View(id).row.Some?
    ensures mode.Inline? ==> Terminal(store.View(id).row.value.status)
    ensures supervisor.State() == BegunControl(mode, old(supervisor.State()), id)
    ensures answer == BegunAnswer(maxBytes, mode, Submitted(timeoutSec))
  {
    var _ := store.CreateExecution(id, timeoutSec);
    SubmittedOk(timeoutSec);
    answer := StartExecution(store, supervisor, id, maxBytes, mode);
  }

  /** The new execution, and the notes about it on both timelines. */
  method CreateRetry(store: SqliteExecutionStore, id: ExecutionId, retryId: ExecutionId, record: Row)
    requires store.Valid() && store.View(id).row == Some(record) && store.View(retryId) == NOTHING && id != retryId
    modifies store
    ensures store.Valid()
    ensures forall o :: o != id && o != retryId ==> store.View(o) == old(store.View(o))
    ensures store.View(id) == WithEvent(old(store.View(id)), EvRetryRequested, record.status)
    ensures store.View(retryId) == Resubmitted(record.timeoutSec) && TablesOk(store.View(retryId))
  {
    var _ := store.CreateExecution(retryId, record.timeoutSec);
    store.AppendExecutionEvent(id, EvRetryRequested, record.status);
    store.AppendExecutionEvent(retryId, EvRetryCreated, Queued);
    ResubmittedOk(record.timeoutSec);
  }

  /** Run a finished execution again under a fresh id. */
  method RetryExecution(store: SqliteExecutionStore, supervisor: InProcessCodeSandboxSupervisor, id: ExecutionId,
                        retryId: ExecutionId, maxBytes: int, mode: Mode)
    returns (answer: Answer)
    requires store.Valid() && supervisor.Valid() && store.View(retryId) == NOTHING && id != retryId
    modifies store, supervisor
    ensures store.Valid() && supervisor.Valid()
    ensures forall o :: o != id && o != retryId ==> store.View(o) == old(store.View(o))
    ensures var x := old(store.View(id));
            if x.row.Some? && Terminal(x.row.value.status) then
              var created := Resubmitted(x.row.value.timeoutSec);
              && store.View(id) == WithEvent(x, EvRetryRequested, x.row.value.status)
              && store.View(retryId) == Begun(maxBytes, mode, created) && store.View(retryId).row.Some?
              && (mode.Inline? ==> Terminal(store.View(retryId).row.value.status))
              && supervisor.State() == BegunControl(mode, old(supervisor.State()), retryId)
              && answer == BegunAnswer(maxBytes, mode, created)
            else
              && answer == (if x.row.None? then NoSuchExecution else Conflict)
              && store.View(id) == x && store.View(retryId) == NOTHING
              && supervisor.State() == old(supervisor.State())
  {
    var record := store.GetExecution(id);
    if record.None? {
      return NoSuchExecution;
    }
    if !Terminal(record.value.status) {
      return Conflict;
    }
    CreateRetry(store, id, retryId, record.value);
    answer := StartExecution(store, supervisor, retryId, maxBytes, mode);
  }

  lemma SubmittedOk(timeoutSec: int)
    ensures Apply(Sqlite, Create(timeoutSec), NOTHING) == Submitted(timeoutSec)
    ensures TablesOk(Submitted(timeoutSec))
  {
    CreateKeepsTables(Sqlite, timeoutSec, NOTHING);
  }

  lemma ResubmittedOk(timeoutSec: int)
    ensures Apply(Sqlite, Note(EvRetryCreated, Queued), Apply(Sqlite, Create(timeoutSec), NOTHING)) == Resubmitted(timeoutSec)
    ensures TablesOk(Resubmitted(timeoutSec))
  {
    SubmittedOk(timeoutSec);
    NoteKeepsTables(Sqlite, EvRetryCreated, Queued, Submitted(timeoutSec));
    NextEventSeqDense(Submitted(timeoutSec).events);
  }

  // ---------- the log stream ----------

  /** What a stream reads in one round: the tables at its look at the row, and at its look at the log. */
  datatype Round = Round(atRow: Exec, atLog: Exec)

  /** The reader of `SandboxProtocol` over these rounds. */
  function ReaderRun(t: Thread, rounds: seq<Round>): Thread
    requires t.Reader? && forall i :: 0 <= i < |rounds| ==> rounds[i].atRow.row.Some? && rounds[i].atLog.row.Some?
    decreases |rounds|
  {
    if rounds == [] then t
    else ReaderRun(ReaderStep(ReaderStep(t, rounds[0].atRow), rounds[0].atLog), rounds[1..])
  }

  method SendChunks(chunks: seq<LogRow>, before: nat, sent: seq<LogRow>) returns (lastSeq: nat, emitted: seq<LogRow>)
    ensures lastSeq == Last(before, chunks) && emitted == sent + chunks
  {
    lastSeq, emitted := before, sent;
    for j := 0 to |chunks|
      invariant emitted == sent + chunks[..j]
      invariant Last(before, chunks) == Last(lastSeq, chunks[j..])
    {
      assert chunks[j..][1..] == chunks[j + 1..];
      if chunks[j].seqNo > lastSeq {
        lastSeq := chunks[j].seqNo;
      }
      emitted := emitted + [chunks[j]];
    }
    assert chunks[..|chunks|] == chunks;
  }

  /** A round is a look at the row and then one at the log. */
  lemma OneRound(from: nat, lastSeq: nat, emitted: seq<LogRow>, statuses: seq<Status>, rounds: seq<Round>, i: nat)
    requires i < |rounds| && forall i :: 0 <= i < |rounds| ==> rounds[i].atRow.row.Some? && rounds[i].atLog.row.Some?
    ensures var st, chunks := rounds[i].atRow.row.value.status, ListLogChunks(rounds[i].atLog.logs, lastSeq);
            var more := if statuses == [] || statuses[|statuses| - 1] != st then statuses + [st] else statuses;
            ReaderRun(Reader(from, lastSeq, emitted, statuses, ReadTop), rounds[i..]) ==
              ReaderRun(Reader(from, Last(lastSeq, chunks), emitted + chunks, more, if Terminal(st) then ReadDone else ReadTop),
                        rounds[i + 1..])
  {
    assert rounds[i..][1..] == rounds[i + 1..];
  }

  /** The generator: a status frame whenever the status changed, then the new chunks, then done at the end. */
  method GenerateLogs(afterSequence: int, rounds: seq<Round>)
    returns (statuses: seq<Status>, emitted: seq<LogRow>, lastSeq: nat, done: bool)
    requires forall i :: 0 <= i < |rounds| ==> rounds[i].atRow.row.Some? && rounds[i].atLog.row.Some?
    ensures var t := ReaderRun(NewReader(afterSequence), rounds);
            t == Reader(NewReader(afterSequence).after, lastSeq, emitted, statuses, if done then ReadDone else ReadTop)
  {
    lastSeq := if afterSequence < 0 then 0 else afterSequence;
    ghost var from := lastSeq;
    statuses, emitted, done := [], [], false;
    var lastStatus: Option<Status> := None;
    ghost var goal := ReaderRun(NewReader(afterSequence), rounds);
    assert rounds[0..] == rounds;
    for i := 0 to |rounds|
      invariant !done && (lastStatus.None? <==> statuses == [])
      invariant lastStatus.Some? ==> lastStatus.value == statuses[|statuses| - 1]
      invariant goal == ReaderRun(Reader(from, lastSeq, emitted, statuses, ReadTop), rounds[i..])
    {
      OneRound(from, lastSeq, emitted, statuses, rounds, i);
      var status := rounds[i].atRow.row.value.status;
      if lastStatus != Some(status) {
        lastStatus := Some(status);
        statuses := statuses + [status];
      }
      var chunks := ListLogChunks(rounds[i].atLog.logs, lastSeq);
      lastSeq, emitted := SendChunks(chunks, lastSeq, emitted);
      if Terminal(status) {
        done := true;
        DoneStays(Reader(from, lastSeq, emitted, statuses, ReadDone), rounds[i + 1..]);
        return;
      }
    }
  }

  lemma {:induction false} DoneStays(t: Thread, rounds: seq<Round>)
    requires t.Reader? && t.dp == ReadDone
    requires forall i :: 0 <= i < |rounds| ==> rounds[i].atRow.row.Some? && rounds[i].atLog.row.Some?
    ensures ReaderRun(t, rounds) == t
    decreases |rounds|
  {
    if rounds != [] {
      DoneStays(t, rounds[1..]);
    }
  }
}
