/** The three tables of the code sandbox, seen through one execution id, and the transactions on them.

    An execution id owns at most one row of `code_sandbox_executions`, and its rows of the log and
    event tables, each numbered by MAX(seq) + 1. Every transaction touches one id only. */
module SandboxTables {
  import opened Wrappers
  import opened Utf8

  // ---------- rows ----------

  datatype Status = Queued | Running | Completed | Failed | Denied | Cancelled

  predicate Terminal(s: Status) {
    s == Completed || s == Failed || s == Denied || s == Cancelled
  }

  datatype Stream = Stdout | Stderr

  /** Columns of an execution row that the protocol reads or writes. Times are microseconds. */
  datatype Row = Row(
    status: Status,
    timeoutSec: int,
    startedAt: Option<int>,
    finishedAt: Option<int>,
    exitCode: Option<int>,
    stdout: string,
    stderr: string,
    timedOut: bool,
    errorDetail: Option<string>,
    lastLogSeq: nat)

  datatype LogRow = LogRow(seqNo: nat, stream: Stream, text: string)

  datatype EventKind =
    | EvQueued | EvStarted
    | EvCompleted | EvFailed | EvTimedOut | EvDenied | EvCancelled
    | EvCancelRequested | EvRecovered | EvRetryRequested | EvRetryCreated
    | EvLog(stream: Stream, logSeq: nat, byteSize: nat)

  datatype EventRow = EventRow(seqNo: nat, kind: EventKind, status: Status)

  /** Everything the tables hold under one execution id. */
  datatype Exec = Exec(row: Option<Row>, logs: seq<LogRow>, events: seq<EventRow>)

  const NOTHING := Exec(None, [], [])

  /** The two repositories differ in the completion guard and in the event of a timed-out failure. */
  datatype Backend = Sqlite | Postgres

  // ---------- scoped sequence numbers ----------

  /** COALESCE(MAX(seq), 0) + 1 over the log rows of the id. */
  function NextLogSeq(logs: seq<LogRow>): (n: nat)
    ensures n > 0 && forall i :: 0 <= i < |logs| ==> logs[i].seqNo < n
  {
    if logs == [] then 1
    else
      var n := NextLogSeq(logs[..|logs| - 1]);
      if logs[|logs| - 1].seqNo < n then n else logs[|logs| - 1].seqNo + 1
  }

  /** The same over the event rows. */
  function NextEventSeq(events: seq<EventRow>): (n: nat)
    ensures n > 0 && forall i :: 0 <= i < |events| ==> events[i].seqNo < n
  {
    if events == [] then 1
    else
      var n := NextEventSeq(events[..|events| - 1]);
      if events[|events| - 1].seqNo < n then n else events[|events| - 1].seqNo + 1
  }

  // ---------- transactions ----------

  datatype Op =
    | Create(timeoutSec: int)
    | Start(now: int)
    | Complete(now: int, code: int, stdout: string, stderr: string)
    | Fail(now: int, stdout: string, stderr: string, timedOut: bool, detail: string, exitCode: Option<int>)
    | Deny(now: int, detail: string)
    | Cancel(now: int, detail: string)
    | Note(kind: EventKind, status: Status)
    | Log(stream: Stream, text: string)

  predicate IsMark(op: Op) {
    op.Start? || op.Complete? || op.Fail? || op.Deny? || op.Cancel?
  }

  /** The WHERE clause on the status column. */
  predicate Guard(b: Backend, op: Op, s: Status)
    requires IsMark(op)
  {
    match op
    case Start(_) => s == Queued
    case Deny(_, _) => s == Queued
    case Complete(_, _, _, _) => s == Running || (b == Postgres && s == Queued)
    case _ => s == Queued || s == Running
  }

  /** The status a guarded update moves to. */
  function Target(op: Op): Status
    requires IsMark(op)
  {
    match op
    case Start(_) => Running
    case Complete(_, _, _, _) => Completed
    case Fail(_, _, _, _, _, _) => Failed
    case Deny(_, _) => Denied
    case Cancel(_, _) => Cancelled
  }

  /** The event row written with it. */
  function MarkKind(b: Backend, op: Op): EventKind
    requires IsMark(op)
  {
    match op
    case Start(_) => EvStarted
    case Complete(_, _, _, _) => EvCompleted
    case Fail(_, _, _, timedOut, _, _) => if timedOut && b == Sqlite then EvTimedOut else EvFailed
    case Deny(_, _) => EvDenied
    case Cancel(_, _) => EvCancelled
  }

  /** The SET clause. */
  function Updated(op: Op, r: Row): Row
    requires IsMark(op)
  {
    match op
    case Start(now) =>
      r.(status := Running, startedAt := if r.startedAt.Some? then r.startedAt else Some(now))
    case Complete(now, code, out, err) =>
      r.(status := Completed, finishedAt := Some(now), exitCode := Some(code),
         stdout := out, stderr := err, timedOut := false, errorDetail := None)
    case Fail(now, out, err, timedOut, detail, exitCode) =>
      r.(status := Failed, finishedAt := Some(now), exitCode := exitCode,
         stdout := out, stderr := err, timedOut := timedOut, errorDetail := Some(detail))
    case Deny(now, detail) =>
      r.(status := Denied, finishedAt := Some(now), timedOut := false, errorDetail := Some(detail))
    case Cancel(now, detail) =>
      r.(status := Cancelled, finishedAt := Some(now), timedOut := false, errorDetail := Some(detail))
  }

  function WithEvent(x: Exec, kind: EventKind, status: Status): Exec {
    x.(events := x.events + [EventRow(NextEventSeq(x.events), kind, status)])
  }

  function FreshRow(timeoutSec: int): Row {
    Row(Queued, timeoutSec, None, None, None, "", "", false, None, 0)
  }

  /** The row after a log chunk: the sequence column moves on and the stream's column grows. */
  function WithChunk(r: Row, n: nat, stream: Stream, text: string): Row {
    if stream == Stdout then r.(lastLogSeq := n, stdout := r.stdout + text)
    else r.(lastLogSeq := n, stderr := r.stderr + text)
  }

  function LogEvent(l: LogRow): EventKind { EvLog(l.stream, l.seqNo, ByteLen(l.text)) }

  /** Whether a guarded update finds its row. */
  predicate Hits(b: Backend, op: Op, x: Exec)
    requires IsMark(op)
  {
    x.row.Some? && Guard(b, op, x.row.value.status)
  }

  /** The effect of one committed transaction. A guarded update that finds no row changes nothing;
      so does a second creation of the same id, which the primary key refuses. */
  function Apply(b: Backend, op: Op, x: Exec): Exec {
    match op
    case Create(timeoutSec) =>
      if x.row.Some? then x
      else WithEvent(x.(row := Some(FreshRow(timeoutSec))), EvQueued, Queued)
    case Note(kind, status) =>
      WithEvent(x, kind, status)
    case Log(stream, text) =>
      var l := LogRow(NextLogSeq(x.logs), stream, text);
      var row := if x.row.Some? then Some(WithChunk(x.row.value, l.seqNo, stream, text)) else None;
      WithEvent(x.(logs := x.logs + [l], row := row), LogEvent(l), Running)
    case _ =>
      if Hits(b, op, x) then
        WithEvent(x.(row := Some(Updated(op, x.row.value))), MarkKind(b, op), Target(op))
      else x
  }

  // ---------- reading the log ----------

  predicate Ascending(rows: seq<LogRow>) {
    forall i, j :: 0 <= i < j < |rows| ==> rows[i].seqNo < rows[j].seqNo
  }

  /** Rows with a sequence number above `after`, in stored order. */
  function Above(logs: seq<LogRow>, after: nat): seq<LogRow> {
    if logs == [] then []
    else if logs[0].seqNo > after then [logs[0]] + Above(logs[1..], after)
    else Above(logs[1..], after)
  }

  /** Insertion into a list ordered by sequence number. */
  function Insert(l: LogRow, rows: seq<LogRow>): seq<LogRow> {
    if rows == [] || l.seqNo <= rows[0].seqNo then [l] + rows
    else [rows[0]] + Insert(l, rows[1..])
  }

  function OrderBySeq(rows: seq<LogRow>): seq<LogRow> {
    if rows == [] then [] else Insert(rows[0], OrderBySeq(rows[1..]))
  }

  /** SELECT ... WHERE seq > after ORDER BY seq. */
  function ListLogChunks(logs: seq<LogRow>, after: nat): seq<LogRow> {
    OrderBySeq(Above(logs, after))
  }

  // ---------- what the tables keep ----------

  /** Log rows carry the numbers 1, 2, 3, ... */
  ghost predicate DenseLogs(logs: seq<LogRow>) {
    forall i :: 0 <= i < |logs| ==> logs[i].seqNo == i + 1
  }

  ghost predicate DenseEvents(events: seq<EventRow>) {
    forall i :: 0 <= i < |events| ==> events[i].seqNo == i + 1
  }

  ghost predicate NoEmptyChunk(logs: seq<LogRow>) {
    forall i :: 0 <= i < |logs| ==> logs[i].text != ""
  }

  /** The text of one stream, in log order. */
  function Joined(logs: seq<LogRow>, stream: Stream): string {
    if logs == [] then ""
    else
      var front, l := Joined(logs[..|logs| - 1], stream), logs[|logs| - 1];
      if l.stream == stream then front + l.text else front
  }

  /** The log events of a timeline, in order. */
  function LogKinds(events: seq<EventRow>): seq<EventKind> {
    if events == [] then []
    else
      var front, k := LogKinds(events[..|events| - 1]), events[|events| - 1].kind;
      if k.EvLog? then front + [k] else front
  }

  /** The log events that a list of log rows calls for. */
  function ExpectedLogKinds(logs: seq<LogRow>): seq<EventKind> {
    if logs == [] then []
    else ExpectedLogKinds(logs[..|logs| - 1]) + [LogEvent(logs[|logs| - 1])]
  }

  predicate IsLifecycle(k: EventKind) {
    k == EvQueued || k == EvStarted || k == EvCompleted || k == EvFailed || k == EvTimedOut
    || k == EvDenied || k == EvCancelled
  }

  /** The status a lifecycle event announces. */
  function StatusOf(k: EventKind): Status
    requires IsLifecycle(k)
  {
    match k
    case EvQueued => Queued
    case EvStarted => Running
    case EvCompleted => Completed
    case EvFailed => Failed
    case EvTimedOut => Failed
    case EvDenied => Denied
    case EvCancelled => Cancelled
  }

  /** The lifecycle events of a timeline, in order. */
  function Lifecycle(events: seq<EventRow>): seq<EventKind> {
    if events == [] then []
    else
      var front, k := Lifecycle(events[..|events| - 1]), events[|events| - 1].kind;
      if IsLifecycle(k) then front + [k] else front
  }

  /** Replaying the lifecycle events alone. */
  function FoldStatus(events: seq<EventRow>): Option<Status> {
    if events == [] then None
    else
      var k := events[|events| - 1].kind;
      if IsLifecycle(k) then Some(StatusOf(k)) else FoldStatus(events[..|events| - 1])
  }

  /** One queued event, then a started event if the row was ever started, then a terminal event if the
      row is terminal: nothing else, in this order, and the last one names the status column. */
  ghost predicate LifecycleOk(r: Row, kinds: seq<EventKind>) {
    var started := if r.startedAt.Some? then 1 else 0;
    var ended := if Terminal(r.status) then 1 else 0;
    && |kinds| == 1 + started + ended
    && kinds[0] == EvQueued
    && (started == 1 ==> kinds[1] == EvStarted)
    && (ended == 1 ==> IsLifecycle(kinds[1 + started]) && StatusOf(kinds[1 + started]) == r.status)
  }

  ghost predicate ColumnsOk(r: Row, logs: seq<LogRow>) {
    r.stdout == Joined(logs, Stdout) && r.stderr == Joined(logs, Stderr) && r.lastLogSeq == |logs|
  }

  ghost predicate LogsOk(logs: seq<LogRow>) {
    DenseLogs(logs) && NoEmptyChunk(logs)
  }

  ghost predicate EventsOk(events: seq<EventRow>, logs: seq<LogRow>) {
    DenseEvents(events) && LogKinds(events) == ExpectedLogKinds(logs)
  }

  ghost predicate RowOk(r: Row, x: Exec) {
    && ColumnsOk(r, x.logs)
    && LifecycleOk(r, Lifecycle(x.events))
    && (r.status == Queued ==> r.startedAt.None?)
    && (r.status == Running ==> r.startedAt.Some?)
    && (r.startedAt.None? ==> x.logs == [])
  }

  /** The consistency of the three tables under one id. */
  ghost predicate TablesOk(x: Exec) {
    && LogsOk(x.logs)
    && EventsOk(x.events, x.logs)
    && (x.row.None? ==> x.logs == [] && x.events == [])
    && (x.row.Some? ==> RowOk(x.row.value, x))
  }

  // ---------- facts about the tables ----------

  lemma {:induction false} NextLogSeqDense(logs: seq<LogRow>)
    requires DenseLogs(logs)
    ensures NextLogSeq(logs) == |logs| + 1
  {
    if logs != [] {
      NextLogSeqDense(logs[..|logs| - 1]);
    }
  }

  lemma {:induction false} NextEventSeqDense(events: seq<EventRow>)
    requires DenseEvents(events)
    ensures NextEventSeq(events) == |events| + 1
  {
    if events != [] {
      NextEventSeqDense(events[..|events| - 1]);
    }
  }

  /** On dense logs the query returns exactly the rows after position `after`. */
  lemma ListDense(logs: seq<LogRow>, after: nat)
    requires DenseLogs(logs)
    ensures ListLogChunks(logs, after) == if after <= |logs| then logs[after..] else []
  {
    AboveDense(logs, after, 0);
    var rows := if after <= |logs| then logs[after..] else [];
    OrderSorted(rows);
  }

  lemma {:induction false} AboveDense(logs: seq<LogRow>, after: nat, base: nat)
    requires forall i :: 0 <= i < |logs| ==> logs[i].seqNo == base + i + 1
    ensures Above(logs, after) == if after <= base then logs else if after - base <= |logs| then logs[after - base..] else []
  {
    if logs != [] {
      AboveDense(logs[1..], after, base + 1);
    }
  }

  predicate NotFalling(rows: seq<LogRow>) {
    forall i, j :: 0 <= i < j < |rows| ==> rows[i].seqNo <= rows[j].seqNo
  }

  lemma {:induction false} InsertCounts(l: LogRow, rows: seq<LogRow>)
    ensures multiset(Insert(l, rows)) == multiset{l} + multiset(rows)
  {
    if rows != [] && l.seqNo > rows[0].seqNo {
      InsertCounts(l, rows[1..]);
      assert rows == [rows[0]] + rows[1..];
    }
  }

  lemma {:induction false} InsertOrders(l: LogRow, rows: seq<LogRow>)
    requires NotFalling(rows)
    ensures NotFalling(Insert(l, rows))
    ensures Insert(l, rows)[0].seqNo == if rows == [] || l.seqNo <= rows[0].seqNo then l.seqNo else rows[0].seqNo
  {
    if rows == [] || l.seqNo <= rows[0].seqNo {
      HeadFirst(l, rows);
    } else {
      InsertOrders(l, rows[1..]);
      HeadFirst(rows[0], Insert(l, rows[1..]));
    }
  }

  lemma HeadFirst(l: LogRow, rows: seq<LogRow>)
    requires NotFalling(rows) && (rows != [] ==> l.seqNo <= rows[0].seqNo)
    ensures NotFalling([l] + rows)
  {
  }

  /** Whatever the rows and their stored order: listing gives exactly those above the number, each as often as it
      is stored, by rising number. */
  lemma ListOrdered(logs: seq<LogRow>, after: nat)
    ensures NotFalling(ListLogChunks(logs, after)) && multiset(ListLogChunks(logs, after)) == multiset(Above(logs, after))
    ensures forall l :: multiset(Above(logs, after))[l] == if l.seqNo > after then multiset(logs)[l] else 0
  {
    Ordered(Above(logs, after));
    AboveCounts(logs, after);
  }

  lemma {:induction false} Ordered(rows: seq<LogRow>)
    ensures NotFalling(OrderBySeq(rows)) && multiset(OrderBySeq(rows)) == multiset(rows)
  {
    if rows != [] {
      Ordered(rows[1..]);
      InsertOrders(rows[0], OrderBySeq(rows[1..]));
      InsertCounts(rows[0], OrderBySeq(rows[1..]));
      assert rows == [rows[0]] + rows[1..];
    }
  }

  lemma {:induction false} AboveCounts(logs: seq<LogRow>, after: nat)
    ensures forall l :: multiset(Above(logs, after))[l] == if l.seqNo > after then multiset(logs)[l] else 0
  {
    if logs != [] {
      AboveCounts(logs[1..], after);
      assert logs == [logs[0]] + logs[1..];
    }
  }

  lemma {:induction false} OrderSorted(rows: seq<LogRow>)
    requires Ascending(rows)
    ensures OrderBySeq(rows) == rows
  {
    if rows != [] {
      OrderSorted(rows[1..]);
    }
  }

  /** Replaying the lifecycle events gives back the status column. */
  lemma {:induction false} FoldIsLastLifecycle(events: seq<EventRow>)
    ensures forall i :: 0 <= i < |Lifecycle(events)| ==> IsLifecycle(Lifecycle(events)[i])
    ensures FoldStatus(events)
         == if Lifecycle(events) == [] then None
            else Some(StatusOf(Lifecycle(events)[|Lifecycle(events)| - 1]))
  {
    if events != [] {
      FoldIsLastLifecycle(events[..|events| - 1]);
    }
  }

  lemma FoldGivesStatus(x: Exec)
    requires TablesOk(x) && x.row.Some?
    ensures FoldStatus(x.events) == Some(x.row.value.status)
  {
    FoldIsLastLifecycle(x.events);
  }

  // ---------- every transaction keeps the tables consistent ----------

  /** Adding one event row. */
  lemma EventAdded(x: Exec, kind: EventKind, status: Status)
    requires DenseEvents(x.events)
    ensures var y := WithEvent(x, kind, status);
            && y.row == x.row && y.logs == x.logs && DenseEvents(y.events)
            && LogKinds(y.events) == (if kind.EvLog? then LogKinds(x.events) + [kind] else LogKinds(x.events))
            && Lifecycle(y.events) == (if IsLifecycle(kind) then Lifecycle(x.events) + [kind] else Lifecycle(x.events))
  {
    var y := WithEvent(x, kind, status);
    assert y.events[..|y.events| - 1] == x.events;
    NextEventSeqDense(x.events);
  }

  /** A mark that overwrites the stream columns carries the text they already hold. */
  ghost predicate CarriesColumns(op: Op, x: Exec) {
    x.row.Some? && (op.Complete? || op.Fail?)
    ==> op.stdout == x.row.value.stdout && op.stderr == x.row.value.stderr
  }

  /** Which event kinds other than log and lifecycle events may be appended by hand. */
  predicate IsNote(k: EventKind) {
    !IsLifecycle(k) && !k.EvLog?
  }

  /** What the callers of the repository see to: events by hand are notes on an existing execution,
      chunks with text are logged for started executions, and columns are overwritten with what they hold. */
  ghost predicate Fitting(op: Op, x: Exec) {
    && (op.Note? ==> IsNote(op.kind) && x.row.Some?)
    && (op.Log? ==> x.row.Some? && x.row.value.startedAt.Some? && op.text != "")
    && CarriesColumns(op, x)
    && (op.Complete? && x.row.Some? ==> x.row.value.status != Queued)
  }

  lemma ApplyKeepsTables(b: Backend, op: Op, x: Exec)
    requires TablesOk(x) && Fitting(op, x)
    ensures TablesOk(Apply(b, op, x))
  {
    match op
    case Create(timeoutSec) => CreateKeepsTables(b, timeoutSec, x);
    case Note(kind, status) => NoteKeepsTables(b, kind, status, x);
    case Log(stream, text) => LogKeepsTables(b, stream, text, x);
    case _ =>
      if Hits(b, op, x) {
        MarkKeepsTables(b, op, x);
      }
  }

  lemma CreateKeepsTables(b: Backend, timeoutSec: int, x: Exec)
    requires TablesOk(x)
    ensures TablesOk(Apply(b, Create(timeoutSec), x))
  {
    if x.row.None? {
      var r := FreshRow(timeoutSec);
      EventAdded(x.(row := Some(r)), EvQueued, Queued);
    }
  }

  lemma NoteKeepsTables(b: Backend, kind: EventKind, status: Status, x: Exec)
    requires TablesOk(x) && IsNote(kind) && x.row.Some?
    ensures TablesOk(Apply(b, Note(kind, status), x))
  {
    EventAdded(x, kind, status);
  }

  lemma MarkKeepsTables(b: Backend, op: Op, x: Exec)
    requires TablesOk(x) && Fitting(op, x) && IsMark(op) && Hits(b, op, x)
    ensures TablesOk(Apply(b, op, x))
  {
    var r, k := x.row.value, MarkKind(b, op);
    EventAdded(x.(row := Some(Updated(op, r))), k, Target(op));
    assert ColumnsOk(Updated(op, r), x.logs);
    LifecycleExtended(b, op, r, Lifecycle(x.events));
  }

  lemma LifecycleExtended(b: Backend, op: Op, r: Row, kinds: seq<EventKind>)
    requires IsMark(op) && Guard(b, op, r.status) && LifecycleOk(r, kinds)
    requires r.status == Queued ==> r.startedAt.None?
    ensures LifecycleOk(Updated(op, r), kinds + [MarkKind(b, op)])
  {
    assert StatusOf(MarkKind(b, op)) == Target(op);
  }

  lemma LogKeepsTables(b: Backend, stream: Stream, text: string, x: Exec)
    requires TablesOk(x) && x.row.Some? && x.row.value.startedAt.Some? && text != ""
    ensures TablesOk(Apply(b, Log(stream, text), x))
  {
    var l, z := ChunkWritten(b, stream, text, x);
    EventAdded(z, LogEvent(l), Running);
    LoggedTablesOk(x, z, WithEvent(z, LogEvent(l), Running), l);
  }

  /** The tables with the chunk and its columns, before its event. */
  lemma ChunkWritten(b: Backend, stream: Stream, text: string, x: Exec) returns (l: LogRow, z: Exec)
    requires TablesOk(x) && x.row.Some? && text != ""
    ensures Apply(b, Log(stream, text), x) == WithEvent(z, LogEvent(l), Running)
    ensures z.logs == x.logs + [l] && z.row == Some(WithChunk(x.row.value, l.seqNo, l.stream, l.text)) && z.events == x.events
    ensures LogsOk(z.logs) && ColumnsOk(z.row.value, z.logs) && ExpectedLogKinds(z.logs) == ExpectedLogKinds(x.logs) + [LogEvent(l)]
  {
    l := LogRow(NextLogSeq(x.logs), stream, text);
    LogsExtended(x.logs, l);
    ColumnsExtended(x.row.value, x.logs, l);
    z := x.(logs := x.logs + [l], row := Some(WithChunk(x.row.value, l.seqNo, stream, text)));
  }

  lemma ColumnsExtended(r: Row, logs: seq<LogRow>, l: LogRow)
    requires ColumnsOk(r, logs) && l.seqNo == |logs| + 1
    requires Joined(logs + [l], l.stream) == Joined(logs, l.stream) + l.text
    requires forall st :: st != l.stream ==> Joined(logs + [l], st) == Joined(logs, st)
    ensures ColumnsOk(WithChunk(r, l.seqNo, l.stream, l.text), logs + [l])
  {
  }

  /** The tables after a chunk, put together from what its rows were. */
  lemma LoggedTablesOk(x: Exec, z: Exec, y: Exec, l: LogRow)
    requires TablesOk(x) && x.row.Some? && x.row.value.startedAt.Some?
    requires z.logs == x.logs + [l] && z.row == Some(WithChunk(x.row.value, l.seqNo, l.stream, l.text)) && z.events == x.events
    requires LogsOk(z.logs) && ColumnsOk(z.row.value, z.logs) && ExpectedLogKinds(z.logs) == ExpectedLogKinds(x.logs) + [LogEvent(l)]
    requires y.row == z.row && y.logs == z.logs && DenseEvents(y.events)
    requires LogKinds(y.events) == LogKinds(x.events) + [LogEvent(l)] && Lifecycle(y.events) == Lifecycle(x.events)
    ensures TablesOk(y)
  {
  }

  lemma LogsExtended(logs: seq<LogRow>, l: LogRow)
    requires LogsOk(logs) && l.seqNo == NextLogSeq(logs) && l.text != ""
    ensures l.seqNo == |logs| + 1 && LogsOk(logs + [l])
    ensures ExpectedLogKinds(logs + [l]) == ExpectedLogKinds(logs) + [LogEvent(l)]
    ensures Joined(logs + [l], l.stream) == Joined(logs, l.stream) + l.text
    ensures forall st :: st != l.stream ==> Joined(logs + [l], st) == Joined(logs, st)
  {
    NextLogSeqDense(logs);
    var more := logs + [l];
    assert more[..|more| - 1] == logs && more[|more| - 1] == l;
  }

  // ---------- what a transaction may change ----------

  predicate IsPrefix<T(==)>(a: seq<T>, b: seq<T>) {
    |a| <= |b| && b[..|a|] == a
  }

  /** The columns that no write touches once the row is terminal. */
  ghost predicate SameOutcome(r: Row, q: Row) {
    && r.status == q.status && r.finishedAt == q.finishedAt && r.exitCode == q.exitCode
    && r.timedOut == q.timedOut && r.errorDetail == q.errorDetail && r.startedAt == q.startedAt
  }

  function Rank(s: Status): nat {
    if s == Queued then 0 else if s == Running then 1 else 2
  }

  /** How the tables under one id may change over time. */
  ghost predicate Grows(x: Exec, y: Exec) {
    && IsPrefix(x.logs, y.logs)
    && IsPrefix(x.events, y.events)
    && (x.row.Some? ==>
          && y.row.Some?
          && Rank(x.row.value.status) <= Rank(y.row.value.status)
          && (x.row.value.startedAt.Some? ==> y.row.value.startedAt == x.row.value.startedAt)
          && (Rank(x.row.value.status) == Rank(y.row.value.status) ==> x.row.value.status == y.row.value.status)
          && (Terminal(x.row.value.status) ==> SameOutcome(x.row.value, y.row.value)))
  }

  lemma ApplyGrows(b: Backend, op: Op, x: Exec)
    ensures Grows(x, Apply(b, op, x))
  {
    var y := Apply(b, op, x);
    assert y.logs[..|x.logs|] == x.logs;
    assert y.events[..|x.events|] == x.events;
  }

  lemma GrowsReflexive(x: Exec)
    ensures Grows(x, x)
  {
    assert x.logs[..|x.logs|] == x.logs && x.events[..|x.events|] == x.events;
  }

  lemma GrowsTransitive(x: Exec, y: Exec, z: Exec)
    requires Grows(x, y) && Grows(y, z)
    ensures Grows(x, z)
  {
    assert z.logs[..|x.logs|] == z.logs[..|y.logs|][..|x.logs|];
    assert z.events[..|x.events|] == z.events[..|y.events|][..|x.events|];
  }
}
