/** The SQLite repository: one object whose methods each run one serial write transaction. */
module SqliteSandboxStore {
  import opened Wrappers
  import opened SandboxTables

  type ExecutionId = string

  /** A log row with its effect on the parent row. */
  function WithLogRow(x: Exec, l: LogRow): Exec {
    Exec(if x.row.Some? then Some(WithChunk(x.row.value, l.seqNo, l.stream, l.text)) else None, x.logs + [l], x.events)
  }

  lemma LogIsRowThenEvent(x: Exec, stream: Stream, text: string)
    ensures var l := LogRow(NextLogSeq(x.logs), stream, text);
            Apply(Sqlite, Log(stream, text), x) == WithEvent(WithLogRow(x, l), LogEvent(l), Running)
  {
  }

  class SqliteExecutionStore {
    var executions: map<ExecutionId, Row>
    var order: seq<ExecutionId>  // ids in the order of creation
    var logs: map<ExecutionId, seq<LogRow>>
    var events: map<ExecutionId, seq<EventRow>>

    ghost predicate Valid() reads this {
      && (forall id :: id in order <==> id in executions)
      && NoneTwice(order)
    }

    /** What the tables hold under one id. */
    ghost function View(id: ExecutionId): Exec reads this {
      Exec(if id in executions then Some(executions[id]) else None,
           if id in logs then logs[id] else [],
           if id in events then events[id] else [])
    }

    constructor ()
      ensures Valid() && forall id :: View(id) == NOTHING
    {
      executions, order, logs, events := map[], [], map[], map[];
    }

    /** The INSERT into the event table that every transaction ends with. */
    method AppendEventInTransaction(id: ExecutionId, kind: EventKind, status: Status)
      requires Valid()
      modifies this`events
      ensures Valid() && View(id) == WithEvent(old(View(id)), kind, status)
      ensures forall o :: o != id ==> View(o) == old(View(o))
    {
      var rows := if id in events then events[id] else [];
      var n := NextScopedEventSequence(rows);
      events := events[id := rows + [EventRow(n, kind, status)]];
    }

    method CreateExecution(id: ExecutionId, timeoutSec: int) returns (created: bool)
      requires Valid()
      modifies this
      ensures Valid() && View(id) == Apply(Sqlite, Create(timeoutSec), old(View(id)))
      ensures created <==> old(View(id)).row.None?
      ensures forall o :: o != id ==> View(o) == old(View(o))
    {
      if id in executions {
        return false;
      }
      executions := executions[id := FreshRow(timeoutSec)];
      order := order + [id];
      AppendEventInTransaction(id, EvQueued, Queued);
      return true;
    }

    /** One guarded UPDATE with its event: both happen or neither. */
    method Mark(id: ExecutionId, op: Op) returns (updated: bool)
      requires Valid() && IsMark(op)
      modifies this`executions, this`events
      ensures Valid() && View(id) == Apply(Sqlite, op, old(View(id)))
      ensures updated <==> Hits(Sqlite, op, old(View(id)))
      ensures forall o :: o != id ==> View(o) == old(View(o))
    {
      if id !in executions || !Guard(Sqlite, op, executions[id].status) {
        return false;
      }
      executions := executions[id := Updated(op, executions[id])];
      AppendEventInTransaction(id, MarkKind(Sqlite, op), Target(op));
      return true;
    }

    method GetExecution(id: ExecutionId) returns (record: Option<Row>)
      ensures record == View(id).row
    {
      record := if id in executions then Some(executions[id]) else None;
    }

    method AppendExecutionEvent(id: ExecutionId, kind: EventKind, status: Status)
      requires Valid()
      modifies this`events
      ensures Valid() && View(id) == Apply(Sqlite, Note(kind, status), old(View(id)))
      ensures forall o :: o != id ==> View(o) == old(View(o))
    {
      AppendEventInTransaction(id, kind, status);
    }

    /** The log row, the parent's `last_log_seq` and its stream column. */
    method WriteChunk(id: ExecutionId, stream: Stream, text: string) returns (l: LogRow)
      requires Valid()
      modifies this`executions, this`logs
      ensures Valid() && l == LogRow(NextLogSeq(old(View(id)).logs), stream, text)
      ensures View(id) == WithLogRow(old(View(id)), l)
      ensures forall o :: o != id ==> View(o) == old(View(o))
    {
      var rows := if id in logs then logs[id] else [];
      var n := NextScopedLogSequence(rows);
      l := LogRow(n, stream, text);
      logs := logs[id := rows + [l]];
      if id in executions {
        executions := executions[id := WithChunk(executions[id], n, stream, text)];
      }
    }

    method AppendLogChunk(id: ExecutionId, stream: Stream, text: string) returns (n: nat)
      requires Valid()
      modifies this
      ensures Valid() && View(id) == Apply(Sqlite, Log(stream, text), old(View(id)))
      ensures n == NextLogSeq(old(View(id)).logs)
      ensures forall o :: o != id ==> View(o) == old(View(o))
    {
      LogIsRowThenEvent(View(id), stream, text);
      var l := WriteChunk(id, stream, text);
      n := l.seqNo;
      AppendEventInTransaction(id, LogEvent(l), Running);
    }

    method ListChunks(id: ExecutionId, after: nat) returns (rows: seq<LogRow>)
      ensures rows == ListLogChunks(View(id).logs, after)
    {
      rows := ListLogChunks(if id in logs then logs[id] else [], after);
    }

    /** Ids with the given status, each once, in the order in which the executions were queued. */
    method ListExecutionIdsByStatus(status: Status) returns (ids: seq<ExecutionId>)
      requires Valid()
      ensures ids == WithStatus(order, executions, status)
      ensures forall id :: id in ids <==> id in executions && executions[id].status == status
      ensures NoneTwice(ids)
    {
      ids := [];
      for i := 0 to |order|
        invariant ids == WithStatus(order[..i], executions, status)
      {
        var id := order[i];
        WithStatusSnoc(order, executions, status, i);
        if executions[id].status == status {
          ids := ids + [id];
        }
      }
      assert order[..|order|] == order;
      WithStatusMembers(order, executions, status);
    }
  }

  /** The ids of a list that have a status, in the order of the list. */
  function WithStatus(order: seq<ExecutionId>, executions: map<ExecutionId, Row>, status: Status): seq<ExecutionId> {
    if order == [] then []
    else
      var front, id := WithStatus(order[..|order| - 1], executions, status), order[|order| - 1];
      if id in executions && executions[id].status == status then front + [id] else front
  }

  ghost predicate NoneTwice(ids: seq<ExecutionId>) { forall i, j :: 0 <= i < j < |ids| ==> ids[i] != ids[j] }

  lemma {:induction false} WithStatusMembers(order: seq<ExecutionId>, executions: map<ExecutionId, Row>, status: Status)
    ensures forall id :: id in WithStatus(order, executions, status) <==>
              id in order && id in executions && executions[id].status == status
    ensures NoneTwice(order) ==> NoneTwice(WithStatus(order, executions, status))
  {
    if order != [] {
      var front, last := order[..|order| - 1], order[|order| - 1];
      WithStatusMembers(front, executions, status);
      assert order == front + [last];
      if NoneTwice(order) {
        assert forall i :: 0 <= i < |front| ==> order[i] == front[i] && front[i] != last;
      }
    }
  }

  lemma WithStatusSnoc(order: seq<ExecutionId>, executions: map<ExecutionId, Row>, status: Status, i: nat)
    requires i < |order|
    ensures WithStatus(order[..i + 1], executions, status) ==
              var front := WithStatus(order[..i], executions, status);
              if order[i] in executions && executions[order[i]].status == status then front + [order[i]] else front
  {
    assert order[..i + 1][..i] == order[..i];
  }

  /** COALESCE(MAX(seq), 0) + 1, computed over the rows of the scope. */
  method NextScopedLogSequence(rows: seq<LogRow>) returns (n: nat)
    ensures n == NextLogSeq(rows)
  {
    n := 1;
    for i := 0 to |rows|
      invariant n == NextLogSeq(rows[..i])
    {
      assert rows[..i + 1][..i] == rows[..i];
      if rows[i].seqNo >= n {
        n := rows[i].seqNo + 1;
      }
    }
    assert rows[..|rows|] == rows;
  }

  method NextScopedEventSequence(rows: seq<EventRow>) returns (n: nat)
    ensures n == NextEventSeq(rows)
  {
    n := 1;
    for i := 0 to |rows|
      invariant n == NextEventSeq(rows[..i])
    {
      assert rows[..i + 1][..i] == rows[..i];
      if rows[i].seqNo >= n {
        n := rows[i].seqNo + 1;
      }
    }
    assert rows[..|rows|] == rows;
  }
}
