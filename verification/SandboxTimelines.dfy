/** What the columns and the timeline of an execution say in every run, each column and each event on its own. */
module SandboxTimelines {
  import opened Wrappers
  import opened Utf8
  import opened SandboxTables
  import opened SandboxExecutor
  import opened OutputAccumulator
  import opened SandboxService
  import opened SandboxProtocol
  import opened SandboxRuns

  // ---------- the columns ----------

  /** When each column is filled: the end with the end, the error with an end that is not a completion, the exit code
      and the timeout only by a run, and a denied or queued execution was never started. */
  ghost predicate ColumnsTell(r: Row) {
    && (r.finishedAt.Some? <==> r.status != Queued && r.status != Running)
    && (r.errorDetail.Some? <==> r.status == Failed || r.status == Denied || r.status == Cancelled)
    && (r.timedOut ==> r.status == Failed)
    && (r.status == Completed ==> r.exitCode.Some?)
    && (r.exitCode.Some? ==> r.status == Completed || r.status == Failed)
    && (r.status == Queued || r.status == Denied ==> r.startedAt.None?)
    && (r.status == Running ==> r.startedAt.Some?)
  }

  /** The execution exists with this timeout. */
  ghost predicate RowTells(timeoutSec: Option<int>, x: Exec) {
    && (x.row.Some? <==> timeoutSec.Some?)
    && (x.row.Some? ==> ColumnsTell(x.row.value) && x.row.value.timeoutSec == timeoutSec.value)
  }

  // ---------- the timeline ----------

  /** An event carries its number, and the status column that its kind stands for. */
  ghost predicate EventTells(e: EventRow, n: nat) {
    && e.seqNo == n
    && (e.kind == EvQueued ==> e.status == Queued)
    && (e.kind == EvStarted || e.kind.EvLog? ==> e.status == Running)
    && (e.kind == EvCompleted ==> e.status == Completed)
    && (e.kind == EvFailed || e.kind == EvTimedOut ==> e.status == Failed)
    && (e.kind == EvDenied ==> e.status == Denied)
    && (e.kind == EvCancelled ==> e.status == Cancelled)
  }

  ghost predicate TimelineTells(events: seq<EventRow>) {
    forall i :: 0 <= i < |events| ==> EventTells(events[i], i + 1)
  }

  // ---------- one transaction ----------

  lemma EventTold(x: Exec, kind: EventKind, status: Status)
    requires TimelineTells(x.events) && EventTells(EventRow(|x.events| + 1, kind, status), |x.events| + 1)
    ensures TimelineTells(WithEvent(x, kind, status).events)
  {
    NextEventSeqDense(x.events);
  }

  /** What the execution's timeout is after a transaction. */
  function Created(op: Op, timeoutSec: Option<int>): Option<int> {
    if op.Create? && timeoutSec.None? then Some(op.timeoutSec) else timeoutSec
  }

  ghost predicate Tells(timeoutSec: Option<int>, x: Exec) { RowTells(timeoutSec, x) && TimelineTells(x.events) }

  lemma ApplyTells(b: Backend, op: Op, timeoutSec: Option<int>, x: Exec)
    requires Tells(timeoutSec, x) && (op.Note? ==> IsNote(op.kind))
    ensures Tells(Created(op, timeoutSec), Apply(b, op, x))
  {
    match op
    case Create(seconds) =>
      if x.row.None? {
        EventTold(x.(row := Some(FreshRow(seconds))), EvQueued, Queued);
      }
    case Note(kind, status) =>
      EventTold(x, kind, status);
    case Log(stream, text) =>
      var l := LogRow(NextLogSeq(x.logs), stream, text);
      var row := if x.row.Some? then Some(WithChunk(x.row.value, l.seqNo, stream, text)) else None;
      EventTold(x.(logs := x.logs + [l], row := row), LogEvent(l), Running);
    case _ =>
      if Hits(b, op, x) {
        EventTold(x.(row := Some(Updated(op, x.row.value))), MarkKind(b, op), Target(op));
      }
  }

  lemma LogTells(b: Backend, stream: Stream, out: Option<string>, timeoutSec: Option<int>, x: Exec)
    requires Tells(timeoutSec, x)
    ensures Tells(timeoutSec, LogIfAny(b, stream, out, x))
  {
    if out.Some? && out.value != "" {
      ApplyTells(b, Log(stream, out.value), timeoutSec, x);
    }
  }

  // ---------- one action ----------

  lemma ExecStepTells(b: Backend, maxBytes: int, pc: Pc, env: Env, timeoutSec: Option<int>, x: Exec)
    requires Tells(timeoutSec, x)
    ensures Tells(timeoutSec, ExecStep(b, maxBytes, pc, env, x).1)
  {
    match pc
    case Streaming(out, err, final) =>
      if env.next.Yields? && env.next.item.Chunk? {
        var stream := env.next.item.stream;
        LogTells(b, stream, Append(if stream == Stdout then out else err, env.next.item.text).1, timeoutSec, x);
      }
    case DrainOut(out, err, r) => LogTells(b, Stdout, Append(out, r.stdout).1, timeoutSec, x);
    case DrainErr(out, err, r) => LogTells(b, Stderr, Append(err, r.stderr).1, timeoutSec, x);
    case _ => MarkStepTells(b, maxBytes, pc, env, timeoutSec, x);
  }

  lemma MarkStepTells(b: Backend, maxBytes: int, pc: Pc, env: Env, timeoutSec: Option<int>, x: Exec)
    requires Tells(timeoutSec, x) && !pc.Streaming? && !pc.DrainOut? && !pc.DrainErr?
    ensures Tells(timeoutSec, ExecStep(b, maxBytes, pc, env, x).1)
  {
    if pc.Admitted? {
      ApplyTells(b, if env.cancelRequested then Cancel(env.now, CANCELLED_BEFORE_START) else Start(env.now), timeoutSec, x);
    } else if pc.Broke? || pc.Settle? {
      var op := if pc.Settle? then SettleOp(env.now, pc.out.Text(), pc.err.Text(), pc.result)
                else if env.cancelRequested then Cancel(env.now, CANCELLED_BY_REQUEST)
                else Fail(env.now, pc.out.Text(), pc.err.Text(), false, pc.detail, None);
      ApplyTells(b, op, timeoutSec, x);
    }
  }

  lemma ThreadStepTells(b: Backend, maxBytes: int, t: Thread, env: Env, timeoutSec: Option<int>, x: Exec)
    requires Tells(timeoutSec, x) && x.row.Some?
    ensures Tells(timeoutSec, ThreadStep(b, maxBytes, t, env, x).1)
  {
    match t
    case Executor(pc) => ExecStepTells(b, maxBytes, pc, env, timeoutSec, x);
    case Canceller(cp) =>
      if cp.CancelSawQueued? {
        ApplyTells(b, Cancel(env.now, CANCELLED_BEFORE_START), timeoutSec, x);
      } else if cp.CancelSawRunning? {
        ApplyTells(b, Note(EvCancelRequested, Running), timeoutSec, x);
      }
    case Reaper(rp) =>
      if rp.ReapRead? {
        ApplyTells(b, Note(EvRecovered, Running), timeoutSec, x);
      } else if rp.ReapAnnounced? {
        ApplyTells(b, ReapOp(env.now, rp.record), timeoutSec, x);
      }
    case Reader(_, _, _, _, _) =>
  }

  /** The timeout that the first creation asks for. */
  function FirstCreated(timeoutSec: Option<int>, actions: seq<Action>): Option<int> {
    if actions == [] then timeoutSec
    else if timeoutSec.None? && actions[0].CreateIt? then Some(actions[0].timeoutSec)
    else FirstCreated(timeoutSec, actions[1..])
  }

  lemma NextTells(b: Backend, maxBytes: int, s: Sys, a: Action, timeoutSec: Option<int>) returns (x: Exec)
    requires Tells(timeoutSec, s.x)
    ensures x == Next(b, maxBytes, s, a).x
    ensures Tells(if a.CreateIt? && timeoutSec.None? then Some(a.timeoutSec) else timeoutSec, x)
  {
    x := Next(b, maxBytes, s, a).x;
    if Enabled(s, a) {
      match a
      case CreateIt(seconds) => ApplyTells(b, Create(seconds), timeoutSec, s.x);
      case Annotate(kind, status) => ApplyTells(b, Note(kind, status), timeoutSec, s.x);
      case DenyIt(now, detail) => ApplyTells(b, Deny(now, detail), timeoutSec, s.x);
      case Advance(tid, env) =>
        if s.x.row.Some? {
          ThreadStepTells(b, maxBytes, s.threads[tid], env, timeoutSec, s.x);
        }
      case _ =>
    }
  }

  // ---------- every run ----------

  lemma {:induction false} FirstStays(timeoutSec: Option<int>, actions: seq<Action>)
    requires timeoutSec.Some?
    ensures FirstCreated(timeoutSec, actions) == timeoutSec
  {
    if actions != [] {
      FirstStays(timeoutSec, actions[1..]);
    }
  }

  lemma {:induction false} RunTells(b: Backend, maxBytes: int, s: Sys, actions: seq<Action>, timeoutSec: Option<int>)
    requires Tells(timeoutSec, s.x)
    ensures Tells(FirstCreated(timeoutSec, actions), Run(b, maxBytes, s, actions).x)
    decreases |actions|
  {
    if actions != [] {
      var a := actions[0];
      var x := NextTells(b, maxBytes, s, a, timeoutSec);
      RunTells(b, maxBytes, Next(b, maxBytes, s, a), actions[1..],
               if a.CreateIt? && timeoutSec.None? then Some(a.timeoutSec) else timeoutSec);
      if a.CreateIt? && timeoutSec.None? {
        FirstStays(Some(a.timeoutSec), actions[1..]);
      }
    }
  }

  /** In every run the execution exists from its first creation on, with that creation's timeout; each column is
      filled exactly when the status says so, and each event has its number and the status of its kind. */
  lemma ColumnsOfEveryRun(b: Backend, maxBytes: int, actions: seq<Action>)
    ensures var x := Run(b, maxBytes, START, actions).x;
            RowTells(FirstCreated(None, actions), x) && TimelineTells(x.events)
  {
    RunTells(b, maxBytes, START, actions, None);
  }

  /** The i-th log event names the stream, the number and the size in bytes of the i-th chunk. */
  ghost predicate LogEventsTell(kinds: seq<EventKind>, logs: seq<LogRow>) {
    && |kinds| == |logs|
    && forall i :: 0 <= i < |logs| ==> kinds[i] == EvLog(logs[i].stream, i + 1, |Encode(logs[i].text)|)
  }

  lemma {:induction false} ExpectedTell(logs: seq<LogRow>)
    requires DenseLogs(logs)
    ensures LogEventsTell(ExpectedLogKinds(logs), logs)
  {
    if logs != [] {
      var front, l := logs[..|logs| - 1], logs[|logs| - 1];
      ExpectedTell(front);
      ByteLenIsEncodedLength(l.text);
      assert forall i :: 0 <= i < |front| ==> front[i] == logs[i];
    }
  }

  /** In every run the log events tell the log. */
  lemma LogEventsOfEveryRun(b: Backend, maxBytes: int, actions: seq<Action>)
    ensures var x := Run(b, maxBytes, START, actions).x;
            LogEventsTell(LogKinds(x.events), x.logs)
  {
    LogOfEveryRun(b, maxBytes, actions);
    ExpectedTell(Run(b, maxBytes, START, actions).x.logs);
  }
}
