/** The SQLite and the Postgres repository give the same run.

    Their SQL differs in two places: Postgres completes a run from `queued` as well as from
    `running`, and it records a timed-out failure as `execution.failed`. */
module SandboxBackends {
  import opened Wrappers
  import opened SandboxTables
  import opened OutputAccumulator
  import opened SandboxExecutor
  import opened SandboxService
  import opened SandboxProtocol
  import opened SandboxRuns

  /** The name under which Postgres records an event of SQLite. */
  function Blur(k: EventKind): EventKind {
    if k == EvTimedOut then EvFailed else k
  }

  /** The Postgres timeline is the SQLite timeline with every timed-out failure recorded as a failure. */
  ghost predicate SameTimeline(e: seq<EventRow>, f: seq<EventRow>) {
    |e| == |f| && forall i :: 0 <= i < |e| ==> SameEvent(e[i], f[i])
  }

  ghost predicate SameEvent(e: EventRow, f: EventRow) {
    f == e.(kind := Blur(e.kind))
  }

  ghost predicate SameTables(x: Exec, y: Exec) {
    x.row == y.row && x.logs == y.logs && SameTimeline(x.events, y.events)
  }

  lemma {:induction false} SameNextEventSeq(e: seq<EventRow>, f: seq<EventRow>)
    requires SameTimeline(e, f)
    ensures NextEventSeq(e) == NextEventSeq(f)
  {
    if e != [] {
      SameNextEventSeq(e[..|e| - 1], f[..|f| - 1]);
      assert SameEvent(e[|e| - 1], f[|f| - 1]);
    }
  }

  lemma SameWithEvent(x: Exec, y: Exec, k: EventKind, l: EventKind, status: Status)
    requires SameTables(x, y) && l == Blur(k)
    ensures SameTables(WithEvent(x, k, status), WithEvent(y, l, status))
  {
    SameNextEventSeq(x.events, y.events);
  }

  /** No completion of a queued row, which is the only statement on which the two guards differ, and no
      lifecycle event by hand. */
  ghost predicate NotEarly(op: Op, x: Exec) {
    && (op.Complete? && x.row.Some? ==> x.row.value.status != Queued)
    && (op.Note? ==> IsNote(op.kind))
  }

  lemma SameApply(op: Op, x: Exec, y: Exec)
    requires SameTables(x, y) && NotEarly(op, x)
    ensures SameTables(Apply(Sqlite, op, x), Apply(Postgres, op, y))
  {
    match op
    case Create(timeoutSec) =>
      var row := Some(FreshRow(timeoutSec));
      SameWithEvent(x.(row := row), y.(row := row), EvQueued, EvQueued, Queued);
    case Note(kind, status) => SameWithEvent(x, y, kind, kind, status);
    case Log(stream, text) => SameLog(stream, text, x, y);
    case _ => SameMark(op, x, y);
  }

  lemma SameLog(stream: Stream, text: string, x: Exec, y: Exec)
    requires SameTables(x, y)
    ensures SameTables(Apply(Sqlite, Log(stream, text), x), Apply(Postgres, Log(stream, text), y))
  {
    var l := LogRow(NextLogSeq(x.logs), stream, text);
    var row := if x.row.Some? then Some(WithChunk(x.row.value, l.seqNo, stream, text)) else None;
    var logs := x.logs + [l];
    SameWithEvent(x.(logs := logs, row := row), y.(logs := logs, row := row), LogEvent(l), LogEvent(l), Running);
  }

  lemma SameMark(op: Op, x: Exec, y: Exec)
    requires SameTables(x, y) && NotEarly(op, x) && IsMark(op)
    ensures SameTables(Apply(Sqlite, op, x), Apply(Postgres, op, y))
  {
    if Hits(Sqlite, op, x) {
      var row := Some(Updated(op, x.row.value));
      SameWithEvent(x.(row := row), y.(row := row), MarkKind(Sqlite, op), MarkKind(Postgres, op), Target(op));
    }
  }

  // ---------- steps ----------

  lemma SameLogIfAny(stream: Stream, t: Option<string>, x: Exec, y: Exec)
    requires SameTables(x, y)
    ensures SameTables(LogIfAny(Sqlite, stream, t, x), LogIfAny(Postgres, stream, t, y))
  {
    if t.Some? && t.value != "" {
      SameLog(stream, t.value, x, y);
    }
  }

  lemma SameExecStep(maxBytes: int, pc: Pc, env: Env, x: Exec, y: Exec)
    requires SameTables(x, y) && TablesOk(x) && PcOk(pc, x)
    ensures var (p, x') := ExecStep(Sqlite, maxBytes, pc, env, x);
            var (q, y') := ExecStep(Postgres, maxBytes, pc, env, y);
            p == q && SameTables(x', y')
  {
    if pc.Streaming? {
      SameStreamStep(maxBytes, pc, env, x, y);
    } else if pc.DrainOut? {
      SameLogIfAny(Stdout, Append(pc.out, pc.result.stdout).1, x, y);
    } else if pc.DrainErr? {
      SameLogIfAny(Stderr, Append(pc.err, pc.result.stderr).1, x, y);
    } else if pc.Admitted? {
      SameMark(Cancel(env.now, CANCELLED_BEFORE_START), x, y);
      SameMark(Start(env.now), x, y);
    } else if pc.Broke? || pc.Settle? {
      SameLastStep(maxBytes, pc, env, x, y);
    }
  }

  lemma SameStreamStep(maxBytes: int, pc: Pc, env: Env, x: Exec, y: Exec)
    requires SameTables(x, y) && pc.Streaming?
    ensures var (p, x') := ExecStep(Sqlite, maxBytes, pc, env, x);
            var (q, y') := ExecStep(Postgres, maxBytes, pc, env, y);
            p == q && SameTables(x', y')
  {
    if env.next.Yields? && env.next.item.Chunk? {
      var stream, text := env.next.item.stream, env.next.item.text;
      SameLogIfAny(stream, Append(if stream == Stdout then pc.out else pc.err, text).1, x, y);
    }
  }

  lemma SameLastStep(maxBytes: int, pc: Pc, env: Env, x: Exec, y: Exec)
    requires SameTables(x, y) && TablesOk(x) && PcOk(pc, x) && (pc.Broke? || pc.Settle?)
    ensures var (p, x') := ExecStep(Sqlite, maxBytes, pc, env, x);
            var (q, y') := ExecStep(Postgres, maxBytes, pc, env, y);
            p == q && SameTables(x', y')
  {
    var out, err := pc.out.Text(), pc.err.Text();
    var op := if pc.Settle? then SettleOp(env.now, out, err, pc.result)
              else if env.cancelRequested then Cancel(env.now, CANCELLED_BY_REQUEST)
              else Fail(env.now, out, err, false, pc.detail, None);
    SameMark(op, x, y);
    assert ExecStep(Sqlite, maxBytes, pc, env, x) == (Returned(true), Apply(Sqlite, op, x));
    assert ExecStep(Postgres, maxBytes, pc, env, y) == (Returned(true), Apply(Postgres, op, y));
  }

  lemma SameCanceller(cp: CancelPc, env: Env, x: Exec, y: Exec)
    requires SameTables(x, y) && x.row.Some?
    ensures var (p, x') := CancellerStep(Sqlite, cp, env, x);
            var (q, y') := CancellerStep(Postgres, cp, env, y);
            p == q && SameTables(x', y')
  {
    SameMark(Cancel(env.now, CANCELLED_BEFORE_START), x, y);
    SameWithEvent(x, y, EvCancelRequested, EvCancelRequested, Running);
  }

  lemma SameReaper(rp: ReapPc, env: Env, x: Exec, y: Exec)
    requires SameTables(x, y) && x.row.Some?
    ensures var (p, x') := ReaperStep(Sqlite, rp, env, x);
            var (q, y') := ReaperStep(Postgres, rp, env, y);
            p == q && SameTables(x', y')
  {
    if rp.ReapAnnounced? {
      SameMark(ReapOp(env.now, rp.record), x, y);
    }
    SameWithEvent(x, y, EvRecovered, EvRecovered, Running);
  }

  lemma SameThreadStep(maxBytes: int, t: Thread, env: Env, x: Exec, y: Exec, end: Option<nat>)
    requires SameTables(x, y) && TablesOk(x) && ThreadOk(t, x, end) && x.row.Some?
    ensures var (p, x') := ThreadStep(Sqlite, maxBytes, t, env, x);
            var (q, y') := ThreadStep(Postgres, maxBytes, t, env, y);
            p == q && SameTables(x', y')
  {
    match t
    case Executor(pc) => SameExecStep(maxBytes, pc, env, x, y);
    case Canceller(cp) => SameCanceller(cp, env, x, y);
    case Reaper(rp) => SameReaper(rp, env, x, y);
    case Reader(_, _, _, _, _) =>
  }

  ghost predicate SameSys(s: Sys, u: Sys) {
    SameTables(s.x, u.x) && s.threads == u.threads && s.providerRuns == u.providerRuns && s.chunksAtEnd == u.chunksAtEnd
  }

  lemma SameWithTables(s: Sys, u: Sys, x: Exec, y: Exec)
    requires SameSys(s, u) && SameTables(x, y)
    ensures SameSys(WithTables(s, x), WithTables(u, y))
  {
  }

  /** A transaction outside any thread. */
  lemma SameOutside(op: Op, s: Sys, u: Sys)
    requires SameSys(s, u) && NotEarly(op, s.x)
    ensures SameSys(WithTables(s, Apply(Sqlite, op, s.x)), WithTables(u, Apply(Postgres, op, u.x)))
  {
    SameApply(op, s.x, u.x);
    SameWithTables(s, u, Apply(Sqlite, op, s.x), Apply(Postgres, op, u.x));
  }

  lemma SameNext(maxBytes: int, s: Sys, u: Sys, a: Action)
    requires SameSys(s, u) && Inv(s)
    ensures SameSys(Next(Sqlite, maxBytes, s, a), Next(Postgres, maxBytes, u, a))
  {
    assert Enabled(s, a) == Enabled(u, a);
    if Enabled(s, a) {
      match a
      case CreateIt(timeoutSec) => SameOutside(Create(timeoutSec), s, u);
      case Advance(tid, env) => SameAdvance(maxBytes, s, u, tid, env);
      case Annotate(kind, status) => SameOutside(Note(kind, status), s, u);
      case DenyIt(now, detail) => SameOutside(Deny(now, detail), s, u);
      case _ =>
    }
  }

  lemma SameAdvance(maxBytes: int, s: Sys, u: Sys, tid: nat, env: Env)
    requires SameSys(s, u) && Inv(s)
    ensures SameSys(Next(Sqlite, maxBytes, s, Advance(tid, env)), Next(Postgres, maxBytes, u, Advance(tid, env)))
  {
    if tid in s.threads && s.x.row.Some? {
      SameThreadStep(maxBytes, s.threads[tid], env, s.x, u.x, s.chunksAtEnd);
    }
  }

  // ---------- runs ----------

  lemma {:induction false} SameRun(maxBytes: int, s: Sys, u: Sys, actions: seq<Action>)
    requires SameSys(s, u) && Inv(s)
    ensures SameSys(Run(Sqlite, maxBytes, s, actions), Run(Postgres, maxBytes, u, actions))
    decreases actions
  {
    if actions != [] {
      SameNext(maxBytes, s, u, actions[0]);
      NextKeepsInv(Sqlite, maxBytes, s, actions[0]);
      SameRun(maxBytes, Next(Sqlite, maxBytes, s, actions[0]), Next(Postgres, maxBytes, u, actions[0]), actions[1..]);
    }
  }

  /** On every run that the application can produce the two repositories hold the same row, the same
      log, the same threads and the same timeline, where Postgres names a timed-out failure a failure. */
  lemma BackendsAgree(maxBytes: int, actions: seq<Action>)
    ensures SameSys(Run(Sqlite, maxBytes, START, actions), Run(Postgres, maxBytes, START, actions))
  {
    StartOk();
    SameRun(maxBytes, START, START, actions);
  }

  predicate HasTimeout(events: seq<EventRow>) {
    exists i :: 0 <= i < |events| && events[i].kind == EvTimedOut
  }

  lemma SameExactly(e: seq<EventRow>, f: seq<EventRow>)
    requires SameTimeline(e, f)
    ensures e == f <==> !HasTimeout(e)
    ensures !HasTimeout(f)
  {
    forall i | 0 <= i < |f|
      ensures f[i].kind != EvTimedOut && (e[i] == f[i] <==> e[i].kind != EvTimedOut)
    {
      assert SameEvent(e[i], f[i]);
    }
  }

  /** So the two timelines are equal exactly when SQLite's records no timed-out failure, and Postgres never
      records one. */
  lemma TimelinesExact(maxBytes: int, actions: seq<Action>)
    ensures var e := Run(Sqlite, maxBytes, START, actions).x.events;
            var f := Run(Postgres, maxBytes, START, actions).x.events;
            && |e| == |f| && (forall i :: 0 <= i < |e| ==> f[i] == e[i].(kind := Blur(e[i].kind)))
            && (e == f <==> !HasTimeout(e))
            && !HasTimeout(f)
  {
    BackendsAgree(maxBytes, actions);
    var e := Run(Sqlite, maxBytes, START, actions).x.events;
    var f := Run(Postgres, maxBytes, START, actions).x.events;
    SameExactly(e, f);
    forall i | 0 <= i < |e|
      ensures f[i] == e[i].(kind := Blur(e[i].kind))
    {
      assert SameEvent(e[i], f[i]);
    }
  }
}
