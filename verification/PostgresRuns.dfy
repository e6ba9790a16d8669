/** Runs of the application on interleaved Postgres transactions, against runs of the protocol.

    As long as no append of a streaming executor fails, the committed tables and the threads are those of a run
    of `SandboxProtocol`. An executor that catches such a failure carries text that was never logged, and the
    stream columns end apart from the log exactly when it goes on to fail a row that is still alive. */
module PostgresRuns {
  import opened Wrappers
  import opened SandboxTables
  import opened OutputAccumulator
  import opened SqliteSandboxStore
  import opened SandboxExecutor
  import opened SandboxProtocol
  import opened SandboxRuns
  import opened PostgresProtocol

  // ---------- torn columns ----------

  /** An executor that caught a failed append fails the run, with text that is not in the log. It can be told
      before the commit: the poll has found no cancel, and the row is alive. */
  predicate Tears(v: View, h: Happening) {
    && h.Steps? && h.tid in v.struck && !h.env.cancelRequested
    && v.x.row.Some? && !Terminal(v.x.row.value.status)
  }

  /** One of the moves tore the columns off the log. */
  predicate IsTorn(maxBytes: int, id: ExecutionId, moves: seq<Move>) {
    exists i :: 0 <= i < |moves| && TearsAt(maxBytes, id, moves, i)
  }

  predicate TearsAt(maxBytes: int, id: ExecutionId, moves: seq<Move>, i: nat)
    requires i < |moves|
  {
    var app := AppRun(maxBytes, id, moves[..i]);
    Tears(ViewOf(id, app), HappeningOf(id, app, moves[i]))
  }

  lemma TornSnoc(maxBytes: int, id: ExecutionId, moves: seq<Move>, m: Move)
    ensures var app := AppRun(maxBytes, id, moves);
            IsTorn(maxBytes, id, moves + [m]) <==> IsTorn(maxBytes, id, moves) || Tears(ViewOf(id, app), HappeningOf(id, app, m))
  {
    var more := moves + [m];
    assert more[..|moves|] == moves;
    forall i | 0 <= i < |moves|
      ensures TearsAt(maxBytes, id, more, i) <==> TearsAt(maxBytes, id, moves, i)
    {
      assert more[..i] == moves[..i];
    }
    assert TearsAt(maxBytes, id, more, |moves|) <==>
           var app := AppRun(maxBytes, id, moves); Tears(ViewOf(id, app), HappeningOf(id, app, m));
  }

  // ---------- close to the protocol ----------

  function TextOf(r: Row): nat { |r.stdout| + |r.stderr| }

  /** Torn tables are those of the protocol but for longer stream columns on a failed row. */
  ghost predicate TablesNear(y: Exec, x: Exec, torn: bool) {
    if !torn then y == x
    else
      && x.row.Some? && x.row.value.status == Failed && y.row.Some?
      && y == x.(row := Some(x.row.value.(stdout := y.row.value.stdout, stderr := y.row.value.stderr)))
      && TextOf(y.row.value) > TextOf(x.row.value)
  }

  /** An executor that caught a failed append is where the protocol has one whose provider raised, with more text. */
  predicate Ahead(a: Thread, c: Thread) {
    && a.Executor? && a.pc.Broke? && c.Executor? && c.pc.Broke? && a.pc.detail == c.pc.detail
    && |a.pc.out.Text()| + |a.pc.err.Text()| > |c.pc.out.Text()| + |c.pc.err.Text()|
  }

  ghost predicate ThreadsNear(v: View, threads: map<nat, Thread>) {
    && v.threads.Keys == threads.Keys && v.struck <= v.threads.Keys
    && forall u :: u in v.threads ==> if u in v.struck then Ahead(v.threads[u], threads[u]) else v.threads[u] == threads[u]
  }

  ghost predicate NoReaper(threads: map<nat, Thread>) { forall u :: u in threads ==> !Reaps(threads[u]) }

  ghost predicate Near(v: View, s: Sys, torn: bool) {
    && Inv(s)
    && TablesNear(v.x, s.x, torn)
    && ThreadsNear(v, s.threads)
    && (torn ==> NoReaper(v.threads))
  }

  /** The action of the protocol that shows a happening, if any: a caught failure looks like a provider that raises. */
  function ActionOf(h: Happening): Option<Action> {
    match h
    case Nothing => None
    case Steps(tid, env) => Some(Advance(tid, env))
    case Acts(a) => Some(a)
    case Catches(tid, env) => Some(Advance(tid, env.(next := Raises)))
    case Goes(tid) => Some(Leave(tid))
    case Comes(tid, thread) => Some(Spawn(tid, thread))
    case AllGo => Some(Crash)
  }

  function After(maxBytes: int, s: Sys, a: Option<Action>): Sys {
    if a.Some? then Next(Postgres, maxBytes, s, a.value) else s
  }

  lemma AdvanceIs(maxBytes: int, s: Sys, tid: nat, env: Env) returns (s': Sys)
    requires Inv(s) && tid in s.threads
    ensures s' == Next(Postgres, maxBytes, s, Advance(tid, env)) && Inv(s') && s.x.row.Some?
    ensures s'.x == Done(OpOf(s.threads[tid], env), s.x)
    ensures s'.threads == s.threads[tid := ThreadStep(Postgres, maxBytes, s.threads[tid], env, s.x).0]
  {
    s' := Next(Postgres, maxBytes, s, Advance(tid, env));
    NextKeepsInv(Postgres, maxBytes, s, Advance(tid, env));
    StepIsOp(maxBytes, s.threads[tid], env, s.x);
  }

  /** Once the columns are torn nobody owns the run, and all threads are those of the protocol. */
  lemma TornIsQuiet(v: View, s: Sys)
    requires Near(v, s, true)
    ensures v.struck == {} && v.threads == s.threads
    ensures forall u :: u in v.threads ==> !IsOwner(v.threads[u]) && !Reaps(v.threads[u])
  {
    forall u | u in v.threads
      ensures u !in v.struck && !IsOwner(v.threads[u])
    {
      assert !IsOwner(s.threads[u]);
    }
  }

  /** The thread is the same on both sides after its step. */
  lemma SameAfterStep(v: View, x: Exec, threads: map<nat, Thread>, tid: nat, t: Thread)
    requires ThreadsNear(v, threads) && tid in v.threads
    ensures ThreadsNear(View(x, v.threads[tid := t], v.struck - {tid}), threads[tid := t])
  {
  }

  // ---------- a thread's step ----------

  lemma PlainStep(maxBytes: int, v: View, tid: nat, env: Env, s: Sys)
    requires Near(v, s, false) && tid in v.threads && tid !in v.struck && v.x.row.Some?
    ensures Near(Happens(maxBytes, v, Steps(tid, env)), Next(Postgres, maxBytes, s, Advance(tid, env)), false)
  {
    var s' := AdvanceIs(maxBytes, s, tid, env);
    SameAfterStep(v, s'.x, s.threads, tid, ThreadStep(Postgres, maxBytes, v.threads[tid], env, v.x).0);
  }

  /** On torn tables an operation of the threads that are left does the same as on those of the protocol. */
  lemma TornOp(op: Op, y: Exec, x: Exec)
    requires TablesNear(y, x, true) && !op.Log?
    ensures TablesNear(Apply(Postgres, op, y), Apply(Postgres, op, x), true)
  {
  }

  lemma TornThread(maxBytes: int, t: Thread, env: Env, y: Exec, x: Exec)
    requires TablesNear(y, x, true) && !IsOwner(t) && !Reaps(t)
    ensures TablesNear(Done(OpOf(t, env), y), Done(OpOf(t, env), x), true)
    ensures ThreadStep(Postgres, maxBytes, t, env, y).0 == ThreadStep(Postgres, maxBytes, t, env, x).0
    ensures !Reaps(ThreadStep(Postgres, maxBytes, t, env, x).0)
  {
    if OpOf(t, env).Some? {
      TornOp(OpOf(t, env).value, y, x);
    }
  }

  lemma TornStep(maxBytes: int, v: View, tid: nat, env: Env, s: Sys)
    requires Near(v, s, true) && tid in v.threads
    ensures Near(Happens(maxBytes, v, Steps(tid, env)), Next(Postgres, maxBytes, s, Advance(tid, env)), true)
  {
    TornIsQuiet(v, s);
    var s' := AdvanceIs(maxBytes, s, tid, env);
    TornThread(maxBytes, v.threads[tid], env, v.x, s.x);
  }

  /** The last step of an executor that caught a failed append. */
  lemma StruckOps(t: Thread, c: Thread, env: Env, x: Exec)
    requires Ahead(t, c) && x.row.Some?
    ensures TablesNear(Done(OpOf(t, env), x), Done(OpOf(c, env), x), !env.cancelRequested && !Terminal(x.row.value.status))
  {
  }

  lemma StruckStep(maxBytes: int, v: View, tid: nat, env: Env, s: Sys)
    requires Near(v, s, false) && tid in v.struck && v.x.row.Some?
    ensures var h := Steps(tid, env);
            Near(Happens(maxBytes, v, h), Next(Postgres, maxBytes, s, Advance(tid, env)), Tears(v, h))
  {
    var t, c := v.threads[tid], s.threads[tid];
    assert Ahead(t, c);
    var s' := AdvanceIs(maxBytes, s, tid, env);
    StruckOps(t, c, env, s.x);
    StruckReturns(maxBytes, t, env, s.x);
    StruckReturns(maxBytes, c, env, s.x);
    SameAfterStep(v, Done(OpOf(t, env), s.x), s.threads, tid, Executor(Returned(true)));
    OwnerMeetsNoReaper(s, tid);
    StillNoReaper(v, s.threads, tid);
  }

  lemma StruckReturns(maxBytes: int, t: Thread, env: Env, x: Exec)
    requires t.Executor? && t.pc.Broke? && x.row.Some?
    ensures ThreadStep(Postgres, maxBytes, t, env, x).0 == Executor(Returned(true))
  {
  }

  lemma StillNoReaper(v: View, threads: map<nat, Thread>, tid: nat)
    requires ThreadsNear(v, threads) && NoReaper(threads)
    ensures NoReaper(v.threads[tid := Executor(Returned(true))])
  {
  }

  lemma OwnerMeetsNoReaper(s: Sys, tid: nat)
    requires Inv(s) && tid in s.threads && IsOwner(s.threads[tid])
    ensures NoReaper(s.threads)
  {
  }

  lemma StepNear(maxBytes: int, v: View, tid: nat, env: Env, s: Sys, torn: bool)
    requires Near(v, s, torn) && May(v, Steps(tid, env))
    ensures var h := Steps(tid, env);
            Near(Happens(maxBytes, v, h), Next(Postgres, maxBytes, s, Advance(tid, env)), torn || Tears(v, h))
  {
    if torn {
      TornStep(maxBytes, v, tid, env, s);
    } else if tid in v.struck {
      StruckStep(maxBytes, v, tid, env, s);
    } else {
      PlainStep(maxBytes, v, tid, env, s);
    }
  }

  // ---------- the other happenings ----------

  lemma CaughtIsAhead(maxBytes: int, t: Thread, env: Env, x: Exec)
    requires Appends(t, env) && x.row.Some?
    ensures var raised := env.(next := Raises);
            && OpOf(t, raised).None?
            && Ahead(Caught(t, env), ThreadStep(Postgres, maxBytes, t, raised, x).0)
  {
    AppendGrowsText(if env.next.item.stream == Stdout then t.pc.out else t.pc.err, env.next.item.text);
  }

  lemma CatchNear(maxBytes: int, v: View, tid: nat, env: Env, s: Sys, torn: bool)
    requires Near(v, s, torn) && May(v, Catches(tid, env))
    ensures Near(Happens(maxBytes, v, Catches(tid, env)), Next(Postgres, maxBytes, s, Advance(tid, env.(next := Raises))), torn)
  {
    if torn {
      TornIsQuiet(v, s);
      assert false;
    } else {
      var s' := AdvanceIs(maxBytes, s, tid, env.(next := Raises));
      CaughtIsAhead(maxBytes, v.threads[tid], env, s.x);
    }
  }

  lemma FreeActs(maxBytes: int, s: Sys, a: Action) returns (s': Sys)
    requires Inv(s) && FreeOp(a).Some? && (!FreeOp(a).value.Create? ==> s.x.row.Some?)
    ensures s' == Next(Postgres, maxBytes, s, a) && Inv(s')
    ensures s'.threads == s.threads && s'.x == Apply(Postgres, FreeOp(a).value, s.x)
  {
    s' := Next(Postgres, maxBytes, s, a);
    NextKeepsInv(Postgres, maxBytes, s, a);
  }

  lemma ActNear(maxBytes: int, v: View, a: Action, s: Sys, torn: bool)
    requires Near(v, s, torn) && May(v, Acts(a))
    ensures Near(Happens(maxBytes, v, Acts(a)), Next(Postgres, maxBytes, s, a), torn)
  {
    var s' := FreeActs(maxBytes, s, a);
    if torn {
      TornOp(FreeOp(a).value, v.x, s.x);
    }
  }

  lemma LeaveFacts(maxBytes: int, s: Sys, tid: nat) returns (s': Sys)
    requires Inv(s)
    ensures s' == Next(Postgres, maxBytes, s, Leave(tid)) && Inv(s') && s'.x == s.x && s'.threads == s.threads - {tid}
  {
    s' := Next(Postgres, maxBytes, s, Leave(tid));
    NextKeepsInv(Postgres, maxBytes, s, Leave(tid));
  }

  lemma GoNear(maxBytes: int, v: View, tid: nat, s: Sys, torn: bool)
    requires Near(v, s, torn)
    ensures Near(Happens(maxBytes, v, Goes(tid)), Next(Postgres, maxBytes, s, Leave(tid)), torn)
  {
    var s' := LeaveFacts(maxBytes, s, tid);
  }

  lemma SpawnFacts(maxBytes: int, s: Sys, tid: nat, thread: Thread) returns (s': Sys)
    requires Inv(s) && Enabled(s, Spawn(tid, thread))
    ensures s' == Next(Postgres, maxBytes, s, Spawn(tid, thread)) && Inv(s')
    ensures s'.x == s.x && s'.threads == s.threads[tid := thread]
  {
    s' := Next(Postgres, maxBytes, s, Spawn(tid, thread));
    NextKeepsInv(Postgres, maxBytes, s, Spawn(tid, thread));
  }

  lemma ComeNear(maxBytes: int, v: View, tid: nat, thread: Thread, s: Sys, torn: bool)
    requires Near(v, s, torn) && May(v, Comes(tid, thread))
    ensures Near(Happens(maxBytes, v, Comes(tid, thread)), Next(Postgres, maxBytes, s, Spawn(tid, thread)), torn)
  {
    forall u | u in s.threads
      ensures IsOwner(s.threads[u]) == IsOwner(v.threads[u])
    {
    }
    var s' := SpawnFacts(maxBytes, s, tid, thread);
  }

  lemma CrashFacts(maxBytes: int, s: Sys) returns (s': Sys)
    requires Inv(s)
    ensures s' == Next(Postgres, maxBytes, s, Crash) && Inv(s') && s'.x == s.x && s'.threads == map[]
  {
    s' := Next(Postgres, maxBytes, s, Crash);
    NextKeepsInv(Postgres, maxBytes, s, Crash);
  }

  lemma AllGoNear(maxBytes: int, v: View, s: Sys, torn: bool)
    requires Near(v, s, torn)
    ensures Near(Happens(maxBytes, v, AllGo), Next(Postgres, maxBytes, s, Crash), torn)
  {
    var s' := CrashFacts(maxBytes, s);
  }

  /** Whatever happens is one action of the protocol, or none. */
  lemma HappeningNear(maxBytes: int, v: View, h: Happening, s: Sys, torn: bool) returns (a: Option<Action>)
    requires Near(v, s, torn)
    ensures a == if May(v, h) then ActionOf(h) else None
    ensures Near(Happens(maxBytes, v, h), After(maxBytes, s, a), torn || Tears(v, h))
  {
    a := if May(v, h) then ActionOf(h) else None;
    if May(v, h) {
      match h
      case Nothing =>
      case Steps(tid, env) => StepNear(maxBytes, v, tid, env, s, torn);
      case Acts(act) => ActNear(maxBytes, v, act, s, torn);
      case Catches(tid, env) => CatchNear(maxBytes, v, tid, env, s, torn);
      case Goes(tid) => GoNear(maxBytes, v, tid, s, torn);
      case Comes(tid, thread) => ComeNear(maxBytes, v, tid, thread, s, torn);
      case AllGo => AllGoNear(maxBytes, v, s, torn);
    }
  }

  // ---------- every run ----------

  lemma OneMore(maxBytes: int, before: seq<Action>, a: Action)
    ensures Run(Postgres, maxBytes, START, before + [a])
         == Next(Postgres, maxBytes, Run(Postgres, maxBytes, START, before), a)
  {
    RunConcat(Postgres, maxBytes, START, before, [a]);
    var s := Run(Postgres, maxBytes, START, before);
    assert [a][1..] == [] && Run(Postgres, maxBytes, Next(Postgres, maxBytes, s, a), []) == Next(Postgres, maxBytes, s, a);
  }

  lemma IdleNear(id: ExecutionId)
    ensures Near(ViewOf(id, IDLE), START, false)
  {
    StartOk();
  }

  /** Any run of the application stays close to a run of the protocol: the threads are the same, except those
      that caught a failed append; the tables are the same, except for the columns once they are torn. */
  lemma {:induction false} RunsNear(maxBytes: int, id: ExecutionId, moves: seq<Move>) returns (actions: seq<Action>)
    ensures |actions| <= |moves|
    ensures Near(ViewOf(id, AppRun(maxBytes, id, moves)), Run(Postgres, maxBytes, START, actions), IsTorn(maxBytes, id, moves))
  {
    if moves == [] {
      actions := [];
      IdleNear(id);
    } else {
      var front, m := moves[..|moves| - 1], moves[|moves| - 1];
      assert moves == front + [m];
      var before := RunsNear(maxBytes, id, front);
      var app := AppRun(maxBytes, id, front);
      AppRunOk(maxBytes, id, front);
      MoveMoved(maxBytes, id, app, m);
      TornSnoc(maxBytes, id, front, m);
      var s := Run(Postgres, maxBytes, START, before);
      var a := HappeningNear(maxBytes, ViewOf(id, app), HappeningOf(id, app, m), s, IsTorn(maxBytes, id, front));
      actions := if a.Some? then before + [a.value] else before;
      if a.Some? {
        OneMore(maxBytes, before, a.value);
      }
    }
  }

  // ---------- the main results ----------

  predicate CatchesAt(maxBytes: int, id: ExecutionId, moves: seq<Move>, i: nat)
    requires i < |moves|
  {
    HappeningOf(id, AppRun(maxBytes, id, moves[..i]), moves[i]).Catches?
  }

  /** No append of a streaming executor fails. */
  ghost predicate NothingCaught(maxBytes: int, id: ExecutionId, moves: seq<Move>) {
    forall i :: 0 <= i < |moves| ==> !CatchesAt(maxBytes, id, moves, i)
  }

  lemma StruckGrows(maxBytes: int, v: View, h: Happening)
    requires !h.Catches?
    ensures Happens(maxBytes, v, h).struck <= v.struck
  {
  }

  lemma {:induction false} NothingStruck(maxBytes: int, id: ExecutionId, moves: seq<Move>)
    requires NothingCaught(maxBytes, id, moves)
    ensures AppRun(maxBytes, id, moves).struck == {} && !IsTorn(maxBytes, id, moves)
  {
    if moves != [] {
      var front, m := moves[..|moves| - 1], moves[|moves| - 1];
      forall i | 0 <= i < |front|
        ensures !CatchesAt(maxBytes, id, front, i)
      {
        assert front[..i] == moves[..i] && !CatchesAt(maxBytes, id, moves, i);
      }
      NothingStruck(maxBytes, id, front);
      assert !CatchesAt(maxBytes, id, moves, |front|);
      var app := AppRun(maxBytes, id, front);
      StruckGrows(maxBytes, ViewOf(id, app), HappeningOf(id, app, m));
      assert moves == front + [m];
      TornSnoc(maxBytes, id, front, m);
    }
  }

  /** However the statements of all transactions interleave, whichever of them abort, and whoever comes, goes or
      dies: as long as no append of a streaming executor fails, the committed tables and the threads are those
      of a run of the protocol, of no more actions than moves. */
  lemma CommitsToARun(maxBytes: int, id: ExecutionId, moves: seq<Move>) returns (actions: seq<Action>)
    requires NothingCaught(maxBytes, id, moves)
    ensures |actions| <= |moves|
    ensures var app, s := AppRun(maxBytes, id, moves), Run(Postgres, maxBytes, START, actions);
            s.x == ViewOf(id, app).x && s.threads == app.threads
  {
    actions := RunsNear(maxBytes, id, moves);
    NothingStruck(maxBytes, id, moves);
  }

  lemma TornColumns(y: Exec, x: Exec, torn: bool)
    requires TablesOk(x) && TablesNear(y, x, torn) && y.row.Some?
    ensures ColumnsOk(y.row.value, y.logs) <==> !torn
    ensures LogsOk(y.logs) && EventsOk(y.events, y.logs) && y.row.value.lastLogSeq == |y.logs|
    ensures LifecycleOk(y.row.value, Lifecycle(y.events)) && FoldStatus(y.events) == Some(y.row.value.status)
  {
    FoldGivesStatus(x);
  }

  /** In every run of the application, failed appends included: log, timeline and status stay consistent, and the
      stream columns agree with the log if and only if no executor that caught a failed append has failed a row
      that was still alive. So after such a failure they agree if the executor finds a cancel requested, or the
      row already terminal, or dies before it can fail the row, and in no other case. */
  lemma ColumnsExactly(maxBytes: int, id: ExecutionId, moves: seq<Move>, x: Exec)
    requires x == ViewOf(id, AppRun(maxBytes, id, moves)).x && x.row.Some?
    ensures ColumnsOk(x.row.value, x.logs) <==> !IsTorn(maxBytes, id, moves)
    ensures LogsOk(x.logs) && EventsOk(x.events, x.logs) && x.row.value.lastLogSeq == |x.logs|
    ensures LifecycleOk(x.row.value, Lifecycle(x.events)) && FoldStatus(x.events) == Some(x.row.value.status)
  {
    var actions := RunsNear(maxBytes, id, moves);
    TornColumns(x, Run(Postgres, maxBytes, START, actions).x, IsTorn(maxBytes, id, moves));
  }

  /** What a log stream has sent is the log after its start, and all of it once done is sent and the run was
      not cancelled. */
  ghost predicate StreamIsLog(t: Thread, x: Exec)
    requires t.Reader?
  {
    && ReceivedInOrder(t.after, t.emitted, x.logs)
    && (t.dp.ReadDone? ==>
          Ended(x) && (x.row.value.status != Cancelled ==> t.after + |t.emitted| >= |x.logs|))
  }

  lemma SentIsReceived(t: Thread, logs: seq<LogRow>)
    requires t.Reader? && SentOk(t.after, t.last, t.emitted, logs)
    ensures ReceivedInOrder(t.after, t.emitted, logs)
  {
  }

  lemma StreamOfProtocol(s: Sys, tid: nat)
    requires Inv(s) && tid in s.threads && s.threads[tid].Reader?
    ensures StreamIsLog(s.threads[tid], s.x)
  {
    assert ThreadOk(s.threads[tid], s.x, s.chunksAtEnd);
    SentIsReceived(s.threads[tid], s.x.logs);
    StreamFacts(s, tid);
  }

  /** What the protocol promises a log stream holds over interleaved statements too, failed appends included. */
  lemma InterleavedStream(maxBytes: int, id: ExecutionId, moves: seq<Move>, tid: nat, app: App)
    requires app == AppRun(maxBytes, id, moves) && tid in app.threads && app.threads[tid].Reader?
    ensures StreamIsLog(app.threads[tid], ViewOf(id, app).x)
  {
    var actions := RunsNear(maxBytes, id, moves);
    var s := Run(Postgres, maxBytes, START, actions);
    NearStream(ViewOf(id, app), s, IsTorn(maxBytes, id, moves), tid);
  }

  lemma NearStream(v: View, s: Sys, torn: bool, tid: nat)
    requires Near(v, s, torn) && tid in v.threads && v.threads[tid].Reader?
    ensures StreamIsLog(v.threads[tid], v.x)
  {
    assert v.threads[tid] == s.threads[tid];
    StreamOfProtocol(s, tid);
  }
}
