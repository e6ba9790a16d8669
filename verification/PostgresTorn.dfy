/** A run of the application, statement by statement, whose stream columns end apart from the log. */
module PostgresTorn {
  import opened Wrappers
  import opened SandboxTables
  import opened OutputAccumulator
  import opened SqliteSandboxStore
  import opened SandboxExecutor
  import opened SandboxProtocol
  import opened PostgresProtocol
  import opened PostgresRuns
  import Tx = PostgresTransactions

  // ---------- one move after another ----------

  function StatementsLeft(pc: Tx.TxPc): nat {
    match pc
    case Begun => 7
    case Locked => 6
    case LogNumbered(_) => 5
    case LogInserted(_) => 4
    case RowWritten => 3
    case EventNumbered(_) => 2
    case EventInserted => 1
    case Missed => 1
  }

  lemma AloneLocks(pg: Tx.Pg, t: Tx.TxId)
    requires Tx.LocksOk(pg) && pg.txs.Keys == {t} && pg.txs[t].pc.Begun?
    ensures var pg' := Tx.Execute(pg, t);
            pg'.txs.Keys == {t} && pg'.txs[t].id == pg.txs[t].id && StatementsLeft(pg'.txs[t].pc) < 7
  {
    assert Tx.LockFree(pg, pg.txs[t].id);
  }

  lemma MiddleGoesOn(pg: Tx.Pg, t: Tx.TxId)
    requires Tx.Inv(pg) && pg.txs.Keys == {t} && !Committing(pg, t) && !pg.txs[t].pc.Begun?
    ensures var pg' := Tx.Execute(pg, t); pg'.txs.Keys == {t} && pg'.txs[t].id == pg.txs[t].id
  {
    Tx.MiddleStatement(pg, t);
  }

  lemma MiddleCounts(pg: Tx.Pg, t: Tx.TxId)
    requires t in pg.txs && !Committing(pg, t) && !pg.txs[t].pc.Begun? && t in Tx.Execute(pg, t).txs
    ensures StatementsLeft(Tx.Execute(pg, t).txs[t].pc) < StatementsLeft(pg.txs[t].pc)
  {
  }

  /** With nobody else connected a transaction gets one statement further. */
  lemma AloneGoesOn(pg: Tx.Pg, t: Tx.TxId)
    requires Tx.Inv(pg) && pg.txs.Keys == {t} && !Committing(pg, t)
    ensures var pg' := Tx.Next(pg, Tx.Statement(t));
            && pg'.txs.Keys == {t} && pg'.txs[t].id == pg.txs[t].id
            && StatementsLeft(pg'.txs[t].pc) < StatementsLeft(pg.txs[t].pc)
  {
    assert Tx.Next(pg, Tx.Statement(t)) == Tx.Execute(pg, t);
    if pg.txs[t].pc.Begun? {
      AloneLocks(pg, t);
    } else {
      MiddleGoesOn(pg, t);
      MiddleCounts(pg, t);
    }
  }

  /** Only this transaction is open. */
  ghost predicate Alone(app: App, t: Tx.TxId, who: Bound) {
    app.pg.txs.Keys == {t} && app.bound == map[t := who]
  }

  ghost predicate NobodyOpen(app: App) { app.pg.txs == map[] && app.bound == map[] }

  /** The run shows this, and its columns are torn or not. */
  ghost predicate Reaches(maxBytes: int, id: ExecutionId, moves: seq<Move>, v: View, torn: bool) {
    ViewOf(id, AppRun(maxBytes, id, moves)) == v && IsTorn(maxBytes, id, moves) == torn
  }

  lemma OneMove(maxBytes: int, id: ExecutionId, moves: seq<Move>, m: Move)
    ensures var app, app' := AppRun(maxBytes, id, moves), AppRun(maxBytes, id, moves + [m]);
            && app' == AppNext(maxBytes, id, app, m)
            && ViewOf(id, app') == Happens(maxBytes, ViewOf(id, app), HappeningOf(id, app, m))
            && (IsTorn(maxBytes, id, moves + [m]) <==>
                  IsTorn(maxBytes, id, moves) || Tears(ViewOf(id, app), HappeningOf(id, app, m)))
  {
    assert (moves + [m])[..|moves|] == moves;
    AppRunOk(maxBytes, id, moves);
    MoveMoved(maxBytes, id, AppRun(maxBytes, id, moves), m);
    TornSnoc(maxBytes, id, moves, m);
  }

  /** A transaction that has the repository to itself commits. */
  lemma {:induction false} CommitAlone(maxBytes: int, id: ExecutionId, moves: seq<Move>, t: Tx.TxId, who: Bound, v: View, torn: bool)
    returns (more: seq<Move>)
    requires Reaches(maxBytes, id, moves, v, torn) && Alone(AppRun(maxBytes, id, moves), t, who)
    ensures Reaches(maxBytes, id, more, Happens(maxBytes, v, CommitOf(who)), torn || Tears(v, CommitOf(who)))
    ensures NobodyOpen(AppRun(maxBytes, id, more))
    decreases StatementsLeft(AppRun(maxBytes, id, moves).pg.txs[t].pc)
  {
    var app := AppRun(maxBytes, id, moves);
    AppRunOk(maxBytes, id, moves);
    OneMove(maxBytes, id, moves, Send(t));
    if Committing(app.pg, t) {
      more := moves + [Send(t)];
      LastStatement(maxBytes, id, app, t, who);
    } else {
      AloneGoesOn(app.pg, t);
      more := CommitAlone(maxBytes, id, moves + [Send(t)], t, who, v, torn);
    }
  }

  lemma LastStatement(maxBytes: int, id: ExecutionId, app: App, t: Tx.TxId, who: Bound)
    requires AppOk(app, id) && Alone(app, t, who) && Committing(app.pg, t)
    ensures NobodyOpen(AppNext(maxBytes, id, app, Send(t))) && HappeningOf(id, app, Send(t)) == CommitOf(who)
  {
    var pg := CommitFacts(id, app, t);
    assert pg.txs.Keys == {};
  }

  /** A thread takes a step that writes. */
  lemma TakeStep(maxBytes: int, id: ExecutionId, moves: seq<Move>, tid: nat, env: Env, v: View, torn: bool)
    returns (more: seq<Move>)
    requires Reaches(maxBytes, id, moves, v, torn) && NobodyOpen(AppRun(maxBytes, id, moves))
    requires tid in v.threads && OpOf(v.threads[tid], env).Some? && v.x.row.Some?
    ensures Reaches(maxBytes, id, more, Happens(maxBytes, v, Steps(tid, env)), torn || Tears(v, Steps(tid, env)))
    ensures NobodyOpen(AppRun(maxBytes, id, more))
  {
    var begun := BeginAlone(maxBytes, id, moves, tid, env, v, torn);
    more := CommitAlone(maxBytes, id, begun, 0, Of(tid, env), v, torn);
  }

  lemma BeginAlone(maxBytes: int, id: ExecutionId, moves: seq<Move>, tid: nat, env: Env, v: View, torn: bool)
    returns (more: seq<Move>)
    requires Reaches(maxBytes, id, moves, v, torn) && NobodyOpen(AppRun(maxBytes, id, moves))
    requires tid in v.threads && OpOf(v.threads[tid], env).Some? && v.x.row.Some?
    ensures Reaches(maxBytes, id, more, v, torn) && Alone(AppRun(maxBytes, id, more), 0, Of(tid, env))
  {
    more := moves + [BeginStep(0, tid, env)];
    StepCreatesNothing(v.threads[tid], env);
    OneMove(maxBytes, id, moves, BeginStep(0, tid, env));
    assert MayBeginStep(id, AppRun(maxBytes, id, moves), 0, tid, env);
  }

  /** A thread takes a step that reads. */
  lemma TakeLook(maxBytes: int, id: ExecutionId, moves: seq<Move>, tid: nat, env: Env, v: View)
    returns (more: seq<Move>)
    requires Reaches(maxBytes, id, moves, v, false) && NobodyOpen(AppRun(maxBytes, id, moves))
    requires tid in v.threads && tid !in v.struck && OpOf(v.threads[tid], env).None?
    ensures Reaches(maxBytes, id, more, Happens(maxBytes, v, Steps(tid, env)), false) && NobodyOpen(AppRun(maxBytes, id, more))
  {
    more := moves + [Look(tid, env)];
    OneMove(maxBytes, id, moves, Look(tid, env));
    assert HappeningOf(id, AppRun(maxBytes, id, moves), Look(tid, env)) == Steps(tid, env);
  }

  lemma Arrives(maxBytes: int, id: ExecutionId, moves: seq<Move>, tid: nat, thread: Thread, v: View)
    returns (more: seq<Move>)
    requires Reaches(maxBytes, id, moves, v, false) && NobodyOpen(AppRun(maxBytes, id, moves))
    ensures Reaches(maxBytes, id, more, Happens(maxBytes, v, Comes(tid, thread)), false) && NobodyOpen(AppRun(maxBytes, id, more))
  {
    more := moves + [Arrive(tid, thread)];
    OneMove(maxBytes, id, moves, Arrive(tid, thread));
  }

  /** An append begins and aborts. */
  lemma AppendFails(maxBytes: int, id: ExecutionId, moves: seq<Move>, tid: nat, env: Env, v: View)
    returns (more: seq<Move>)
    requires Reaches(maxBytes, id, moves, v, false) && NobodyOpen(AppRun(maxBytes, id, moves))
    requires tid in v.threads && Appends(v.threads[tid], env) && v.x.row.Some?
    ensures Reaches(maxBytes, id, more, Happens(maxBytes, v, Catches(tid, env)), false) && NobodyOpen(AppRun(maxBytes, id, more))
  {
    var begun := BeginAlone(maxBytes, id, moves, tid, env, v, false);
    more := begun + [AbortTx(0)];
    OneMove(maxBytes, id, begun, AbortTx(0));
    var app := AppRun(maxBytes, id, begun);
    AppRunOk(maxBytes, id, begun);
    var pg := AbortFacts(app.pg, 0);
    assert pg.txs.Keys == {};
  }

  lemma Creates(maxBytes: int, id: ExecutionId) returns (moves: seq<Move>, v: View)
    ensures Reaches(maxBytes, id, moves, v, false) && NobodyOpen(AppRun(maxBytes, id, moves))
    ensures v.x == Apply(Postgres, Create(60), NOTHING) && v.threads == map[] && v.struck == {}
  {
    var idle := View(NOTHING, map[], {});
    assert Reaches(maxBytes, id, [], idle, false);
    var begun := [BeginFree(0, CreateIt(60))];
    OneMove(maxBytes, id, [], BeginFree(0, CreateIt(60)));
    assert [] + begun == begun;
    assert MayBeginFree(id, IDLE, 0, CreateIt(60));
    moves := CommitAlone(maxBytes, id, begun, 0, Free(CreateIt(60)), idle, false);
    v := Happens(maxBytes, idle, Acts(CreateIt(60)));
  }

  // ---------- the run ----------

  function Quiet(): Env { Env(0, false, Ends) }

  lemma Starts(maxBytes: int, v: View) returns (w: View)
    requires v.threads == map[] && v.x.row == Some(FreshRow(60)) && v.struck == {}
    ensures w == Happens(maxBytes, Happens(maxBytes, v, Comes(0, Executor(Entered))), Steps(0, Quiet()))
    ensures w.x == v.x && w.threads == map[0 := Executor(Admitted)] && w.struck == {}
  {
    w := Happens(maxBytes, Happens(maxBytes, v, Comes(0, Executor(Entered))), Steps(0, Quiet()));
  }

  lemma ClaimsAndStreams(maxBytes: int, v: View) returns (u: View, w: View)
    requires v.threads == map[0 := Executor(Admitted)] && v.x.row == Some(FreshRow(60)) && v.struck == {}
    ensures u == Happens(maxBytes, v, Steps(0, Quiet())) && w == Happens(maxBytes, u, Steps(0, Quiet()))
    ensures u.threads == map[0 := Executor(Claimed)] && u.struck == {} && u.x.row.Some?
    ensures w.threads == map[0 := Executor(Streaming(Empty(maxBytes), Empty(maxBytes), None))] && w.struck == {}
    ensures w.x.row.Some? && w.x.row.value.status == Running
  {
    u := Happens(maxBytes, v, Steps(0, Quiet()));
    w := Happens(maxBytes, u, Steps(0, Quiet()));
  }

  lemma ChunkIsAppended(maxBytes: int, env: Env)
    requires maxBytes > 0 && env == Env(0, false, Yields(Chunk(Stdout, ['x'])))
    ensures Appends(Executor(Streaming(Empty(maxBytes), Empty(maxBytes), None)), env)
  {
    AppendHandsOn(Empty(maxBytes), ['x']);
  }

  /** The executor whose append failed fails the run. */
  lemma FailsTorn(maxBytes: int, v: View, env: Env) returns (u: View, w: View)
    requires v.threads == map[0 := Executor(Streaming(Empty(maxBytes), Empty(maxBytes), None))]
    requires v.x.row.Some? && v.x.row.value.status == Running && Appends(v.threads[0], env)
    ensures u == Happens(maxBytes, v, Catches(0, env)) && w == Happens(maxBytes, u, Steps(0, Quiet()))
    ensures 0 in u.threads && OpOf(u.threads[0], Quiet()).Some? && u.x.row.Some? && Tears(u, Steps(0, Quiet()))
    ensures w.x.row.Some? && w.x.row.value.status == Failed
  {
    u := Happens(maxBytes, v, Catches(0, env));
    w := Happens(maxBytes, u, Steps(0, Quiet()));
  }

  lemma Streams(maxBytes: int, id: ExecutionId) returns (moves: seq<Move>, v: View)
    ensures Reaches(maxBytes, id, moves, v, false) && NobodyOpen(AppRun(maxBytes, id, moves))
    ensures v.threads == map[0 := Executor(Streaming(Empty(maxBytes), Empty(maxBytes), None))]
    ensures v.x.row.Some? && v.x.row.value.status == Running
  {
    var created;
    moves, created := Creates(maxBytes, id);
    var entered := Happens(maxBytes, created, Comes(0, Executor(Entered)));
    moves := Arrives(maxBytes, id, moves, 0, Executor(Entered), created);
    var admitted := Starts(maxBytes, created);
    moves := TakeLook(maxBytes, id, moves, 0, Quiet(), entered);
    var claimed;
    claimed, v := ClaimsAndStreams(maxBytes, admitted);
    moves := TakeStep(maxBytes, id, moves, 0, Quiet(), admitted, false);
    moves := TakeLook(maxBytes, id, moves, 0, Quiet(), claimed);
  }

  /** It happens: an append of a streaming executor fails, the executor fails the run, and the columns of the
      failed row hold a chunk that the log does not. */
  lemma TornReachable(maxBytes: int, id: ExecutionId) returns (moves: seq<Move>)
    requires maxBytes > 0
    ensures var x := ViewOf(id, AppRun(maxBytes, id, moves)).x;
            x.row.Some? && x.row.value.status == Failed && !ColumnsOk(x.row.value, x.logs)
  {
    var v;
    moves, v := Streams(maxBytes, id);
    var env := Env(0, false, Yields(Chunk(Stdout, ['x'])));
    ChunkIsAppended(maxBytes, env);
    var struck, torn := FailsTorn(maxBytes, v, env);
    moves := AppendFails(maxBytes, id, moves, 0, env, v);
    moves := TakeStep(maxBytes, id, moves, 0, Quiet(), struck, false);
    ColumnsExactly(maxBytes, id, moves, torn.x);
  }
}
