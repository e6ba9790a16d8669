/** The actors of `SandboxProtocol` on the Postgres repository, with the statements of their transactions
    interleaved.

    A thread sends its next transaction statement by statement and waits for its outcome; other threads, and
    connections that work on other executions, go on in between. Reads are single statements. A transaction may
    abort at any statement. Whoever waited for it then dies of the exception, except an executor that was
    logging a chunk of the provider's stream: it catches the exception, with the chunk already in its accumulator. */
module PostgresProtocol {
  import opened Wrappers
  import opened SandboxTables
  import opened OutputAccumulator
  import opened SqliteSandboxStore
  import opened SandboxExecutor
  import opened SandboxService
  import opened SandboxProtocol
  import Tx = PostgresTransactions

  // ---------- the transaction of a step ----------

  function LogOp(stream: Stream, out: Option<string>): Option<Op> {
    if out.Some? && out.value != "" then Some(Log(stream, out.value)) else None
  }

  /** The transaction by which an executor takes its next step, if it writes. */
  function ExecOp(pc: Pc, env: Env): Option<Op> {
    match pc
    case Admitted => Some(if env.cancelRequested then Cancel(env.now, CANCELLED_BEFORE_START) else Start(env.now))
    case Streaming(out, err, _) =>
      if env.next.Yields? && env.next.item.Chunk? then
        LogOp(env.next.item.stream, Append(if env.next.item.stream == Stdout then out else err, env.next.item.text).1)
      else None
    case DrainOut(out, _, r) => LogOp(Stdout, Append(out, r.stdout).1)
    case DrainErr(_, err, r) => LogOp(Stderr, Append(err, r.stderr).1)
    case Broke(out, err, detail) =>
      Some(if env.cancelRequested then Cancel(env.now, CANCELLED_BY_REQUEST)
           else Fail(env.now, out.Text(), err.Text(), false, detail, None))
    case Settle(out, err, r) => Some(SettleOp(env.now, out.Text(), err.Text(), r))
    case _ => None
  }

  function OpOf(t: Thread, env: Env): Option<Op> {
    match t
    case Executor(pc) => ExecOp(pc, env)
    case Canceller(CancelSawQueued) => Some(Cancel(env.now, CANCELLED_BEFORE_START))
    case Canceller(CancelSawRunning) => Some(Note(EvCancelRequested, Running))
    case Canceller(_) => None
    case Reaper(ReapRead(_)) => Some(Note(EvRecovered, Running))
    case Reaper(ReapAnnounced(r)) => Some(ReapOp(env.now, r))
    case Reaper(_) => None
    case Reader(_, _, _, _, _) => None
  }

  /** The transaction of an action outside the threads. */
  function FreeOp(a: Action): Option<Op> {
    match a
    case CreateIt(timeoutSec) => Some(Create(timeoutSec))
    case Annotate(kind, status) => if IsNote(kind) then Some(Note(kind, status)) else None
    case DenyIt(now, detail) => Some(Deny(now, detail))
    case _ => None
  }

  function Done(op: Option<Op>, x: Exec): Exec {
    if op.Some? then Apply(Postgres, op.value, x) else x
  }

  lemma ExecStepIsOp(maxBytes: int, pc: Pc, env: Env, x: Exec)
    requires x.row.Some?
    ensures ExecStep(Postgres, maxBytes, pc, env, x).1 == Done(ExecOp(pc, env), x)
  {
    if pc.Streaming? && env.next.Yields? && env.next.item.Chunk? {
      ChunkStepIsOp(maxBytes, pc, env, x);
    }
  }

  lemma ChunkStepIsOp(maxBytes: int, pc: Pc, env: Env, x: Exec)
    requires pc.Streaming? && env.next.Yields? && env.next.item.Chunk?
    ensures ExecStep(Postgres, maxBytes, pc, env, x).1 == Done(ExecOp(pc, env), x)
  {
  }

  /** What a step does to the tables is its transaction, whatever the tables hold. */
  lemma StepIsOp(maxBytes: int, t: Thread, env: Env, x: Exec)
    requires x.row.Some?
    ensures ThreadStep(Postgres, maxBytes, t, env, x).1 == Done(OpOf(t, env), x)
  {
    if t.Executor? {
      ExecStepIsOp(maxBytes, t.pc, env, x);
    }
  }

  // ---------- what happens to the execution ----------

  /** What is committed for the execution, the threads that work on it, and a record that influences no step:
      the threads that have caught the failure of an append. */
  datatype View = View(x: Exec, threads: map<nat, Thread>, struck: set<nat>)

  datatype Happening =
    | Nothing
    | Steps(tid: nat, env: Env)            // a thread's transaction commits, or its read is done
    | Acts(action: Action)                 // a transaction outside the threads commits
    | Catches(tid: nat, env: Env)          // an append has failed and its executor catches that
    | Goes(tid: nat)
    | Comes(tid: nat, thread: Thread)
    | AllGo

  /** The step is an append to the log while the provider streams. */
  predicate Appends(t: Thread, env: Env) {
    t.Executor? && t.pc.Streaming? && OpOf(t, env).Some?
  }

  /** The executor after its append failed: the chunk is in the accumulator and not in the log. */
  function Caught(t: Thread, env: Env): Thread
    requires Appends(t, env)
  {
    var chunk := env.next.item;
    var pc := t.pc;
    Executor(if chunk.stream == Stdout then Broke(Append(pc.out, chunk.text).0, pc.err, RUNTIME_FAILED)
             else Broke(pc.out, Append(pc.err, chunk.text).0, RUNTIME_FAILED))
  }

  predicate May(v: View, h: Happening) {
    match h
    case Nothing => true
    case Steps(tid, _) => tid in v.threads && v.x.row.Some?
    case Acts(a) => FreeOp(a).Some? && (FreeOp(a).value.Create? || v.x.row.Some?)
    case Catches(tid, env) => tid in v.threads && Appends(v.threads[tid], env)
    case Goes(_) => true
    case Comes(tid, thread) => MayCome(v, tid, thread)
    case AllGo => true
  }

  /** New threads come under the conditions of the protocol, looked up in what is committed. */
  predicate MayCome(v: View, tid: nat, thread: Thread) {
    && tid !in v.threads && IsNew(thread) && v.x.row.Some?
    && (thread.Reaper? ==> v.x.row.value.status == Running && forall u :: u in v.threads ==> !IsOwner(v.threads[u]))
  }

  function Happens(maxBytes: int, v: View, h: Happening): View {
    if !May(v, h) then v
    else match h
      case Nothing => v
      case Steps(tid, env) =>
        View(Done(OpOf(v.threads[tid], env), v.x),
             v.threads[tid := ThreadStep(Postgres, maxBytes, v.threads[tid], env, v.x).0], v.struck - {tid})
      case Acts(a) => v.(x := Apply(Postgres, FreeOp(a).value, v.x))
      case Catches(tid, env) => v.(threads := v.threads[tid := Caught(v.threads[tid], env)], struck := v.struck + {tid})
      case Goes(tid) => v.(threads := v.threads - {tid}, struck := v.struck - {tid})
      case Comes(tid, thread) => v.(threads := v.threads[tid := thread])
      case AllGo => v.(threads := map[], struck := {})
  }

  // ---------- the application ----------

  /** What a transaction on the execution belongs to: a thread's step, or an action outside the threads. */
  datatype Bound = Of(tid: nat, env: Env) | Free(action: Action)

  datatype App = App(pg: Tx.Pg, threads: map<nat, Thread>, bound: map<Tx.TxId, Bound>, struck: set<nat>)

  /** A commit whose acknowledgement is lost is the commit and then a departure, or an exception of the stream. */
  datatype Move =
    | BeginStep(t: Tx.TxId, tid: nat, env: Env)
    | BeginFree(t: Tx.TxId, action: Action)
    | BeginOther(t: Tx.TxId, other: ExecutionId, op: Op)
    | Send(t: Tx.TxId)                       // the next statement, or the commit
    | AbortTx(t: Tx.TxId)                    // a statement or the connection fails
    | Look(tid: nat, env: Env)               // a step that only reads
    | Arrive(tid: nat, thread: Thread)
    | Depart(tid: nat)
    | HostCrash

  const IDLE := App(Tx.EMPTY, map[], map[], {})

  function ViewOf(id: ExecutionId, app: App): View { View(Tx.At(app.pg.db, id), app.threads, app.struck) }

  predicate Busy(app: App, tid: nat) {
    exists t :: t in app.bound && app.bound[t].Of? && app.bound[t].tid == tid
  }

  predicate MayBeginStep(id: ExecutionId, app: App, t: Tx.TxId, tid: nat, env: Env) {
    && tid in app.threads && !Busy(app, tid) && OpOf(app.threads[tid], env).Some?
    && Tx.MayBegin(app.pg, t, id, OpOf(app.threads[tid], env).value)
  }

  predicate MayBeginFree(id: ExecutionId, app: App, t: Tx.TxId, a: Action) {
    FreeOp(a).Some? && Tx.MayBegin(app.pg, t, id, FreeOp(a).value)
  }

  /** The next statement of the transaction is its commit. */
  predicate Committing(pg: Tx.Pg, t: Tx.TxId) {
    t in pg.txs && (pg.txs[t].pc.Missed? || pg.txs[t].pc.EventInserted?)
  }

  function HappeningOf(id: ExecutionId, app: App, m: Move): Happening {
    match m
    case Send(t) =>
      if t !in app.bound || !Committing(app.pg, t) then Nothing
      else if app.bound[t].Of? then Steps(app.bound[t].tid, app.bound[t].env)
      else Acts(app.bound[t].action)
    case AbortTx(t) =>
      if t !in app.bound || app.bound[t].Free? then Nothing
      else if app.bound[t].tid in app.threads && Appends(app.threads[app.bound[t].tid], app.bound[t].env) then
        Catches(app.bound[t].tid, app.bound[t].env)
      else Goes(app.bound[t].tid)
    case Look(tid, env) =>
      if tid in app.threads && !Busy(app, tid) && OpOf(app.threads[tid], env).None? then Steps(tid, env) else Nothing
    case Arrive(tid, thread) => Comes(tid, thread)
    case Depart(tid) => if Busy(app, tid) then Nothing else Goes(tid)
    case HostCrash => AllGo
    case _ => Nothing
  }

  /** What the move does to the transactions. */
  function PgNext(id: ExecutionId, app: App, m: Move): Tx.Pg {
    match m
    case BeginStep(t, tid, env) =>
      if MayBeginStep(id, app, t, tid, env) then Tx.Next(app.pg, Tx.Begin(t, id, OpOf(app.threads[tid], env).value)) else app.pg
    case BeginFree(t, a) =>
      if MayBeginFree(id, app, t, a) then Tx.Next(app.pg, Tx.Begin(t, id, FreeOp(a).value)) else app.pg
    case BeginOther(t, other, op) => if other != id then Tx.Next(app.pg, Tx.Begin(t, other, op)) else app.pg
    case Send(t) => Tx.Next(app.pg, Tx.Statement(t))
    case AbortTx(t) => Tx.Next(app.pg, Tx.Abort(t))
    case HostCrash => app.pg.(txs := map[], locks := map[])
    case _ => app.pg
  }

  function BoundNext(id: ExecutionId, app: App, m: Move): map<Tx.TxId, Bound> {
    match m
    case BeginStep(t, tid, env) => if MayBeginStep(id, app, t, tid, env) then app.bound[t := Of(tid, env)] else app.bound
    case BeginFree(t, a) => if MayBeginFree(id, app, t, a) then app.bound[t := Free(a)] else app.bound
    case Send(t) => if Committing(app.pg, t) then app.bound - {t} else app.bound
    case AbortTx(t) => app.bound - {t}
    case HostCrash => map[]
    case _ => app.bound
  }

  function AppNext(maxBytes: int, id: ExecutionId, app: App, m: Move): App {
    var v := Happens(maxBytes, ViewOf(id, app), HappeningOf(id, app, m));
    App(PgNext(id, app, m), v.threads, BoundNext(id, app, m), v.struck)
  }

  function AppRun(maxBytes: int, id: ExecutionId, moves: seq<Move>): App {
    if moves == [] then IDLE
    else AppNext(maxBytes, id, AppRun(maxBytes, id, moves[..|moves| - 1]), moves[|moves| - 1])
  }

  // ---------- the invariant of the application ----------

  /** The operation is the one by which the thread takes its step, or the action happens. */
  ghost predicate BindsTo(threads: map<nat, Thread>, who: Bound, op: Op) {
    match who
    case Of(tid, env) => tid in threads && OpOf(threads[tid], env) == Some(op)
    case Free(a) => FreeOp(a) == Some(op)
  }

  predicate SameThread(a: Bound, b: Bound) { a.Of? && b.Of? && a.tid == b.tid }

  ghost predicate OnePerThread(bound: map<Tx.TxId, Bound>) {
    forall t, u :: t in bound && u in bound && SameThread(bound[t], bound[u]) ==> t == u
  }

  /** A bound transaction is open, is on the execution, and does what it is bound to. */
  ghost predicate BoundOk(app: App, id: ExecutionId, t: Tx.TxId)
    requires t in app.bound
  {
    t in app.pg.txs && app.pg.txs[t].id == id && BindsTo(app.threads, app.bound[t], app.pg.txs[t].op)
  }

  ghost predicate BoundsOk(app: App, id: ExecutionId) {
    && (forall t :: t in app.bound ==> BoundOk(app, id, t))
    && (forall t :: t in app.pg.txs && app.pg.txs[t].id == id ==> t in app.bound)
  }

  ghost predicate AppOk(app: App, id: ExecutionId) {
    && Tx.Inv(app.pg)
    && BoundsOk(app, id)
    && OnePerThread(app.bound)
  }

  // ---------- statements ----------

  /** The other transactions are still open, and nobody changed what it is about. */
  ghost predicate SameTxs(pg: Tx.Pg, pg': Tx.Pg, t: Tx.TxId) {
    && (forall u :: u in pg'.txs ==> u in pg.txs && pg'.txs[u].id == pg.txs[u].id && pg'.txs[u].op == pg.txs[u].op)
    && (forall u :: u in pg.txs && u != t ==> u in pg'.txs)
  }

  /** A statement either leaves what is committed alone, or is the commit of exactly its operation. */
  ghost predicate StatementOk(pg: Tx.Pg, pg': Tx.Pg, t: Tx.TxId)
    requires t in pg.txs
  {
    && SameTxs(pg, pg', t)
    && if t in pg'.txs then !Committing(pg, t) && pg'.db == pg.db
       else
         && Committing(pg, t)
         && pg'.db == pg.db[pg.txs[t].id := Apply(Postgres, pg.txs[t].op, Tx.At(pg.db, pg.txs[t].id))]
  }

  lemma FirstEffect(pg: Tx.Pg, t: Tx.TxId)
    requires t in pg.txs && pg.txs[t].pc.Begun?
    ensures StatementOk(pg, Tx.Execute(pg, t), t)
  {
  }

  lemma MiddleEffect(pg: Tx.Pg, t: Tx.TxId)
    requires Tx.Inv(pg) && t in pg.txs
    requires !pg.txs[t].pc.Begun? && !pg.txs[t].pc.Missed? && !pg.txs[t].pc.EventInserted?
    ensures StatementOk(pg, Tx.Execute(pg, t), t)
  {
    Tx.MiddleStatement(pg, t);
    PutEffect(pg, t, Tx.Execute(pg, t).txs[t]);
  }

  lemma PutEffect(pg: Tx.Pg, t: Tx.TxId, tx': Tx.Tx)
    requires t in pg.txs && !Committing(pg, t) && tx'.id == pg.txs[t].id && tx'.op == pg.txs[t].op
    ensures StatementOk(pg, Tx.Put(pg, t, tx'), t)
  {
  }

  lemma LastEffect(pg: Tx.Pg, t: Tx.TxId)
    requires Tx.Inv(pg) && t in pg.txs && (pg.txs[t].pc.Missed? || pg.txs[t].pc.EventInserted?)
    ensures StatementOk(pg, Tx.Execute(pg, t), t)
  {
    assert Tx.TxOk(pg, t);
    assert Tx.Execute(pg, t) == Tx.Commit(pg, t, pg.txs[t]);
  }

  lemma StatementEffect(pg: Tx.Pg, t: Tx.TxId)
    requires Tx.Inv(pg) && t in pg.txs
    ensures StatementOk(pg, Tx.Next(pg, Tx.Statement(t)), t) && Tx.Inv(Tx.Next(pg, Tx.Statement(t)))
  {
    Tx.NextKeepsInv(pg, Tx.Statement(t));
    if pg.txs[t].pc.Begun? {
      FirstEffect(pg, t);
    } else if pg.txs[t].pc.Missed? || pg.txs[t].pc.EventInserted? {
      LastEffect(pg, t);
    } else {
      MiddleEffect(pg, t);
    }
  }

  // ---------- every move keeps the invariant ----------

  /** A bound transaction that goes on, with its thread where it was. */
  ghost predicate GoesOn(app: App, app': App, u: Tx.TxId) {
    && u in app.bound && u in app.pg.txs && u in app'.pg.txs
    && app'.pg.txs[u].id == app.pg.txs[u].id && app'.pg.txs[u].op == app.pg.txs[u].op
    && (app.bound[u].Of? ==>
          app.bound[u].tid in app'.threads && app.bound[u].tid in app.threads
          && app'.threads[app.bound[u].tid] == app.threads[app.bound[u].tid])
  }

  ghost predicate FewerBounds(app: App, app': App, id: ExecutionId) {
    && (forall u :: u in app'.bound ==> GoesOn(app, app', u) && app'.bound[u] == app.bound[u])
    && (forall u :: u in app'.pg.txs && app'.pg.txs[u].id == id ==> u in app'.bound)
  }

  lemma FewerBoundsOk(app: App, app': App, id: ExecutionId)
    requires AppOk(app, id) && Tx.Inv(app'.pg) && FewerBounds(app, app', id)
    ensures AppOk(app', id)
  {
    forall u | u in app'.bound
      ensures BoundOk(app', id, u)
    {
      assert BoundOk(app, id, u) && GoesOn(app, app', u);
    }
  }

  /** A transaction opens. */
  lemma BeginFacts(app: App, id: ExecutionId, t: Tx.TxId, o: ExecutionId, op: Op) returns (pg: Tx.Pg)
    requires AppOk(app, id) && Tx.MayBegin(app.pg, t, o, op)
    ensures pg == Tx.Next(app.pg, Tx.Begin(t, o, op))
    ensures Tx.Inv(pg) && pg.db == app.pg.db && t !in app.bound && t !in app.pg.txs
    ensures pg.txs == app.pg.txs[t := pg.txs[t]] && pg.txs[t].id == o && pg.txs[t].op == op
  {
    pg := Tx.Next(app.pg, Tx.Begin(t, o, op));
    Tx.NextKeepsInv(app.pg, Tx.Begin(t, o, op));
    assert t in app.bound ==> BoundOk(app, id, t);
  }

  lemma BindKeeps(app: App, id: ExecutionId, t: Tx.TxId, op: Op, who: Bound)
    requires AppOk(app, id) && Tx.MayBegin(app.pg, t, id, op)
    requires who.Of? ==> !Busy(app, who.tid)
    requires BindsTo(app.threads, who, op)
    ensures AppOk(app.(pg := Tx.Next(app.pg, Tx.Begin(t, id, op)), bound := app.bound[t := who]), id)
    ensures Tx.Next(app.pg, Tx.Begin(t, id, op)).db == app.pg.db
  {
    var pg := BeginFacts(app, id, t, id, op);
    BindOne(app, t, who);
    var app' := app.(pg := pg, bound := app.bound[t := who]);
    forall u | u in app'.bound
      ensures BoundOk(app', id, u)
    {
      assert u != t ==> BoundOk(app, id, u);
    }
  }

  lemma BindOne(app: App, t: Tx.TxId, who: Bound)
    requires OnePerThread(app.bound) && (who.Of? ==> !Busy(app, who.tid))
    ensures OnePerThread(app.bound[t := who])
  {
    forall u | u in app.bound
      ensures !SameThread(app.bound[u], who)
    {
    }
  }

  lemma OtherBeginKeeps(app: App, id: ExecutionId, t: Tx.TxId, o: ExecutionId, op: Op)
    requires AppOk(app, id) && o != id
    ensures AppOk(app.(pg := Tx.Next(app.pg, Tx.Begin(t, o, op))), id)
    ensures Tx.Next(app.pg, Tx.Begin(t, o, op)).db == app.pg.db
  {
    if Tx.MayBegin(app.pg, t, o, op) {
      var pg := BeginFacts(app, id, t, o, op);
      var app' := app.(pg := pg);
      forall u | u in app'.bound
        ensures GoesOn(app, app', u)
      {
        assert BoundOk(app, id, u);
      }
      FewerBoundsOk(app, app', id);
    }
  }

  /** The transactions change without the execution noticing. */
  lemma PgChange(app: App, id: ExecutionId, t: Tx.TxId, pg: Tx.Pg)
    requires AppOk(app, id) && Tx.Inv(pg) && SameTxs(app.pg, pg, t) && (t in pg.txs || t !in app.bound)
    ensures AppOk(app.(pg := pg), id)
  {
    var app' := app.(pg := pg);
    forall u | u in app'.bound
      ensures GoesOn(app, app', u)
    {
      assert BoundOk(app, id, u);
    }
    FewerBoundsOk(app, app', id);
  }

  ghost predicate OthersStay(threads: map<nat, Thread>, threads': map<nat, Thread>, who: Bound) {
    forall u :: u in threads && (who.Of? ==> u != who.tid) ==> u in threads' && threads'[u] == threads[u]
  }

  lemma OtherGoesOn(id: ExecutionId, app: App, t: Tx.TxId, app': App, u: Tx.TxId)
    requires OnePerThread(app.bound) && t in app.bound && u in app.bound && u != t && BoundOk(app, id, u)
    requires SameTxs(app.pg, app'.pg, t) && OthersStay(app.threads, app'.threads, app.bound[t])
    ensures GoesOn(app, app', u)
  {
    assert !SameThread(app.bound[u], app.bound[t]);
  }

  lemma GoneFewer(id: ExecutionId, app: App, t: Tx.TxId, app': App)
    requires BoundsOk(app, id) && OnePerThread(app.bound)
    requires t in app.bound && SameTxs(app.pg, app'.pg, t) && t !in app'.pg.txs
    requires OthersStay(app.threads, app'.threads, app.bound[t]) && app'.bound == app.bound - {t}
    ensures FewerBounds(app, app', id)
  {
    forall u | u in app'.bound
      ensures GoesOn(app, app', u)
    {
      OtherGoesOn(id, app, t, app', u);
    }
  }

  /** A bound transaction is gone, and its thread has moved on or died. */
  lemma GoneKeeps(id: ExecutionId, app: App, t: Tx.TxId, app': App)
    requires AppOk(app, id) && t in app.bound && Tx.Inv(app'.pg) && SameTxs(app.pg, app'.pg, t) && t !in app'.pg.txs
    requires OthersStay(app.threads, app'.threads, app.bound[t]) && app'.bound == app.bound - {t}
    ensures AppOk(app', id)
  {
    GoneFewer(id, app, t, app');
    FewerBoundsOk(app, app', id);
  }

  /** Only the thread of the happening changes. */
  lemma OnlyItsThread(maxBytes: int, v: View, h: Happening, who: Bound)
    requires match h case Nothing => true case Acts(_) => true
                         case Steps(tid, _) => who.Of? && who.tid == tid
                         case Catches(tid, _) => who.Of? && who.tid == tid
                         case Goes(tid) => who.Of? && who.tid == tid
                         case _ => false
    ensures OthersStay(v.threads, Happens(maxBytes, v, h).threads, who)
  {
  }

  lemma ReleaseEffect(pg: Tx.Pg, t: Tx.TxId, id: ExecutionId)
    ensures var pg' := Tx.Release(pg, t, id); SameTxs(pg, pg', t) && t !in pg'.txs && pg'.db == pg.db
  {
  }

  lemma AbortFacts(pg: Tx.Pg, t: Tx.TxId) returns (pg': Tx.Pg)
    requires Tx.Inv(pg)
    ensures pg' == Tx.Next(pg, Tx.Abort(t)) && Tx.Inv(pg') && SameTxs(pg, pg', t) && t !in pg'.txs && pg'.db == pg.db
  {
    pg' := Tx.Next(pg, Tx.Abort(t));
    if t in pg.txs {
      Tx.ReleaseKeepsInv(pg, t);
      ReleaseEffect(pg, t, pg.txs[t].id);
    }
  }

  /** The move keeps the invariant, and what it does to the execution is what happens. */
  ghost predicate Moved(maxBytes: int, id: ExecutionId, app: App, m: Move) {
    var app' := AppNext(maxBytes, id, app, m);
    AppOk(app', id) && ViewOf(id, app') == Happens(maxBytes, ViewOf(id, app), HappeningOf(id, app, m))
  }

  lemma BeginMoved(maxBytes: int, id: ExecutionId, app: App, m: Move)
    requires AppOk(app, id) && (m.BeginStep? || m.BeginFree? || m.BeginOther?)
    ensures Moved(maxBytes, id, app, m)
  {
    match m
    case BeginStep(t, tid, env) => BeginStepMoved(maxBytes, id, app, t, tid, env);
    case BeginFree(t, a) => BeginFreeMoved(maxBytes, id, app, t, a);
    case BeginOther(t, o, op) => BeginOtherMoved(maxBytes, id, app, t, o, op);
    case _ =>
  }

  lemma BeginStepMoved(maxBytes: int, id: ExecutionId, app: App, t: Tx.TxId, tid: nat, env: Env)
    requires AppOk(app, id)
    ensures Moved(maxBytes, id, app, BeginStep(t, tid, env))
  {
    if MayBeginStep(id, app, t, tid, env) {
      BindKeeps(app, id, t, OpOf(app.threads[tid], env).value, Of(tid, env));
    }
  }

  lemma BeginFreeMoved(maxBytes: int, id: ExecutionId, app: App, t: Tx.TxId, a: Action)
    requires AppOk(app, id)
    ensures Moved(maxBytes, id, app, BeginFree(t, a))
  {
    if MayBeginFree(id, app, t, a) {
      BindKeeps(app, id, t, FreeOp(a).value, Free(a));
    }
  }

  lemma BeginOtherMoved(maxBytes: int, id: ExecutionId, app: App, t: Tx.TxId, o: ExecutionId, op: Op)
    requires AppOk(app, id)
    ensures Moved(maxBytes, id, app, BeginOther(t, o, op))
  {
    if o != id {
      OtherBeginKeeps(app, id, t, o, op);
    }
  }

  /** The execution does not notice the move. */
  lemma NothingMoved(maxBytes: int, id: ExecutionId, app: App, m: Move, pg: Tx.Pg)
    requires AppOk(app.(pg := pg), id) && Tx.At(pg.db, id) == Tx.At(app.pg.db, id)
    requires HappeningOf(id, app, m) == Nothing && PgNext(id, app, m) == pg && BoundNext(id, app, m) == app.bound
    ensures Moved(maxBytes, id, app, m)
  {
    assert AppNext(maxBytes, id, app, m) == app.(pg := pg);
  }

  lemma StatementElsewhere(id: ExecutionId, app: App, t: Tx.TxId) returns (pg: Tx.Pg)
    requires AppOk(app, id) && (!Committing(app.pg, t) || t !in app.bound)
    ensures pg == Tx.Next(app.pg, Tx.Statement(t)) && AppOk(app.(pg := pg), id) && Tx.At(pg.db, id) == Tx.At(app.pg.db, id)
  {
    pg := Tx.Next(app.pg, Tx.Statement(t));
    if t in app.pg.txs {
      StatementEffect(app.pg, t);
      PgChange(app, id, t, pg);
    } else {
      assert app.(pg := pg) == app;
    }
  }

  lemma SendIsNothing(id: ExecutionId, app: App, t: Tx.TxId)
    requires !Committing(app.pg, t) || t !in app.bound
    ensures HappeningOf(id, app, Send(t)) == Nothing && BoundNext(id, app, Send(t)) == app.bound
  {
    assert t !in app.bound ==> app.bound - {t} == app.bound;
  }

  /** A statement that is not a commit, or the commit of a transaction on another execution. */
  lemma SendElsewhere(maxBytes: int, id: ExecutionId, app: App, t: Tx.TxId)
    requires AppOk(app, id) && (!Committing(app.pg, t) || t !in app.bound)
    ensures Moved(maxBytes, id, app, Send(t))
  {
    var pg := StatementElsewhere(id, app, t);
    SendIsNothing(id, app, t);
    NothingMoved(maxBytes, id, app, Send(t), pg);
  }

  /** The commit of a transaction on the execution. */
  lemma CommitFacts(id: ExecutionId, app: App, t: Tx.TxId) returns (pg: Tx.Pg)
    requires AppOk(app, id) && t in app.bound && Committing(app.pg, t)
    ensures pg == Tx.Next(app.pg, Tx.Statement(t)) && Tx.Inv(pg) && SameTxs(app.pg, pg, t) && t !in pg.txs
    ensures BindsTo(app.threads, app.bound[t], app.pg.txs[t].op)
    ensures Tx.At(pg.db, id) == Apply(Postgres, app.pg.txs[t].op, Tx.At(app.pg.db, id))
    ensures !app.pg.txs[t].op.Create? ==> Tx.At(app.pg.db, id).row.Some?
  {
    pg := Tx.Next(app.pg, Tx.Statement(t));
    StatementEffect(app.pg, t);
    assert BoundOk(app, id, t) && Tx.TxOk(app.pg, t);
  }

  lemma StepCreatesNothing(t: Thread, env: Env)
    ensures OpOf(t, env).Some? ==> !OpOf(t, env).value.Create?
  {
  }

  lemma SendCommits(maxBytes: int, id: ExecutionId, app: App, t: Tx.TxId)
    requires AppOk(app, id) && t in app.bound && Committing(app.pg, t)
    ensures Moved(maxBytes, id, app, Send(t))
  {
    var pg := CommitFacts(id, app, t);
    var h, v := HappeningOf(id, app, Send(t)), ViewOf(id, app);
    if app.bound[t].Of? {
      StepCreatesNothing(app.threads[app.bound[t].tid], app.bound[t].env);
    }
    OnlyItsThread(maxBytes, v, h, app.bound[t]);
    CommitHappens(maxBytes, v, app.bound[t], app.pg.txs[t].op);
    GoneKeeps(id, app, t, AppNext(maxBytes, id, app, Send(t)));
  }

  function CommitOf(who: Bound): Happening {
    if who.Of? then Steps(who.tid, who.env) else Acts(who.action)
  }

  lemma CommitHappens(maxBytes: int, v: View, who: Bound, op: Op)
    requires BindsTo(v.threads, who, op) && (op.Create? ==> who.Free?) && (!op.Create? ==> v.x.row.Some?)
    ensures Happens(maxBytes, v, CommitOf(who)).x == Apply(Postgres, op, v.x)
  {
  }

  lemma AbortMoved(maxBytes: int, id: ExecutionId, app: App, t: Tx.TxId)
    requires AppOk(app, id)
    ensures Moved(maxBytes, id, app, AbortTx(t))
  {
    var pg := AbortFacts(app.pg, t);
    if t in app.bound {
      BoundAborts(maxBytes, id, app, t, pg);
    } else {
      PgChange(app, id, t, pg);
      AbortIsNothing(id, app, t);
      NothingMoved(maxBytes, id, app, AbortTx(t), pg);
    }
  }

  lemma AbortIsNothing(id: ExecutionId, app: App, t: Tx.TxId)
    requires t !in app.bound
    ensures HappeningOf(id, app, AbortTx(t)) == Nothing && BoundNext(id, app, AbortTx(t)) == app.bound
  {
    assert app.bound - {t} == app.bound;
  }

  lemma AbortHappens(id: ExecutionId, app: App, t: Tx.TxId) returns (h: Happening)
    requires t in app.bound
    ensures h == HappeningOf(id, app, AbortTx(t)) && !h.Steps? && !h.Acts? && !h.Comes? && !h.AllGo?
    ensures h.Catches? || h.Goes? ==> app.bound[t].Of? && h.tid == app.bound[t].tid
  {
    h := HappeningOf(id, app, AbortTx(t));
  }

  lemma BoundAborts(maxBytes: int, id: ExecutionId, app: App, t: Tx.TxId, pg: Tx.Pg)
    requires AppOk(app, id) && t in app.bound && pg == Tx.Next(app.pg, Tx.Abort(t))
    requires Tx.Inv(pg) && SameTxs(app.pg, pg, t) && t !in pg.txs && pg.db == app.pg.db
    ensures Moved(maxBytes, id, app, AbortTx(t))
  {
    var h := AbortHappens(id, app, t);
    var v := ViewOf(id, app);
    NoCommitKeepsTables(maxBytes, v, h);
    OnlyItsThread(maxBytes, v, h, app.bound[t]);
    GoneKeeps(id, app, t, AppNext(maxBytes, id, app, AbortTx(t)));
  }

  lemma NoCommitKeepsTables(maxBytes: int, v: View, h: Happening)
    requires !h.Steps? && !h.Acts?
    ensures Happens(maxBytes, v, h).x == v.x
  {
  }

  ghost predicate BusyStay(app: App, threads: map<nat, Thread>) {
    forall tid :: tid in app.threads && Busy(app, tid) ==> tid in threads && threads[tid] == app.threads[tid]
  }

  /** A change of the threads that no open transaction waits for. */
  lemma ThreadsChange(id: ExecutionId, app: App, app': App)
    requires AppOk(app, id) && BusyStay(app, app'.threads) && app'.pg == app.pg && app'.bound == app.bound
    ensures AppOk(app', id)
  {
    forall u | u in app'.bound
      ensures GoesOn(app, app', u)
    {
      assert BoundOk(app, id, u);
      assert app.bound[u].Of? ==> Busy(app, app.bound[u].tid);
    }
    FewerBoundsOk(app, app', id);
  }

  lemma LookKeepsTables(maxBytes: int, v: View, tid: nat, env: Env)
    requires tid in v.threads && OpOf(v.threads[tid], env).None?
    ensures Happens(maxBytes, v, Steps(tid, env)).x == v.x
  {
  }

  lemma ThreadMoved(maxBytes: int, id: ExecutionId, app: App, m: Move)
    requires AppOk(app, id) && (m.Look? || m.Arrive? || m.Depart?)
    ensures Moved(maxBytes, id, app, m)
  {
    var h, v := HappeningOf(id, app, m), ViewOf(id, app);
    if h.Steps? {
      LookKeepsTables(maxBytes, v, m.tid, m.env);
    } else {
      NoCommitKeepsTables(maxBytes, v, h);
    }
    OnlyFreeThreads(maxBytes, id, app, m);
    ThreadsChange(id, app, AppNext(maxBytes, id, app, m));
  }

  lemma OnlyFreeThreads(maxBytes: int, id: ExecutionId, app: App, m: Move)
    requires m.Look? || m.Arrive? || m.Depart?
    ensures BusyStay(app, Happens(maxBytes, ViewOf(id, app), HappeningOf(id, app, m)).threads)
  {
  }

  lemma NobodyConnected(pg: Tx.Pg)
    requires Tx.Inv(pg)
    ensures Tx.Inv(pg.(txs := map[], locks := map[]))
  {
  }

  lemma MoveMoved(maxBytes: int, id: ExecutionId, app: App, m: Move)
    requires AppOk(app, id)
    ensures Moved(maxBytes, id, app, m)
  {
    if m.BeginStep? || m.BeginFree? || m.BeginOther? {
      BeginMoved(maxBytes, id, app, m);
    } else if m.Look? || m.Arrive? || m.Depart? {
      ThreadMoved(maxBytes, id, app, m);
    } else if m.AbortTx? {
      AbortMoved(maxBytes, id, app, m.t);
    } else if m.HostCrash? {
      NobodyConnected(app.pg);
    } else if Committing(app.pg, m.t) && m.t in app.bound {
      SendCommits(maxBytes, id, app, m.t);
    } else {
      SendElsewhere(maxBytes, id, app, m.t);
    }
  }

  lemma {:induction false} AppRunOk(maxBytes: int, id: ExecutionId, moves: seq<Move>)
    ensures AppOk(AppRun(maxBytes, id, moves), id)
  {
    if moves != [] {
      var front := moves[..|moves| - 1];
      AppRunOk(maxBytes, id, front);
      MoveMoved(maxBytes, id, AppRun(maxBytes, id, front), moves[|moves| - 1]);
    }
  }
}
