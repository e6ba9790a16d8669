/** The Postgres repository, statement by statement.

    A transaction locks the parent row, reads MAX(seq), inserts and commits; the transactions of any
    number of connections interleave between statements. Every statement sees what is committed plus
    the transaction's own writes (READ COMMITTED). The result is that each commit is one serial
    transaction of `SandboxTables`. */
module PostgresTransactions {
  import opened Wrappers
  import opened SandboxTables
  import opened SqliteSandboxStore

  type TxId = nat

  datatype TxPc =
    | Begun                      // about to lock the parent row, or to insert it
    | Locked                     // about to run the first statement
    | Missed                     // the guarded update found no row: about to commit nothing
    | LogNumbered(n: nat)        // read MAX(seq) of the log
    | LogInserted(n: nat)
    | RowWritten                 // about to read MAX(seq) of the events
    | EventNumbered(n: nat)
    | EventInserted              // about to commit

  /** A transaction: what it is to do, where it is, and its uncommitted writes. */
  datatype Tx = Tx(id: ExecutionId, op: Op, pc: TxPc, row: Option<Row>, logs: seq<LogRow>, events: seq<EventRow>)

  /** `committed` records the commits in order; it does not influence a step. */
  datatype Pg = Pg(db: map<ExecutionId, Exec>, locks: map<ExecutionId, TxId>, txs: map<TxId, Tx>,
                   committed: seq<(ExecutionId, Op)>)

  datatype Action =
    | Begin(t: TxId, id: ExecutionId, op: Op)
    | Statement(t: TxId)
    | Abort(t: TxId)

  const EMPTY := Pg(map[], map[], map[], [])

  function At(db: map<ExecutionId, Exec>, id: ExecutionId): Exec {
    if id in db then db[id] else NOTHING
  }

  /** What a statement of the transaction sees of its execution. */
  function Seen(x: Exec, t: Tx): Exec {
    Exec(if t.row.Some? then t.row else x.row, x.logs + t.logs, x.events + t.events)
  }

  /** The event row that the transaction writes. A log event is only asked for once the chunk is inserted. */
  function EventOf(t: Tx, seen: Exec): (EventKind, Status) {
    match t.op
    case Create(_) => (EvQueued, Queued)
    case Note(kind, status) => (kind, status)
    case Log(_, _) => (if t.logs == [] then EvRecovered else LogEvent(t.logs[|t.logs| - 1]), Running)
    case _ => (MarkKind(Postgres, t.op), Target(t.op))
  }

  /** Nobody else has the row, or the key of the row to be inserted. */
  predicate LockFree(s: Pg, id: ExecutionId) { id !in s.locks }

  /** A new execution gets a fresh id; everything else is asked of an execution that exists. */
  predicate MayBegin(s: Pg, t: TxId, id: ExecutionId, op: Op) {
    && t !in s.txs
    && (op.Create? ==> At(s.db, id) == NOTHING && LockFree(s, id)
                       && forall u :: u in s.txs ==> s.txs[u].id != id)
    && (!op.Create? ==> At(s.db, id).row.Some?)
  }

  function Release(s: Pg, t: TxId, id: ExecutionId): Pg {
    s.(txs := s.txs - {t}, locks := if id in s.locks && s.locks[id] == t then s.locks - {id} else s.locks)
  }

  function Commit(s: Pg, t: TxId, tx: Tx): Pg {
    Release(s, t, tx.id).(db := s.db[tx.id := Seen(At(s.db, tx.id), tx)], committed := s.committed + [(tx.id, tx.op)])
  }

  function Put(s: Pg, t: TxId, tx: Tx): Pg {
    s.(txs := s.txs[t := tx])
  }

  /** One statement. A statement that waits for a lock, or violates a primary key, is shown as such:
      the first changes nothing yet, the second aborts the transaction. */
  function Execute(s: Pg, t: TxId): Pg
    requires t in s.txs
  {
    var tx := s.txs[t];
    var seen := Seen(At(s.db, tx.id), tx);
    match tx.pc
    case Begun =>
      if !LockFree(s, tx.id) then s
      else if tx.op.Create? then
        Put(s, t, tx.(pc := RowWritten, row := Some(FreshRow(tx.op.timeoutSec)))).(locks := s.locks[tx.id := t])
      else Put(s, t, tx.(pc := Locked)).(locks := s.locks[tx.id := t])
    case Locked =>
      if tx.op.Log? then Put(s, t, tx.(pc := LogNumbered(NextLogSeq(seen.logs))))
      else if !IsMark(tx.op) then Put(s, t, tx.(pc := RowWritten))
      else if Hits(Postgres, tx.op, seen) then Put(s, t, tx.(pc := RowWritten, row := Some(Updated(tx.op, seen.row.value))))
      else Put(s, t, tx.(pc := Missed))
    case LogNumbered(n) =>
      if !tx.op.Log? || LogKeyTaken(seen.logs, n) then Release(s, t, tx.id)
      else Put(s, t, tx.(pc := LogInserted(n), logs := tx.logs + [LogRow(n, tx.op.stream, tx.op.text)]))
    case LogInserted(n) =>
      if !tx.op.Log? || seen.row.None? then Release(s, t, tx.id)
      else Put(s, t, tx.(pc := RowWritten, row := Some(WithChunk(seen.row.value, n, tx.op.stream, tx.op.text))))
    case RowWritten => Put(s, t, tx.(pc := EventNumbered(NextEventSeq(seen.events))))
    case EventNumbered(n) =>
      if EventKeyTaken(seen.events, n) then Release(s, t, tx.id)
      else
        var (kind, status) := EventOf(tx, seen);
        Put(s, t, tx.(pc := EventInserted, events := tx.events + [EventRow(n, kind, status)]))
    case EventInserted => Commit(s, t, tx)
    case Missed => Commit(s, t, tx)
  }

  predicate LogKeyTaken(logs: seq<LogRow>, n: nat) {
    exists i :: 0 <= i < |logs| && logs[i].seqNo == n
  }

  predicate EventKeyTaken(events: seq<EventRow>, n: nat) {
    exists i :: 0 <= i < |events| && events[i].seqNo == n
  }

  function Next(s: Pg, a: Action): Pg {
    match a
    case Begin(t, id, op) =>
      if MayBegin(s, t, id, op) then Put(s, t, Tx(id, op, Begun, None, [], [])) else s
    case Statement(t) => if t in s.txs then Execute(s, t) else s
    case Abort(t) => if t in s.txs then Release(s, t, s.txs[t].id) else s
  }

  function Run(s: Pg, actions: seq<Action>): Pg
    decreases actions
  {
    if actions == [] then s else Run(Next(s, actions[0]), actions[1..])
  }

  // ---------- the serial repository ----------

  /** The tables after the transactions have run one after the other. */
  function Serial(history: seq<(ExecutionId, Op)>): map<ExecutionId, Exec> {
    if history == [] then map[]
    else
      var (id, op) := history[|history| - 1];
      var db := Serial(history[..|history| - 1]);
      db[id := Apply(Postgres, op, At(db, id))]
  }

  // ---------- the invariant ----------

  /** What a transaction will commit if it is left alone from here. */
  function Outcome(t: Tx, seen: Exec): Exec {
    match t.pc
    case Begun => Apply(Postgres, t.op, seen)
    case Locked => Apply(Postgres, t.op, seen)
    case Missed => seen
    case LogNumbered(n) =>
      if t.op.Log? && seen.row.Some? then
        var l := LogRow(n, t.op.stream, t.op.text);
        WithEvent(Exec(Some(WithChunk(seen.row.value, n, t.op.stream, t.op.text)), seen.logs + [l], seen.events), LogEvent(l), Running)
      else seen
    case LogInserted(n) =>
      if t.op.Log? && seen.row.Some? then
        WithEvent(seen.(row := Some(WithChunk(seen.row.value, n, t.op.stream, t.op.text))),
                  EventOf(t, seen).0, Running)
      else seen
    case RowWritten => WithEvent(seen, EventOf(t, seen).0, EventOf(t, seen).1)
    case EventNumbered(n) => seen.(events := seen.events + [EventRow(n, EventOf(t, seen).0, EventOf(t, seen).1)])
    case EventInserted => seen
  }

  /** Local facts of a transaction at its point. */
  ghost predicate Shape(t: Tx, x: Exec) {
    && (t.pc.Begun? || t.pc.Locked? || t.pc.Missed? ==> t.row.None? && t.logs == [] && t.events == [])
    && (t.pc.Locked? ==> !t.op.Create?)
    && (t.pc.LogNumbered? ==> t.op.Log? && t.logs == [] && t.pc.n == NextLogSeq(Seen(x, t).logs))
    && (t.pc.LogInserted? ==> t.op.Log? && t.logs != [])
    && (t.pc.RowWritten? && t.op.Log? ==> t.logs != [])
    && (t.pc.EventNumbered? ==> (t.op.Log? ==> t.logs != []) && t.pc.n == NextEventSeq(Seen(x, t).events))
    && (!t.op.Create? ==> x.row.Some?)
    && (t.op.Create? ==> x == NOTHING)
  }

  /** A transaction will commit what the serial repository would, whatever it has already done. */
  ghost predicate TxOk(s: Pg, t: TxId)
    requires t in s.txs
  {
    var tx := s.txs[t];
    var x := At(s.db, tx.id);
    && Shape(tx, x)
    && Outcome(tx, Seen(x, tx)) == Apply(Postgres, tx.op, x)
    && (!tx.pc.Begun? ==> tx.id in s.locks && s.locks[tx.id] == t)
    && (tx.op.Create? ==> forall u :: u in s.txs && s.txs[u].id == tx.id ==> u == t)
  }

  ghost predicate LocksOk(s: Pg) {
    forall id :: id in s.locks ==>
      s.locks[id] in s.txs && s.txs[s.locks[id]].id == id && !s.txs[s.locks[id]].pc.Begun?
  }

  ghost predicate Inv(s: Pg) {
    LocksOk(s) && (forall t :: t in s.txs ==> TxOk(s, t)) && s.db == Serial(s.committed)
  }

  // ---------- one statement ----------

  /** The write of a statement does not change what the transaction will commit. */
  ghost predicate Continues(t: Tx, t': Tx, x: Exec) {
    && t'.id == t.id && t'.op == t.op && !t'.pc.Begun?
    && Shape(t', x) && Outcome(t', Seen(x, t')) == Outcome(t, Seen(x, t))
  }

  lemma SeenNothing(x: Exec, t: Tx)
    requires t.row.None? && t.logs == [] && t.events == []
    ensures Seen(x, t) == x
  {
  }

  lemma LockContinues(t: Tx, x: Exec)
    requires Shape(t, x) && t.pc == Begun
    ensures t.op.Create? ==> Continues(t, t.(pc := RowWritten, row := Some(FreshRow(t.op.timeoutSec))), x)
    ensures !t.op.Create? ==> Continues(t, t.(pc := Locked), x)
  {
    SeenNothing(x, t);
    if t.op.Create? {
      var t' := t.(pc := RowWritten, row := Some(FreshRow(t.op.timeoutSec)));
      assert Seen(x, t') == x.(row := t'.row);
    } else {
      SeenNothing(x, t.(pc := Locked));
    }
  }

  lemma FirstStatementContinues(t: Tx, x: Exec)
    requires Shape(t, x) && t.pc == Locked && !t.op.Create?
    ensures t.op.Log? ==> Continues(t, t.(pc := LogNumbered(NextLogSeq(Seen(x, t).logs))), x)
    ensures t.op.Note? ==> Continues(t, t.(pc := RowWritten), x)
    ensures IsMark(t.op) && Hits(Postgres, t.op, Seen(x, t)) ==>
              Continues(t, t.(pc := RowWritten, row := Some(Updated(t.op, Seen(x, t).row.value))), x)
    ensures IsMark(t.op) && !Hits(Postgres, t.op, Seen(x, t)) ==> Continues(t, t.(pc := Missed), x)
  {
    SeenNothing(x, t);
    if t.op.Log? {
      SeenNothing(x, t.(pc := LogNumbered(NextLogSeq(x.logs))));
    } else if t.op.Note? {
      SeenNothing(x, t.(pc := RowWritten));
    } else if Hits(Postgres, t.op, x) {
      var t' := t.(pc := RowWritten, row := Some(Updated(t.op, x.row.value)));
      assert Seen(x, t') == x.(row := t'.row);
    } else {
      SeenNothing(x, t.(pc := Missed));
    }
  }

  lemma LogStatementsContinue(t: Tx, x: Exec)
    requires Shape(t, x)
    ensures t.pc.LogNumbered? ==>
              !LogKeyTaken(Seen(x, t).logs, t.pc.n)
              && Continues(t, t.(pc := LogInserted(t.pc.n), logs := t.logs + [LogRow(t.pc.n, t.op.stream, t.op.text)]), x)
    ensures t.pc.LogInserted? ==>
              Seen(x, t).row.Some?
              && Continues(t, t.(pc := RowWritten, row := Some(WithChunk(Seen(x, t).row.value, t.pc.n, t.op.stream, t.op.text))), x)
  {
    if t.pc.LogNumbered? {
      var l := LogRow(t.pc.n, t.op.stream, t.op.text);
      var t' := t.(pc := LogInserted(t.pc.n), logs := t.logs + [l]);
      assert Seen(x, t') == Seen(x, t).(logs := Seen(x, t).logs + [l]);
    } else if t.pc.LogInserted? {
      var t' := t.(pc := RowWritten, row := Some(WithChunk(Seen(x, t).row.value, t.pc.n, t.op.stream, t.op.text)));
      assert Seen(x, t') == Seen(x, t).(row := t'.row);
    }
  }

  lemma EventStatementsContinue(t: Tx, x: Exec)
    requires Shape(t, x)
    ensures t.pc.RowWritten? ==> Continues(t, t.(pc := EventNumbered(NextEventSeq(Seen(x, t).events))), x)
    ensures t.pc.EventNumbered? ==>
              !EventKeyTaken(Seen(x, t).events, t.pc.n)
              && Continues(t, t.(pc := EventInserted, events := t.events
                                 + [EventRow(t.pc.n, EventOf(t, Seen(x, t)).0, EventOf(t, Seen(x, t)).1)]), x)
  {
    if t.pc.RowWritten? {
      var t' := t.(pc := EventNumbered(NextEventSeq(Seen(x, t).events)));
      assert Seen(x, t') == Seen(x, t);
    } else if t.pc.EventNumbered? {
      var e := EventRow(t.pc.n, EventOf(t, Seen(x, t)).0, EventOf(t, Seen(x, t)).1);
      var t' := t.(pc := EventInserted, events := t.events + [e]);
      assert Seen(x, t') == Seen(x, t).(events := Seen(x, t).events + [e]);
    }
  }

  // ---------- every action ----------

  /** A transaction that holds its row, or has just taken it, moves on. */
  lemma PutKeepsInv(s: Pg, t: TxId, tx': Tx, locks: map<ExecutionId, TxId>)
    requires Inv(s) && t in s.txs && Continues(s.txs[t], tx', At(s.db, s.txs[t].id))
    requires locks == s.locks[tx'.id := t]
    requires s.txs[t].pc.Begun? ==> LockFree(s, tx'.id)
    ensures Inv(Put(s, t, tx').(locks := locks))
  {
    var s' := Put(s, t, tx').(locks := locks);
    MoverMoved(s, t, tx', locks);
    forall u | u in s'.txs
      ensures TxOk(s', u)
    {
      if u != t {
        assert TxOk(s, t) && TxOk(s, u);
        OthersNotMoved(s, t, u, tx', locks);
      }
    }
  }

  lemma MoverMoved(s: Pg, t: TxId, tx': Tx, locks: map<ExecutionId, TxId>)
    requires LocksOk(s) && t in s.txs && TxOk(s, t) && Continues(s.txs[t], tx', At(s.db, s.txs[t].id))
    requires locks == s.locks[tx'.id := t]
    ensures var s' := Put(s, t, tx').(locks := locks); LocksOk(s') && TxOk(s', t)
  {
  }

  lemma OthersNotMoved(s: Pg, t: TxId, u: TxId, tx': Tx, locks: map<ExecutionId, TxId>)
    requires t in s.txs && u in s.txs && u != t && TxOk(s, t) && TxOk(s, u)
    requires tx'.id == s.txs[t].id && locks == s.locks[tx'.id := t]
    requires s.txs[t].pc.Begun? ==> LockFree(s, tx'.id)
    ensures TxOk(Put(s, t, tx').(locks := locks), u)
  {
  }

  lemma HolderKeepsLocks(s: Pg, t: TxId)
    requires Inv(s) && t in s.txs && !s.txs[t].pc.Begun?
    ensures s.locks == s.locks[s.txs[t].id := t]
  {
    assert TxOk(s, t);
  }

  lemma ReleaseKeepsInv(s: Pg, t: TxId)
    requires Inv(s) && t in s.txs
    ensures Inv(Release(s, t, s.txs[t].id))
  {
    var s' := Release(s, t, s.txs[t].id);
    forall u | u in s'.txs
      ensures TxOk(s', u)
    {
      assert TxOk(s, u) && TxOk(s, t);
    }
  }

  /** A commit is the serial transaction. */
  lemma CommitKeepsInv(s: Pg, t: TxId)
    requires Inv(s) && t in s.txs && (s.txs[t].pc.Missed? || s.txs[t].pc.EventInserted?)
    ensures Inv(Commit(s, t, s.txs[t]))
  {
    var tx := s.txs[t];
    var s' := Commit(s, t, tx);
    CommitIsSerial(s, t);
    forall u | u in s'.txs
      ensures TxOk(s', u)
    {
      assert TxOk(s, u) && TxOk(s, t);
      if s.txs[u].id == tx.id {
        CommitUnderWaiter(s, t, u);
      } else {
        assert At(s'.db, s.txs[u].id) == At(s.db, s.txs[u].id);
      }
    }
  }

  lemma CommitIsSerial(s: Pg, t: TxId)
    requires Inv(s) && t in s.txs && (s.txs[t].pc.Missed? || s.txs[t].pc.EventInserted?)
    ensures Commit(s, t, s.txs[t]).db == Serial(Commit(s, t, s.txs[t]).committed)
  {
    var tx := s.txs[t];
    assert TxOk(s, t);
    var more := s.committed + [(tx.id, tx.op)];
    assert more[..|more| - 1] == s.committed;
  }

  /** Another transaction on the same execution has not started, and starts from what was committed. */
  lemma CommitUnderWaiter(s: Pg, t: TxId, u: TxId)
    requires Inv(s) && t in s.txs && u in s.txs && u != t && s.txs[u].id == s.txs[t].id
    requires s.txs[t].pc.Missed? || s.txs[t].pc.EventInserted?
    ensures s.txs[u].pc == Begun && TxOk(Commit(s, t, s.txs[t]), u)
  {
    assert TxOk(s, u) && TxOk(s, t);
    var tx, waiting := s.txs[t], s.txs[u];
    var x' := Seen(At(s.db, tx.id), tx);
    assert !waiting.op.Create?;
    assert At(Commit(s, t, tx).db, tx.id) == x';
    SeenNothing(x', waiting);
    RowStays(tx.op, At(s.db, tx.id));
  }

  lemma RowStays(op: Op, x: Exec)
    requires x.row.Some?
    ensures Apply(Postgres, op, x).row.Some?
  {
  }

  lemma BeginKeepsInv(s: Pg, t: TxId, id: ExecutionId, op: Op)
    requires Inv(s) && MayBegin(s, t, id, op)
    ensures Inv(Put(s, t, Tx(id, op, Begun, None, [], [])))
  {
    var tx := Tx(id, op, Begun, None, [], []);
    var s' := Put(s, t, tx);
    SeenNothing(At(s.db, id), tx);
    forall u | u in s'.txs
      ensures TxOk(s', u)
    {
      if u != t {
        assert TxOk(s, u);
      }
    }
  }

  lemma ExecuteKeepsInv(s: Pg, t: TxId)
    requires Inv(s) && t in s.txs
    ensures Inv(Execute(s, t))
  {
    var tx := s.txs[t];
    var x := At(s.db, tx.id);
    assert TxOk(s, t);
    match tx.pc
    case Begun =>
      if LockFree(s, tx.id) {
        LockContinues(tx, x);
        PutKeepsInv(s, t, if tx.op.Create? then tx.(pc := RowWritten, row := Some(FreshRow(tx.op.timeoutSec)))
                          else tx.(pc := Locked), s.locks[tx.id := t]);
      }
    case Missed => CommitKeepsInv(s, t);
    case EventInserted => CommitKeepsInv(s, t);
    case _ => MiddleStatement(s, t);
  }

  /** A statement between lock and commit: it never meets a taken key, and the transaction moves on. */
  lemma MiddleStatement(s: Pg, t: TxId)
    requires Inv(s) && t in s.txs
    requires !s.txs[t].pc.Begun? && !s.txs[t].pc.Missed? && !s.txs[t].pc.EventInserted?
    ensures t in Execute(s, t).txs && Execute(s, t) == Put(s, t, Execute(s, t).txs[t])
    ensures Execute(s, t).txs[t].id == s.txs[t].id && Execute(s, t).txs[t].op == s.txs[t].op
    ensures Inv(Execute(s, t))
  {
    var tx := s.txs[t];
    var x := At(s.db, tx.id);
    assert TxOk(s, t);
    HolderKeepsLocks(s, t);
    if tx.pc == Locked {
      FirstStatementContinues(tx, x);
    } else if tx.pc.LogNumbered? || tx.pc.LogInserted? {
      LogStatementsContinue(tx, x);
    } else {
      EventStatementsContinue(tx, x);
    }
    var tx' := Execute(s, t).txs[t];
    PutKeepsInv(s, t, tx', s.locks);
  }

  lemma NextKeepsInv(s: Pg, a: Action)
    requires Inv(s)
    ensures Inv(Next(s, a))
  {
    match a
    case Begin(t, id, op) =>
      if MayBegin(s, t, id, op) {
        BeginKeepsInv(s, t, id, op);
      }
    case Statement(t) =>
      if t in s.txs {
        ExecuteKeepsInv(s, t);
      }
    case Abort(t) =>
      if t in s.txs {
        ReleaseKeepsInv(s, t);
      }
  }

  lemma {:induction false} RunKeepsInv(s: Pg, actions: seq<Action>)
    requires Inv(s)
    ensures Inv(Run(s, actions))
    decreases actions
  {
    if actions != [] {
      NextKeepsInv(s, actions[0]);
      RunKeepsInv(Next(s, actions[0]), actions[1..]);
    }
  }

  // ---------- the main results ----------

  /** However the statements of all connections interleave, and whichever transactions abort: what is
      committed is what the committed transactions leave when run one after the other, in commit order. */
  lemma InterleavedIsSerial(actions: seq<Action>)
    ensures Run(EMPTY, actions).db == Serial(Run(EMPTY, actions).committed)
  {
    assert Inv(EMPTY);
    RunKeepsInv(EMPTY, actions);
  }

  /** No INSERT meets a key that is taken: a statement aborts nothing. */
  lemma NoKeyConflict(actions: seq<Action>, t: TxId)
    requires t in Run(EMPTY, actions).txs
    ensures var s := Run(EMPTY, actions); var tx := s.txs[t];
            !tx.pc.Missed? && !tx.pc.EventInserted? ==> t in Execute(s, t).txs
  {
    assert Inv(EMPTY);
    RunKeepsInv(EMPTY, actions);
    var s := Run(EMPTY, actions);
    if !s.txs[t].pc.Begun? && !s.txs[t].pc.Missed? && !s.txs[t].pc.EventInserted? {
      MiddleStatement(s, t);
    }
  }

  /** Sequence numbers are unique and dense in everything that is ever committed. */
  lemma CommittedNumbersAreDense(actions: seq<Action>, id: ExecutionId)
    ensures var x := At(Run(EMPTY, actions).db, id); DenseLogs(x.logs) && DenseEvents(x.events)
  {
    InterleavedIsSerial(actions);
    SerialIsDense(Run(EMPTY, actions).committed, id);
  }

  lemma {:induction false} SerialIsDense(history: seq<(ExecutionId, Op)>, id: ExecutionId)
    ensures var x := At(Serial(history), id); DenseLogs(x.logs) && DenseEvents(x.events)
  {
    if history != [] {
      var front := history[..|history| - 1];
      var (o, op) := history[|history| - 1];
      SerialIsDense(front, id);
      if o == id {
        ApplyKeepsNumbers(op, At(Serial(front), id));
      }
    }
  }

  lemma ApplyKeepsNumbers(op: Op, x: Exec)
    requires DenseLogs(x.logs) && DenseEvents(x.events)
    ensures DenseLogs(Apply(Postgres, op, x).logs) && DenseEvents(Apply(Postgres, op, x).events)
  {
    NextLogSeqDense(x.logs);
    NextEventSeqDense(x.events);
  }

  /** Two transactions that read MAX(seq) of the same execution cannot both be past their read: the
      parent-row lock keeps one of them waiting. */
  lemma OneNumbererAtATime(actions: seq<Action>, t: TxId, u: TxId)
    requires var s := Run(EMPTY, actions); t in s.txs && u in s.txs && s.txs[t].id == s.txs[u].id
    ensures var s := Run(EMPTY, actions);
            !s.txs[t].pc.Begun? && !s.txs[u].pc.Begun? ==> t == u
  {
    assert Inv(EMPTY);
    RunKeepsInv(EMPTY, actions);
    assert TxOk(Run(EMPTY, actions), t) && TxOk(Run(EMPTY, actions), u);
  }
}
