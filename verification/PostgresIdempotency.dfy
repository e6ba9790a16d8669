/** Idempotency claims in Postgres, with the statements of their transactions interleaved, as one key sees them.

    The key's row is either committed or not; at most one transaction holds it, by having deleted it, inserted
    it, or selected it FOR UPDATE. A statement that needs the row while another transaction holds it waits. A
    claim on another key touches the row as well, since its DELETE removes the expired rows of every key. */
module PostgresIdempotency {
  import opened Wrappers
  import opened IsoTime
  import opened Idempotency

  type TxId = nat

  datatype Pc = Deleting | Inserting | Selecting | Retrying | Reselecting
              | Judging(read: Entry) | Taking | Decided(verdict: Verdict) | Raised | Purged

  /** `deleted` says that the transaction's DELETE removed the committed row, `elsewhere` that it is a claim on
      another key, which does nothing more to this one. */
  datatype Tx = Tx(hash: string, nowIso: string, expiresIso: string, pc: Pc, deleted: bool, elsewhere: bool)

  /** What a commit did: the committed row before and after, and what the caller was told; or what the commit of
      a claim on another key did. */
  datatype Commit =
    | Commit(before: Option<Entry>, tx: Tx, verdict: Verdict, after: Option<Entry>)
    | Purge(before: Option<Entry>, tx: Tx, after: Option<Entry>)

  datatype Pg = Pg(row: Option<Entry>, txs: map<TxId, Tx>, holder: Option<TxId>, history: seq<Commit>)

  datatype Action =
    | Begin(t: TxId, hash: string, nowIso: string, expiresIso: string)
    | BeginElsewhere(t: TxId, nowIso: string)
    | Statement(t: TxId)
    | CommitIt(t: TxId)
    | Abort(t: TxId)
    | Complete(hash: string, response: Response, expiresIso: string)
    | Release(hash: string)

  predicate Expired(row: Option<Entry>, nowIso: string) {
    row.Some? && LexLeq(row.value.expiresAt, nowIso)
  }

  /** Another transaction holds the row. */
  predicate Held(s: Pg, t: TxId) { s.holder.Some? && s.holder != Some(t) }

  /** The holder has deleted, inserted or updated the row, so an INSERT must wait for its outcome. A row that is
      only locked is there, and ON CONFLICT DO NOTHING does not wait for it. */
  predicate InDoubt(s: Pg, t: TxId) {
    Held(s, t) && (s.row.None? || (s.holder.value in s.txs && Wrote(s.txs[s.holder.value])))
  }

  predicate Wrote(tx: Tx) { tx.deleted || tx.pc.Taking? }

  function Moved(s: Pg, t: TxId, tx: Tx, takes: bool): Pg {
    s.(txs := s.txs[t := tx], holder := if takes then Some(t) else s.holder)
  }

  function InsertStatement(s: Pg, t: TxId, tx: Tx, conflict: Pc): Pg {
    if InDoubt(s, t) then s
    else if s.row.None? || tx.deleted then Moved(s, t, tx.(pc := Taking), true)
    else Moved(s, t, tx.(pc := conflict), false)
  }

  function SelectStatement(s: Pg, t: TxId, tx: Tx, missing: Pc): Pg {
    if s.row.None? then Moved(s, t, tx.(pc := missing), false)
    else if Held(s, t) then s
    else Moved(s, t, tx.(pc := Judging(s.row.value)), true)
  }

  function AfterDelete(tx: Tx): Pc { if tx.elsewhere then Purged else Inserting }

  /** The next statement of a transaction, or nothing while it waits. */
  function Execute(s: Pg, t: TxId): Pg
    requires t in s.txs
  {
    var tx := s.txs[t];
    match tx.pc
    case Deleting =>
      if !Expired(s.row, tx.nowIso) then Moved(s, t, tx.(pc := AfterDelete(tx)), false)
      else if Held(s, t) then s
      else Moved(s, t, tx.(pc := AfterDelete(tx), deleted := true), true)
    case Inserting => InsertStatement(s, t, tx, Selecting)
    case Selecting => SelectStatement(s, t, tx, Retrying)
    case Retrying => InsertStatement(s, t, tx, Reselecting)
    case Reselecting => SelectStatement(s, t, tx, Raised)
    case Judging(read) =>
      if read.hash != tx.hash then Moved(s, t, tx.(pc := Decided(Conflict)), false)
      else if LexLeq(read.expiresAt, tx.nowIso) then Moved(s, t, tx.(pc := Taking), false)
      else Moved(s, t, tx.(pc := Decided(Judge(read, tx.hash))), false)
    case _ => s
  }

  function Gone(s: Pg, t: TxId): Pg {
    s.(txs := s.txs - {t}, holder := if s.holder == Some(t) then None else s.holder)
  }

  function Committed(s: Pg, t: TxId): Pg
    requires t in s.txs
  {
    var tx := s.txs[t];
    if tx.pc.Taking? then
      var after := Some(Pending(tx.hash, tx.nowIso, tx.expiresIso));
      Gone(s, t).(row := after, history := s.history + [Commit(s.row, tx, Claimed, after)])
    else if tx.pc.Decided? then
      Gone(s, t).(history := s.history + [Commit(s.row, tx, tx.pc.verdict, s.row)])
    else if tx.pc.Purged? then
      var after := if tx.deleted then None else s.row;
      Gone(s, t).(row := after, history := s.history + [Purge(s.row, tx, after)])
    else s
  }

  function Next(s: Pg, a: Action): Pg {
    match a
    case Begin(t, hash, nowIso, expiresIso) =>
      if t in s.txs then s else s.(txs := s.txs[t := Tx(hash, nowIso, expiresIso, Deleting, false, false)])
    case BeginElsewhere(t, nowIso) =>
      if t in s.txs then s else s.(txs := s.txs[t := Tx("", nowIso, "", Deleting, false, true)])
    case Statement(t) => if t in s.txs then Execute(s, t) else s
    case CommitIt(t) => if t in s.txs then Committed(s, t) else s
    case Abort(t) => Gone(s, t)
    case Complete(hash, response, expiresIso) =>
      if s.row.None? || s.holder.Some? || s.row.value.hash != hash then s
      else s.(row := Some(s.row.value.(completed := true, response := Some(response), expiresAt := expiresIso)))
    case Release(hash) =>
      if s.row.None? || s.holder.Some? || s.row.value.hash != hash || s.row.value.completed then s
      else s.(row := None)
  }

  function Run(s: Pg, actions: seq<Action>): Pg {
    if actions == [] then s else Next(Run(s, actions[..|actions| - 1]), actions[|actions| - 1])
  }

  const EMPTY := Pg(None, map[], None, [])

  // ---------- the invariant ----------

  /** What a transaction knows about the committed row while it holds it. */
  ghost predicate TxOk(s: Pg, t: TxId)
    requires t in s.txs
  {
    var tx := s.txs[t];
    && (tx.deleted ==>
          s.holder == Some(t) && Expired(s.row, tx.nowIso) && (tx.pc == Inserting || tx.pc == Taking || tx.pc == Purged))
    && (tx.pc.Taking? ==> s.holder == Some(t) && (s.row.None? || Expired(s.row, tx.nowIso))
                          && (s.row.None? || tx.deleted || s.row.value.hash == tx.hash))
    && (tx.pc.Judging? ==> s.holder == Some(t) && s.row == Some(tx.pc.read))
    && (tx.pc.Decided? ==> s.holder == Some(t) && s.row.Some? && tx.pc.verdict == Judge(s.row.value, tx.hash)
                           && (s.row.value.hash == tx.hash ==> !Expired(s.row, tx.nowIso)))
  }

  /** The one situation in which a serial store would have decided otherwise: the row has expired by the
      transaction's own clock but was committed only after its DELETE, and belongs to another request. */
  predicate Overtaken(row: Option<Entry>, tx: Tx) {
    Expired(row, tx.nowIso) && row.value.hash != tx.hash && !tx.deleted
  }

  /** A commit did to the key what the serial claim does to it, or was overtaken and left it alone. The commit of a
      claim on another key took the row away only if it was expired. */
  ghost predicate CommitOk(c: Commit) {
    if c.Purge? then (if c.tx.deleted then Expired(c.before, c.tx.nowIso) && c.after.None? else c.after == c.before)
    else if Overtaken(c.before, c.tx) then c.after == c.before && c.verdict == Conflict
    else (c.after, c.verdict) == SerialClaim(c.before, c.tx)
  }

  ghost predicate Inv(s: Pg) {
    && (forall t :: t in s.txs ==> TxOk(s, t))
    && (forall i :: 0 <= i < |s.history| ==> CommitOk(s.history[i]))
  }

  /** The serial claim of `Idempotency` on a table with this row alone. */
  function SerialClaim(row: Option<Entry>, tx: Tx): (Option<Entry>, Verdict) {
    var k := Key("", "", "");
    var (rows, v) := Claim(if row.Some? then map[k := row.value] else map[], k, tx.hash, tx.nowIso, tx.expiresIso);
    (if k in rows then Some(rows[k]) else None, v)
  }

  lemma SerialCases(row: Option<Entry>, tx: Tx)
    ensures SerialClaim(row, tx) ==
              if row.None? || Expired(row, tx.nowIso) then (Some(Pending(tx.hash, tx.nowIso, tx.expiresIso)), Claimed)
              else (row, Judge(row.value, tx.hash))
  {
  }

  lemma MoveKeepsInv(s: Pg, t: TxId, tx: Tx, takes: bool)
    requires Inv(s) && t in s.txs && (takes ==> !Held(s, t))
    requires TxOk(Moved(s, t, tx, takes), t)
    ensures Inv(Moved(s, t, tx, takes))
  {
    var s' := Moved(s, t, tx, takes);
    forall u | u in s'.txs
      ensures TxOk(s', u)
    {
      if u != t {
        assert TxOk(s, u);
      }
    }
  }

  lemma StatementKeepsInv(s: Pg, t: TxId)
    requires Inv(s) && t in s.txs
    ensures Inv(Execute(s, t))
  {
    assert TxOk(s, t);
    var tx := s.txs[t];
    match tx.pc
    case Deleting =>
      MoveKeepsInv(s, t, tx.(pc := AfterDelete(tx)), false);
      if Expired(s.row, tx.nowIso) && !Held(s, t) {
        MoveKeepsInv(s, t, tx.(pc := AfterDelete(tx), deleted := true), true);
      }
    case Inserting => InsertKeepsInv(s, t, Selecting);
    case Selecting => SelectKeepsInv(s, t, Retrying);
    case Retrying => InsertKeepsInv(s, t, Reselecting);
    case Reselecting => SelectKeepsInv(s, t, Raised);
    case Judging(read) =>
      if read.hash != tx.hash {
        MoveKeepsInv(s, t, tx.(pc := Decided(Conflict)), false);
      } else if LexLeq(read.expiresAt, tx.nowIso) {
        MoveKeepsInv(s, t, tx.(pc := Taking), false);
      } else {
        MoveKeepsInv(s, t, tx.(pc := Decided(Judge(read, tx.hash))), false);
      }
    case _ =>
  }

  lemma InsertKeepsInv(s: Pg, t: TxId, conflict: Pc)
    requires Inv(s) && t in s.txs && (s.txs[t].pc == Inserting || s.txs[t].pc == Retrying)
    requires conflict == Selecting || conflict == Reselecting
    ensures Inv(InsertStatement(s, t, s.txs[t], conflict))
  {
    assert TxOk(s, t);
    var tx := s.txs[t];
    if !InDoubt(s, t) {
      if s.row.None? || tx.deleted {
        MoveKeepsInv(s, t, tx.(pc := Taking), true);
      } else {
        MoveKeepsInv(s, t, tx.(pc := conflict), false);
      }
    }
  }

  lemma SelectKeepsInv(s: Pg, t: TxId, missing: Pc)
    requires Inv(s) && t in s.txs && (s.txs[t].pc == Selecting || s.txs[t].pc == Reselecting)
    requires missing == Retrying || missing == Raised
    ensures Inv(SelectStatement(s, t, s.txs[t], missing))
  {
    assert TxOk(s, t);
    var tx := s.txs[t];
    if s.row.None? {
      MoveKeepsInv(s, t, tx.(pc := missing), false);
    } else if !Held(s, t) {
      MoveKeepsInv(s, t, tx.(pc := Judging(s.row.value)), true);
    }
  }

  /** A commit is the serial claim at the moment of the commit, unless it was overtaken. */
  lemma CommitIsSerial(s: Pg, t: TxId)
    requires Inv(s) && t in s.txs && (s.txs[t].pc.Taking? || s.txs[t].pc.Decided?)
    ensures var c := Committed(s, t).history[|s.history|]; c.Commit? && CommitOk(c) && c.before == s.row && c.after == Committed(s, t).row
  {
    assert TxOk(s, t);
    SerialCases(s.row, s.txs[t]);
  }

  /** Without its holder the row is free, and nobody else knew anything about it. */
  lemma OthersIdle(s: Pg, t: TxId, u: TxId)
    requires Inv(s) && s.holder == Some(t) && u in s.txs && u != t
    ensures !s.txs[u].deleted && !s.txs[u].pc.Taking? && !s.txs[u].pc.Judging? && !s.txs[u].pc.Decided?
  {
    assert TxOk(s, u);
  }

  lemma GoneKeepsInv(s: Pg, t: TxId)
    requires Inv(s)
    ensures Inv(Gone(s, t))
  {
    var s' := Gone(s, t);
    forall u | u in s'.txs
      ensures TxOk(s', u)
    {
      assert TxOk(s, u);
    }
  }

  lemma CommitKeepsInv(s: Pg, t: TxId)
    requires Inv(s) && t in s.txs
    ensures Inv(Committed(s, t))
  {
    var s' := Committed(s, t);
    if s.txs[t].pc.Taking? || s.txs[t].pc.Decided? {
      assert TxOk(s, t);
      CommitIsSerial(s, t);
      forall u | u in s'.txs
        ensures TxOk(s', u)
      {
        OthersIdle(s, t, u);
      }
    } else if s.txs[t].pc.Purged? {
      PurgeKeepsInv(s, t);
    }
  }

  lemma PurgeKeepsInv(s: Pg, t: TxId)
    requires Inv(s) && t in s.txs && s.txs[t].pc.Purged?
    ensures Inv(Committed(s, t))
  {
    var s' := Committed(s, t);
    assert TxOk(s, t);
    forall u | u in s'.txs
      ensures TxOk(s', u)
    {
      assert TxOk(s, u);
      if s.txs[t].deleted {
        OthersIdle(s, t, u);
      }
    }
  }

  /** A change of a row that nobody holds. */
  lemma FreeWriteKeepsInv(s: Pg, row: Option<Entry>)
    requires Inv(s) && s.holder.None?
    ensures Inv(s.(row := row))
  {
    var s' := s.(row := row);
    forall u | u in s'.txs
      ensures TxOk(s', u)
    {
      assert TxOk(s, u);
    }
  }

  lemma BeginKeepsInv(s: Pg, t: TxId, tx: Tx)
    requires Inv(s) && t !in s.txs && tx.pc == Deleting && !tx.deleted
    ensures Inv(s.(txs := s.txs[t := tx]))
  {
    var s' := s.(txs := s.txs[t := tx]);
    forall u | u in s'.txs
      ensures TxOk(s', u)
    {
      if u != t {
        assert TxOk(s, u);
      }
    }
  }

  lemma NextKeepsInv(s: Pg, a: Action)
    requires Inv(s)
    ensures Inv(Next(s, a))
  {
    match a
    case Begin(t, hash, nowIso, expiresIso) =>
      if t !in s.txs {
        BeginKeepsInv(s, t, Tx(hash, nowIso, expiresIso, Deleting, false, false));
      }
    case BeginElsewhere(t, nowIso) =>
      if t !in s.txs {
        BeginKeepsInv(s, t, Tx("", nowIso, "", Deleting, false, true));
      }
    case Statement(t) =>
      if t in s.txs {
        StatementKeepsInv(s, t);
      }
    case CommitIt(t) =>
      if t in s.txs {
        CommitKeepsInv(s, t);
      }
    case Abort(t) => GoneKeepsInv(s, t);
    case Complete(hash, response, expiresIso) =>
      if s.holder.None? && s.row.Some? {
        FreeWriteKeepsInv(s, Some(s.row.value.(completed := true, response := Some(response), expiresAt := expiresIso)));
      }
    case Release(hash) =>
      if s.holder.None? {
        FreeWriteKeepsInv(s, None);
      }
  }

  lemma {:induction false} RunKeepsInv(actions: seq<Action>)
    ensures Inv(Run(EMPTY, actions))
  {
    if actions != [] {
      RunKeepsInv(actions[..|actions| - 1]);
      NextKeepsInv(Run(EMPTY, actions[..|actions| - 1]), actions[|actions| - 1]);
    }
  }

  /** Whatever the interleaving, a claim that commits has decided as the serial store would at that moment, on
      the row that is committed at that moment, exactly unless that row had overtaken it. The exception can be
      told before the commit, from the row, the request's hash and clock, and what its DELETE removed. */
  lemma EveryCommitIsSerial(actions: seq<Action>, i: nat)
    requires i < |Run(EMPTY, actions).history| && Run(EMPTY, actions).history[i].Commit?
    ensures var c := Run(EMPTY, actions).history[i];
            (c.after, c.verdict) == SerialClaim(c.before, c.tx) <==> !Overtaken(c.before, c.tx)
  {
    RunKeepsInv(actions);
    var c := Run(EMPTY, actions).history[i];
    assert CommitOk(c);
    SerialCases(c.before, c.tx);
  }

  /** And a claim on another key takes this key's row away only where the serial purge would: its commit is the
      serial purge of this row unless the row was committed after its DELETE. */
  lemma EveryPurgeIsSerial(actions: seq<Action>, i: nat)
    requires i < |Run(EMPTY, actions).history| && Run(EMPTY, actions).history[i].Purge?
    ensures var c := Run(EMPTY, actions).history[i];
            && (c.after == c.before || (Expired(c.before, c.tx.nowIso) && c.after.None?))
            && (c.after == (if Expired(c.before, c.tx.nowIso) then None else c.before)
                <==> (Expired(c.before, c.tx.nowIso) ==> c.tx.deleted))
  {
    RunKeepsInv(actions);
    assert CommitOk(Run(EMPTY, actions).history[i]);
  }

  /** The row of a key in a serial table. */
  function RowIn(rows: Table, k: Key): Option<Entry> { if k in rows then Some(rows[k]) else None }

  /** While no claim holds the row, storing a response and releasing a claim do to it what the serial store does;
      while one does, they wait. */
  lemma EndsAreSerial(s: Pg, rows: Table, k: Key, hash: string, response: Response, expiresIso: string)
    requires s.row == RowIn(rows, k)
    ensures var done, freed := Next(s, Complete(hash, response, expiresIso)), Next(s, Release(hash));
            && done.row == (if s.holder.None? then RowIn(StoreCompleted(rows, k, hash, response, expiresIso), k) else s.row)
            && freed.row == (if s.holder.None? then RowIn(ReleasePending(rows, k, hash), k) else s.row)
            && done == s.(row := done.row) && freed == s.(row := freed.row)
  {
  }

  lemma Extend(actions: seq<Action>, a: Action) returns (more: seq<Action>)
    ensures Run(EMPTY, more) == Next(Run(EMPTY, actions), a)
  {
    more := actions + [a];
    assert more[..|actions|] == actions;
  }

  lemma ExtendThree(actions: seq<Action>, a: Action, b: Action, c: Action) returns (more: seq<Action>)
    ensures Run(EMPTY, more) == Next(Next(Next(Run(EMPTY, actions), a), b), c)
  {
    more := Extend(actions, a);
    more := Extend(more, b);
    more := Extend(more, c);
  }

  /** The first claim deletes nothing and inserts its row. */
  lemma FirstInserts(tx: Tx)
    requires tx.pc == Deleting && !tx.deleted && !tx.elsewhere
    ensures var s := Next(EMPTY, Begin(0, tx.hash, tx.nowIso, tx.expiresIso));
            Next(Next(s, Statement(0)), Statement(0)) == Pg(None, map[0 := tx.(pc := Taking)], Some(0), [])
  {
  }

  /** The second one's DELETE finds nothing; then the first commits. */
  lemma FirstCommits(first: Tx, second: Tx)
    requires first.pc == Taking && !first.deleted && second.pc == Deleting && !second.deleted
    requires !first.elsewhere && !second.elsewhere
    ensures var s := Next(Pg(None, map[0 := first], Some(0), []), Begin(1, second.hash, second.nowIso, second.expiresIso));
            var row := Some(Pending(first.hash, first.nowIso, first.expiresIso));
            Next(Next(s, Statement(1)), CommitIt(0)) ==
              Pg(row, map[1 := second.(pc := Inserting)], None, [Commit(None, first, Claimed, row)])
  {
  }

  /** The second one finds a row of another request, which its own clock takes for expired. */
  lemma SecondConflicts(row: Entry, second: Tx, log: seq<Commit>)
    requires second.pc == Inserting && !second.deleted && row.hash != second.hash
    ensures var s := Pg(Some(row), map[1 := second], None, log);
            Next(Next(Next(s, Statement(1)), Statement(1)), Statement(1)) ==
              Pg(Some(row), map[1 := second.(pc := Decided(Conflict))], Some(1), log)
  {
  }

  /** It can be overtaken: the first claim commits after the second one's DELETE, with a lifetime that the
      second one's clock has already passed. */
  lemma LateCommitOvertakes(h: string, g: string, now: string, expires: string, later: string, later2: string)
    requires h != g && LexLeq(expires, later)
    ensures exists actions :: ShowsOvertaking(Run(EMPTY, actions))
  {
    var first, second := Tx(h, now, expires, Deleting, false, false), Tx(g, later, later2, Deleting, false, false);
    var actions := ExtendThree([], Begin(0, h, now, expires), Statement(0), Statement(0));
    FirstInserts(first);
    actions := ExtendThree(actions, Begin(1, g, later, later2), Statement(1), CommitIt(0));
    FirstCommits(first.(pc := Taking), second);
    actions := ExtendThree(actions, Statement(1), Statement(1), Statement(1));
    var log := [Commit(None, first.(pc := Taking), Claimed, Some(Pending(h, now, expires)))];
    SecondConflicts(Pending(h, now, expires), second.(pc := Inserting), log);
    actions := Extend(actions, CommitIt(1));
    assert ShowsOvertaking(Run(EMPTY, actions));
  }

  predicate ShowsOvertaking(s: Pg) {
    |s.history| == 2 && s.history[0].Commit? && s.history[1].Commit? && s.history[0].verdict == Claimed && Overtaken(s.history[1].before, s.history[1].tx)
  }
}
