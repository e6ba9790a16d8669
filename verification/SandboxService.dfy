/** The executor, the startup reaper and queued recovery, run one after the other on the SQLite store. */
module SandboxService {
  import opened Wrappers
  import opened SandboxTables
  import opened OutputAccumulator
  import opened SandboxExecutor
  import opened SqliteSandboxStore
  import opened SandboxSupervisor

  // ---------- the executor ----------

  /** Log what an accumulator hands on. */
  method AppendAndLog(store: SqliteExecutionStore, id: ExecutionId, stream: Stream, acc: BoundedTextAccumulator, text: string)
    requires store.Valid()
    modifies store, acc
    ensures store.Valid()
    ensures acc.State() == Append(old(acc.State()), text).0
    ensures store.View(id) == LogIfAny(Sqlite, stream, Append(old(acc.State()), text).1, old(store.View(id)))
    ensures forall o :: o != id ==> store.View(o) == old(store.View(o))
  {
    var clipped := acc.AppendText(text);
    if clipped.Some? && clipped.value != "" {
      var _ := store.AppendLogChunk(id, stream, clipped.value);
    }
  }

  /** The row marked terminal after an exception or a stream without a final result. */
  method MarkBroken(store: SqliteExecutionStore, id: ExecutionId, out: string, err: string,
                    detail: string, cancelRequested: bool, now: int)
    requires store.Valid()
    modifies store
    ensures store.Valid()
    ensures store.View(id) == Apply(Sqlite, if cancelRequested then Cancel(now, CANCELLED_BY_REQUEST)
                                            else Fail(now, out, err, false, detail, None), old(store.View(id)))
    ensures forall o :: o != id ==> store.View(o) == old(store.View(o))
  {
    if cancelRequested {
      var _ := store.Mark(id, Cancel(now, CANCELLED_BY_REQUEST));
      return;
    }
    var _ := store.Mark(id, Fail(now, out, err, false, detail, None));
  }

  /** Whether an undisturbed executor gets as far as calling the provider. */
  predicate ReachesProvider(w: Solo, x: Exec) {
    x.row.Some? && x.row.value.status == Queued && !w.cancelBefore
  }

  /** One execution, undisturbed. The result is what the machine of `SandboxExecutor` reaches alone. The
      provider's exception goes on to the caller if he asked for it; the cancel token is in the supervisor's table
      for as long as the run lasts. */
  method ExecuteExecution(store: SqliteExecutionStore, supervisor: InProcessCodeSandboxSupervisor?, id: ExecutionId,
                          maxBytes: int, w: Solo, raiseErrors: bool) returns (raised: bool)
    requires store.Valid() && (supervisor != null ==> supervisor.Valid())
    modifies store, supervisor
    ensures store.Valid()
    ensures store.View(id) == RunSolo(Sqlite, maxBytes, Entered, w, old(store.View(id)))
    ensures forall o :: o != id ==> store.View(o) == old(store.View(o))
    ensures raised <==> raiseErrors && w.raises && ReachesProvider(w, old(store.View(id)))
    ensures supervisor != null ==>
              supervisor.Valid()
              && supervisor.State() == Called(Called(old(supervisor.State()), Register(id)), Release(id))
  {
    if supervisor != null {
      var _ := supervisor.RegisterExecution(id);
    }
    var broke := RunRegistered(store, id, maxBytes, w);
    if supervisor != null {
      supervisor.ReleaseExecution(id);
    }
    return broke && raiseErrors;
  }

  /** The run between registration and release. */
  method RunRegistered(store: SqliteExecutionStore, id: ExecutionId, maxBytes: int, w: Solo) returns (broke: bool)
    requires store.Valid()
    modifies store
    ensures store.Valid()
    ensures store.View(id) == RunSolo(Sqlite, maxBytes, Entered, w, old(store.View(id)))
    ensures forall o :: o != id ==> store.View(o) == old(store.View(o))
    ensures broke <==> w.raises && ReachesProvider(w, old(store.View(id)))
  {
    broke := false;
    ghost var x := store.View(id);
    SoloStep(Sqlite, maxBytes, Entered, w, x);
    SoloStep(Sqlite, maxBytes, Admitted, w, x);
    var record := store.GetExecution(id);
    if record.None? || Terminal(record.value.status) {
      return;
    }
    if w.cancelBefore {
      var _ := store.Mark(id, Cancel(w.t0, CANCELLED_BEFORE_START));
      return;
    }
    var started := store.Mark(id, Start(w.t0));
    if !started {
      return;
    }
    SoloStep(Sqlite, maxBytes, Claimed, w, store.View(id));
    var out := new BoundedTextAccumulator(maxBytes);
    var err := new BoundedTextAccumulator(maxBytes);
    var final := ConsumeStream(store, id, maxBytes, out, err, w);
    broke := w.raises;
    if w.raises || final.None? {
      SoloBreaks(Sqlite, maxBytes, out.State(), err.State(), final, w.(items := []), store.View(id));
      var outText := out.Text();
      var errText := err.Text();
      MarkBroken(store, id, outText, errText, if w.raises then RUNTIME_FAILED else NO_RESULT, w.cancelAfter, w.t1);
    } else {
      SettleRun(store, id, maxBytes, out, err, final.value, w.(items := []));
    }
  }

  /** The loop over the provider's items: chunks are logged, the last final result is kept. */
  method ConsumeStream(store: SqliteExecutionStore, id: ExecutionId, maxBytes: int,
                       out: BoundedTextAccumulator, err: BoundedTextAccumulator, w: Solo)
    returns (final: Option<ProviderResult>)
    requires store.Valid() && out != err
    modifies store, out, err
    ensures store.Valid()
    ensures RunSolo(Sqlite, maxBytes, Streaming(out.State(), err.State(), final), w.(items := []), store.View(id))
         == old(RunSolo(Sqlite, maxBytes, Streaming(out.State(), err.State(), None), w, store.View(id)))
    ensures forall o :: o != id ==> store.View(o) == old(store.View(o))
  {
    final := None;
    ghost var goal := RunSolo(Sqlite, maxBytes, Streaming(out.State(), err.State(), None), w, store.View(id));
    assert w.items[0..] == w.items;
    for i := 0 to |w.items|
      invariant store.Valid()
      invariant forall o :: o != id ==> store.View(o) == old(store.View(o))
      invariant goal == RunSolo(Sqlite, maxBytes, Streaming(out.State(), err.State(), final),
                                w.(items := w.items[i..]), store.View(id))
    {
      SoloStep(Sqlite, maxBytes, Streaming(out.State(), err.State(), final), w.(items := w.items[i..]), store.View(id));
      assert w.items[i..][1..] == w.items[i + 1..];
      match w.items[i]
      case Chunk(stream, text) =>
        if stream == Stdout {
          AppendAndLog(store, id, stream, out, text);
        } else {
          AppendAndLog(store, id, stream, err, text);
        }
      case Final(r) =>
        final := Some(r);
    }
    assert w.items[|w.items|..] == [];
  }

  /** The tail of a run that ended with a final result. */
  method SettleRun(store: SqliteExecutionStore, id: ExecutionId, maxBytes: int,
                   out: BoundedTextAccumulator, err: BoundedTextAccumulator, r: ProviderResult, w: Solo)
    requires store.Valid() && out != err && w.items == [] && !w.raises
    modifies store, out, err
    ensures store.Valid()
    ensures store.View(id) == old(RunSolo(Sqlite, maxBytes, Streaming(out.State(), err.State(), Some(r)), w, store.View(id)))
    ensures forall o :: o != id ==> store.View(o) == old(store.View(o))
  {
    SoloSettles(Sqlite, maxBytes, out.State(), err.State(), r, w, store.View(id));
    AppendAndLog(store, id, Stdout, out, r.stdout);
    AppendAndLog(store, id, Stderr, err, r.stderr);
    var outText := out.Text();
    var errText := err.Text();
    var _ := store.Mark(id, SettleOp(w.t1, outText, errText, r));
  }

  /** The machine alone, one step at a time. */
  lemma SoloStep(b: Backend, maxBytes: int, pc: Pc, w: Solo, x: Exec)
    ensures RunSolo(b, maxBytes, pc, w, x)
         == if pc.Returned? then x
            else var (pc', x') := ExecStep(b, maxBytes, pc, EnvOf(pc, w), x);
                 RunSolo(b, maxBytes, pc', After(pc, w), x')
  {
  }

  lemma SoloBreaks(b: Backend, maxBytes: int, out: Acc, err: Acc, final: Option<ProviderResult>, w: Solo, x: Exec)
    requires w.items == [] && (w.raises || final.None?)
    ensures RunSolo(b, maxBytes, Streaming(out, err, final), w, x)
         == Apply(b, if w.cancelAfter then Cancel(w.t1, CANCELLED_BY_REQUEST)
                          else Fail(w.t1, out.Text(), err.Text(), false, if w.raises then RUNTIME_FAILED else NO_RESULT, None), x)
  {
    var pc := Broke(out, err, if w.raises then RUNTIME_FAILED else NO_RESULT);
    SoloStep(b, maxBytes, Streaming(out, err, final), w, x);
    SoloStep(b, maxBytes, pc, w, x);
  }

  lemma SoloSettles(b: Backend, maxBytes: int, out: Acc, err: Acc, r: ProviderResult, w: Solo, x: Exec)
    requires w.items == [] && !w.raises
    ensures var (out', t) := Append(out, r.stdout);
            var (err', u) := Append(err, r.stderr);
            RunSolo(b, maxBytes, Streaming(out, err, Some(r)), w, x)
            == Apply(b, SettleOp(w.t1, out'.Text(), err'.Text(), r),
                     LogIfAny(b, Stderr, u, LogIfAny(b, Stdout, t, x)))
  {
    var (out', t) := Append(out, r.stdout);
    var (err', u) := Append(err, r.stderr);
    var y := LogIfAny(b, Stdout, t, x);
    SoloStep(b, maxBytes, Streaming(out, err, Some(r)), w, x);
    SoloStep(b, maxBytes, DrainOut(out, err, r), w, x);
    SoloStep(b, maxBytes, DrainErr(out', err, r), w, y);
    SoloStep(b, maxBytes, Settle(out', err', r), w, LogIfAny(b, Stderr, u, y));
  }

  // ---------- a claimed execution ends terminal ----------

  /** The machine will reach a terminal status if left alone: it owns the run, or the row is still
      there to be claimed, or the row is terminal already. */
  ghost predicate WillFinish(pc: Pc, x: Exec) {
    x.row.Some?
    && (Owns(pc) || Terminal(x.row.value.status)
        || ((pc.Entered? || pc.Admitted?) && x.row.value.status == Queued))
  }

  /** For every finite provider stream, whether it yields chunks, results, both or nothing, and
      whether it ends or raises: the machine keeps the tables consistent, loses nothing, and ends terminal. */
  lemma {:induction false} SoloEnds(b: Backend, maxBytes: int, pc: Pc, w: Solo, x: Exec)
    requires TablesOk(x) && PcOk(pc, x)
    ensures var y := RunSolo(b, maxBytes, pc, w, x);
            && TablesOk(y) && Grows(x, y)
            && (WillFinish(pc, x) ==> y.row.Some? && Terminal(y.row.value.status))
    decreases |w.items|, StepsLeft(pc)
  {
    if pc.Returned? {
      GrowsReflexive(x);
    } else {
      var pc', w', x' := SoloUnroll(b, maxBytes, pc, w, x);
      SoloEnds(b, maxBytes, pc', w', x');
      GrowsTransitive(x, x', RunSolo(b, maxBytes, pc', w', x'));
    }
  }

  /** The first step of the machine alone, and what it leaves to do. */
  lemma SoloUnroll(b: Backend, maxBytes: int, pc: Pc, w: Solo, x: Exec) returns (pc': Pc, w': Solo, x': Exec)
    requires TablesOk(x) && PcOk(pc, x) && !pc.Returned?
    ensures TablesOk(x') && PcOk(pc', x') && Grows(x, x')
    ensures WillFinish(pc, x) ==> WillFinish(pc', x')
    ensures RunSolo(b, maxBytes, pc, w, x) == RunSolo(b, maxBytes, pc', w', x')
    ensures |w'.items| < |w.items| || (|w'.items| == |w.items| && StepsLeft(pc') < StepsLeft(pc))
  {
    w' := After(pc, w);
    SoloStep(b, maxBytes, pc, w, x);
    StepMeasure(b, maxBytes, pc, w, x);
    pc', x' := StepFacts(b, maxBytes, pc, EnvOf(pc, w), x);
  }

  lemma StepFacts(b: Backend, maxBytes: int, pc: Pc, env: Env, x: Exec) returns (pc': Pc, x': Exec)
    requires TablesOk(x) && PcOk(pc, x) && !pc.Returned?
    ensures (pc', x') == ExecStep(b, maxBytes, pc, env, x)
    ensures TablesOk(x') && PcOk(pc', x') && Grows(x, x')
    ensures WillFinish(pc, x) ==> WillFinish(pc', x')
  {
    ExecStepOk(b, maxBytes, pc, env, x);
    pc' := ExecStep(b, maxBytes, pc, env, x).0;
    x' := ExecStep(b, maxBytes, pc, env, x).1;
    if WillFinish(pc, x) && !Owns(pc) {
      FirstStepsFinish(b, maxBytes, pc, env, x);
    } else if Owns(pc) {
      OwnerStaysOrReturns(b, maxBytes, pc, env, x);
    }
  }

  lemma StepMeasure(b: Backend, maxBytes: int, pc: Pc, w: Solo, x: Exec)
    requires !pc.Returned?
    ensures var pc', w' := ExecStep(b, maxBytes, pc, EnvOf(pc, w), x).0, After(pc, w);
            |w'.items| < |w.items| || (|w'.items| == |w.items| && StepsLeft(pc') < StepsLeft(pc))
  {
  }

  lemma OwnerStaysOrReturns(b: Backend, maxBytes: int, pc: Pc, env: Env, x: Exec)
    requires Owns(pc)
    ensures var pc' := ExecStep(b, maxBytes, pc, env, x).0; Owns(pc') || pc' == Returned(true)
  {
  }

  lemma FirstStepsFinish(b: Backend, maxBytes: int, pc: Pc, env: Env, x: Exec)
    requires (pc.Entered? || pc.Admitted?) && WillFinish(pc, x)
    ensures var (pc', x') := ExecStep(b, maxBytes, pc, env, x); WillFinish(pc', x')
  {
    if pc.Admitted? && env.cancelRequested {
      CancelEnds(b, env.now, CANCELLED_BEFORE_START, x);
    }
  }

  lemma CancelEnds(b: Backend, now: int, detail: string, x: Exec)
    requires x.row.Some?
    ensures var y := Apply(b, Cancel(now, detail), x); y.row.Some? && Terminal(y.row.value.status)
  {
  }

  // ---------- the reaper ----------

  const TIMED_OUT_IN_RESTART := "Execution timed out before recovery completed."
  const INTERRUPTED := "Execution interrupted by runtime restart before completion."

  /** Whether the run had used up its time when the host came back. */
  predicate TimedOut(r: Row, now: int) {
    r.startedAt.Some? && now - r.startedAt.value >= r.timeoutSec * 1_000_000
  }

  /** The mark that fails an abandoned run, with the columns of the record `r` that was read. */
  function ReapOp(now: int, r: Row): Op {
    var late := TimedOut(r, now);
    Fail(now, r.stdout, r.stderr, late, if late then TIMED_OUT_IN_RESTART else INTERRUPTED, r.exitCode)
  }

  /** What the reaper does to one abandoned run: an event, then the failure. */
  function Reaped(b: Backend, now: int, x: Exec): Exec
    requires x.row.Some?
  {
    Apply(b, ReapOp(now, x.row.value), Apply(b, Note(EvRecovered, Running), x))
  }

  method ReapAbandoned(store: SqliteExecutionStore, now: int) returns (reaped: seq<ExecutionId>)
    requires store.Valid()
    modifies store
    ensures store.Valid()
    ensures forall id :: store.View(id) ==
              var x := old(store.View(id));
              if x.row.Some? && x.row.value.status == Running then Reaped(Sqlite, now, x) else x
    ensures reaped == old(WithStatus(store.order, store.executions, Running))
    ensures forall id :: id in reaped <==>
              old(store.View(id)).row.Some? && old(store.View(id)).row.value.status == Running
  {
    var ids := store.ListExecutionIdsByStatus(Running);
    reaped := [];
    for i := 0 to |ids|
      invariant store.Valid() && reaped == ids[..i]
      invariant forall id :: store.View(id) ==
                  if id in ids[..i] then Reaped(Sqlite, now, old(store.View(id))) else old(store.View(id))
    {
      var id := ids[i];
      assert ids[..i + 1] == ids[..i] + [id] && id in ids && id !in ids[..i];
      ghost var x := store.View(id);
      var record := store.GetExecution(id);
      store.AppendExecutionEvent(id, EvRecovered, Running);
      var _ := store.Mark(id, ReapOp(now, record.value));
      reaped := reaped + [id];
    }
    assert ids[..|ids|] == ids;
  }

  // ---------- recovery of queued executions ----------

  /** What recovery feeds each executor: the provider's run, no supervisor to cancel it, and the clock. */
  function RecoveryRun(provider: ExecutionId -> ProviderRun, id: ExecutionId, t0: int, t1: int): Solo {
    Solo(provider(id).items, provider(id).raises, false, false, t0, t1)
  }

  method RecoverQueued(store: SqliteExecutionStore, provider: ExecutionId -> ProviderRun, maxBytes: int, t0: int, t1: int)
    returns (recovered: seq<ExecutionId>)
    requires store.Valid()
    modifies store
    ensures store.Valid()
    ensures forall id :: store.View(id) ==
              var x := old(store.View(id));
              if x.row.Some? && x.row.value.status == Queued
              then RunSolo(Sqlite, maxBytes, Entered, RecoveryRun(provider, id, t0, t1), x) else x
    ensures recovered == old(WithStatus(store.order, store.executions, Queued))
    ensures forall id :: id in recovered <==>
              old(store.View(id)).row.Some? && old(store.View(id)).row.value.status == Queued
  {
    var ids := store.ListExecutionIdsByStatus(Queued);
    recovered := [];
    for i := 0 to |ids|
      invariant store.Valid() && recovered == ids[..i]
      invariant forall id :: store.View(id) ==
                  if id in ids[..i] then RunSolo(Sqlite, maxBytes, Entered, RecoveryRun(provider, id, t0, t1), old(store.View(id)))
                  else old(store.View(id))
    {
      var id := ids[i];
      assert ids[..i + 1] == ids[..i] + [id] && id in ids && id !in ids[..i];
      var _ := ExecuteExecution(store, null, id, maxBytes, RecoveryRun(provider, id, t0, t1), false);
      recovered := recovered + [id];
    }
    assert ids[..|ids|] == ids;
  }

  // ---------- restart ----------

  /** What a restart leaves of one execution when nothing else runs. */
  function Restarted(b: Backend, provider: ExecutionId -> ProviderRun, maxBytes: int, now: int, t0: int, t1: int,
                     id: ExecutionId, x: Exec): Exec
  {
    if x.row.None? || Terminal(x.row.value.status) then x
    else if x.row.value.status == Running then Reaped(b, now, x)
    else RunSolo(b, maxBytes, Entered, RecoveryRun(provider, id, t0, t1), x)
  }

  /** The startup job: reap what was running, then run what was queued. */
  method RecoverAfterRestart(store: SqliteExecutionStore, provider: ExecutionId -> ProviderRun, maxBytes: int,
                             now: int, t0: int, t1: int)
    requires store.Valid()
    modifies store
    ensures store.Valid()
    ensures forall id :: store.View(id) == Restarted(Sqlite, provider, maxBytes, now, t0, t1, id, old(store.View(id)))
  {
    var _ := ReapAbandoned(store, now);
    forall id | old(store.View(id)).row.Some? && old(store.View(id)).row.value.status == Running
      ensures store.View(id).row.Some? && store.View(id).row.value.status == Failed
    {
      ReapedFails(Sqlite, now, old(store.View(id)));
    }
    var _ := RecoverQueued(store, provider, maxBytes, t0, t1);
  }

  lemma ReapedFails(b: Backend, now: int, x: Exec)
    requires x.row.Some? && x.row.value.status == Running
    ensures Reaped(b, now, x).row.Some? && Reaped(b, now, x).row.value.status == Failed
  {
  }

  /** Reaping a run nobody executes fails it and keeps everything that was logged. */
  lemma {:induction false} ReapedOk(b: Backend, now: int, x: Exec)
    requires TablesOk(x) && x.row.Some? && x.row.value.status == Running
    ensures var y := Reaped(b, now, x);
            && TablesOk(y) && Grows(x, y) && y.logs == x.logs
            && y.row.Some? && y.row.value.status == Failed && y.row.value.timedOut == TimedOut(x.row.value, now)
  {
    var noted := ReapNoted(b, now, x);
    var op := ReapOp(now, x.row.value);
    MarkOk(b, op, noted);
    GrowsTransitive(x, noted, Apply(b, op, noted));
  }

  /** The first half of the reaper's work: only the timeline grows. */
  lemma ReapNoted(b: Backend, now: int, x: Exec) returns (noted: Exec)
    requires TablesOk(x) && x.row.Some?
    ensures TablesOk(noted) && Grows(x, noted) && noted.row == x.row && noted.logs == x.logs
    ensures Reaped(b, now, x) == Apply(b, ReapOp(now, x.row.value), noted)
  {
    noted := Apply(b, Note(EvRecovered, Running), x);
    NoteKeepsTables(b, EvRecovered, Running, x);
    ApplyGrows(b, Note(EvRecovered, Running), x);
  }

  /** From any consistent tables, whatever step the executors had reached when the host died, a restart
      ends every execution, and every logged chunk is still there. */
  lemma {:induction false} RestartEnds(b: Backend, provider: ExecutionId -> ProviderRun, maxBytes: int, now: int, t0: int, t1: int,
                                            id: ExecutionId, x: Exec)
    requires TablesOk(x)
    ensures var y := Restarted(b, provider, maxBytes, now, t0, t1, id, x);
            && TablesOk(y) && Grows(x, y)
            && (x.row.Some? ==> y.row.Some? && Terminal(y.row.value.status))
  {
    if x.row.None? || Terminal(x.row.value.status) {
      GrowsReflexive(x);
    } else if x.row.value.status == Running {
      ReapedOk(b, now, x);
    } else {
      SoloEnds(b, maxBytes, Entered, RecoveryRun(provider, id, t0, t1), x);
    }
  }
}
