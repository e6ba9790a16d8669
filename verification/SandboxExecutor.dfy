/** The executor of one sandbox run, as a machine that takes one database step at a time.

    The machine is used twice: alone, where it specifies the imperative executor, and interleaved
    with other actors in `SandboxProtocol`. */
module SandboxExecutor {
  import opened Wrappers
  import opened SandboxTables
  import opened OutputAccumulator

  // ---------- the provider ----------

  datatype ProviderResult = ProviderResult(
    exitCode: Option<int>, stdout: string, stderr: string, timedOut: bool, cancelled: bool, errorDetail: string)

  datatype ProviderItem = Chunk(stream: Stream, text: string) | Final(result: ProviderResult)

  /** A finite provider run: the items it yields, then a normal end or an exception. */
  datatype ProviderRun = ProviderRun(items: seq<ProviderItem>, raises: bool)

  // ---------- the machine ----------

  datatype Pc =
    | Entered                                                   // about to read the record
    | Admitted                                                  // saw a record that is not terminal
    | Claimed                                                   // mark_execution_started succeeded
    | Streaming(out: Acc, err: Acc, final: Option<ProviderResult>)
    | Broke(out: Acc, err: Acc, detail: string)                 // exception, or no final result
    | DrainOut(out: Acc, err: Acc, result: ProviderResult)
    | DrainErr(out: Acc, err: Acc, result: ProviderResult)
    | Settle(out: Acc, err: Acc, result: ProviderResult)
    | Returned(claimed: bool)

  /** What the environment supplies to one step. */
  datatype Env = Env(now: int, cancelRequested: bool, next: ProviderStep)

  datatype ProviderStep = Yields(item: ProviderItem) | Ends | Raises

  const CANCELLED_BEFORE_START := "Execution cancelled before start."
  const CANCELLED_BY_REQUEST := "Execution cancelled by request."
  const RUNTIME_FAILED := "Sandbox runtime failed before completion."
  const NO_RESULT := "Sandbox provider returned no terminal result."
  const EXECUTION_FAILED := "Execution failed."

  /** The transaction that logs what an accumulator handed on, if anything. */
  function LogIfAny(b: Backend, stream: Stream, out: Option<string>, x: Exec): Exec {
    if out.Some? && out.value != "" then Apply(b, Log(stream, out.value), x) else x
  }

  predicate ResultFailed(r: ProviderResult) {
    r.timedOut || (r.exitCode != None && r.exitCode != Some(0)) || r.errorDetail != ""
  }

  function OrElse(detail: string, fallback: string): string {
    if detail != "" then detail else fallback
  }

  /** The mark that a final result calls for. */
  function SettleOp(now: int, out: string, err: string, r: ProviderResult): Op {
    if r.cancelled then Cancel(now, OrElse(r.errorDetail, CANCELLED_BY_REQUEST))
    else if ResultFailed(r) then Fail(now, out, err, r.timedOut, OrElse(r.errorDetail, EXECUTION_FAILED), r.exitCode)
    else Complete(now, if r.exitCode.Some? then r.exitCode.value else 0, out, err)
  }

  /** One step: at most one transaction on the tables. */
  function ExecStep(b: Backend, maxBytes: int, pc: Pc, env: Env, x: Exec): (Pc, Exec) {
    match pc
    case Entered =>
      if x.row.None? || Terminal(x.row.value.status) then (Returned(false), x) else (Admitted, x)
    case Admitted =>
      if env.cancelRequested then (Returned(false), Apply(b, Cancel(env.now, CANCELLED_BEFORE_START), x))
      else if Hits(b, Start(env.now), x) then (Claimed, Apply(b, Start(env.now), x))
      else (Returned(false), x)
    case Claimed =>
      if x.row.None? then (Returned(true), x)
      else (Streaming(Empty(maxBytes), Empty(maxBytes), None), x)
    case Streaming(out, err, final) =>
      (match env.next
       case Yields(Chunk(stream, text)) =>
         if stream == Stdout then
           var (out', t) := Append(out, text);
           (Streaming(out', err, final), LogIfAny(b, stream, t, x))
         else
           var (err', t) := Append(err, text);
           (Streaming(out, err', final), LogIfAny(b, stream, t, x))
       case Yields(Final(r)) => (Streaming(out, err, Some(r)), x)
       case Raises => (Broke(out, err, RUNTIME_FAILED), x)
       case Ends =>
         if final.None? then (Broke(out, err, NO_RESULT), x) else (DrainOut(out, err, final.value), x))
    case Broke(out, err, detail) =>
      if env.cancelRequested then (Returned(true), Apply(b, Cancel(env.now, CANCELLED_BY_REQUEST), x))
      else (Returned(true), Apply(b, Fail(env.now, out.Text(), err.Text(), false, detail, None), x))
    case DrainOut(out, err, r) =>
      var (out', t) := Append(out, r.stdout);
      (DrainErr(out', err, r), LogIfAny(b, Stdout, t, x))
    case DrainErr(out, err, r) =>
      var (err', t) := Append(err, r.stderr);
      (Settle(out, err', r), LogIfAny(b, Stderr, t, x))
    case Settle(out, err, r) =>
      (Returned(true), Apply(b, SettleOp(env.now, out.Text(), err.Text(), r), x))
    case Returned(_) => (pc, x)
  }

  // ---------- the machine alone ----------

  /** What one undisturbed executor meets: the provider's run, the two polls of the cancel token that
      it may make, and the clock when it claims and when it marks the row terminal. */
  datatype Solo = Solo(items: seq<ProviderItem>, raises: bool, cancelBefore: bool, cancelAfter: bool, t0: int, t1: int)

  function EnvOf(pc: Pc, w: Solo): Env {
    Env(if pc.Admitted? then w.t0 else w.t1,
        if pc.Admitted? then w.cancelBefore else w.cancelAfter,
        if w.items != [] then Yields(w.items[0]) else if w.raises then Raises else Ends)
  }

  function After(pc: Pc, w: Solo): Solo {
    if pc.Streaming? && w.items != [] then w.(items := w.items[1..]) else w
  }

  function StepsLeft(pc: Pc): nat {
    match pc
    case Entered => 7
    case Admitted => 6
    case Claimed => 5
    case Streaming(_, _, _) => 4
    case DrainOut(_, _, _) => 3
    case DrainErr(_, _, _) => 2
    case Settle(_, _, _) => 1
    case Broke(_, _, _) => 1
    case Returned(_) => 0
  }

  /** The tables once the machine has run to its end from `pc`. */
  function RunSolo(b: Backend, maxBytes: int, pc: Pc, w: Solo, x: Exec): Exec
    decreases |w.items|, StepsLeft(pc)
  {
    if pc.Returned? then x
    else
      var (pc', x') := ExecStep(b, maxBytes, pc, EnvOf(pc, w), x);
      RunSolo(b, maxBytes, pc', After(pc, w), x')
  }

  /** The machine owns a started execution. */
  predicate Owns(pc: Pc) {
    !pc.Entered? && !pc.Admitted? && !pc.Returned?
  }

  /** The machine has the accumulators in hand. */
  predicate HasOutput(pc: Pc) {
    Owns(pc) && !pc.Claimed?
  }

  /** The accumulators hold exactly the stream columns. */
  ghost predicate OutputMatches(pc: Pc, r: Row)
    requires HasOutput(pc)
  {
    pc.out.Text() == r.stdout && pc.err.Text() == r.stderr
  }

  /** What an executor knows about the tables at each point. */
  ghost predicate PcOk(pc: Pc, x: Exec) {
    && (!pc.Entered? ==> !pc.Returned? ==> x.row.Some?)
    && (Owns(pc) ==> x.row.Some? && x.row.value.startedAt.Some?)
    && (pc.Claimed? ==> x.logs == [])
    && (HasOutput(pc) ==> OutputMatches(pc, x.row.value))
    && (pc == Returned(true) ==> x.row.Some? && Terminal(x.row.value.status))
  }

  // ---------- one step, wherever it is taken ----------

  /** A step grows the tables, keeps them consistent, and leaves the executor knowing where it is. */
  lemma {:induction false} ExecStepOk(b: Backend, maxBytes: int, pc: Pc, env: Env, x: Exec)
    requires TablesOk(x) && PcOk(pc, x)
    ensures var (pc', x') := ExecStep(b, maxBytes, pc, env, x);
            TablesOk(x') && PcOk(pc', x') && Grows(x, x')
  {
    match pc
    case Streaming(out, err, final) => StreamStepOk(b, maxBytes, pc, env, x);
    case DrainOut(out, err, r) => ChunkLogged(b, Stdout, out, err, r.stdout, x);
    case DrainErr(out, err, r) => ChunkLogged(b, Stderr, out, err, r.stderr, x);
    case _ => MarkStepOk(b, maxBytes, pc, env, x);
  }

  lemma StreamStepOk(b: Backend, maxBytes: int, pc: Pc, env: Env, x: Exec)
    requires TablesOk(x) && PcOk(pc, x) && pc.Streaming?
    ensures var (pc', x') := ExecStep(b, maxBytes, pc, env, x);
            TablesOk(x') && PcOk(pc', x') && Grows(x, x')
  {
    if env.next.Yields? && env.next.item.Chunk? {
      ChunkLogged(b, env.next.item.stream, pc.out, pc.err, env.next.item.text, x);
    } else {
      assert ExecStep(b, maxBytes, pc, env, x).1 == x;
    }
  }

  /** Logging a chunk adds its text to its own stream column. */
  lemma LogAddsText(b: Backend, stream: Stream, text: string, x: Exec) returns (x': Exec)
    requires TablesOk(x) && x.row.Some? && x.row.value.startedAt.Some? && text != ""
    ensures x' == Apply(b, Log(stream, text), x) && TablesOk(x') && Grows(x, x')
    ensures x'.row.Some? && x'.row.value.startedAt.Some?
    ensures x'.row.value.stdout == (if stream == Stdout then x.row.value.stdout + text else x.row.value.stdout)
    ensures x'.row.value.stderr == (if stream == Stdout then x.row.value.stderr else x.row.value.stderr + text)
  {
    x' := Apply(b, Log(stream, text), x);
    LogKeepsTables(b, stream, text, x);
    ApplyGrows(b, Log(stream, text), x);
  }

  lemma AppendedText(a: Acc, text: string) returns (t: Option<string>)
    ensures t == Append(a, text).1 && (t.Some? ==> t.value != "")
    ensures t.Some? ==> Append(a, text).0.Text() == a.Text() + t.value
    ensures t.None? ==> Append(a, text).0.Text() == a.Text()
  {
    t := Append(a, text).1;
    AppendGrowsText(a, text);
    assert a.Text() + "" == a.Text();
  }

  /** Feeding an accumulator and logging what it hands on keeps accumulator and column equal. */
  lemma {:induction false} ChunkLogged(b: Backend, stream: Stream, out: Acc, err: Acc, text: string, x: Exec)
    requires TablesOk(x) && x.row.Some? && x.row.value.startedAt.Some?
    requires out.Text() == x.row.value.stdout && err.Text() == x.row.value.stderr
    ensures var (acc, t) := Append(if stream == Stdout then out else err, text);
            var x' := LogIfAny(b, stream, t, x);
            && TablesOk(x') && Grows(x, x')
            && x'.row.Some? && x'.row.value.startedAt.Some?
            && x'.row.value.stdout == (if stream == Stdout then acc else out).Text()
            && x'.row.value.stderr == (if stream == Stdout then err else acc).Text()
  {
    var t := AppendedText(if stream == Stdout then out else err, text);
    if t.Some? {
      var x' := LogAddsText(b, stream, t.value, x);
    } else {
      GrowsReflexive(x);
    }
  }

  lemma MarkStepOk(b: Backend, maxBytes: int, pc: Pc, env: Env, x: Exec)
    requires TablesOk(x) && PcOk(pc, x) && !pc.Streaming? && !pc.DrainOut? && !pc.DrainErr?
    ensures var (pc', x') := ExecStep(b, maxBytes, pc, env, x);
            TablesOk(x') && PcOk(pc', x') && Grows(x, x')
  {
    if pc.Broke? || pc.Settle? {
      LastStepOk(b, maxBytes, pc, env, x);
    } else if pc.Admitted? {
      if env.cancelRequested {
        MarkOk(b, Cancel(env.now, CANCELLED_BEFORE_START), x);
      } else {
        ClaimOk(b, env.now, x);
      }
    } else {
      GrowsReflexive(x);
    }
  }

  lemma {:induction false} LastStepOk(b: Backend, maxBytes: int, pc: Pc, env: Env, x: Exec)
    requires TablesOk(x) && PcOk(pc, x) && (pc.Broke? || pc.Settle?)
    ensures var (pc', x') := ExecStep(b, maxBytes, pc, env, x);
            TablesOk(x') && PcOk(pc', x') && Grows(x, x')
  {
    var out, err := pc.out.Text(), pc.err.Text();
    var op := if pc.Settle? then SettleOp(env.now, out, err, pc.result)
              else if env.cancelRequested then Cancel(env.now, CANCELLED_BY_REQUEST)
              else Fail(env.now, out, err, false, pc.detail, None);
    MarkOk(b, op, x);
    assert ExecStep(b, maxBytes, pc, env, x) == (Returned(true), Apply(b, op, x));
  }

  lemma {:induction false} ClaimOk(b: Backend, now: int, x: Exec)
    requires TablesOk(x)
    ensures var y := Apply(b, Start(now), x); TablesOk(y) && Grows(x, y)
    ensures Hits(b, Start(now), x) ==> PcOk(Claimed, Apply(b, Start(now), x))
  {
    MarkOk(b, Start(now), x);
  }

  lemma MarkOk(b: Backend, op: Op, x: Exec)
    requires TablesOk(x) && IsMark(op) && Fitting(op, x)
    ensures TablesOk(Apply(b, op, x)) && Grows(x, Apply(b, op, x))
    ensures x.row.Some? && x.row.value.startedAt.Some? && !op.Start? && !op.Deny?
            ==> Terminal(Apply(b, op, x).row.value.status)
  {
    ApplyKeepsTables(b, op, x);
    ApplyGrows(b, op, x);
  }
}
