/** What the sandbox protocol does not promise, with exact conditions. */
module SandboxRaces {
  import opened Wrappers
  import opened SandboxTables
  import opened OutputAccumulator
  import opened SandboxExecutor
  import opened SandboxService
  import opened SandboxProtocol
  import opened SandboxRuns

  // ---------- a reaper that meets a live executor ----------

  function TotalText(logs: seq<LogRow>): nat {
    |Joined(logs, Stdout)| + |Joined(logs, Stderr)|
  }

  lemma {:induction false} MoreChunksMoreText(logs: seq<LogRow>, more: seq<LogRow>)
    requires IsPrefix(logs, more) && NoEmptyChunk(more)
    ensures TotalText(more) >= TotalText(logs) + |more| - |logs|
    decreases more
  {
    if |more| > |logs| {
      var front := more[..|more| - 1];
      assert front[..|logs|] == more[..|logs|];
      MoreChunksMoreText(logs, front);
      OneChunkMoreText(front, more[|more| - 1]);
      assert front + [more[|more| - 1]] == more;
    } else {
      assert more == logs;
    }
  }

  lemma OneChunkMoreText(logs: seq<LogRow>, l: LogRow)
    requires l.text != ""
    ensures TotalText(logs + [l]) == TotalText(logs) + |l.text|
  {
    assert (logs + [l])[..|logs|] == logs;
    match l.stream
    case Stdout => assert Joined(logs + [l], Stderr) == Joined(logs, Stderr);
    case Stderr => assert Joined(logs + [l], Stdout) == Joined(logs, Stdout);
  }

  /** The reaper fails a run with the columns of a record it read earlier. If the run was still alive
      in between, the columns keep agreeing with the log exactly when nothing was logged since: when
      `last_log_seq` is what the record says. */
  lemma ReaperRaceExact(b: Backend, now: int, read: Exec, x: Exec)
    requires TablesOk(read) && TablesOk(x) && IsPrefix(read.logs, x.logs)
    requires read.row.Some? && x.row.Some? && x.row.value.status == Running
    ensures var y := Apply(b, ReapOp(now, read.row.value), x);
            y.row.Some? && (ColumnsOk(y.row.value, y.logs) <==> read.row.value.lastLogSeq == x.row.value.lastLogSeq)
  {
    MoreChunksMoreText(read.logs, x.logs);
    var y := Apply(b, ReapOp(now, read.row.value), x);
    if |read.logs| == |x.logs| {
      assert read.logs == x.logs;
    }
  }

  // ---------- who can still log ----------

  /** An executor that can still log: it has claimed the run and has budget, it is streaming with budget left
      in some stream, or it has final output still to drain that fits in part. */
  predicate CanLog(maxBytes: int, pc: Pc) {
    match pc
    case Claimed => maxBytes > 0
    case Streaming(out, err, _) => HasRoom(out) || HasRoom(err)
    case DrainOut(out, err, r) => (r.stdout != "" && HasRoom(out)) || (r.stderr != "" && HasRoom(err))
    case DrainErr(_, err, r) => r.stderr != "" && HasRoom(err)
    case _ => false
  }

  predicate IsLogger(maxBytes: int, t: Thread) { t.Executor? && CanLog(maxBytes, t.pc) }

  ghost predicate NoLogger(maxBytes: int, s: Sys) {
    forall t :: t in s.threads ==> !IsLogger(maxBytes, s.threads[t])
  }

  /** An executor that cannot log never can again once the row has ended, and leaves the log alone. */
  lemma QuietStep(b: Backend, maxBytes: int, pc: Pc, env: Env, x: Exec)
    requires Ended(x) && !CanLog(maxBytes, pc)
    ensures var (pc', x') := ExecStep(b, maxBytes, pc, env, x);
            !CanLog(maxBytes, pc') && x' == x
  {
    match pc
    case Streaming(out, err, final) =>
      if env.next.Yields? && env.next.item.Chunk? {
        AppendHandsOn(out, env.next.item.text);
        AppendHandsOn(err, env.next.item.text);
      }
    case DrainOut(out, err, r) => AppendHandsOn(out, r.stdout);
    case DrainErr(out, err, r) => AppendHandsOn(err, r.stderr);
    case _ =>
  }

  lemma QuietThread(b: Backend, maxBytes: int, t: Thread, env: Env, x: Exec)
    requires Ended(x) && !IsLogger(maxBytes, t)
    ensures var (t', x') := ThreadStep(b, maxBytes, t, env, x);
            !IsLogger(maxBytes, t') && x'.logs == x.logs && Ended(x')
  {
    if t.Executor? {
      QuietStep(b, maxBytes, t.pc, env, x);
    }
  }

  lemma QuietNext(b: Backend, maxBytes: int, s: Sys, a: Action)
    requires Ended(s.x) && NoLogger(maxBytes, s)
    ensures var s' := Next(b, maxBytes, s, a); Ended(s'.x) && s'.x.logs == s.x.logs && NoLogger(maxBytes, s')
  {
    if a.Advance? && a.tid in s.threads {
      QuietThread(b, maxBytes, s.threads[a.tid], a.env, s.x);
    }
  }

  lemma {:induction false} QuietForever(b: Backend, maxBytes: int, s: Sys, later: seq<Action>)
    requires Ended(s.x) && NoLogger(maxBytes, s)
    ensures Run(b, maxBytes, s, later).x.logs == s.x.logs
    decreases later
  {
    if later != [] {
      QuietNext(b, maxBytes, s, later[0]);
      QuietForever(b, maxBytes, Next(b, maxBytes, s, later[0]), later[1..]);
    }
  }

  lemma RunOne(b: Backend, maxBytes: int, s: Sys, a: Action)
    ensures Run(b, maxBytes, s, [a]) == Next(b, maxBytes, s, a)
  {
    assert [a][1..] == [];
    assert Run(b, maxBytes, Next(b, maxBytes, s, a), []) == Next(b, maxBytes, s, a);
  }

  lemma RunTwo(b: Backend, maxBytes: int, s: Sys, p: Action, q: Action)
    ensures Run(b, maxBytes, s, [p, q]) == Next(b, maxBytes, Next(b, maxBytes, s, p), q)
  {
    assert [p, q][1..] == [q];
    RunOne(b, maxBytes, Next(b, maxBytes, s, p), q);
  }

  /** The environment of a provider that yields one character on a stream. */
  function Yielding(stream: Stream): Env { Env(0, false, Yields(Chunk(stream, ['x']))) }

  lemma LogAdds(b: Backend, stream: Stream, a: Acc, text: string, x: Exec)
    requires text != "" && HasRoom(a)
    ensures |LogIfAny(b, stream, Append(a, text).1, x).logs| == |x.logs| + 1
  {
    AppendHandsOn(a, text);
    AppendGrowsText(a, text);
  }

  /** No poll of the run finds a cancel token set. */
  ghost predicate NoTokenSet(actions: seq<Action>) {
    forall i :: 0 <= i < |actions| && actions[i].Advance? ==> !actions[i].env.cancelRequested
  }

  /** One step of an executor that is past its claim logs a chunk, or reaches one that does. */
  lemma LoggerStep(b: Backend, maxBytes: int, pc: Pc, x: Exec) returns (env: Env)
    requires x.row.Some? && CanLog(maxBytes, pc) && !pc.Claimed?
    ensures !env.cancelRequested
    ensures var (pc', x') := ExecStep(b, maxBytes, pc, env, x);
            || |x'.logs| == |x.logs| + 1
            || (x' == x && pc.DrainOut? && pc'.DrainErr? && CanLog(maxBytes, pc'))
  {
    match pc
    case Streaming(out, err, _) =>
      var stream := if HasRoom(out) then Stdout else Stderr;
      env := Yielding(stream);
      LogAdds(b, stream, if stream == Stdout then out else err, ['x'], x);
    case DrainOut(out, err, r) =>
      env := Yielding(Stdout);
      AppendHandsOn(out, r.stdout);
      if r.stdout != "" && HasRoom(out) {
        LogAdds(b, Stdout, out, r.stdout, x);
      }
    case DrainErr(out, err, r) =>
      env := Yielding(Stderr);
      LogAdds(b, Stderr, err, r.stderr, x);
  }

  /** Whoever can log can do so in at most two steps, and nobody else need move. */
  lemma LoggerLogs(b: Backend, maxBytes: int, s: Sys, e: nat) returns (later: seq<Action>)
    requires s.x.row.Some? && e in s.threads && IsLogger(maxBytes, s.threads[e])
    ensures NoTokenSet(later)
    ensures var s' := Run(b, maxBytes, s, later);
            && |s'.x.logs| == |s.x.logs| + 1
            && forall t :: t in s.threads && t != e ==> t in s'.threads && s'.threads[t] == s.threads[t]
  {
    var pc := s.threads[e].pc;
    var first := Yielding(Stdout);
    if !pc.Claimed? {
      first := LoggerStep(b, maxBytes, pc, s.x);
    }
    var s1 := Next(b, maxBytes, s, Advance(e, first));
    RunOne(b, maxBytes, s, Advance(e, first));
    if |s1.x.logs| == |s.x.logs| + 1 {
      return [Advance(e, first)];
    }
    var second := LoggerStep(b, maxBytes, s1.threads[e].pc, s1.x);
    RunTwo(b, maxBytes, s, Advance(e, first), Advance(e, second));
    later := [Advance(e, first), Advance(e, second)];
  }

  // ---------- when done is final ----------

  /** The log will not change any more, whatever happens. */
  ghost predicate LogIsFinal(b: Backend, maxBytes: int, s: Sys) {
    forall later :: Run(b, maxBytes, s, later).x.logs == s.x.logs
  }

  lemma FinalExactly(b: Backend, maxBytes: int, s: Sys)
    requires Ended(s.x)
    ensures LogIsFinal(b, maxBytes, s) <==> NoLogger(maxBytes, s)
  {
    if NoLogger(maxBytes, s) {
      forall later
        ensures Run(b, maxBytes, s, later).x.logs == s.x.logs
      {
        QuietForever(b, maxBytes, s, later);
      }
    } else {
      var e :| e in s.threads && IsLogger(maxBytes, s.threads[e]);
      var later := LoggerLogs(b, maxBytes, s, e);
      assert Run(b, maxBytes, s, later).x.logs != s.x.logs;
    }
  }

  /** In any run, once a log stream has sent done: the log is final exactly when no executor that still owns
      the run can log. */
  lemma DoneIsFinalExactly(b: Backend, maxBytes: int, before: seq<Action>, tid: nat, s: Sys)
    requires s == Run(b, maxBytes, START, before)
    requires tid in s.threads && s.threads[tid].Reader? && s.threads[tid].dp == ReadDone
    ensures LogIsFinal(b, maxBytes, s) <==> NoLogger(maxBytes, s)
  {
    StartOk();
    RunKeepsInv(b, maxBytes, START, before);
    StreamFacts(s, tid);
    FinalExactly(b, maxBytes, s);
  }

  /** A stream has sent the whole log after its start. */
  predicate Whole(t: Thread, logs: seq<LogRow>)
    requires t.Reader? && t.after <= |logs|
  {
    t.emitted == logs[t.after..]
  }

  lemma LastRound(t: Thread, x: Exec)
    requires t.Reader? && t.dp.ReadSaw? && Terminal(t.dp.status) && t.after <= |x.logs| && x.row.Some?
    requires DenseLogs(x.logs) && SentOk(t.after, t.last, t.emitted, x.logs)
    ensures var t' := ReaderStep(t, x);
            t'.Reader? && t'.after == t.after && t'.dp == ReadDone && Whole(t', x.logs)
  {
    ReaderLists(t, x);
    var t' := ReaderStep(t, x);
    AllSentIsWhole(t', x.logs);
  }

  lemma AllSentIsWhole(t: Thread, logs: seq<LogRow>)
    requires t.Reader? && t.after <= |logs| <= t.last && SentOk(t.after, t.last, t.emitted, logs)
    ensures Whole(t, logs)
  {
  }

  /** It has when it sends done. */
  lemma DoneSendsAll(b: Backend, maxBytes: int, before: seq<Action>, tid: nat, env: Env, s: Sys)
    requires s == Run(b, maxBytes, START, before) && tid in s.threads && s.threads[tid].Reader?
    requires s.threads[tid].dp.ReadSaw? && Terminal(s.threads[tid].dp.status) && s.threads[tid].after <= |s.x.logs|
    ensures var s' := Next(b, maxBytes, s, Advance(tid, env));
            && s'.x == s.x && tid in s'.threads && s'.threads[tid].Reader? && s'.threads[tid].after <= |s.x.logs|
            && s'.threads[tid].dp == ReadDone && Whole(s'.threads[tid], s.x.logs)
  {
    StartOk();
    RunKeepsInv(b, maxBytes, START, before);
    var t := s.threads[tid];
    assert ThreadOk(t, s.x, s.chunksAtEnd);
    LastRound(t, s.x);
    var s' := StepReads(b, maxBytes, s, tid, env);
  }

  ghost predicate WholeAfter(b: Backend, maxBytes: int, s: Sys, t: Thread, later: seq<Action>)
    requires t.Reader?
  {
    var logs := Run(b, maxBytes, s, later).x.logs;
    t.after <= |logs| && Whole(t, logs)
  }

  ghost predicate WholeForever(b: Backend, maxBytes: int, s: Sys, t: Thread)
    requires t.Reader?
  {
    forall later :: WholeAfter(b, maxBytes, s, t, later)
  }

  lemma WholeForeverExactly(b: Backend, maxBytes: int, s: Sys, t: Thread)
    requires t.Reader? && t.after <= |s.x.logs| && Ended(s.x)
    ensures WholeForever(b, maxBytes, s, t) <==> Whole(t, s.x.logs) && NoLogger(maxBytes, s)
  {
    assert Run(b, maxBytes, s, []) == s;
    if !Whole(t, s.x.logs) {
      assert !WholeAfter(b, maxBytes, s, t, []);
    } else if NoLogger(maxBytes, s) {
      forall later
        ensures WholeAfter(b, maxBytes, s, t, later)
      {
        QuietForever(b, maxBytes, s, later);
      }
    } else {
      var e :| e in s.threads && IsLogger(maxBytes, s.threads[e]);
      var later := LoggerLogs(b, maxBytes, s, e);
      OneLongerIsNotWhole(t, s.x.logs, Run(b, maxBytes, s, later).x.logs);
      assert !WholeAfter(b, maxBytes, s, t, later);
    }
  }

  lemma OneLongerIsNotWhole(t: Thread, logs: seq<LogRow>, more: seq<LogRow>)
    requires t.Reader? && t.after <= |logs| && Whole(t, logs) && |more| == |logs| + 1
    ensures !Whole(t, more)
  {
    assert |more[t.after..]| == |t.emitted| + 1;
  }

  /** A stream that sent done has the whole log for ever exactly when it has it now and nobody can log. */
  lemma DoneIsWholeExactly(b: Backend, maxBytes: int, before: seq<Action>, tid: nat, s: Sys)
    requires s == Run(b, maxBytes, START, before)
    requires tid in s.threads && s.threads[tid].Reader? && s.threads[tid].dp == ReadDone
    requires s.threads[tid].after <= |s.x.logs|
    ensures WholeForever(b, maxBytes, s, s.threads[tid]) <==> Whole(s.threads[tid], s.x.logs) && NoLogger(maxBytes, s)
  {
    StartOk();
    RunKeepsInv(b, maxBytes, START, before);
    StreamFacts(s, tid);
    WholeForeverExactly(b, maxBytes, s, s.threads[tid]);
  }

  /** So a stream that is done has the whole log, now and in every later state, if the run was not cancelled:
      then no owner is left. */
  lemma DoneIsComplete(b: Backend, maxBytes: int, before: seq<Action>, later: seq<Action>, tid: nat, s: Sys, s': Sys)
    requires s == Run(b, maxBytes, START, before) && s' == Run(b, maxBytes, START, before + later)
    requires tid in s.threads && s.threads[tid].Reader? && s.threads[tid].dp.ReadDone?
    requires s.x.row.Some? && s.x.row.value.status != Cancelled
    ensures s'.x.logs == s.x.logs
    ensures var t := s.threads[tid];
            t.emitted == if t.after <= |s.x.logs| then s.x.logs[t.after..] else []
  {
    StartOk();
    RunKeepsInv(b, maxBytes, START, before);
    StreamFacts(s, tid);
    RunConcat(b, maxBytes, START, before, later);
    OwnersOnlyLog(maxBytes, s);
    QuietForever(b, maxBytes, s, later);
    var t := s.threads[tid];
    assert ReaderOk(t, s.x, s.chunksAtEnd);
    assert SentOk(t.after, t.last, t.emitted, s.x.logs);
  }

  lemma OwnersOnlyLog(maxBytes: int, s: Sys)
    requires forall t :: t in s.threads ==> !IsOwner(s.threads[t])
    ensures NoLogger(maxBytes, s)
  {
  }

  // ---------- a chunk after done ----------

  /** A log stream opened on a terminal run sends the log and done in one round. */
  lemma StreamEndedRun(b: Backend, maxBytes: int, s: Sys, r: nat, env: Env) returns (s': Sys)
    requires DenseLogs(s.x.logs) && Ended(s.x) && r !in s.threads
    ensures s' == Run(b, maxBytes, s, [Spawn(r, NewReader(0)), Advance(r, env), Advance(r, env)])
    ensures s'.x == s.x && s'.threads.Keys == s.threads.Keys + {r}
    ensures forall t :: t in s.threads ==> s'.threads[t] == s.threads[t]
    ensures s'.threads[r].Reader? && s'.threads[r].dp == ReadDone
    ensures s'.threads[r].emitted == s.x.logs
  {
    var s1 := Next(b, maxBytes, s, Spawn(r, NewReader(0)));
    assert s1 == s.(threads := s.threads[r := NewReader(0)]);
    var s2 := StepReads(b, maxBytes, s1, r, env);
    s' := StepReads(b, maxBytes, s2, r, env);
    ReaderRound(s.x);
    ThreeSteps(b, maxBytes, s, Spawn(r, NewReader(0)), Advance(r, env), Advance(r, env));
  }

  lemma ThreeSteps(b: Backend, maxBytes: int, s: Sys, p: Action, q: Action, r: Action)
    ensures Run(b, maxBytes, s, [p, q, r])
         == Next(b, maxBytes, Next(b, maxBytes, Next(b, maxBytes, s, p), q), r)
  {
    assert [p, q, r][1..] == [q, r];
    RunTwo(b, maxBytes, Next(b, maxBytes, s, p), q, r);
  }

  lemma StepReads(b: Backend, maxBytes: int, s: Sys, r: nat, env: Env) returns (s': Sys)
    requires s.x.row.Some? && r in s.threads && s.threads[r].Reader?
    ensures s' == Next(b, maxBytes, s, Advance(r, env)) && s'.x == s.x
    ensures s'.threads == s.threads[r := ReaderStep(s.threads[r], s.x)]
  {
    s' := Next(b, maxBytes, s, Advance(r, env));
  }

  lemma ReaderRound(x: Exec)
    requires DenseLogs(x.logs) && Ended(x)
    ensures var t := ReaderStep(ReaderStep(NewReader(0), x), x);
            t.Reader? && t.dp == ReadDone && t.emitted == x.logs
  {
    ListDense(x.logs, 0);
    assert [] + x.logs[0..] == x.logs;
  }

  /** A log stream misses a chunk after done: from every ended state with an executor that can still log, a
      stream opened now sends done, and then one more chunk is logged. */
  lemma {:induction false} ChunkAfterDone(b: Backend, maxBytes: int, s: Sys, e: nat, r: nat)
    returns (actions: seq<Action>)
    requires DenseLogs(s.x.logs) && Ended(s.x) && r !in s.threads
    requires e in s.threads && IsLogger(maxBytes, s.threads[e])
    ensures MissedAfterDone(Run(b, maxBytes, s, actions), r) && NoTokenSet(actions)
  {
    var env := Yielding(Stdout);
    var p := [Spawn(r, NewReader(0)), Advance(r, env), Advance(r, env)];
    var s1 := StreamEndedRun(b, maxBytes, s, r, env);
    var q := LoggerLogs(b, maxBytes, s1, e);
    RunConcat(b, maxBytes, s, p, q);
    actions := p + q;
  }

  /** Stream r has sent done and all of the log but its last chunk. */
  predicate MissedAfterDone(s: Sys, r: nat) {
    && r in s.threads && s.threads[r].Reader? && s.threads[r].dp == ReadDone
    && |s.x.logs| == |s.threads[r].emitted| + 1
  }

  // ---------- how a row can end under an owner ----------

  /** The two steps that can end a run which another executor owns: a canceller that saw the run queued, and
      an executor that was admitted and finds its cancel token set. */
  predicate CancelsBlindly(t: Thread, env: Env) {
    t == Canceller(CancelSawQueued) || (t == Executor(Admitted) && env.cancelRequested)
  }

  ghost predicate HasOwner(s: Sys) { exists t :: t in s.threads && IsOwner(s.threads[t]) }

  lemma WhoEnds(b: Backend, maxBytes: int, t: Thread, env: Env, x: Exec)
    requires x.row.Some? && !Ended(x) && Ended(ThreadStep(b, maxBytes, t, env, x).1)
    ensures IsOwner(t) || Reaps(t) || CancelsBlindly(t, env)
    ensures !IsOwner(ThreadStep(b, maxBytes, t, env, x).0)
  {
    ThreadStepEnds(b, maxBytes, t, env, x);
    StartDoesNotEnd(b, env.now, x);
  }

  lemma StartDoesNotEnd(b: Backend, now: int, x: Exec)
    requires x.row.Some? && !Ended(x)
    ensures !Ended(Apply(b, Start(now), x))
  {
  }

  ghost predicate BlindCancel(s: Sys, a: Action) {
    a.Advance? && a.tid in s.threads && CancelsBlindly(s.threads[a.tid], a.env)
  }

  /** The action that ends a row while an owner stays alive is one of the two. */
  lemma EndedUnderOwner(b: Backend, maxBytes: int, s: Sys, a: Action)
    requires Inv(s) && !Ended(s.x) && Ended(Next(b, maxBytes, s, a).x) && HasOwner(Next(b, maxBytes, s, a))
    ensures BlindCancel(s, a)
  {
    var s' := Next(b, maxBytes, s, a);
    var u :| u in s'.threads && IsOwner(s'.threads[u]);
    if a.Advance? {
      AdvanceEndsUnder(b, maxBytes, s, a.tid, a.env, u);
    } else {
      OutsideDoesNotEnd(b, maxBytes, s, a, u);
    }
  }

  /** No action outside the threads ends a row that has an owner. */
  lemma OutsideDoesNotEnd(b: Backend, maxBytes: int, s: Sys, a: Action, u: nat)
    requires Inv(s) && !Ended(s.x) && !a.Advance?
    requires u in Next(b, maxBytes, s, a).threads && IsOwner(Next(b, maxBytes, s, a).threads[u])
    ensures !Ended(Next(b, maxBytes, s, a).x)
  {
    assert u in s.threads && s.threads[u] == Next(b, maxBytes, s, a).threads[u];
    assert ThreadOk(s.threads[u], s.x, s.chunksAtEnd);
  }

  lemma AdvanceEndsUnder(b: Backend, maxBytes: int, s: Sys, tid: nat, env: Env, u: nat)
    requires Inv(s) && tid in s.threads && s.x.row.Some? && !Ended(s.x)
    requires var s' := Next(b, maxBytes, s, Advance(tid, env));
             Ended(s'.x) && u in s'.threads && IsOwner(s'.threads[u])
    ensures CancelsBlindly(s.threads[tid], env)
  {
    WhoEnds(b, maxBytes, s.threads[tid], env, s.x);
    assert u != tid && s.threads[u] == Next(b, maxBytes, s, Advance(tid, env)).threads[u];
  }

  /** Once the row has ended nobody becomes its owner. */
  lemma NoNewOwner(b: Backend, maxBytes: int, s: Sys, a: Action)
    requires Ended(s.x) && HasOwner(Next(b, maxBytes, s, a))
    ensures HasOwner(s)
  {
    var s' := Next(b, maxBytes, s, a);
    var u :| u in s'.threads && IsOwner(s'.threads[u]);
    if a.Advance? && a.tid == u {
      ThreadStepEnds(b, maxBytes, s.threads[u], a.env, s.x);
    }
    assert u in s.threads && IsOwner(s.threads[u]);
  }

  /** In no other way: wherever a run has ended and an executor can still log, one of its actions was such a
      cancel, and it is the one that ended it. */
  lemma {:induction false} LateLoggerRoutes(b: Backend, maxBytes: int, before: seq<Action>) returns (i: nat)
    requires var s := Run(b, maxBytes, START, before); Ended(s.x) && HasOwner(s)
    ensures i < |before|
    ensures var s := StateAt(b, maxBytes, before, i);
            && !Ended(s.x) && BlindCancel(s, before[i]) && Ended(StateAt(b, maxBytes, before, i + 1).x)
    decreases |before|
  {
    var n := |before| - 1;
    assert before != [];
    var front := before[..n];
    LastAction(b, maxBytes, before);
    var s := Run(b, maxBytes, START, front);
    if Ended(s.x) {
      NoNewOwner(b, maxBytes, s, before[n]);
      i := LateLoggerRoutes(b, maxBytes, front);
      assert front[..i] == before[..i] && front[..i + 1] == before[..i + 1];
    } else {
      StartOk();
      RunKeepsInv(b, maxBytes, START, front);
      EndedUnderOwner(b, maxBytes, s, before[n]);
      i := n;
      assert before[..n + 1] == before;
    }
  }

  lemma LastAction(b: Backend, maxBytes: int, actions: seq<Action>)
    requires actions != []
    ensures var n := |actions| - 1;
            Run(b, maxBytes, START, actions) == Next(b, maxBytes, Run(b, maxBytes, START, actions[..n]), actions[n])
  {
    var n := |actions| - 1;
    assert actions == actions[..n] + [actions[n]];
    RunConcat(b, maxBytes, START, actions[..n], [actions[n]]);
    RunOne(b, maxBytes, Run(b, maxBytes, START, actions[..n]), actions[n]);
  }

  // ---------- both happen ----------

  /** One more action of a run from the start. */
  lemma Extend(b: Backend, maxBytes: int, actions: seq<Action>, s: Sys, a: Action) returns (more: seq<Action>)
    requires s == Run(b, maxBytes, START, actions)
    ensures Next(b, maxBytes, s, a) == Run(b, maxBytes, START, more) && more == actions + [a]
  {
    more := actions + [a];
    RunConcat(b, maxBytes, START, actions, [a]);
    RunOne(b, maxBytes, s, a);
  }

  /** A created execution with two fresh threads. */
  lemma TwoEnter(b: Backend, maxBytes: int, other: Thread) returns (actions: seq<Action>, s: Sys)
    requires other == Canceller(CancelEntered) || other == Executor(Entered)
    ensures s == Run(b, maxBytes, START, actions) && s.x.row == Some(FreshRow(60)) && s.x.logs == []
    ensures s.threads == map[0 := Executor(Entered), 1 := other] && NoTokenSet(actions)
  {
    assert Run(b, maxBytes, START, []) == START;
    actions := Extend(b, maxBytes, [], START, CreateIt(60));
    var s1 := Run(b, maxBytes, START, actions);
    assert s1.x.row == Some(FreshRow(60)) && s1.x.logs == [] && s1.threads == map[];
    actions := Extend(b, maxBytes, actions, s1, Spawn(0, Executor(Entered)));
    var s2 := s1.(threads := map[0 := Executor(Entered)]);
    assert s2 == Run(b, maxBytes, START, actions);
    actions := Extend(b, maxBytes, actions, s2, Spawn(1, other));
    s := s2.(threads := map[0 := Executor(Entered), 1 := other]);
  }

  /** The executor, and whoever will cancel under it, find the run queued. */
  lemma TwoFindItQueued(b: Backend, maxBytes: int, other: Thread) returns (actions: seq<Action>, s: Sys)
    requires other == Canceller(CancelEntered) || other == Executor(Entered)
    ensures s == Run(b, maxBytes, START, actions) && s.x.row == Some(FreshRow(60)) && s.x.logs == []
    ensures s.threads == map[0 := Executor(Admitted), 1 := if other.Executor? then Executor(Admitted) else Canceller(CancelSawQueued)]
    ensures NoTokenSet(actions)
  {
    var s1;
    actions, s1 := TwoEnter(b, maxBytes, other);
    var s2;
    actions, s2 := Looks(b, maxBytes, actions, s1, 0);
    actions, s := Looks(b, maxBytes, actions, s2, 1);
  }

  /** A fresh executor or canceller looks at a queued row. */
  lemma Looks(b: Backend, maxBytes: int, actions: seq<Action>, s: Sys, tid: nat) returns (more: seq<Action>, s': Sys)
    requires s == Run(b, maxBytes, START, actions) && NoTokenSet(actions)
    requires s.x.row.Some? && s.x.row.value.status == Queued && tid in s.threads
    requires s.threads[tid] == Executor(Entered) || s.threads[tid] == Canceller(CancelEntered)
    ensures s' == Run(b, maxBytes, START, more) && s'.x == s.x && NoTokenSet(more)
    ensures s'.threads == s.threads[tid := if s.threads[tid].Executor? then Executor(Admitted) else Canceller(CancelSawQueued)]
  {
    more := Extend(b, maxBytes, actions, s, Advance(tid, Env(0, false, Ends)));
    s' := Next(b, maxBytes, s, Advance(tid, Env(0, false, Ends)));
  }

  lemma Claims(b: Backend, maxBytes: int, actions: seq<Action>, s: Sys, env: Env) returns (more: seq<Action>, s': Sys)
    requires s == Run(b, maxBytes, START, actions) && NoTokenSet(actions)
    requires s.x.row.Some? && s.x.row.value.status == Queued && !env.cancelRequested
    requires 0 in s.threads && s.threads[0] == Executor(Admitted)
    ensures s' == Run(b, maxBytes, START, more) && NoTokenSet(more)
    ensures s'.threads == s.threads[0 := Executor(Claimed)] && s'.x.row.Some? && s'.x.row.value.status == Running
    ensures s'.x.logs == s.x.logs
  {
    more := Extend(b, maxBytes, actions, s, Advance(0, env));
    s' := Next(b, maxBytes, s, Advance(0, env));
    assert s'.x == Apply(b, Start(env.now), s.x);
  }

  lemma Cancels(b: Backend, maxBytes: int, actions: seq<Action>, s: Sys, env: Env) returns (more: seq<Action>, s': Sys)
    requires s == Run(b, maxBytes, START, actions)
    requires s.x.row.Some? && s.x.row.value.status == Running
    requires 1 in s.threads && CancelsBlindly(s.threads[1], env)
    ensures s' == Run(b, maxBytes, START, more) && more == actions + [Advance(1, env)]
    ensures s'.threads == s.threads[1 := if s.threads[1].Executor? then Executor(Returned(false)) else Canceller(CancelGone)]
    ensures s'.x.row.Some? && s'.x.row.value.status == Cancelled
  {
    more := Extend(b, maxBytes, actions, s, Advance(1, env));
    s' := Next(b, maxBytes, s, Advance(1, env));
    assert s'.x == Apply(b, Cancel(env.now, CANCELLED_BEFORE_START), s.x);
  }

  /** The executor claims the run that both found queued. */
  lemma OneClaims(b: Backend, maxBytes: int, other: Thread) returns (actions: seq<Action>, s: Sys)
    requires other == Canceller(CancelEntered) || other == Executor(Entered)
    ensures s == Run(b, maxBytes, START, actions) && s.x.row.Some? && s.x.row.value.status == Running
    ensures s.threads == map[0 := Executor(Claimed), 1 := if other.Executor? then Executor(Admitted) else Canceller(CancelSawQueued)]
    ensures NoTokenSet(actions)
  {
    var s1;
    actions, s1 := TwoFindItQueued(b, maxBytes, other);
    actions, s := Claims(b, maxBytes, actions, s1, Env(0, false, Ends));
  }

  // ---------- where a set token comes from ----------

  /** The step by which a canceller that has seen the run running asks for its end. */
  predicate Requests(s: Sys, a: Action) {
    a.Advance? && a.tid in s.threads && s.threads[a.tid] == Canceller(CancelSawRunning)
  }

  /** An executor that polls a set token. */
  predicate PollsSetToken(s: Sys, a: Action) {
    a.Advance? && a.tid in s.threads && s.threads[a.tid].Executor? && a.env.cancelRequested
  }

  ghost predicate RequestedBefore(b: Backend, maxBytes: int, actions: seq<Action>, i: nat)
    requires i <= |actions|
  {
    exists j :: 0 <= j < i && Requests(StateAt(b, maxBytes, actions, j), actions[j])
  }

  /** A token is found set only after a canceller of the run has asked for it. */
  ghost predicate TokensAreRequested(b: Backend, maxBytes: int, actions: seq<Action>) {
    forall i :: 0 <= i < |actions| && PollsSetToken(StateAt(b, maxBytes, actions, i), actions[i]) ==>
                  RequestedBefore(b, maxBytes, actions, i)
  }

  lemma OnlyThisPoll(before: seq<Action>, poll: Action, later: seq<Action>, i: nat)
    requires NoTokenSet(before) && NoTokenSet(later) && i < |before + [poll] + later|
    ensures var a := (before + [poll] + later)[i]; i != |before| && a.Advance? ==> !a.env.cancelRequested
  {
    if i < |before| {
      assert (before + [poll] + later)[i] == before[i];
    } else if i > |before| {
      assert (before + [poll] + later)[i] == later[i - |before| - 1];
    }
  }

  lemma OnePollAfterRequest(b: Backend, maxBytes: int, before: seq<Action>, poll: Action, later: seq<Action>, j: nat)
    requires NoTokenSet(before) && NoTokenSet(later)
    requires j < |before| && Requests(StateAt(b, maxBytes, before, j), before[j])
    ensures TokensAreRequested(b, maxBytes, before + [poll] + later)
  {
    var actions := before + [poll] + later;
    forall i | 0 <= i < |actions| && PollsSetToken(StateAt(b, maxBytes, actions, i), actions[i])
      ensures RequestedBefore(b, maxBytes, actions, i)
    {
      OnlyThisPoll(before, poll, later, i);
      assert actions[..j] == before[..j];
      assert Requests(StateAt(b, maxBytes, actions, j), actions[j]);
    }
  }

  lemma NoPollNoToken(b: Backend, maxBytes: int, actions: seq<Action>)
    requires NoTokenSet(actions)
    ensures TokensAreRequested(b, maxBytes, actions)
  {
  }

  /** A canceller appears, finds the run running and asks for its end. */
  lemma AsksRunning(b: Backend, maxBytes: int, actions: seq<Action>, s: Sys) returns (more: seq<Action>, s': Sys)
    requires s == Run(b, maxBytes, START, actions) && NoTokenSet(actions)
    requires s.x.row.Some? && s.x.row.value.status == Running && 3 !in s.threads
    ensures s' == Run(b, maxBytes, START, more) && NoTokenSet(more)
    ensures |more| > 0 && Requests(StateAt(b, maxBytes, more, |more| - 1), more[|more| - 1])
    ensures s'.threads == s.threads[3 := Canceller(CancelGone)] && s'.x.row == s.x.row
  {
    var env := Env(0, false, Ends);
    more := Extend(b, maxBytes, actions, s, Spawn(3, Canceller(CancelEntered)));
    var s1 := s.(threads := s.threads[3 := Canceller(CancelEntered)]);
    assert s1 == Run(b, maxBytes, START, more);
    var s2;
    more, s2 := FindsRunning(b, maxBytes, more, s1, env);
    more, s' := AsksForEnd(b, maxBytes, more, s2, env);
  }

  lemma FindsRunning(b: Backend, maxBytes: int, actions: seq<Action>, s: Sys, env: Env) returns (more: seq<Action>, s': Sys)
    requires s == Run(b, maxBytes, START, actions) && NoTokenSet(actions) && !env.cancelRequested
    requires s.x.row.Some? && s.x.row.value.status == Running
    requires 3 in s.threads && s.threads[3] == Canceller(CancelEntered)
    ensures s' == Run(b, maxBytes, START, more) && NoTokenSet(more)
    ensures s'.threads == s.threads[3 := Canceller(CancelSawRunning)] && s'.x == s.x
  {
    more := Extend(b, maxBytes, actions, s, Advance(3, env));
    s' := Next(b, maxBytes, s, Advance(3, env));
  }

  lemma AsksForEnd(b: Backend, maxBytes: int, actions: seq<Action>, s: Sys, env: Env) returns (more: seq<Action>, s': Sys)
    requires s == Run(b, maxBytes, START, actions) && NoTokenSet(actions) && !env.cancelRequested
    requires s.x.row.Some? && 3 in s.threads && s.threads[3] == Canceller(CancelSawRunning)
    ensures s' == Run(b, maxBytes, START, more) && NoTokenSet(more)
    ensures |more| > 0 && Requests(StateAt(b, maxBytes, more, |more| - 1), more[|more| - 1])
    ensures s'.threads == s.threads[3 := Canceller(CancelGone)] && s'.x.row == s.x.row
  {
    more := Extend(b, maxBytes, actions, s, Advance(3, env));
    assert more[..|more| - 1] == actions;
    s' := Next(b, maxBytes, s, Advance(3, env));
  }

  /** The cancel under the owner, by a canceller or by an executor that polls its token. */
  lemma ClaimThenCancel(b: Backend, maxBytes: int, other: Thread)
    returns (before: seq<Action>, poll: Action, s: Sys)
    requires other == Canceller(CancelEntered) || other == Executor(Entered)
    ensures s == Run(b, maxBytes, START, before + [poll]) && NoTokenSet(before)
    ensures Ended(s.x) && 0 in s.threads && s.threads[0] == Executor(Claimed) && 2 !in s.threads
    ensures other.Canceller? ==> NoTokenSet(before + [poll])
    ensures other.Executor? ==> exists j :: 0 <= j < |before| && Requests(StateAt(b, maxBytes, before, j), before[j])
  {
    var s1, all;
    before, s1 := OneClaims(b, maxBytes, other);
    if other.Executor? {
      before, s1 := AsksRunning(b, maxBytes, before, s1);
    }
    var env := Env(0, other.Executor?, Ends);
    poll := Advance(1, env);
    all, s := Cancels(b, maxBytes, before, s1, env);
  }

  /** Both routes are taken by a run from the start. A canceller that saw the run queued cancels it under its
      owner; or a dispatched executor does, whose token a canceller has asked for while the owner, a recovery
      job say, was running. Then a log stream sends done, and a chunk follows. */
  lemma ChunkAfterDoneReachable(b: Backend, maxBytes: int, other: Thread) returns (actions: seq<Action>)
    requires maxBytes > 0 && (other == Canceller(CancelEntered) || other == Executor(Entered))
    ensures MissedAfterDone(Run(b, maxBytes, START, actions), 2) && TokensAreRequested(b, maxBytes, actions)
  {
    var before, poll, s := ClaimThenCancel(b, maxBytes, other);
    StartOk();
    RunKeepsInv(b, maxBytes, START, before + [poll]);
    var more := ChunkAfterDone(b, maxBytes, s, 0, 2);
    RunConcat(b, maxBytes, START, before + [poll], more);
    actions := before + [poll] + more;
    if other.Executor? {
      var j :| 0 <= j < |before| && Requests(StateAt(b, maxBytes, before, j), before[j]);
      OnePollAfterRequest(b, maxBytes, before, poll, more, j);
    } else {
      NoPollNoToken(b, maxBytes, actions);
    }
  }

  /** The reaper's race is real as well: on a run from the start, a record read while the executor streams and
      used after it logged a chunk leaves columns that disagree with the log. */
  lemma ReaperRaceReachable(b: Backend, maxBytes: int, now: int) returns (before: seq<Action>, later: seq<Action>)
    requires maxBytes > 0
    ensures var read, x := Run(b, maxBytes, START, before).x, Run(b, maxBytes, START, before + later).x;
            && read.row.Some? && x.row.Some? && read.row.value.status == Running && x.row.value.status == Running
            && var y := Apply(b, ReapOp(now, read.row.value), x);
            && y.row.Some? && !ColumnsOk(y.row.value, y.logs)
  {
    var s;
    before, s := Streams(b, maxBytes);
    StartOk();
    RunKeepsInv(b, maxBytes, START, before);
    later := [Advance(0, Yielding(Stdout))];
    RunConcat(b, maxBytes, START, before, later);
    RunKeepsInv(b, maxBytes, START, before + later);
    RunKeepsInv(b, maxBytes, s, later);
    RunOne(b, maxBytes, s, later[0]);
    var x := StreamedOne(b, maxBytes, s);
    assert x == Run(b, maxBytes, START, before + later).x;
    ReaperRaceExact(b, now, s.x, x);
  }

  /** A run from the start in which executor 0 streams. */
  lemma Streams(b: Backend, maxBytes: int) returns (actions: seq<Action>, s: Sys)
    ensures s == Run(b, maxBytes, START, actions) && s.x.row.Some? && s.x.row.value.status == Running && s.x.logs == []
    ensures 0 in s.threads && s.threads[0] == Executor(Streaming(Empty(maxBytes), Empty(maxBytes), None))
  {
    var env := Env(0, false, Ends);
    var s1, s2;
    actions, s1 := TwoFindItQueued(b, maxBytes, Canceller(CancelEntered));
    actions, s2 := Claims(b, maxBytes, actions, s1, env);
    actions, s := Starts(b, maxBytes, actions, s2, env);
  }

  lemma Starts(b: Backend, maxBytes: int, actions: seq<Action>, s: Sys, env: Env) returns (more: seq<Action>, s': Sys)
    requires s == Run(b, maxBytes, START, actions)
    requires s.x.row.Some? && 0 in s.threads && s.threads[0] == Executor(Claimed)
    ensures s' == Run(b, maxBytes, START, more) && s'.x == s.x
    ensures s'.threads == s.threads[0 := Executor(Streaming(Empty(maxBytes), Empty(maxBytes), None))]
  {
    more := Extend(b, maxBytes, actions, s, Advance(0, env));
    s' := Next(b, maxBytes, s, Advance(0, env));
  }

  lemma StreamedOne(b: Backend, maxBytes: int, s: Sys) returns (x: Exec)
    requires Inv(s) && maxBytes > 0 && s.x.row.Some? && s.x.row.value.status == Running
    requires 0 in s.threads && s.threads[0] == Executor(Streaming(Empty(maxBytes), Empty(maxBytes), None))
    ensures x == Next(b, maxBytes, s, Advance(0, Yielding(Stdout))).x
    ensures |x.logs| == |s.x.logs| + 1 && x.row.Some? && x.row.value.status == Running
  {
    LogAdds(b, Stdout, Empty(maxBytes), ['x'], s.x);
    x := LogIfAny(b, Stdout, Append(Empty(maxBytes), ['x']).1, s.x);
  }
}
