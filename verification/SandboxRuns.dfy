/** Every run of the sandbox protocol keeps its invariant, and what follows from that. */
module SandboxRuns {
  import opened Wrappers
  import opened SandboxTables
  import opened SandboxExecutor
  import opened SandboxService
  import opened SandboxProtocol
  import opened SqliteSandboxStore

  // ---------- one action ----------

  /** How a thread's step can end the execution or take it over. */
  lemma ThreadStepEnds(b: Backend, maxBytes: int, t: Thread, env: Env, x: Exec)
    requires x.row.Some?
    ensures var (t', x') := ThreadStep(b, maxBytes, t, env, x);
            && (!Ended(x) && Ended(x') ==>
                  !IsOwner(t') && (IsOwner(t) || Reaps(t) || x'.row.value.status == Cancelled))
            && (IsOwner(t') && !IsOwner(t) ==> t == Executor(Admitted) && x.row.value.status == Queued)
            && (Reaps(t') ==> Reaps(t))
            && (t' == Executor(Claimed) ==> t == Executor(Admitted) && x.row.value.status == Queued)
  {
    if t.Executor? {
      ExecStepEnds(b, maxBytes, t.pc, env, x);
    }
  }

  lemma ExecStepEnds(b: Backend, maxBytes: int, pc: Pc, env: Env, x: Exec)
    requires x.row.Some?
    ensures var (pc', x') := ExecStep(b, maxBytes, pc, env, x);
            && (!Ended(x) && Ended(x') ==> !Owns(pc') && (Owns(pc) || x'.row.value.status == Cancelled))
            && (Owns(pc') && !Owns(pc) ==> pc == Admitted && x.row.value.status == Queued)
            && (pc' == Claimed ==> pc == Admitted && x.row.value.status == Queued)
  {
    match pc
    case Streaming(_, _, _) => LoggingDoesNotEnd(b, maxBytes, pc, env, x);
    case DrainOut(_, _, _) => LoggingDoesNotEnd(b, maxBytes, pc, env, x);
    case DrainErr(_, _, _) => LoggingDoesNotEnd(b, maxBytes, pc, env, x);
    case _ =>
  }

  lemma LoggingDoesNotEnd(b: Backend, maxBytes: int, pc: Pc, env: Env, x: Exec)
    requires x.row.Some? && (pc.Streaming? || pc.DrainOut? || pc.DrainErr?)
    ensures var (pc', x') := ExecStep(b, maxBytes, pc, env, x);
            Ended(x') == Ended(x) && pc' != Claimed
  {
  }

  lemma NextKeepsInv(b: Backend, maxBytes: int, s: Sys, a: Action)
    requires Inv(s)
    ensures Inv(Next(b, maxBytes, s, a)) && Grows(s.x, Next(b, maxBytes, s, a).x)
  {
    GrowsReflexive(s.x);
    if Enabled(s, a) {
      match a
      case CreateIt(timeoutSec) => CreateKeepsInv(b, timeoutSec, s);
      case Spawn(tid, t) => SpawnKeepsInv(b, maxBytes, s, tid, t);
      case Advance(tid, env) =>
        if s.x.row.Some? {
          AdvanceKeepsInv(b, maxBytes, s, tid, env);
        }
      case Leave(tid) => FewerThreadsKeepInv(s, s.threads - {tid});
      case Crash => FewerThreadsKeepInv(s, map[]);
      case Annotate(kind, status) => AnnotateKeepsInv(b, kind, status, s);
      case DenyIt(now, detail) => DenyKeepsInv(b, now, detail, s);
    }
  }

  lemma AnnotateKeepsInv(b: Backend, kind: EventKind, status: Status, s: Sys)
    requires Inv(s) && IsNote(kind) && s.x.row.Some?
    ensures Inv(WithTables(s, Apply(b, Note(kind, status), s.x))) && Grows(s.x, Apply(b, Note(kind, status), s.x))
  {
    NoteKeepsTables(b, kind, status, s.x);
    QuietKeepsInv(b, Note(kind, status), s);
  }

  lemma DenyKeepsInv(b: Backend, now: int, detail: string, s: Sys)
    requires Inv(s)
    ensures Inv(WithTables(s, Apply(b, Deny(now, detail), s.x))) && Grows(s.x, Apply(b, Deny(now, detail), s.x))
  {
    MarkOk(b, Deny(now, detail), s.x);
    QuietKeepsInv(b, Deny(now, detail), s);
  }

  /** The tables of an execution that was just created. */
  ghost predicate JustCreated(timeoutSec: int, x: Exec) {
    x.row == Some(FreshRow(timeoutSec)) && TablesOk(x)
  }

  lemma FreshSystem(timeoutSec: int, s: Sys, x: Exec) returns (s': Sys)
    requires Inv(s) && s.x.row.None? && JustCreated(timeoutSec, x)
    ensures s' == WithTables(s, x) && Inv(s')
  {
    s' := WithTables(s, x);
  }

  lemma CreateGrows(b: Backend, timeoutSec: int, x: Exec) returns (y: Exec)
    requires TablesOk(x)
    ensures y == Apply(b, Create(timeoutSec), x) && Grows(x, y)
    ensures x.row.None? ==> JustCreated(timeoutSec, y)
  {
    CreateKeepsTables(b, timeoutSec, x);
    ApplyGrows(b, Create(timeoutSec), x);
    y := Apply(b, Create(timeoutSec), x);
  }

  lemma CreateAgain(b: Backend, timeoutSec: int, s: Sys)
    requires Inv(s) && s.x.row.Some?
    ensures WithTables(s, Apply(b, Create(timeoutSec), s.x)) == s
  {
  }

  lemma CreateKeepsInv(b: Backend, timeoutSec: int, s: Sys)
    requires Inv(s)
    ensures Inv(WithTables(s, Apply(b, Create(timeoutSec), s.x))) && Grows(s.x, Apply(b, Create(timeoutSec), s.x))
  {
    var x := CreateGrows(b, timeoutSec, s.x);
    if s.x.row.Some? {
      CreateAgain(b, timeoutSec, s);
    } else {
      var s' := FreshSystem(timeoutSec, s, x);
    }
  }

  lemma FewerThreadsKeepInv(s: Sys, threads: map<nat, Thread>)
    requires Inv(s) && forall t :: t in threads ==> t in s.threads && threads[t] == s.threads[t]
    ensures Inv(s.(threads := threads))
  {
  }

  lemma SpawnKeepsInv(b: Backend, maxBytes: int, s: Sys, tid: nat, t: Thread)
    requires Inv(s) && Enabled(s, Spawn(tid, t))
    ensures Inv(Next(b, maxBytes, s, Spawn(tid, t)))
  {
    assert ThreadOk(t, s.x, s.chunksAtEnd);
    var s' := Next(b, maxBytes, s, Spawn(tid, t));
    forall u, v | u in s'.threads && v in s'.threads && IsOwner(s'.threads[u]) && (IsOwner(s'.threads[v]) || Reaps(s'.threads[v]))
      ensures u == v
    {
      assert u != tid;
    }
  }

  /** A transaction outside any thread that only adds a note or denies a queued execution. */
  lemma QuietKeepsInv(b: Backend, op: Op, s: Sys)
    requires Inv(s) && (op.Note? || op.Deny?) && TablesOk(Apply(b, op, s.x))
    ensures Inv(WithTables(s, Apply(b, op, s.x))) && Grows(s.x, Apply(b, op, s.x))
    requires op.Note? ==> s.x.row.Some?
  {
    var x' := Apply(b, op, s.x);
    var s' := WithTables(s, x');
    ApplyGrows(b, op, s.x);
    forall t | t in s.threads
      ensures ThreadOk(s.threads[t], x', s'.chunksAtEnd)
    {
      OtherThreadOk(s.threads[t], s.x, x', s.chunksAtEnd, s'.chunksAtEnd);
    }
    if !Ended(s.x) && Ended(x') {
      forall t | t in s.threads
        ensures !IsOwner(s.threads[t])
      {
        assert ThreadOk(s.threads[t], s.x, s.chunksAtEnd);
      }
    }
  }

  lemma AdvanceKeepsInv(b: Backend, maxBytes: int, s: Sys, tid: nat, env: Env)
    requires Inv(s) && tid in s.threads && s.x.row.Some?
    ensures Inv(Next(b, maxBytes, s, Advance(tid, env))) && Grows(s.x, Next(b, maxBytes, s, Advance(tid, env)).x)
  {
    var t := s.threads[tid];
    var t', x' := AdvanceFacts(b, maxBytes, s, tid, env);
    var s' := Next(b, maxBytes, s, Advance(tid, env));
    AdvanceThreads(s, tid, t', x', s'.chunksAtEnd);
    AdvanceExclusive(s, tid, t', x');
    AdvanceEnd(s, tid, t', x');
    AdvanceRuns(s, tid, t', x');
  }

  /** What the acting thread contributes, without the code of its step. */
  ghost predicate Advances(s: Sys, tid: nat, t': Thread, x': Exec)
    requires tid in s.threads && s.x.row.Some?
  {
    var t := s.threads[tid];
    && TablesOk(x') && Grows(s.x, x')
    && (!IsOwner(t) ==> Quiet(s.x, x'))
    && ThreadOk(t', x', WithTables(s, x').chunksAtEnd)
    && (!Ended(s.x) && Ended(x') ==> !IsOwner(t') && (IsOwner(t) || Reaps(t) || x'.row.value.status == Cancelled))
    && (IsOwner(t') && !IsOwner(t) ==> s.x.row.value.status == Queued)
    && (Reaps(t') ==> Reaps(t))
    && (t' == Executor(Claimed) ==> s.x.row.value.status == Queued)
  }

  lemma AdvanceFacts(b: Backend, maxBytes: int, s: Sys, tid: nat, env: Env) returns (t': Thread, x': Exec)
    requires Inv(s) && tid in s.threads && s.x.row.Some?
    ensures Advances(s, tid, t', x')
    ensures Next(b, maxBytes, s, Advance(tid, env))
         == WithTables(s, x').(threads := s.threads[tid := t'],
                               providerRuns := s.providerRuns + (if s.threads[tid] == Executor(Claimed) then 1 else 0))
  {
    t', x' := StepAdvances(b, maxBytes, s, tid, env);
  }

  lemma StepAdvances(b: Backend, maxBytes: int, s: Sys, tid: nat, env: Env) returns (t': Thread, x': Exec)
    requires Inv(s) && tid in s.threads && s.x.row.Some?
    ensures (t', x') == ThreadStep(b, maxBytes, s.threads[tid], env, s.x) && Advances(s, tid, t', x')
  {
    var t := s.threads[tid];
    ThreadStepTables(b, maxBytes, t, env, s.x, s.chunksAtEnd);
    if !(t == Reaper(ReapGone)) {
      ThreadStepSelf(b, maxBytes, t, env, s);
    }
    ThreadStepEnds(b, maxBytes, t, env, s.x);
    t', x' := ThreadStep(b, maxBytes, t, env, s.x).0, ThreadStep(b, maxBytes, t, env, s.x).1;
  }

  lemma AdvanceThreads(s: Sys, tid: nat, t': Thread, x': Exec, end': Option<nat>)
    requires Inv(s) && tid in s.threads && s.x.row.Some? && Advances(s, tid, t', x')
    requires end' == WithTables(s, x').chunksAtEnd
    ensures forall u :: u in s.threads ==> ThreadOk(s.threads[tid := t'][u], x', end')
  {
    forall u | u in s.threads
      ensures ThreadOk(s.threads[tid := t'][u], x', end')
    {
      if u != tid {
        OtherThreadOk(s.threads[u], s.x, x', s.chunksAtEnd, end');
      }
    }
  }

  lemma AdvanceExclusive(s: Sys, tid: nat, t': Thread, x': Exec)
    requires Inv(s) && tid in s.threads && s.x.row.Some? && Advances(s, tid, t', x')
    ensures Exclusive(s.threads[tid := t'])
  {
    if s.x.row.value.status == Queued {
      NobodyOwns(s);
    }
  }

  /** A queued execution has neither owner nor reaper. */
  lemma NobodyOwns(s: Sys)
    requires Inv(s) && s.x.row.Some? && s.x.row.value.status == Queued
    ensures forall t :: t in s.threads ==> !IsOwner(s.threads[t]) && !Reaps(s.threads[t])
  {
    forall t | t in s.threads
      ensures !IsOwner(s.threads[t]) && !Reaps(s.threads[t])
    {
      assert ThreadOk(s.threads[t], s.x, s.chunksAtEnd);
    }
  }

  lemma AdvanceEnd(s: Sys, tid: nat, t': Thread, x': Exec)
    requires Inv(s) && tid in s.threads && s.x.row.Some? && Advances(s, tid, t', x')
    ensures EndOk(WithTables(s, x').(threads := s.threads[tid := t']))
  {
    assert |x'.logs| >= |s.x.logs|;
  }

  lemma AdvanceRuns(s: Sys, tid: nat, t': Thread, x': Exec)
    requires Inv(s) && tid in s.threads && s.x.row.Some? && Advances(s, tid, t', x')
    ensures var runs := s.providerRuns + (if s.threads[tid] == Executor(Claimed) then 1 else 0);
            RunsOk(WithTables(s, x').(threads := s.threads[tid := t'], providerRuns := runs))
  {
    assert ThreadOk(s.threads[tid], s.x, s.chunksAtEnd);
  }

  // ---------- every run ----------

  lemma {:induction false} RunKeepsInv(b: Backend, maxBytes: int, s: Sys, actions: seq<Action>)
    requires Inv(s)
    ensures Inv(Run(b, maxBytes, s, actions)) && Grows(s.x, Run(b, maxBytes, s, actions).x)
    decreases actions
  {
    if actions == [] {
      GrowsReflexive(s.x);
    } else {
      var s' := Next(b, maxBytes, s, actions[0]);
      NextKeepsInv(b, maxBytes, s, actions[0]);
      RunKeepsInv(b, maxBytes, s', actions[1..]);
      GrowsTransitive(s.x, s'.x, Run(b, maxBytes, s', actions[1..]).x);
    }
  }

  lemma {:induction false} RunConcat(b: Backend, maxBytes: int, s: Sys, before: seq<Action>, later: seq<Action>)
    ensures Run(b, maxBytes, s, before + later) == Run(b, maxBytes, Run(b, maxBytes, s, before), later)
    decreases before
  {
    if before == [] {
      assert before + later == later;
    } else {
      assert (before + later)[1..] == before[1..] + later;
      RunConcat(b, maxBytes, Next(b, maxBytes, s, before[0]), before[1..], later);
    }
  }

  lemma StartOk()
    ensures Inv(START)
  {
  }

  /** Whatever interleaves: the provider runs at most once, the timeline holds one queued event, at
      most one started event and at most one terminal event, and replaying it gives the status column. */
  lemma LifecycleOfEveryRun(b: Backend, maxBytes: int, actions: seq<Action>)
    ensures var s := Run(b, maxBytes, START, actions);
            && s.providerRuns <= 1
            && (s.x.row.Some? ==>
                  && FoldStatus(s.x.events) == Some(s.x.row.value.status)
                  && LifecycleOk(s.x.row.value, Lifecycle(s.x.events))
                  && (s.providerRuns == 1 ==> EvStarted in Lifecycle(s.x.events)))
            && (s.x.row.None? ==> s.x.events == [])
  {
    StartOk();
    RunKeepsInv(b, maxBytes, START, actions);
    var s := Run(b, maxBytes, START, actions);
    if s.x.row.Some? {
      FoldGivesStatus(s.x);
      var kinds := Lifecycle(s.x.events);
      if s.providerRuns == 1 {
        assert ([EvQueued] + [EvStarted])[1] == EvStarted;
        assert kinds[1] == EvStarted;
      }
    }
  }

  /** Whatever interleaves: log and event rows are numbered 1, 2, 3, ..., every log row has its one log
      event, `last_log_seq` counts the log rows, and the stream columns are the chunks put together. */
  lemma LogOfEveryRun(b: Backend, maxBytes: int, actions: seq<Action>)
    ensures var x := Run(b, maxBytes, START, actions).x;
            && DenseLogs(x.logs) && DenseEvents(x.events)
            && LogKinds(x.events) == ExpectedLogKinds(x.logs)
            && (x.row.Some? ==> ColumnsOk(x.row.value, x.logs))
  {
    StartOk();
    RunKeepsInv(b, maxBytes, START, actions);
  }

  /** A terminal row keeps its outcome whatever happens later. */
  lemma TerminalForever(b: Backend, maxBytes: int, before: seq<Action>, later: seq<Action>)
    ensures var x := Run(b, maxBytes, START, before).x;
            var y := Run(b, maxBytes, START, before + later).x;
            && IsPrefix(x.logs, y.logs) && IsPrefix(x.events, y.events)
            && (Ended(x) ==> Ended(y) && SameOutcome(x.row.value, y.row.value))
  {
    StartOk();
    RunKeepsInv(b, maxBytes, START, before);
    RunConcat(b, maxBytes, START, before, later);
    RunKeepsInv(b, maxBytes, Run(b, maxBytes, START, before), later);
  }

  // ---------- crash and restart ----------

  /** Kill everything at any step of any run and start the host again: the execution ends, the tables
      are consistent, and every chunk that was logged before the crash is still in its place. */
  lemma CrashThenRestart(b: Backend, maxBytes: int, actions: seq<Action>, provider: ExecutionId -> ProviderRun,
                         now: int, t0: int, t1: int, id: ExecutionId, s: Sys)
    requires s == Run(b, maxBytes, START, actions)
    ensures Run(b, maxBytes, START, actions + [Crash]) == s.(threads := map[])
    ensures var y := Restarted(b, provider, maxBytes, now, t0, t1, id, s.x);
            && TablesOk(y) && IsPrefix(s.x.logs, y.logs)
            && (s.x.row.Some? ==> Ended(y))
  {
    StartOk();
    RunKeepsInv(b, maxBytes, START, actions);
    RunConcat(b, maxBytes, START, actions, [Crash]);
    CrashRun(b, maxBytes, s);
    RestartEnds(b, provider, maxBytes, now, t0, t1, id, s.x);
  }

  lemma CrashRun(b: Backend, maxBytes: int, s: Sys)
    ensures Run(b, maxBytes, s, [Crash]) == s.(threads := map[])
  {
    var s' := Next(b, maxBytes, s, Crash);
    assert [Crash][1..] == [] && [Crash][0] == Crash;
    assert Run(b, maxBytes, s', []) == s';
  }

  // ---------- the log stream ----------

  /** Any log stream in any run: it has sent the rows after its start, in order, none twice and none
      left out; and once it has sent done, every chunk committed before the end is among them. */
  lemma StreamOfEveryRun(b: Backend, maxBytes: int, actions: seq<Action>, tid: nat, s: Sys)
    requires s == Run(b, maxBytes, START, actions) && tid in s.threads && s.threads[tid].Reader?
    ensures var t := s.threads[tid];
            && (forall i :: 0 <= i < |t.emitted| ==>
                  && t.emitted[i].seqNo == t.after + i + 1
                  && t.after + i < |s.x.logs| && t.emitted[i] == s.x.logs[t.after + i])
            && (t.dp.ReadDone? ==>
                  && s.chunksAtEnd.Some? && Ended(s.x) && t.after + |t.emitted| >= s.chunksAtEnd.value
                  && (s.x.row.value.status != Cancelled ==> t.after + |t.emitted| >= |s.x.logs|))
  {
    StartOk();
    RunKeepsInv(b, maxBytes, START, actions);
    StreamFacts(s, tid);
  }

  lemma StreamFacts(s: Sys, tid: nat)
    requires Inv(s) && tid in s.threads && s.threads[tid].Reader?
    ensures var t := s.threads[tid];
            && (t.dp.ReadDone? ==> Ended(s.x) && t.after + |t.emitted| >= s.chunksAtEnd.value)
            && (t.dp.ReadDone? && s.x.row.value.status != Cancelled ==> t.after + |t.emitted| >= |s.x.logs|)
            && (forall i :: 0 <= i < |t.emitted| ==>
                  t.after + i < |s.x.logs| && t.emitted[i] == s.x.logs[t.after + i] && t.emitted[i].seqNo == t.after + i + 1)
  {
    var t := s.threads[tid];
    assert ReaderOk(t, s.x, s.chunksAtEnd);
  }

  /** The status frames of a log stream: at most three, each further along, done only after a terminal one. */
  lemma StatusFrames(b: Backend, maxBytes: int, actions: seq<Action>, tid: nat, s: Sys)
    requires s == Run(b, maxBytes, START, actions) && tid in s.threads && s.threads[tid].Reader?
    ensures var t := s.threads[tid];
            && |t.statuses| <= 3
            && (forall i, j :: 0 <= i < j < |t.statuses| ==> Rank(t.statuses[i]) < Rank(t.statuses[j]))
            && (t.dp.ReadDone? ==>
                  t.statuses != [] && s.x.row.Some? && t.statuses[|t.statuses| - 1] == s.x.row.value.status)
  {
    StartOk();
    RunKeepsInv(b, maxBytes, START, actions);
    var t := s.threads[tid];
    assert ReaderOk(t, s.x, s.chunksAtEnd);
    RanksBound(t.statuses);
  }

  lemma RanksBound(statuses: seq<Status>)
    requires forall i, j :: 0 <= i < j < |statuses| ==> Rank(statuses[i]) < Rank(statuses[j])
    ensures |statuses| <= 3
  {
    if |statuses| > 3 {
      RankAtLeast(statuses, 3);
    }
  }

  lemma {:induction false} RankAtLeast(statuses: seq<Status>, i: nat)
    requires i < |statuses| && forall i, j :: 0 <= i < j < |statuses| ==> Rank(statuses[i]) < Rank(statuses[j])
    ensures i <= Rank(statuses[i])
  {
    if i > 0 {
      RankAtLeast(statuses, i - 1);
    }
  }

  // ---------- reconnecting ----------

  /** One connection of a client to a run: the stream that served it, how many actions the run had taken when
      the connection broke off, and what had arrived by then. */
  datatype Connection = Connection(tid: nat, at: nat, got: seq<LogRow>)

  /** The system after the first n actions of a run. */
  function StateAt(b: Backend, maxBytes: int, actions: seq<Action>, n: nat): Sys
    requires n <= |actions|
  {
    Run(b, maxBytes, START, actions[..n])
  }

  function Received(cs: seq<Connection>): seq<LogRow> {
    if cs == [] then [] else Received(cs[..|cs| - 1]) + cs[|cs| - 1].got
  }

  /** The sequence number that a client sends when it connects again. */
  function LastSeen(after: nat, got: seq<LogRow>): nat {
    if got == [] then after else got[|got| - 1].seqNo
  }

  /** Connection i is served by a log stream of the run that starts after the last number the client had
      received, and delivers some first part of what that stream has sent. */
  ghost predicate Reconnects(b: Backend, maxBytes: int, actions: seq<Action>, after: nat, cs: seq<Connection>, i: nat)
    requires i < |cs|
  {
    var c := cs[i];
    && c.at <= |actions| && (i > 0 ==> cs[i - 1].at <= c.at)
    && var s := StateAt(b, maxBytes, actions, c.at);
    && c.tid in s.threads && s.threads[c.tid].Reader?
    && s.threads[c.tid].after == LastSeen(after, Received(cs[..i]))
    && IsPrefix(c.got, s.threads[c.tid].emitted)
  }

  ghost predicate Reconnecting(b: Backend, maxBytes: int, actions: seq<Action>, after: nat, cs: seq<Connection>) {
    forall i :: 0 <= i < |cs| ==> Reconnects(b, maxBytes, actions, after, cs, i)
  }

  /** The log at an earlier point of a run is a prefix of the log at a later one, and both are dense. */
  lemma LogsOfPrefixes(b: Backend, maxBytes: int, actions: seq<Action>, m: nat, n: nat)
    requires m <= n <= |actions|
    ensures Inv(StateAt(b, maxBytes, actions, m)) && Inv(StateAt(b, maxBytes, actions, n))
    ensures IsPrefix(StateAt(b, maxBytes, actions, m).x.logs, StateAt(b, maxBytes, actions, n).x.logs)
    ensures Grows(StateAt(b, maxBytes, actions, m).x, StateAt(b, maxBytes, actions, n).x)
  {
    StartOk();
    RunKeepsInv(b, maxBytes, START, actions[..m]);
    RunConcat(b, maxBytes, START, actions[..m], actions[m..n]);
    assert actions[..m] + actions[m..n] == actions[..n];
    RunKeepsInv(b, maxBytes, StateAt(b, maxBytes, actions, m), actions[m..n]);
  }

  /** What has arrived is the stretch of the log that follows position `after`. */
  ghost predicate ReceivedInOrder(after: nat, got: seq<LogRow>, logs: seq<LogRow>) {
    got == [] || (after + |got| <= |logs| && got == logs[after..after + |got|])
  }

  lemma StillInOrder(after: nat, got: seq<LogRow>, logs: seq<LogRow>, more: seq<LogRow>)
    requires ReceivedInOrder(after, got, logs) && IsPrefix(logs, more)
    ensures ReceivedInOrder(after, got, more)
  {
    if got != [] {
      assert more[after..after + |got|] == more[..|logs|][after..after + |got|];
    }
  }

  /** On a dense log the last number received tells how much was received. */
  lemma LastSeenCounts(after: nat, got: seq<LogRow>, logs: seq<LogRow>)
    requires DenseLogs(logs) && ReceivedInOrder(after, got, logs)
    ensures LastSeen(after, got) == after + |got|
  {
    if got != [] {
      assert got[|got| - 1] == logs[after + |got| - 1];
    }
  }

  lemma StartOfStretch(logs: seq<LogRow>, a: nat, b: nat, got: seq<LogRow>)
    requires a <= b <= |logs| && IsPrefix(got, logs[a..b])
    ensures a + |got| <= b && got == logs[a..a + |got|]
  {
    assert logs[a..b][..|got|] == logs[a..a + |got|];
  }

  lemma JoinStretches(logs: seq<LogRow>, a: nat, b: nat, c: nat)
    requires a <= b <= c <= |logs|
    ensures logs[a..b] + logs[b..c] == logs[a..c]
  {
  }

  lemma OneMoreConnection(after: nat, before: seq<LogRow>, t: Thread, got: seq<LogRow>, logs: seq<LogRow>)
    requires t.Reader? && SentOk(t.after, t.last, t.emitted, logs) && t.after == after + |before|
    requires IsPrefix(got, t.emitted) && ReceivedInOrder(after, before, logs)
    ensures ReceivedInOrder(after, before + got, logs)
  {
    if got == [] {
      assert before + got == before;
    } else {
      StartOfStretch(logs, t.after, t.last, got);
      JoinStretches(logs, after, t.after, t.after + |got|);
    }
  }

  lemma ConnectionAdds(s: Sys, tid: nat, after: nat, before: seq<LogRow>, got: seq<LogRow>)
    requires Inv(s) && tid in s.threads && s.threads[tid].Reader? && s.threads[tid].after == after + |before|
    requires IsPrefix(got, s.threads[tid].emitted) && ReceivedInOrder(after, before, s.x.logs)
    ensures ReceivedInOrder(after, before + got, s.x.logs)
    ensures LastSeen(after, before + got) == after + |before + got|
  {
    assert ThreadOk(s.threads[tid], s.x, s.chunksAtEnd);
    OneMoreConnection(after, before, s.threads[tid], got, s.x.logs);
    LastSeenCounts(after, before + got, s.x.logs);
  }

  ghost predicate InOrderAt(b: Backend, maxBytes: int, actions: seq<Action>, after: nat, got: seq<LogRow>, n: nat)
    requires n <= |actions|
  {
    ReceivedInOrder(after, got, StateAt(b, maxBytes, actions, n).x.logs)
  }

  lemma InOrderLater(b: Backend, maxBytes: int, actions: seq<Action>, after: nat, got: seq<LogRow>, m: nat, n: nat)
    requires m <= n <= |actions| && InOrderAt(b, maxBytes, actions, after, got, m)
    ensures InOrderAt(b, maxBytes, actions, after, got, n)
  {
    LogsOfPrefixes(b, maxBytes, actions, m, n);
    StillInOrder(after, got, StateAt(b, maxBytes, actions, m).x.logs, StateAt(b, maxBytes, actions, n).x.logs);
  }

  lemma ReceivedSnoc(cs: seq<Connection>, n: nat)
    requires 0 < n <= |cs|
    ensures Received(cs[..n]) == Received(cs[..n - 1]) + cs[n - 1].got
  {
    assert cs[..n][..n - 1] == cs[..n - 1];
  }

  /** After any number of connections, what has arrived is the log after the start as far as it goes. */
  lemma {:induction false} ReceivedSoFar(b: Backend, maxBytes: int, actions: seq<Action>, after: nat, cs: seq<Connection>, n: nat)
    requires Reconnecting(b, maxBytes, actions, after, cs) && 0 < n <= |cs|
    ensures Reconnects(b, maxBytes, actions, after, cs, n - 1)
    ensures InOrderAt(b, maxBytes, actions, after, Received(cs[..n]), cs[n - 1].at)
    ensures LastSeen(after, Received(cs[..n])) == after + |Received(cs[..n])|
    decreases n
  {
    assert Reconnects(b, maxBytes, actions, after, cs, n - 1);
    var c, before := cs[n - 1], Received(cs[..n - 1]);
    LogsOfPrefixes(b, maxBytes, actions, c.at, c.at);
    if n > 1 {
      ReceivedSoFar(b, maxBytes, actions, after, cs, n - 1);
      InOrderLater(b, maxBytes, actions, after, before, cs[n - 2].at, c.at);
    }
    ConnectionAdds(StateAt(b, maxBytes, actions, c.at), c.tid, after, before, c.got);
    ReceivedSnoc(cs, n);
  }

  /** The stream of this connection had sent done, and all it sent has arrived. */
  ghost predicate FullyReceived(b: Backend, maxBytes: int, actions: seq<Action>, c: Connection) {
    && c.at <= |actions|
    && var s := StateAt(b, maxBytes, actions, c.at);
    && c.tid in s.threads && s.threads[c.tid].Reader? && s.threads[c.tid].dp == ReadDone
    && c.got == s.threads[c.tid].emitted
  }

  /** Each chunk exactly once: over any number of connections to a run, each started from the last number
      received, what has arrived is the log after the start, in order, without gap or repetition; and once the
      last stream has sent done and all it sent has arrived, nothing committed before the end is missing. */
  lemma ReconnectExactlyOnce(b: Backend, maxBytes: int, actions: seq<Action>, after: nat, cs: seq<Connection>)
    requires Reconnecting(b, maxBytes, actions, after, cs) && cs != []
    ensures var logs, got := Run(b, maxBytes, START, actions).x.logs, Received(cs);
            && (got != [] ==> after + |got| <= |logs| && got == logs[after..after + |got|])
            && (forall k :: 0 <= k < |got| ==> got[k].seqNo == after + k + 1)
    ensures FullyReceived(b, maxBytes, actions, cs[|cs| - 1]) ==>
              var u := Run(b, maxBytes, START, actions);
              && Ended(u.x) && u.chunksAtEnd.Some? && after + |Received(cs)| >= u.chunksAtEnd.value
              && (u.x.row.value.status != Cancelled ==> after + |Received(cs)| >= |u.x.logs|)
  {
    ArrivedInOrder(b, maxBytes, actions, after, cs);
    LogOfEveryRun(b, maxBytes, actions);
    NumbersInOrder(after, Received(cs), Run(b, maxBytes, START, actions).x.logs);
    if FullyReceived(b, maxBytes, actions, cs[|cs| - 1]) {
      NothingMissing(b, maxBytes, actions, after, cs);
    }
  }

  lemma ArrivedInOrder(b: Backend, maxBytes: int, actions: seq<Action>, after: nat, cs: seq<Connection>)
    requires Reconnecting(b, maxBytes, actions, after, cs) && cs != []
    ensures ReceivedInOrder(after, Received(cs), Run(b, maxBytes, START, actions).x.logs)
  {
    assert cs[..|cs|] == cs && actions[..|actions|] == actions;
    ReceivedSoFar(b, maxBytes, actions, after, cs, |cs|);
    InOrderLater(b, maxBytes, actions, after, Received(cs), cs[|cs| - 1].at, |actions|);
  }

  lemma NumbersInOrder(after: nat, got: seq<LogRow>, logs: seq<LogRow>)
    requires DenseLogs(logs) && ReceivedInOrder(after, got, logs)
    ensures forall k :: 0 <= k < |got| ==> got[k].seqNo == after + k + 1
  {
    forall k | 0 <= k < |got|
      ensures got[k].seqNo == after + k + 1
    {
      assert got[k] == logs[after + k];
    }
  }

  lemma NothingMissing(b: Backend, maxBytes: int, actions: seq<Action>, after: nat, cs: seq<Connection>)
    requires Reconnecting(b, maxBytes, actions, after, cs) && cs != []
    requires FullyReceived(b, maxBytes, actions, cs[|cs| - 1])
    ensures var u := Run(b, maxBytes, START, actions);
            && Ended(u.x) && u.chunksAtEnd.Some? && after + |Received(cs)| >= u.chunksAtEnd.value
            && (u.x.row.value.status != Cancelled ==> after + |Received(cs)| >= |u.x.logs|)
  {
    var n := |cs|;
    var c := cs[n - 1];
    ReceivedSnoc(cs, n);
    assert cs[..n] == cs && Reconnects(b, maxBytes, actions, after, cs, n - 1);
    if n > 1 {
      ReceivedSoFar(b, maxBytes, actions, after, cs, n - 1);
    }
    var s := StateAt(b, maxBytes, actions, c.at);
    LogsOfPrefixes(b, maxBytes, actions, c.at, c.at);
    StreamFacts(s, c.tid);
    DoneThenLater(b, maxBytes, actions, c.at);
  }

  /** Once the row has ended, the count taken then stays, and without a cancel the log does too. */
  lemma DoneThenLater(b: Backend, maxBytes: int, actions: seq<Action>, n: nat)
    requires n <= |actions| && StateAt(b, maxBytes, actions, n).chunksAtEnd.Some?
    ensures var s, u := StateAt(b, maxBytes, actions, n), Run(b, maxBytes, START, actions);
            && u.chunksAtEnd == s.chunksAtEnd && Ended(u.x)
            && (u.x.row.value.status != Cancelled ==> |u.x.logs| == s.chunksAtEnd.value)
  {
    var s := StateAt(b, maxBytes, actions, n);
    RunConcat(b, maxBytes, START, actions[..n], actions[n..]);
    assert actions[..n] + actions[n..] == actions;
    RunKeepsEndCount(b, maxBytes, s, actions[n..]);
    LogsOfPrefixes(b, maxBytes, actions, n, |actions|);
    assert actions[..|actions|] == actions;
  }

  /** The count taken at the end is taken once. */
  lemma {:induction false} RunKeepsEndCount(b: Backend, maxBytes: int, s: Sys, actions: seq<Action>)
    requires s.chunksAtEnd.Some?
    ensures Run(b, maxBytes, s, actions).chunksAtEnd == s.chunksAtEnd
    decreases actions
  {
    if actions != [] {
      RunKeepsEndCount(b, maxBytes, Next(b, maxBytes, s, actions[0]), actions[1..]);
    }
  }
}
