/** Executors, cancellers, reapers and log readers interleaved on one execution id.

    Every action is at most one committed transaction or one read. Threads may appear, stop at any
    step, or all die at once when the host crashes; the tables stay. Other execution ids are not
    touched, as the contracts of `SqliteSandboxStore` state. */
module SandboxProtocol {
  import opened Wrappers
  import opened SandboxTables
  import opened SandboxExecutor
  import opened SandboxService

  // ---------- threads ----------

  datatype CancelPc = CancelEntered | CancelSawQueued | CancelSawRunning | CancelGone

  datatype ReapPc = ReapListed | ReapRead(record: Row) | ReapAnnounced(record: Row) | ReapGone

  datatype ReadPc = ReadTop | ReadSaw(status: Status) | ReadDone

  datatype Thread =
    | Executor(pc: Pc)
    | Canceller(cp: CancelPc)
    | Reaper(rp: ReapPc)
    | Reader(after: nat, last: nat, emitted: seq<LogRow>, statuses: seq<Status>, dp: ReadPc)

  /** A log stream asked to start after `afterSequence`. */
  function NewReader(afterSequence: int): Thread {
    var from := if afterSequence < 0 then 0 else afterSequence;
    Reader(from, from, [], [], ReadTop)
  }

  predicate IsNew(t: Thread) {
    match t
    case Executor(pc) => pc == Entered
    case Canceller(cp) => cp == CancelEntered
    case Reaper(rp) => rp == ReapListed
    case Reader(after, last, _, _, _) => t == NewReader(after)
  }

  predicate IsOwner(t: Thread) { t.Executor? && Owns(t.pc) }

  /** The greatest sequence number seen. */
  function Last(last: nat, rows: seq<LogRow>): nat
    decreases rows
  {
    if rows == [] then last
    else Last(if rows[0].seqNo > last then rows[0].seqNo else last, rows[1..])
  }

  // ---------- the system ----------

  /** `providerRuns` counts calls of the provider; `chunksAtEnd` remembers how many chunks were
      committed when the row became terminal. Neither influences a step. */
  datatype Sys = Sys(x: Exec, threads: map<nat, Thread>, providerRuns: nat, chunksAtEnd: Option<nat>)

  datatype Action =
    | CreateIt(timeoutSec: int)
    | Spawn(tid: nat, thread: Thread)
    | Advance(tid: nat, env: Env)
    | Leave(tid: nat)
    | Crash
    | Annotate(kind: EventKind, status: Status)
    | DenyIt(now: int, detail: string)

  const START := Sys(NOTHING, map[], 0, None)

  /** The reaper is only let loose on a run that no executor of this host owns: it is a startup job,
      and every executor of the previous host is gone. */
  predicate Enabled(s: Sys, a: Action) {
    match a
    case CreateIt(_) => true
    case Spawn(tid, t) =>
      && tid !in s.threads && IsNew(t) && s.x.row.Some?
      && (t.Reaper? ==> s.x.row.value.status == Running && forall u :: u in s.threads ==> !IsOwner(s.threads[u]))
    case Advance(tid, _) => tid in s.threads
    case Leave(_) => true
    case Crash => true
    case Annotate(kind, _) => IsNote(kind) && s.x.row.Some?
    case DenyIt(_, _) => true
  }

  function ThreadStep(b: Backend, maxBytes: int, t: Thread, env: Env, x: Exec): (Thread, Exec)
    requires x.row.Some?
  {
    match t
    case Executor(pc) =>
      var (pc', x') := ExecStep(b, maxBytes, pc, env, x);
      (Executor(pc'), x')
    case Canceller(cp) =>
      var (cp', x') := CancellerStep(b, cp, env, x);
      (Canceller(cp'), x')
    case Reaper(rp) =>
      var (rp', x') := ReaperStep(b, rp, env, x);
      (Reaper(rp'), x')
    case Reader(_, _, _, _, _) => (ReaderStep(t, x), x)
  }

  /** The cancel endpoint: look at the status, then cancel a queued run or ask a running one to stop. */
  function CancellerStep(b: Backend, cp: CancelPc, env: Env, x: Exec): (CancelPc, Exec)
    requires x.row.Some?
  {
    match cp
    case CancelEntered =>
      var saw := x.row.value.status;
      (if saw == Queued then CancelSawQueued else if saw == Running then CancelSawRunning else CancelGone, x)
    case CancelSawQueued => (CancelGone, Apply(b, Cancel(env.now, CANCELLED_BEFORE_START), x))
    case CancelSawRunning => (CancelGone, Apply(b, Note(EvCancelRequested, Running), x))
    case CancelGone => (cp, x)
  }

  /** The reaper, for an id that it found in the list of running executions. */
  function ReaperStep(b: Backend, rp: ReapPc, env: Env, x: Exec): (ReapPc, Exec)
    requires x.row.Some?
  {
    match rp
    case ReapListed => (ReapRead(x.row.value), x)
    case ReapRead(r) => (ReapAnnounced(r), Apply(b, Note(EvRecovered, Running), x))
    case ReapAnnounced(r) => (ReapGone, Apply(b, ReapOp(env.now, r), x))
    case ReapGone => (rp, x)
  }

  /** One half of a round of the log stream: look at the row, then list and send the new chunks. */
  function ReaderStep(t: Thread, x: Exec): Thread
    requires t.Reader? && x.row.Some?
  {
    match t.dp
    case ReadTop =>
      var st := x.row.value.status;
      var changed := t.statuses == [] || t.statuses[|t.statuses| - 1] != st;
      t.(statuses := if changed then t.statuses + [st] else t.statuses, dp := ReadSaw(st))
    case ReadSaw(st) =>
      var chunks := ListLogChunks(x.logs, t.last);
      t.(emitted := t.emitted + chunks, last := Last(t.last, chunks), dp := if Terminal(st) then ReadDone else ReadTop)
    case ReadDone => t
  }

  predicate Ended(x: Exec) { x.row.Some? && Terminal(x.row.value.status) }

  /** New tables, with the count of chunks taken when the row ends. */
  function WithTables(s: Sys, x: Exec): Sys {
    s.(x := x, chunksAtEnd := if s.chunksAtEnd.None? && Ended(x) then Some(|x.logs|) else s.chunksAtEnd)
  }

  function Next(b: Backend, maxBytes: int, s: Sys, a: Action): Sys {
    if !Enabled(s, a) then s
    else match a
      case CreateIt(timeoutSec) => WithTables(s, Apply(b, Create(timeoutSec), s.x))
      case Spawn(tid, t) => s.(threads := s.threads[tid := t])
      case Advance(tid, env) =>
        if s.x.row.None? then s
        else
          var t := s.threads[tid];
          var (t', x') := ThreadStep(b, maxBytes, t, env, s.x);
          WithTables(s, x').(threads := s.threads[tid := t'],
                             providerRuns := s.providerRuns + (if t == Executor(Claimed) then 1 else 0))
      case Leave(tid) => s.(threads := s.threads - {tid})
      case Crash => s.(threads := map[])
      case Annotate(kind, status) => WithTables(s, Apply(b, Note(kind, status), s.x))
      case DenyIt(now, detail) => WithTables(s, Apply(b, Deny(now, detail), s.x))
  }

  function Run(b: Backend, maxBytes: int, s: Sys, actions: seq<Action>): Sys
    decreases actions
  {
    if actions == [] then s else Run(b, maxBytes, Next(b, maxBytes, s, actions[0]), actions[1..])
  }

  // ---------- the invariant ----------

  ghost predicate ReaperOk(rp: ReapPc, x: Exec) {
    rp == ReapGone
    || (&& x.row.Some? && x.row.value.startedAt.Some?
        && (rp.ReapRead? || rp.ReapAnnounced? ==>
              rp.record.stdout == x.row.value.stdout && rp.record.stderr == x.row.value.stderr))
  }

  /** The status frames sent so far: each further along than the one before, none ahead of the row. */
  ghost predicate StatusesOk(statuses: seq<Status>, now: Status) {
    && (forall i, j :: 0 <= i < j < |statuses| ==> Rank(statuses[i]) < Rank(statuses[j]))
    && (statuses != [] ==>
          var st := statuses[|statuses| - 1]; st == now || Rank(st) < Rank(now))
  }

  ghost predicate ReaderOk(t: Thread, x: Exec, end: Option<nat>)
    requires t.Reader?
  {
    && x.row.Some?
    && SentOk(t.after, t.last, t.emitted, x.logs)
    && StatusesOk(t.statuses, x.row.value.status)
    && (t.dp.ReadSaw? ==> t.statuses != [] && t.dp.status == t.statuses[|t.statuses| - 1])
    && (t.dp.ReadDone? ==> end.Some? && t.last >= end.value && t.statuses != [] && Terminal(t.statuses[|t.statuses| - 1]))
  }

  ghost predicate ThreadOk(t: Thread, x: Exec, end: Option<nat>) {
    match t
    case Executor(pc) => PcOk(pc, x)
    case Canceller(_) => true
    case Reaper(rp) => ReaperOk(rp, x)
    case Reader(_, _, _, _, _) => ReaderOk(t, x, end)
  }

  predicate Reaps(t: Thread) { t.Reaper? && t.rp != ReapGone }

  /** An owner shares the execution with no other owner and no reaper. */
  ghost predicate Exclusive(threads: map<nat, Thread>) {
    forall t, u :: t in threads && u in threads && IsOwner(threads[t]) && (IsOwner(threads[u]) || Reaps(threads[u])) ==> t == u
  }

  /** After the end only an executor whose run was cancelled under it can still be alive or have logged. */
  ghost predicate EndOk(s: Sys) {
    && (s.chunksAtEnd.Some? <==> Ended(s.x))
    && (s.chunksAtEnd.Some? ==> s.chunksAtEnd.value <= |s.x.logs|)
    && (Ended(s.x) && s.x.row.value.status != Cancelled ==>
          |s.x.logs| == s.chunksAtEnd.value && forall t :: t in s.threads ==> !IsOwner(s.threads[t]))
  }

  ghost predicate RunsOk(s: Sys) {
    && s.providerRuns <= 1
    && (s.x.row.None? || s.x.row.value.startedAt.None? ==> s.providerRuns == 0)
    && (forall t :: t in s.threads && s.threads[t] == Executor(Claimed) ==> s.providerRuns == 0)
  }

  ghost predicate Inv(s: Sys) {
    && TablesOk(s.x)
    && EndOk(s)
    && RunsOk(s)
    && Exclusive(s.threads)
    && (forall t :: t in s.threads ==> ThreadOk(s.threads[t], s.x, s.chunksAtEnd))
    && (s.x.row.None? ==> s.threads == map[])
  }

  // ---------- what one thread's step does to the tables ----------

  /** Nothing is logged and the stream columns stay. */
  ghost predicate Quiet(x: Exec, y: Exec) {
    && y.logs == x.logs
    && (x.row.Some? ==> y.row.Some? && y.row.value.stdout == x.row.value.stdout && y.row.value.stderr == x.row.value.stderr)
  }

  lemma ThreadStepTables(b: Backend, maxBytes: int, t: Thread, env: Env, x: Exec, end: Option<nat>)
    requires TablesOk(x) && ThreadOk(t, x, end) && x.row.Some?
    ensures var (t', x') := ThreadStep(b, maxBytes, t, env, x);
            && TablesOk(x') && Grows(x, x')
            && (!IsOwner(t) ==> Quiet(x, x'))
  {
    match t
    case Executor(pc) =>
      ExecStepOk(b, maxBytes, pc, env, x);
      if !Owns(pc) {
        OnlyOwnersLog(b, maxBytes, pc, env, x);
      }
    case Canceller(cp) =>
      CancellerStepTables(b, cp, env, x);
    case Reaper(rp) =>
      ReaperStepTables(b, rp, env, x);
    case Reader(_, _, _, _, _) =>
      GrowsReflexive(x);
  }

  lemma OnlyOwnersLog(b: Backend, maxBytes: int, pc: Pc, env: Env, x: Exec)
    requires x.row.Some? && !Owns(pc)
    ensures Quiet(x, ExecStep(b, maxBytes, pc, env, x).1)
  {
  }

  lemma CancellerStepTables(b: Backend, cp: CancelPc, env: Env, x: Exec)
    requires TablesOk(x) && x.row.Some?
    ensures var x' := CancellerStep(b, cp, env, x).1;
            TablesOk(x') && Grows(x, x') && Quiet(x, x')
  {
    match cp
    case CancelSawQueued =>
      MarkOk(b, Cancel(env.now, CANCELLED_BEFORE_START), x);
    case CancelSawRunning =>
      NoteKeepsTables(b, EvCancelRequested, Running, x);
      ApplyGrows(b, Note(EvCancelRequested, Running), x);
    case _ =>
      GrowsReflexive(x);
  }

  lemma ReaperStepTables(b: Backend, rp: ReapPc, env: Env, x: Exec)
    requires TablesOk(x) && ReaperOk(rp, x) && x.row.Some?
    ensures var x' := ReaperStep(b, rp, env, x).1;
            TablesOk(x') && Grows(x, x') && Quiet(x, x')
  {
    match rp
    case ReapRead(r) =>
      NoteKeepsTables(b, EvRecovered, Running, x);
      ApplyGrows(b, Note(EvRecovered, Running), x);
    case ReapAnnounced(r) =>
      MarkOk(b, ReapOp(env.now, r), x);
    case _ =>
      GrowsReflexive(x);
  }

  /** The thread that moves still knows where it is. */
  lemma ThreadStepSelf(b: Backend, maxBytes: int, t: Thread, env: Env, s: Sys)
    requires TablesOk(s.x) && EndOk(s) && ThreadOk(t, s.x, s.chunksAtEnd) && s.x.row.Some?
    requires t.Reaper? ==> s.x.row.value.startedAt.Some?
    ensures var (t', x') := ThreadStep(b, maxBytes, t, env, s.x);
            ThreadOk(t', x', WithTables(s, x').chunksAtEnd)
  {
    match t
    case Executor(pc) => ExecStepOk(b, maxBytes, pc, env, s.x);
    case Canceller(_) =>
    case Reaper(_) =>
    case Reader(_, _, _, _, _) => ReaderStepOk(t, s);
  }

  lemma ReaderStepOk(t: Thread, s: Sys)
    requires TablesOk(s.x) && EndOk(s) && t.Reader? && ReaderOk(t, s.x, s.chunksAtEnd)
    ensures ReaderOk(ReaderStep(t, s.x), s.x, s.chunksAtEnd)
  {
    match t.dp
    case ReadTop => ReaderLooks(t, s.x, s.chunksAtEnd);
    case ReadSaw(st) => ReaderLists(t, s.x);
    case ReadDone =>
  }

  lemma ReaderLooks(t: Thread, x: Exec, end: Option<nat>)
    requires t.Reader? && ReaderOk(t, x, end) && t.dp == ReadTop
    ensures ReaderOk(ReaderStep(t, x), x, end)
  {
  }

  /** What a reader has sent is the stretch of the log between its start and the last number it saw. */
  ghost predicate SentOk(after: nat, last: nat, emitted: seq<LogRow>, logs: seq<LogRow>) {
    (last == after && emitted == []) || (after <= last <= |logs| && emitted == logs[after..last])
  }

  /** Listing the chunks after the last one sent extends what was sent to the whole log. */
  lemma ReaderLists(t: Thread, x: Exec)
    requires DenseLogs(x.logs) && t.Reader? && SentOk(t.after, t.last, t.emitted, x.logs)
    ensures var chunks := ListLogChunks(x.logs, t.last); var last := Last(t.last, chunks);
            SentOk(t.after, last, t.emitted + chunks, x.logs) && last >= |x.logs|
  {
    ListDense(x.logs, t.last);
    if t.last <= |x.logs| {
      LastDense(x.logs, t.last);
      SliceExtends(x.logs, t.after, t.last);
    } else {
      assert t.emitted + [] == t.emitted;
    }
  }

  lemma SliceExtends(logs: seq<LogRow>, a: nat, b: nat)
    requires b <= |logs|
    ensures a <= b ==> logs[a..b] + logs[b..] == logs[a..|logs|]
    ensures [] + logs[b..] == logs[b..|logs|]
  {
  }

  lemma {:induction false} LastDense(logs: seq<LogRow>, from: nat)
    requires DenseLogs(logs) && from <= |logs|
    ensures Last(from, logs[from..]) == |logs|
    decreases |logs| - from
  {
    if from < |logs| {
      assert logs[from..][1..] == logs[from + 1..];
      LastDense(logs, from + 1);
    }
  }

  /** A thread that did not move still knows where it is, if the tables grew quietly or it neither owns nor reaps. */
  lemma OtherThreadOk(t: Thread, x: Exec, y: Exec, end: Option<nat>, end': Option<nat>)
    requires ThreadOk(t, x, end) && TablesOk(x) && TablesOk(y) && Grows(x, y)
    requires Quiet(x, y) || !(IsOwner(t) || Reaps(t))
    requires end.Some? ==> end' == end
    ensures ThreadOk(t, y, end')
  {
    match t
    case Reader(after, last, emitted, statuses, _) =>
      if last <= |x.logs| && after <= last {
        assert y.logs[after..last] == y.logs[..|x.logs|][after..last];
      }
    case _ =>
  }
}
