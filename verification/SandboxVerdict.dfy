/** What the row of one sandbox run holds in the end, told from what the provider yielded, what the polls of the
    cancel token found, and the clock. */
module SandboxVerdict {
  import opened Wrappers
  import opened SandboxTables
  import opened OutputAccumulator
  import opened SandboxExecutor
  import opened SandboxService
  import opened SqliteSandboxStore

  // ---------- the provider's run, item by item ----------

  /** r is the last result that the provider yielded. */
  ghost predicate LastResult(items: seq<ProviderItem>, r: ProviderResult) {
    exists i :: 0 <= i < |items| && ResultAt(items, i, r)
  }

  ghost predicate ResultAt(items: seq<ProviderItem>, i: nat, r: ProviderResult)
    requires i < |items|
  {
    items[i] == Final(r) && forall j :: i < j < |items| ==> items[j].Chunk?
  }

  ghost predicate NoResult(items: seq<ProviderItem>) { forall i :: 0 <= i < |items| ==> items[i].Chunk? }

  /** The texts of one stream, in order. */
  function Outputs(items: seq<ProviderItem>, stream: Stream): seq<string> {
    if items == [] then []
    else if items[0].Chunk? && items[0].stream == stream then [items[0].text] + Outputs(items[1..], stream)
    else Outputs(items[1..], stream)
  }

  // ---------- the loop over the items ----------

  /** What logging leaves alone. */
  predicate SameButLog(x: Exec, y: Exec) {
    && x.row.Some? && y.row.Some?
    && y.row.value == x.row.value.(stdout := y.row.value.stdout, stderr := y.row.value.stderr, lastLogSeq := y.row.value.lastLogSeq)
    && Lifecycle(y.events) == Lifecycle(x.events)
  }

  lemma LogKeepsRest(b: Backend, stream: Stream, text: string, x: Exec)
    requires TablesOk(x) && x.row.Some?
    ensures SameButLog(x, Apply(b, Log(stream, text), x))
  {
    var y := Apply(b, Log(stream, text), x);
    assert y.events[..|y.events| - 1] == x.events;
  }

  lemma FedSnoc(maxBytes: int, chunks: seq<string>, text: string)
    ensures Fed(maxBytes, chunks + [text]) == Append(Fed(maxBytes, chunks), text).0
  {
    assert (chunks + [text])[..|chunks|] == chunks;
  }

  /** One chunk: it is fed to its accumulator, and nothing else of the row changes. */
  lemma ChunkIsFed(b: Backend, maxBytes: int, stream: Stream, text: string, o: seq<string>, e: seq<string>, x: Exec)
    returns (x': Exec)
    requires TablesOk(x) && x.row.Some? && x.row.value.startedAt.Some?
    requires x.row.value.stdout == Fed(maxBytes, o).Text() && x.row.value.stderr == Fed(maxBytes, e).Text()
    ensures var acc := Fed(maxBytes, if stream == Stdout then o else e);
            x' == LogIfAny(b, stream, Append(acc, text).1, x)
    ensures TablesOk(x') && SameButLog(x, x')
    ensures x'.row.value.stdout == Fed(maxBytes, if stream == Stdout then o + [text] else o).Text()
    ensures x'.row.value.stderr == Fed(maxBytes, if stream == Stdout then e else e + [text]).Text()
  {
    var acc := Fed(maxBytes, if stream == Stdout then o else e);
    x' := LogIfAny(b, stream, Append(acc, text).1, x);
    ChunkLogged(b, stream, Fed(maxBytes, o), Fed(maxBytes, e), text, x);
    FedSnoc(maxBytes, if stream == Stdout then o else e, text);
    if Append(acc, text).1.Some? && Append(acc, text).1.value != "" {
      LogKeepsRest(b, stream, Append(acc, text).1.value, x);
    }
  }

  /** How far the loop has come. */
  ghost predicate Collected(maxBytes: int, x: Exec, o: seq<string>, e: seq<string>) {
    && TablesOk(x) && x.row.Some? && x.row.value.startedAt.Some?
    && x.row.value.stdout == Fed(maxBytes, o).Text() && x.row.value.stderr == Fed(maxBytes, e).Text()
  }

  ghost predicate LastOf(items: seq<ProviderItem>, final: Option<ProviderResult>, last: Option<ProviderResult>) {
    || (NoResult(items) && last == final)
    || (last.Some? && LastResult(items, last.value))
  }

  lemma LastOfRest(items: seq<ProviderItem>, final: Option<ProviderResult>, last: Option<ProviderResult>)
    requires items != [] && LastOf(items[1..], if items[0].Final? then Some(items[0].result) else final, last)
    ensures LastOf(items, final, last)
  {
    if NoResult(items[1..]) && last == (if items[0].Final? then Some(items[0].result) else final) {
      if items[0].Final? {
        assert ResultAt(items, 0, last.value);
      } else {
        assert forall i :: 0 < i < |items| ==> items[i] == items[1..][i - 1];
      }
    } else {
      var i :| 0 <= i < |items[1..]| && ResultAt(items[1..], i, last.value);
      assert ResultAt(items, i + 1, last.value);
    }
  }

  lemma OutputsAssociate(o: seq<string>, items: seq<ProviderItem>, stream: Stream)
    requires items != []
    ensures o + Outputs(items, stream) ==
              (if items[0].Chunk? && items[0].stream == stream then o + [items[0].text] else o) + Outputs(items[1..], stream)
  {
  }

  /** One round of the loop. */
  lemma OneItem(b: Backend, maxBytes: int, w: Solo, final: Option<ProviderResult>, o: seq<string>, e: seq<string>, x: Exec)
    returns (final1: Option<ProviderResult>, o1: seq<string>, e1: seq<string>, x1: Exec)
    requires Collected(maxBytes, x, o, e) && w.items != []
    ensures Collected(maxBytes, x1, o1, e1) && SameButLog(x, x1)
    ensures final1 == if w.items[0].Final? then Some(w.items[0].result) else final
    ensures o1 == if w.items[0].Chunk? && w.items[0].stream == Stdout then o + [w.items[0].text] else o
    ensures e1 == if w.items[0].Chunk? && w.items[0].stream == Stderr then e + [w.items[0].text] else e
    ensures RunSolo(b, maxBytes, Streaming(Fed(maxBytes, o), Fed(maxBytes, e), final), w, x)
         == RunSolo(b, maxBytes, Streaming(Fed(maxBytes, o1), Fed(maxBytes, e1), final1), w.(items := w.items[1..]), x1)
  {
    SoloStep(b, maxBytes, Streaming(Fed(maxBytes, o), Fed(maxBytes, e), final), w, x);
    final1, o1, e1, x1 := final, o, e, x;
    match w.items[0]
    case Chunk(stream, text) =>
      x1 := ChunkIsFed(b, maxBytes, stream, text, o, e, x);
      FedSnoc(maxBytes, if stream == Stdout then o else e, text);
      if stream == Stdout {
        o1 := o + [text];
      } else {
        e1 := e + [text];
      }
    case Final(r) =>
      final1 := Some(r);
  }

  lemma SameTwice(x: Exec, y: Exec, z: Exec)
    requires SameButLog(x, y) && SameButLog(y, z)
    ensures SameButLog(x, z)
  {
  }

  /** The loop: both streams are fed their texts in order, the last result is kept, and the row is otherwise as it was. */
  lemma {:induction false} LoopOverItems(b: Backend, maxBytes: int, w: Solo, final: Option<ProviderResult>,
                                        o: seq<string>, e: seq<string>, x: Exec)
    returns (last: Option<ProviderResult>, o': seq<string>, e': seq<string>, x': Exec)
    requires Collected(maxBytes, x, o, e)
    ensures Collected(maxBytes, x', o', e') && SameButLog(x, x') && LastOf(w.items, final, last)
    ensures o' == o + Outputs(w.items, Stdout) && e' == e + Outputs(w.items, Stderr)
    ensures RunSolo(b, maxBytes, Streaming(Fed(maxBytes, o), Fed(maxBytes, e), final), w, x)
         == RunSolo(b, maxBytes, Streaming(Fed(maxBytes, o'), Fed(maxBytes, e'), last), w.(items := []), x')
    decreases |w.items|
  {
    if w.items == [] {
      last, o', e', x' := final, o, e, x;
      assert o + [] == o && e + [] == e && w.(items := []) == w;
    } else {
      var final1, o1, e1, x1 := OneItem(b, maxBytes, w, final, o, e, x);
      last, o', e', x' := LoopOverItems(b, maxBytes, w.(items := w.items[1..]), final1, o1, e1, x1);
      LastOfRest(w.items, final, last);
      SameTwice(x, x1, x');
      OutputsAssociate(o, w.items, Stdout);
      OutputsAssociate(e, w.items, Stderr);
    }
  }

  /** A queued row that is not cancelled before its start comes to the loop, started and empty. */
  lemma ComesToLoop(b: Backend, maxBytes: int, w: Solo, x: Exec) returns (y: Exec)
    requires TablesOk(x) && x.row.Some? && x.row.value.status == Queued && !w.cancelBefore
    ensures Collected(maxBytes, y, [], [])
    ensures y.row.value == x.row.value.(status := Running, startedAt := Some(w.t0))
    ensures RunSolo(b, maxBytes, Entered, w, x)
         == RunSolo(b, maxBytes, Streaming(Fed(maxBytes, []), Fed(maxBytes, []), None), w, y)
  {
    y := Apply(b, Start(w.t0), x);
    ClaimOk(b, w.t0, x);
    SoloStep(b, maxBytes, Entered, w, x);
    SoloStep(b, maxBytes, Admitted, w, x);
    SoloStep(b, maxBytes, Claimed, w, y);
    assert Joined(x.logs, Stdout) == "" && Joined(x.logs, Stderr) == "";
  }

  // ---------- the marks, in the terms of their rows ----------

  /** The last lifecycle event of a timeline. */
  function LastLifecycle(events: seq<EventRow>): Option<EventKind> {
    var kinds := Lifecycle(events);
    if kinds == [] then None else Some(kinds[|kinds| - 1])
  }

  lemma EventIsLast(x: Exec, kind: EventKind, status: Status)
    requires IsLifecycle(kind)
    ensures LastLifecycle(WithEvent(x, kind, status).events) == Some(kind)
  {
    var y := WithEvent(x, kind, status);
    assert y.events[..|y.events| - 1] == x.events;
  }

  predicate Succeeded(r: ProviderResult) {
    !r.timedOut && (r.exitCode.None? || r.exitCode.value == 0) && r.errorDetail == ""
  }

  lemma SettledRow(b: Backend, now: int, out: string, err: string, r: ProviderResult, x: Exec) returns (row: Row, kind: EventKind)
    requires x.row.Some? && x.row.value.status == Running
    requires x.row.value.stdout == out && x.row.value.stderr == err
    ensures var y := Apply(b, SettleOp(now, out, err, r), x);
            y.row == Some(row) && LastLifecycle(y.events) == Some(kind)
    ensures row.finishedAt == Some(now) && row.startedAt == x.row.value.startedAt && row.stdout == out && row.stderr == err
    ensures r.cancelled ==>
              && row.status == Cancelled && kind == EvCancelled && row.exitCode == x.row.value.exitCode && !row.timedOut
              && row.errorDetail == Some(if r.errorDetail == "" then "Execution cancelled by request." else r.errorDetail)
    ensures !r.cancelled && Succeeded(r) ==>
              && row.status == Completed && kind == EvCompleted && row.exitCode == Some(0) && !row.timedOut
              && row.errorDetail == None
    ensures !r.cancelled && !Succeeded(r) ==>
              && row.status == Failed && kind == (if r.timedOut && b == Sqlite then EvTimedOut else EvFailed)
              && row.exitCode == r.exitCode && row.timedOut == r.timedOut
              && row.errorDetail == Some(if r.errorDetail == "" then "Execution failed." else r.errorDetail)
  {
    var op := SettleOp(now, out, err, r);
    row, kind := Updated(op, x.row.value), MarkKind(b, op);
    EventIsLast(x.(row := Some(row)), kind, Target(op));
  }

  // ---------- the verdict ----------

  /** A run whose provider ends normally with r as its last result: it is cancelled if r says so, completed if r
      reports no timeout, no error and no exit code but zero, and failed otherwise; and its row holds r's exit
      code, timeout and error, and what the budget keeps of each stream's texts with r's own at the end. */
  lemma VerdictOfResult(b: Backend, maxBytes: int, w: Solo, x: Exec, r: ProviderResult) returns (row: Row, kind: EventKind)
    requires TablesOk(x) && x.row.Some? && x.row.value.status == Queued
    requires !w.cancelBefore && !w.raises && LastResult(w.items, r)
    ensures var y := RunSolo(b, maxBytes, Entered, w, x);
            y.row == Some(row) && LastLifecycle(y.events) == Some(kind)
    ensures row.status == Cancelled <==> r.cancelled
    ensures row.status == Completed <==>
              !r.cancelled && !r.timedOut && (r.exitCode.None? || r.exitCode == Some(0)) && r.errorDetail == ""
    ensures row.status == Failed <==>
              !r.cancelled && (r.timedOut || (r.exitCode.Some? && r.exitCode != Some(0)) || r.errorDetail != "")
    ensures row.startedAt == Some(w.t0) && row.finishedAt == Some(w.t1)
    ensures row.status == Completed ==>
              kind == EvCompleted && row.exitCode == Some(0) && !row.timedOut && row.errorDetail == None
    ensures row.status == Failed ==>
              && kind == (if r.timedOut && b == Sqlite then EvTimedOut else EvFailed)
              && row.exitCode == r.exitCode && row.timedOut == r.timedOut
              && row.errorDetail == Some(if r.errorDetail == "" then "Execution failed." else r.errorDetail)
    ensures row.status == Cancelled ==>
              && kind == EvCancelled && row.exitCode == x.row.value.exitCode && !row.timedOut
              && row.errorDetail == Some(if r.errorDetail == "" then "Execution cancelled by request." else r.errorDetail)
    ensures row.stdout == Fed(maxBytes, Outputs(w.items, Stdout) + [r.stdout]).Text()
    ensures row.stderr == Fed(maxBytes, Outputs(w.items, Stderr) + [r.stderr]).Text()
  {
    var o, e, z := EndOfLoop(b, maxBytes, w, x, r);
    var w0 := w.(items := []);
    SoloSettles(b, maxBytes, Fed(maxBytes, o), Fed(maxBytes, e), r, w0, z);
    var z1 := ChunkIsFed(b, maxBytes, Stdout, r.stdout, o, e, z);
    var z2 := ChunkIsFed(b, maxBytes, Stderr, r.stderr, o + [r.stdout], e, z1);
    FedSnoc(maxBytes, o, r.stdout);
    FedSnoc(maxBytes, e, r.stderr);
    row, kind := SettledRow(b, w.t1, z2.row.value.stdout, z2.row.value.stderr, r, z2);
  }

  lemma EndOfLoop(b: Backend, maxBytes: int, w: Solo, x: Exec, r: ProviderResult) returns (o: seq<string>, e: seq<string>, z: Exec)
    requires TablesOk(x) && x.row.Some? && x.row.value.status == Queued && !w.cancelBefore && LastResult(w.items, r)
    ensures o == Outputs(w.items, Stdout) && e == Outputs(w.items, Stderr) && Collected(maxBytes, z, o, e)
    ensures z.row.value.status == Running && z.row.value.startedAt == Some(w.t0) && z.row.value.exitCode == x.row.value.exitCode
    ensures RunSolo(b, maxBytes, Entered, w, x)
         == RunSolo(b, maxBytes, Streaming(Fed(maxBytes, o), Fed(maxBytes, e), Some(r)), w.(items := []), z)
  {
    var y := ComesToLoop(b, maxBytes, w, x);
    var last;
    last, o, e, z := LoopOverItems(b, maxBytes, w, None, [], [], y);
    LastIsUnique(w.items, last, r);
    assert [] + Outputs(w.items, Stdout) == Outputs(w.items, Stdout) && [] + Outputs(w.items, Stderr) == Outputs(w.items, Stderr);
  }

  lemma LastIsUnique(items: seq<ProviderItem>, last: Option<ProviderResult>, r: ProviderResult)
    requires LastOf(items, None, last) && LastResult(items, r)
    ensures last == Some(r)
  {
    var i :| 0 <= i < |items| && ResultAt(items, i, r);
    assert !NoResult(items);
    var j :| 0 <= j < |items| && ResultAt(items, j, last.value);
    assert i == j;
  }

  /** A run whose provider raises, or ends without a result: cancelled if the poll finds that requested, and
      otherwise failed with its own words, without exit code or timeout, and with what was streamed. */
  lemma VerdictWithoutResult(b: Backend, maxBytes: int, w: Solo, x: Exec) returns (row: Row, kind: EventKind)
    requires TablesOk(x) && x.row.Some? && x.row.value.status == Queued && !w.cancelBefore
    requires w.raises || NoResult(w.items)
    ensures var y := RunSolo(b, maxBytes, Entered, w, x);
            y.row == Some(row) && LastLifecycle(y.events) == Some(kind)
    ensures row.startedAt == Some(w.t0) && row.finishedAt == Some(w.t1) && !row.timedOut
    ensures row.stdout == Fed(maxBytes, Outputs(w.items, Stdout)).Text()
    ensures row.stderr == Fed(maxBytes, Outputs(w.items, Stderr)).Text()
    ensures if w.cancelAfter then
              && row.status == Cancelled && kind == EvCancelled && row.exitCode == x.row.value.exitCode
              && row.errorDetail == Some("Execution cancelled by request.")
            else
              && row.status == Failed && kind == EvFailed && row.exitCode == None
              && row.errorDetail == Some(if w.raises then "Sandbox runtime failed before completion."
                                         else "Sandbox provider returned no terminal result.")
  {
    var y := ComesToLoop(b, maxBytes, w, x);
    var last, o, e, z := LoopOverItems(b, maxBytes, w, None, [], [], y);
    assert [] + Outputs(w.items, Stdout) == Outputs(w.items, Stdout) && [] + Outputs(w.items, Stderr) == Outputs(w.items, Stderr);
    if !w.raises {
      NoneIsLast(w.items, last);
    }
    SoloBreaks(b, maxBytes, Fed(maxBytes, o), Fed(maxBytes, e), last, w.(items := []), z);
    var op := if w.cancelAfter then Cancel(w.t1, CANCELLED_BY_REQUEST)
              else Fail(w.t1, z.row.value.stdout, z.row.value.stderr, false, if w.raises then RUNTIME_FAILED else NO_RESULT, None);
    row, kind := Updated(op, z.row.value), MarkKind(b, op);
    EventIsLast(z.(row := Some(row)), kind, Target(op));
  }

  lemma NoneIsLast(items: seq<ProviderItem>, last: Option<ProviderResult>)
    requires LastOf(items, None, last) && NoResult(items)
    ensures last == None
  {
  }

  /** A run that is cancelled before its start is never started; one that is not queued is left alone. */
  lemma VerdictWithoutStart(b: Backend, maxBytes: int, w: Solo, x: Exec)
    requires TablesOk(x) && x.row.Some?
    ensures var y := RunSolo(b, maxBytes, Entered, w, x);
            && (w.cancelBefore && (x.row.value.status == Queued || x.row.value.status == Running) ==>
                  && y.row == Some(x.row.value.(status := Cancelled, finishedAt := Some(w.t0), timedOut := false,
                                                errorDetail := Some("Execution cancelled before start.")))
                  && y.logs == x.logs && LastLifecycle(y.events) == Some(EvCancelled))
            && (x.row.value.status != Queued && (x.row.value.status != Running || !w.cancelBefore) ==> y == x)
  {
    SoloStep(b, maxBytes, Entered, w, x);
    if !Terminal(x.row.value.status) {
      SoloStep(b, maxBytes, Admitted, w, x);
      if w.cancelBefore {
        var op := Cancel(w.t0, CANCELLED_BEFORE_START);
        EventIsLast(x.(row := Some(Updated(op, x.row.value))), EvCancelled, Cancelled);
      }
    }
  }

  // ---------- the reaper's verdict ----------

  /** Reaping a running row fails it: with a timeout exactly when the time since its start has reached its limit. */
  lemma VerdictOfReaper(b: Backend, now: int, x: Exec) returns (row: Row, kind: EventKind)
    requires TablesOk(x) && x.row.Some? && x.row.value.status == Running
    ensures var y := Reaped(b, now, x);
            y.row == Some(row) && LastLifecycle(y.events) == Some(kind) && y.logs == x.logs && |y.events| == |x.events| + 2
            && y.events[|x.events|].kind == EvRecovered
    ensures row.timedOut <==> now >= x.row.value.startedAt.value + x.row.value.timeoutSec * 1_000_000
    ensures row == x.row.value.(status := Failed, finishedAt := Some(now), timedOut := row.timedOut,
                                errorDetail := Some(if row.timedOut then "Execution timed out before recovery completed."
                                                    else "Execution interrupted by runtime restart before completion."))
    ensures kind == if row.timedOut && b == Sqlite then EvTimedOut else EvFailed
  {
    var noted := WithEvent(x, EvRecovered, Running);
    var op := ReapOp(now, x.row.value);
    row, kind := Updated(op, x.row.value), MarkKind(b, op);
    EventIsLast(noted.(row := Some(row)), kind, Failed);
  }

  // ---------- a denial ----------

  /** Only a queued execution is denied; then its row says when and why, and the timeline ends with the denial. */
  lemma DenialExactly(b: Backend, now: int, detail: string, x: Exec)
    requires TablesOk(x)
    ensures var y := Apply(b, Deny(now, detail), x);
            if x.row.Some? && x.row.value.status == Queued then
              && y.row == Some(x.row.value.(status := Denied, finishedAt := Some(now), timedOut := false, errorDetail := Some(detail)))
              && y.logs == x.logs && LastLifecycle(y.events) == Some(EvDenied) && |y.events| == |x.events| + 1
            else y == x
  {
    if x.row.Some? && x.row.value.status == Queued {
      EventIsLast(x.(row := Some(Updated(Deny(now, detail), x.row.value))), EvDenied, Denied);
    }
  }

  // ---------- the verdict after a restart ----------

  /** After a restart a queued execution ends as its own provider's run says: no cancel token is polled. */
  lemma VerdictOfRestart(b: Backend, provider: ExecutionId -> ProviderRun, maxBytes: int, now: int, t0: int, t1: int,
                         id: ExecutionId, x: Exec)
    returns (row: Row)
    requires TablesOk(x) && x.row.Some? && x.row.value.status == Queued
    ensures Restarted(b, provider, maxBytes, now, t0, t1, id, x).row == Some(row)
    ensures row.startedAt == Some(t0) && row.finishedAt == Some(t1)
    ensures provider(id).raises || NoResult(provider(id).items) ==>
              && row.status == Failed
              && row.errorDetail == Some(if provider(id).raises then "Sandbox runtime failed before completion."
                                         else "Sandbox provider returned no terminal result.")
    ensures forall r :: !provider(id).raises && LastResult(provider(id).items, r) ==>
              && (row.status == Cancelled <==> r.cancelled)
              && (row.status == Completed <==>
                    !r.cancelled && !r.timedOut && (r.exitCode.None? || r.exitCode == Some(0)) && r.errorDetail == "")
  {
    var w := Solo(provider(id).items, provider(id).raises, false, false, t0, t1);
    var kind;
    if w.raises || NoResult(w.items) {
      row, kind := VerdictWithoutResult(b, maxBytes, w, x);
    } else {
      var r := SomeResult(w.items);
      row, kind := VerdictOfResult(b, maxBytes, w, x, r);
      forall q | LastResult(w.items, q)
        ensures q == r
      {
        LastIsUnique(w.items, Some(q), r);
      }
    }
  }

  lemma {:induction false} SomeResult(items: seq<ProviderItem>) returns (r: ProviderResult)
    requires !NoResult(items)
    ensures LastResult(items, r)
  {
    var n := |items| - 1;
    if items[n].Final? {
      r := items[n].result;
      assert ResultAt(items, n, r);
    } else {
      var front := items[..n];
      assert NoResult(front) ==> NoResult(items) by {
        if NoResult(front) {
          assert forall i :: 0 <= i < n ==> items[i] == front[i];
        }
      }
      r := SomeResult(front);
      var i :| 0 <= i < |front| && ResultAt(front, i, r);
      assert forall j :: 0 <= j < n ==> front[j] == items[j];
      assert ResultAt(items, i, r);
    }
  }
}
