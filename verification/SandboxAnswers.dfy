/** What the callers of the sandbox endpoints are told, told from the rows and from the provider's run. */
module SandboxAnswers {
  import opened Wrappers
  import opened SandboxTables
  import opened SandboxExecutor
  import opened SandboxProtocol
  import opened SandboxEndpoints
  import opened SandboxVerdict
  import opened SqliteSandboxStore
  import opened SandboxSupervisor

  /** The wait shows the first row read that is no longer running. */
  lemma {:induction false} WaitExactly(polls: seq<Option<Row>>) returns (n: nat)
    ensures n <= |polls| && forall i :: 0 <= i < n ==> polls[i].Some? && polls[i].value.status == Running
    ensures if n == |polls| then Settled(polls) == Conflict
            else if polls[n].None? then Settled(polls) == Disappeared
            else polls[n].value.status != Running && Settled(polls) == Shown(polls[n].value)
  {
    n := 0;
    if polls != [] && polls[0].Some? && polls[0].value.status == Running {
      n := WaitExactly(polls[1..]);
      n := n + 1;
      assert forall i :: 0 < i < |polls| ==> polls[i] == polls[1..][i - 1];
    }
  }

  /** A cancel shows a queued execution as the store then holds it: cancelled now, before its start. A running one
      is left as it is, but for a request on its timeline; of any other it says that it cannot be cancelled. */
  lemma CancelExactly(now: Env, x: Exec, polls: seq<Option<Row>>) returns (answer: Answer, y: Exec)
    requires TablesOk(x)
    ensures answer == CancelAnswer(now, x, polls) && y == CancelledAlone(now, x) && y.logs == x.logs
    ensures x.row.None? ==> answer == NoSuchExecution && y == x
    ensures x.row.Some? && x.row.value.status == Queued ==>
              && answer.Shown? && y.row == Some(answer.row)
              && answer.row == x.row.value.(status := Cancelled, finishedAt := Some(now.now), timedOut := false,
                                            errorDetail := Some("Execution cancelled before start."))
              && LastLifecycle(y.events) == Some(EvCancelled)
    ensures x.row.Some? && x.row.value.status == Running ==>
              && y.row == x.row && |y.events| == |x.events| + 1 && y.events[|x.events|].kind == EvCancelRequested
              && y.events[..|x.events|] == x.events && answer == Settled(polls)
    ensures x.row.Some? && Terminal(x.row.value.status) ==> answer == Conflict && y == x
  {
    answer, y := CancelAnswer(now, x, polls), CancelledAlone(now, x);
    if x.row.Some? {
      CancelCases(now, x);
      if x.row.value.status == Queued {
        var op := Cancel(now.now, CANCELLED_BEFORE_START);
        EventIsLast(x.(row := Some(Updated(op, x.row.value))), EvCancelled, Cancelled);
      }
    }
  }

  /** A new execution that is run at once is shown as its provider's run says, unless the provider raised. */
  lemma InlineAnswer(maxBytes: int, timeoutSec: int, w: Solo) returns (answer: Answer, row: Row)
    ensures Begun(maxBytes, Inline(w), Submitted(timeoutSec)).row == Some(row)
    ensures answer == BegunAnswer(maxBytes, Inline(w), Submitted(timeoutSec))
    ensures answer == ProviderFailed <==> w.raises && !w.cancelBefore
    ensures answer != ProviderFailed ==> answer == Shown(row)
    ensures w.cancelBefore ==> row.status == Cancelled && row.startedAt == None
    ensures answer == ProviderFailed && !w.cancelAfter ==>
              row.status == Failed && row.errorDetail == Some("Sandbox runtime failed before completion.")
    ensures forall r :: !w.cancelBefore && !w.raises && LastResult(w.items, r) ==>
              && (row.status == Cancelled <==> r.cancelled)
              && (row.status == Completed <==>
                    !r.cancelled && !r.timedOut && (r.exitCode.None? || r.exitCode == Some(0)) && r.errorDetail == "")
  {
    var x := Submitted(timeoutSec);
    SubmittedOk(timeoutSec);
    BegunEnds(maxBytes, Inline(w), x);
    answer := BegunAnswer(maxBytes, Inline(w), x);
    row := Begun(maxBytes, Inline(w), x).row.value;
    if w.cancelBefore {
      VerdictWithoutStart(Sqlite, maxBytes, w, x);
    } else if w.raises || NoResult(w.items) {
      var q, kind := VerdictWithoutResult(Sqlite, maxBytes, w, x);
    } else {
      var r := SomeResult(w.items);
      var q, kind := VerdictOfResult(Sqlite, maxBytes, w, x, r);
      forall p | LastResult(w.items, p)
        ensures p == r
      {
        LastIsUnique(w.items, Some(p), r);
      }
    }
  }

  /** A new execution is queued, with its timeout and nothing else, and its timeline begins. */
  lemma SubmittedExactly(maxBytes: int, timeoutSec: int)
    ensures var x := Apply(Sqlite, Create(timeoutSec), NOTHING);
            && Begun(maxBytes, Dispatched, Submitted(timeoutSec)) == x && x.logs == [] && x.events == [EventRow(1, EvQueued, Queued)]
            && x.row == Some(Row(Queued, timeoutSec, None, None, None, "", "", false, None, 0))
            && BegunAnswer(maxBytes, Dispatched, Submitted(timeoutSec)) == Shown(x.row.value)
  {
    SubmittedOk(timeoutSec);
  }

  /** A run that is done here leaves no token of its id behind, and touches no other; one that is handed over leaves
      all tokens as they are. */
  lemma TokensAfterStart(mode: Mode, c: Control, id: ExecutionId)
    ensures var c' := BegunControl(mode, c, id);
            && c'.raised == c.raised && (forall o :: o != id ==> (o in c'.tokens <==> o in c.tokens))
            && (forall o :: o != id && o in c.tokens ==> c'.tokens[o] == c.tokens[o])
            && (mode.Inline? ==> id !in c'.tokens) && (mode.Dispatched? ==> c' == c)
  {
  }

  // ---------- the log stream ----------

  /** What a stream reads of one execution: rows that exist, and a log that only grows. */
  ghost predicate Watches(rounds: seq<Round>) {
    && (forall i :: 0 <= i < |rounds| ==>
          rounds[i].atRow.row.Some? && rounds[i].atLog.row.Some? && DenseLogs(rounds[i].atLog.logs))
    && (forall i, j :: 0 <= i <= j < |rounds| ==> IsPrefix(rounds[i].atLog.logs, rounds[j].atLog.logs))
  }

  /** Round k is the first that sees the execution ended. */
  ghost predicate SeesEnd(rounds: seq<Round>, k: nat) {
    && k < |rounds| && Ended(rounds[k].atRow)
    && forall i :: 0 <= i < k && i < |rounds| ==> !Ended(rounds[i].atRow)
  }

  /** The statuses, each named once. */
  function Changes(last: Option<Status>, rounds: seq<Round>): seq<Status>
    decreases |rounds|
  {
    if rounds == [] || rounds[0].atRow.row.None? then []
    else
      var status := rounds[0].atRow.row.value.status;
      (if last == Some(status) then [] else [status]) + Changes(Some(status), rounds[1..])
  }

  function LastStatus(t: Thread): Option<Status>
    requires t.Reader?
  {
    if t.statuses == [] then None else Some(t.statuses[|t.statuses| - 1])
  }

  lemma {:induction false} RoundSends(t: Thread, rounds: seq<Round>) returns (t': Thread)
    requires Watches(rounds) && rounds != [] && t.Reader? && t.dp == ReadTop
    requires SentOk(t.after, t.last, t.emitted, rounds[0].atLog.logs)
    ensures t'.Reader? && t'.after == t.after && ReaderRun(t, rounds) == ReaderRun(t', rounds[1..])
    ensures SentOk(t.after, t'.last, t'.emitted, rounds[0].atLog.logs) && t'.last >= |rounds[0].atLog.logs|
    ensures t'.dp == if Ended(rounds[0].atRow) then ReadDone else ReadTop
    ensures t'.statuses == t.statuses + (if LastStatus(t) == Some(rounds[0].atRow.row.value.status) then []
                                         else [rounds[0].atRow.row.value.status])
    ensures LastStatus(t') == Some(rounds[0].atRow.row.value.status)
  {
    t' := ReaderStep(ReaderStep(t, rounds[0].atRow), rounds[0].atLog);
    ReaderLists(t, rounds[0].atLog);
  }

  lemma {:induction false} WatchesRest(rounds: seq<Round>, k: nat)
    requires Watches(rounds) && SeesEnd(rounds, k) && k > 0
    ensures Watches(rounds[1..]) && SeesEnd(rounds[1..], k - 1)
    ensures IsPrefix(rounds[0].atLog.logs, rounds[1].atLog.logs)
  {
    var rest := rounds[1..];
    forall i, j | 0 <= i <= j < |rest|
      ensures IsPrefix(rest[i].atLog.logs, rest[j].atLog.logs)
    {
      assert IsPrefix(rounds[i + 1].atLog.logs, rounds[j + 1].atLog.logs);
    }
  }

  lemma {:induction false} StillSent(after: nat, last: nat, emitted: seq<LogRow>, logs: seq<LogRow>, more: seq<LogRow>)
    requires SentOk(after, last, emitted, logs) && IsPrefix(logs, more)
    ensures SentOk(after, last, emitted, more)
  {
    if after <= last <= |logs| {
      assert more[after..last] == more[..|logs|][after..last];
    }
  }

  lemma {:induction false} ChangesFirst(last: Option<Status>, rounds: seq<Round>, k: nat)
    requires k < |rounds| && rounds[0].atRow.row.Some?
    ensures var status := rounds[0].atRow.row.value.status;
            Changes(last, rounds[..k + 1]) == (if last == Some(status) then [] else [status]) + Changes(Some(status), rounds[1..][..k])
  {
    assert rounds[..k + 1][1..] == rounds[1..][..k];
  }

  /** A stream before a round, with what it has sent so far. */
  ghost predicate Ready(t: Thread, rounds: seq<Round>, k: nat) {
    Watches(rounds) && SeesEnd(rounds, k) && t.Reader? && t.dp == ReadTop && SentOk(t.after, t.last, t.emitted, rounds[0].atLog.logs)
  }

  /** A stream that is done, at the end of these rounds. */
  ghost predicate Sent(t: Thread, after: nat, statuses: seq<Status>, end: Round) {
    && t.Reader? && t.after == after && t.dp == ReadDone && t.statuses == statuses
    && SentOk(after, t.last, t.emitted, end.atLog.logs) && t.last >= |end.atLog.logs|
  }

  lemma {:induction false} StatusesMore(sent: seq<Status>, last: Option<Status>, sent': seq<Status>, rounds: seq<Round>, k: nat)
    requires k < |rounds| && rounds[0].atRow.row.Some?
    requires var status := rounds[0].atRow.row.value.status; sent' == sent + (if last == Some(status) then [] else [status])
    ensures sent' + Changes(Some(rounds[0].atRow.row.value.status), rounds[1..][..k]) == sent + Changes(last, rounds[..k + 1])
  {
    ChangesFirst(last, rounds, k);
  }

  lemma {:induction false} OneMore(t: Thread, rounds: seq<Round>, k: nat) returns (u: Thread)
    requires Ready(t, rounds, k) && k > 0
    ensures Ready(u, rounds[1..], k - 1) && u.after == t.after && ReaderRun(t, rounds) == ReaderRun(u, rounds[1..])
    ensures u.statuses + Changes(LastStatus(u), rounds[1..][..k]) == t.statuses + Changes(LastStatus(t), rounds[..k + 1])
  {
    u := RoundSends(t, rounds);
    StatusesMore(t.statuses, LastStatus(t), u.statuses, rounds, k);
    WatchesRest(rounds, k);
    var first, second := rounds[0].atLog.logs, rounds[1].atLog.logs;
    StillSent(u.after, u.last, u.emitted, first, second);
  }

  lemma {:induction false} TheLast(t: Thread, rounds: seq<Round>)
    requires Ready(t, rounds, 0)
    ensures Sent(ReaderRun(t, rounds), t.after, t.statuses + Changes(LastStatus(t), rounds[..1]), rounds[0])
  {
    var u := RoundSends(t, rounds);
    ChangesFirst(LastStatus(t), rounds, 0);
    DoneStays(u, rounds[1..]);
  }

  lemma {:induction false} RoundsSend(t: Thread, rounds: seq<Round>, k: nat)
    requires Ready(t, rounds, k)
    ensures Sent(ReaderRun(t, rounds), t.after, t.statuses + Changes(LastStatus(t), rounds[..k + 1]), rounds[k])
    decreases k
  {
    if k == 0 {
      TheLast(t, rounds);
    } else {
      var u := OneMore(t, rounds, k);
      RoundsSend(u, rounds[1..], k - 1);
    }
  }

  /** A log stream that is asked for what comes after a number, and sees the execution end, sends the log as it is
      then from the first chunk above that number on, each status as it changes, and done. */
  lemma {:induction false} StreamExactly(afterSequence: int, rounds: seq<Round>, k: nat)
    requires Watches(rounds) && SeesEnd(rounds, k)
    ensures var t, logs := ReaderRun(NewReader(afterSequence), rounds), rounds[k].atLog.logs;
            && t.Reader? && t.dp == ReadDone && t.statuses == Changes(None, rounds[..k + 1])
            && t.emitted == if afterSequence <= 0 then logs else if afterSequence <= |logs| then logs[afterSequence..] else []
  {
    RoundsSend(NewReader(afterSequence), rounds, k);
    assert [] + Changes(None, rounds[..k + 1]) == Changes(None, rounds[..k + 1]);
  }
}
