/** Runs of many requests against the idempotency store: who holds a claim, and what is replayed. */
module IdempotencyRuns {
  import opened Wrappers
  import opened IsoTime
  import opened Idempotency

  type RequestId = nat

  /** A request that claimed its key and is streaming: what it has sent, and when its row expires. */
  datatype Holder = Holder(k: Key, hash: string, sent: seq<string>, deadline: DateTime)

  /** `expiry` only records history; the store does not see it. */
  datatype Sys = Sys(rows: Table, holders: map<RequestId, Holder>, clock: DateTime,
                     expiry: map<Key, DateTime>)

  datatype Action =
    | Request(r: RequestId, k: Key, hash: string, now: DateTime)
    | Send(r: RequestId, chunk: string)
    | Finish(r: RequestId, now: DateTime)   // the source stream ended normally
    | Break(r: RequestId)                   // it raised, or the client went away
    | Die(r: RequestId)                     // the process died: nothing is released

  /** The clock does not go back, requests are new, and only holders send and finish. */
  predicate Enabled(ttlSec: int, s: Sys, a: Action)
    requires Valid(s.clock)
  {
    match a
    case Request(r, _, _, now) => r !in s.holders && CanExpire(ttlSec, now) && Micros(s.clock) <= Micros(now)
    case Send(r, _) => r in s.holders
    case Finish(r, now) => r in s.holders && CanExpire(ttlSec, now) && Micros(s.clock) <= Micros(now)
    case Break(r) => r in s.holders
    case Die(r) => r in s.holders
  }

  /** No request comes in after a row expired under a request that still holds it. */
  predicate Punctual(s: Sys, a: Action) {
    a.Request? && Valid(a.now) ==>
      forall r :: r in s.holders && Valid(s.holders[r].deadline) ==> Micros(a.now) < Micros(s.holders[r].deadline)
  }

  function Verdict1(ttlSec: int, s: Sys, k: Key, hash: string, now: DateTime): Verdict
    requires CanExpire(ttlSec, now)
  {
    Claim(s.rows, k, hash, Iso(now), Iso(Expiry(ttlSec, now))).1
  }

  function Next(ttlSec: int, s: Sys, a: Action): Sys
    requires Valid(s.clock) && Enabled(ttlSec, s, a)
  {
    match a
    case Request(r, k, hash, now) =>
      var at := Expiry(ttlSec, now);
      var (rows, v) := Claim(s.rows, k, hash, Iso(now), Iso(at));
      if v == Claimed then
        s.(rows := rows, clock := now, holders := s.holders[r := Holder(k, hash, [], at)], expiry := s.expiry[k := at])
      else s.(rows := rows, clock := now)
    case Send(r, chunk) =>
      s.(holders := s.holders[r := s.holders[r].(sent := s.holders[r].sent + [chunk])])
    case Finish(r, now) =>
      var h := s.holders[r];
      var at := Expiry(ttlSec, now);
      var rows := Captured(s.rows, h.k, h.hash, h.sent, false, Iso(at));
      if SawDone(h.sent) then
        s.(rows := rows, clock := now, holders := s.holders - {r}, expiry := s.expiry[h.k := at])
      else s.(rows := rows, clock := now, holders := s.holders - {r})
    case Break(r) =>
      var h := s.holders[r];
      s.(rows := Captured(s.rows, h.k, h.hash, h.sent, true, ""), holders := s.holders - {r})
    case Die(r) => s.(holders := s.holders - {r})
  }

  /** A run: every action is enabled and punctual. */
  ghost predicate IsRun(ttlSec: int, states: seq<Sys>, actions: seq<Action>) {
    && |states| == |actions| + 1
    && states[0].rows == map[] && states[0].holders == map[] && Valid(states[0].clock)
    && forall i :: 0 <= i < |actions| ==> Steps(ttlSec, states[i], actions[i], states[i + 1])
  }

  ghost predicate Steps(ttlSec: int, s: Sys, a: Action, s': Sys) {
    Valid(s.clock) && Enabled(ttlSec, s, a) && Punctual(s, a) && s' == Next(ttlSec, s, a)
  }

  // ---------- the invariant ----------

  /** The row of a request that still holds its claim. */
  ghost predicate Holds(s: Sys, h: Holder) {
    && Valid(h.deadline)
    && h.k in s.rows && s.rows[h.k].hash == h.hash && !s.rows[h.k].completed
    && h.k in s.expiry && s.expiry[h.k] == h.deadline
  }

  /** A row carries the expiry that the store gave it, and a completed one a response. */
  ghost predicate RowOk(s: Sys, k: Key)
    requires k in s.rows
  {
    var e := s.rows[k];
    && k in s.expiry && Expires(e, s.expiry[k])
    && (e.completed ==> e.response.Some?)
  }

  ghost predicate KeysDiffer(s: Sys) {
    forall r, q :: r in s.holders && q in s.holders && r != q ==> s.holders[r].k != s.holders[q].k
  }

  ghost predicate Inv(s: Sys) {
    && Valid(s.clock)
    && (forall k :: k in s.rows ==> RowOk(s, k))
    && (forall r :: r in s.holders ==> Holds(s, s.holders[r]))
    && KeysDiffer(s)
  }

  lemma NextKeepsInv(ttlSec: int, s: Sys, a: Action)
    requires Inv(s) && Enabled(ttlSec, s, a) && Punctual(s, a)
    ensures Inv(Next(ttlSec, s, a))
  {
    match a
    case Request(r, k, hash, now) => RequestKeepsInv(ttlSec, s, r, k, hash, now);
    case Send(r, chunk) => SendKeepsInv(ttlSec, s, r, chunk);
    case Finish(r, now) => FinishKeepsInv(ttlSec, s, r, now);
    case Break(r) => BreakKeepsInv(ttlSec, s, r);
    case Die(r) =>
  }

  /** The purge of a punctual request spares every held row. */
  lemma HeldRowsSurvive(s: Sys, r: RequestId, now: DateTime)
    requires Inv(s) && Valid(now) && r in s.holders && Micros(now) < Micros(s.holders[r].deadline)
    ensures s.holders[r].k in Purge(s.rows, Iso(now))
  {
    var h := s.holders[r];
    assert Holds(s, h) && RowOk(s, h.k);
    PurgeByTime(s.rows, h.k, h.deadline, now);
  }

  lemma RequestKeepsInv(ttlSec: int, s: Sys, r: RequestId, k: Key, hash: string, now: DateTime)
    requires Inv(s) && Enabled(ttlSec, s, Request(r, k, hash, now)) && Punctual(s, Request(r, k, hash, now))
    ensures Inv(Next(ttlSec, s, Request(r, k, hash, now)))
  {
    var purged := s.(rows := Purge(s.rows, Iso(now)), clock := now);
    PurgeKeepsInv(s, now, purged);
    if k !in purged.rows {
      var at := Expiry(ttlSec, now);
      FreshRowLives(ttlSec, now);
      ClaimKeepsInv(purged, r, k, hash, Iso(now), at);
    }
  }

  lemma PurgeKeepsInv(s: Sys, now: DateTime, purged: Sys)
    requires Inv(s) && Valid(now)
    requires forall r :: r in s.holders && Valid(s.holders[r].deadline) ==> Micros(now) < Micros(s.holders[r].deadline)
    requires purged == s.(rows := Purge(s.rows, Iso(now)), clock := now)
    ensures Inv(purged)
  {
    forall q | q in s.holders
      ensures Holds(purged, s.holders[q])
    {
      assert Holds(s, s.holders[q]);
      HeldRowsSurvive(s, q, now);
    }
    forall j | j in purged.rows
      ensures RowOk(purged, j)
    {
      assert RowOk(s, j);
    }
  }

  /** A free key is taken by a new holder. */
  function Taken(s: Sys, r: RequestId, k: Key, hash: string, nowIso: string, at: DateTime): Sys {
    s.(rows := s.rows[k := Pending(hash, nowIso, Iso(at))],
       holders := s.holders[r := Holder(k, hash, [], at)], expiry := s.expiry[k := at])
  }

  lemma TakenRow(s: Sys, r: RequestId, k: Key, hash: string, nowIso: string, at: DateTime, j: Key)
    requires Inv(s) && k !in s.rows && Valid(at) && j in Taken(s, r, k, hash, nowIso, at).rows
    ensures RowOk(Taken(s, r, k, hash, nowIso, at), j)
  {
    if j != k {
      assert RowOk(s, j);
    }
  }

  lemma TakenHolder(s: Sys, r: RequestId, k: Key, hash: string, nowIso: string, at: DateTime, q: RequestId)
    requires Inv(s) && k !in s.rows && Valid(at) && q in s.holders && q != r
    ensures Holds(Taken(s, r, k, hash, nowIso, at), s.holders[q]) && s.holders[q].k != k
  {
    assert Holds(s, s.holders[q]);
  }

  lemma ClaimKeepsInv(s: Sys, r: RequestId, k: Key, hash: string, nowIso: string, at: DateTime)
    requires Inv(s) && r !in s.holders && k !in s.rows && Valid(at)
    ensures Inv(Taken(s, r, k, hash, nowIso, at))
  {
    var s' := Taken(s, r, k, hash, nowIso, at);
    forall j | j in s'.rows
      ensures RowOk(s', j)
    {
      TakenRow(s, r, k, hash, nowIso, at, j);
    }
    forall q | q in s'.holders
      ensures Holds(s', s'.holders[q]) && (q != r ==> s'.holders[q].k != k)
    {
      if q != r {
        TakenHolder(s, r, k, hash, nowIso, at, q);
      }
    }
  }

  lemma SendKeepsInv(ttlSec: int, s: Sys, r: RequestId, chunk: string)
    requires Inv(s) && r in s.holders
    ensures Inv(Next(ttlSec, s, Send(r, chunk)))
  {
    var s' := Next(ttlSec, s, Send(r, chunk));
    forall j | j in s'.rows
      ensures RowOk(s', j)
    {
      assert RowOk(s, j);
    }
    forall q | q in s'.holders
      ensures Holds(s', s'.holders[q])
    {
      assert Holds(s, s.holders[q]);
    }
  }

  lemma FinishedRow(ttlSec: int, s: Sys, r: RequestId, now: DateTime)
    requires Inv(s) && Enabled(ttlSec, s, Finish(r, now))
    ensures var s' := Next(ttlSec, s, Finish(r, now));
            && Valid(s'.clock) && (s.holders[r].k in s'.rows ==> RowOk(s', s.holders[r].k))
  {
    FreshRowLives(ttlSec, now);
    assert Holds(s, s.holders[r]);
    assert RowOk(s, s.holders[r].k);
  }

  lemma FinishKeepsInv(ttlSec: int, s: Sys, r: RequestId, now: DateTime)
    requires Inv(s) && Enabled(ttlSec, s, Finish(r, now))
    ensures Inv(Next(ttlSec, s, Finish(r, now)))
  {
    FinishedRow(ttlSec, s, r, now);
    OneHolderLess(s, Next(ttlSec, s, Finish(r, now)), r);
  }

  lemma BreakKeepsInv(ttlSec: int, s: Sys, r: RequestId)
    requires Inv(s) && r in s.holders
    ensures Inv(Next(ttlSec, s, Break(r)))
  {
    OneHolderLess(s, Next(ttlSec, s, Break(r)), r);
  }

  /** A holder's last operation touches its own row only. */
  lemma OneHolderLess(s: Sys, s': Sys, r: RequestId)
    requires Inv(s) && r in s.holders && s'.holders == s.holders - {r} && Valid(s'.clock)
    requires forall k :: k in s'.rows && k == s.holders[r].k ==> RowOk(s', k)
    requires forall k :: k != s.holders[r].k ==>
               && (k in s'.rows <==> k in s.rows) && (k in s.rows ==> s'.rows[k] == s.rows[k])
               && (k in s.expiry ==> k in s'.expiry && s'.expiry[k] == s.expiry[k])
    ensures Inv(s')
  {
    forall k | k in s'.rows
      ensures RowOk(s', k)
    {
      if k != s.holders[r].k {
        assert RowOk(s, k);
      }
    }
    forall q | q in s'.holders
      ensures Holds(s', s'.holders[q])
    {
      assert Holds(s, s.holders[q]) && s.holders[q].k != s.holders[r].k;
    }
  }

  lemma {:induction false} RunKeepsInv(ttlSec: int, states: seq<Sys>, actions: seq<Action>, i: nat)
    requires IsRun(ttlSec, states, actions) && i < |states|
    ensures Inv(states[i])
  {
    if i > 0 {
      RunKeepsInv(ttlSec, states, actions, i - 1);
      assert Steps(ttlSec, states[i - 1], actions[i - 1], states[i]);
      NextKeepsInv(ttlSec, states[i - 1], actions[i - 1]);
    }
  }

  // ---------- the main results ----------

  /** At most one request holds a key. */
  lemma OneHolderPerKey(ttlSec: int, states: seq<Sys>, actions: seq<Action>, i: nat, r: RequestId, q: RequestId)
    requires IsRun(ttlSec, states, actions) && i < |states|
    requires r in states[i].holders && q in states[i].holders && states[i].holders[r].k == states[i].holders[q].k
    ensures r == q
  {
    RunKeepsInv(ttlSec, states, actions, i);
  }

  /** The row of a key is alive at `now`. */
  ghost predicate Alive(s: Sys, k: Key, now: DateTime) {
    k in s.rows && k in s.expiry && Valid(s.expiry[k]) && Valid(now) && Micros(now) < Micros(s.expiry[k])
  }

  /** Action j ends the stream of a request that holds the key with this hash, and the response is all the
      chunks that request has sent, a done frame among them. */
  ghost predicate Completes(states: seq<Sys>, actions: seq<Action>, j: nat, k: Key, hash: string, response: Response) {
    && j < |actions| && j < |states| && actions[j].Finish? && actions[j].r in states[j].holders
    && var h := states[j].holders[actions[j].r];
    && h.k == k && h.hash == hash && SawDone(h.sent)
    && response == Response(200, EVENT_STREAM, Concat(h.sent))
  }

  /** A completed row was there before, or it is the holder's stream that just ended. */
  lemma CompletedIsWhatWasSent(ttlSec: int, s: Sys, a: Action, s': Sys, k: Key)
    requires Steps(ttlSec, s, a, s') && k in s'.rows && s'.rows[k].completed
    ensures var e := s'.rows[k];
            || (k in s.rows && s.rows[k] == e)
            || (&& a.Finish? && s.holders[a.r].k == k && s.holders[a.r].hash == e.hash && SawDone(s.holders[a.r].sent)
                && e.response == Some(Response(200, EVENT_STREAM, Concat(s.holders[a.r].sent))))
  {
  }

  /** In every run, a completed row holds exactly what an earlier holder had sent when its stream ended. */
  lemma {:induction false} CompletedWasSent(ttlSec: int, states: seq<Sys>, actions: seq<Action>, i: nat, k: Key)
    returns (j: nat)
    requires IsRun(ttlSec, states, actions) && i < |states| && k in states[i].rows && states[i].rows[k].completed
    ensures j < i && states[i].rows[k].response.Some?
    ensures Completes(states, actions, j, k, states[i].rows[k].hash, states[i].rows[k].response.value)
  {
    assert i > 0;
    assert Steps(ttlSec, states[i - 1], actions[i - 1], states[i]);
    CompletedIsWhatWasSent(ttlSec, states[i - 1], actions[i - 1], states[i], k);
    if k in states[i - 1].rows && states[i - 1].rows[k] == states[i].rows[k] {
      j := CompletedWasSent(ttlSec, states, actions, i - 1, k);
    } else {
      j := i - 1;
    }
  }

  /** What any request is told, in terms of time and history: a claim exactly when no row of its key is
      alive; a conflict exactly when a living row has another hash; and a replay exactly of the
      chunks that an earlier holder of the key had sent. */
  lemma VerdictOfEveryRequest(ttlSec: int, states: seq<Sys>, actions: seq<Action>, i: nat, k: Key, hash: string, now: DateTime)
    requires IsRun(ttlSec, states, actions) && i < |states| && CanExpire(ttlSec, now)
    ensures var s := states[i]; var v := Verdict1(ttlSec, s, k, hash, now);
            && (v == Claimed <==> !Alive(s, k, now))
            && (v == Conflict <==> Alive(s, k, now) && s.rows[k].hash != hash)
            && (v.Replay? <==> Alive(s, k, now) && s.rows[k].hash == hash && s.rows[k].completed)
            && (v.Replay? ==> exists j :: 0 <= j < i && Completes(states, actions, j, k, hash, v.response))
            && (v == InProgress <==> Alive(s, k, now) && s.rows[k].hash == hash && !s.rows[k].completed)
  {
    RunKeepsInv(ttlSec, states, actions, i);
    VerdictFacts(ttlSec, states[i], k, hash, now);
    var v := Verdict1(ttlSec, states[i], k, hash, now);
    if v.Replay? {
      var j := CompletedWasSent(ttlSec, states, actions, i, k);
      assert Completes(states, actions, j, k, hash, v.response);
    }
  }

  lemma VerdictFacts(ttlSec: int, s: Sys, k: Key, hash: string, now: DateTime)
    requires Inv(s) && CanExpire(ttlSec, now)
    ensures var v := Verdict1(ttlSec, s, k, hash, now);
            && (v == Claimed <==> !Alive(s, k, now))
            && (v == Conflict <==> Alive(s, k, now) && s.rows[k].hash != hash)
            && (v.Replay? <==> Alive(s, k, now) && s.rows[k].hash == hash && s.rows[k].completed)
            && (v.Replay? ==> s.rows[k].response == Some(v.response))
            && (v == InProgress <==> Alive(s, k, now) && s.rows[k].hash == hash && !s.rows[k].completed)
  {
    if k in s.rows {
      assert RowOk(s, k);
      PurgeByTime(s.rows, k, s.expiry[k], now);
    }
  }

  /** Without punctuality the guarantee goes: a second request takes the key from a holder exactly when
      it comes in at or after the holder's deadline. */
  lemma LateRequestTakesKey(ttlSec: int, s: Sys, r: RequestId, q: RequestId, hash: string, now: DateTime)
    requires Inv(s) && r in s.holders && Enabled(ttlSec, s, Request(q, s.holders[r].k, hash, now))
    ensures var s' := Next(ttlSec, s, Request(q, s.holders[r].k, hash, now));
            q in s'.holders && r in s'.holders && s'.holders[q].k == s'.holders[r].k
            <==> Micros(s.holders[r].deadline) <= Micros(now)
  {
    var h := s.holders[r];
    assert Holds(s, h) && RowOk(s, h.k);
    PurgeByTime(s.rows, h.k, h.deadline, now);
  }
}
