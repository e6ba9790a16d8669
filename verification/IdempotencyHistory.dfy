/** What a request is told, from the history of its key alone: who claimed it last, and how that ended. */
module IdempotencyHistory {
  import opened Wrappers
  import opened IsoTime
  import opened Idempotency
  import opened IdempotencyRuns

  // ---------- the history of a key ----------

  /** Action m is a request that became the holder of the key. */
  ghost predicate ClaimsAt(states: seq<Sys>, actions: seq<Action>, k: Key, m: nat)
    requires m < |actions| && |states| == |actions| + 1
  {
    actions[m].Request? && actions[m].k == k && actions[m].r in states[m + 1].holders
  }

  /** Action m ends the stream of the key's holder. */
  ghost predicate EndsAt(states: seq<Sys>, actions: seq<Action>, k: Key, m: nat)
    requires m < |actions| && |states| == |actions| + 1
  {
    (actions[m].Finish? || actions[m].Break?) && actions[m].r in states[m].holders && states[m].holders[actions[m].r].k == k
  }

  /** It ends it normally, and the done mark was among the chunks sent. */
  ghost predicate CompletesAt(states: seq<Sys>, actions: seq<Action>, k: Key, m: nat)
    requires m < |actions| && |states| == |actions| + 1
  {
    EndsAt(states, actions, k, m) && actions[m].Finish? && SawDone(states[m].holders[actions[m].r].sent)
  }

  ghost predicate EventAt(states: seq<Sys>, actions: seq<Action>, k: Key, m: nat)
    requires m < |actions| && |states| == |actions| + 1
  {
    ClaimsAt(states, actions, k, m) || EndsAt(states, actions, k, m)
  }

  ghost predicate NoEvent(states: seq<Sys>, actions: seq<Action>, k: Key, from: nat, i: nat)
    requires i <= |actions| && |states| == |actions| + 1
  {
    forall n :: from <= n < i ==> !EventAt(states, actions, k, n)
  }

  /** Action m is the last one before i that concerns the key. */
  ghost predicate LastEvent(states: seq<Sys>, actions: seq<Action>, k: Key, m: nat, i: nat)
    requires i <= |actions| && |states| == |actions| + 1
  {
    m < i && EventAt(states, actions, k, m) && NoEvent(states, actions, k, m + 1, i)
  }

  lemma {:induction false} LastOrNone(states: seq<Sys>, actions: seq<Action>, k: Key, i: nat) returns (m: Option<nat>)
    requires i <= |actions| && |states| == |actions| + 1
    ensures m.Some? ==> LastEvent(states, actions, k, m.value, i)
    ensures m.None? ==> NoEvent(states, actions, k, 0, i)
  {
    if i == 0 {
      m := None;
    } else if EventAt(states, actions, k, i - 1) {
      m := Some(i - 1);
    } else {
      m := LastOrNone(states, actions, k, i - 1);
    }
  }

  // ---------- what the history says of the table ----------

  /** The row is as said, or it is gone because its time has come. */
  ghost predicate RowIs(s: Sys, k: Key, hash: string, completed: bool, response: Option<Response>, at: DateTime) {
    && Valid(at) && Valid(s.clock)
    && if k in s.rows then
         && s.rows[k].hash == hash && s.rows[k].completed == completed && s.rows[k].response == response
         && s.rows[k].expiresAt == Iso(at)
       else Micros(at) <= Micros(s.clock)
  }

  ghost predicate OnlyHolder(s: Sys, k: Key, hash: string, r: RequestId) {
    forall q :: q in s.holders && s.holders[q].k == k ==> q == r && s.holders[q].hash == hash
  }

  ghost predicate NotHeld(s: Sys, k: Key) { forall q :: q in s.holders ==> s.holders[q].k != k }

  ghost predicate ClaimShows(ttlSec: int, s: Sys, a: Action, k: Key) {
    && a.Request? && CanExpire(ttlSec, a.now)
    && RowIs(s, k, a.hash, false, None, Expiry(ttlSec, a.now)) && OnlyHolder(s, k, a.hash, a.r)
  }

  ghost predicate CompletionShows(ttlSec: int, s: Sys, a: Action, h: Holder, k: Key) {
    && a.Finish? && CanExpire(ttlSec, a.now)
    && RowIs(s, k, h.hash, true, Some(Response(200, EVENT_STREAM, Concat(h.sent))), Expiry(ttlSec, a.now)) && NotHeld(s, k)
  }

  ghost predicate FreeShows(s: Sys, k: Key) { k !in s.rows && NotHeld(s, k) }

  /** The state that follows from the key's last event. */
  ghost predicate Shows(ttlSec: int, states: seq<Sys>, actions: seq<Action>, k: Key, m: nat, s: Sys)
    requires m < |actions| && |states| == |actions| + 1
  {
    if ClaimsAt(states, actions, k, m) then ClaimShows(ttlSec, s, actions[m], k)
    else if CompletesAt(states, actions, k, m) then CompletionShows(ttlSec, s, actions[m], states[m].holders[actions[m].r], k)
    else FreeShows(s, k)
  }

  // ---------- one action ----------

  lemma PurgedRow(s: Sys, now: DateTime, k: Key, hash: string, completed: bool, response: Option<Response>, at: DateTime, s': Sys)
    requires RowIs(s, k, hash, completed, response, at) && Valid(now) && Micros(s.clock) <= Micros(now)
    requires s'.clock == now && (k in s'.rows <==> k in Purge(s.rows, Iso(now))) && (k in s'.rows ==> s'.rows[k] == s.rows[k])
    ensures RowIs(s', k, hash, completed, response, at)
  {
    if k in s.rows {
      PurgeByTime(s.rows, k, at, now);
    }
  }

  /** An action that is no event of the key. */
  ghost predicate Elsewhere(s: Sys, a: Action, s': Sys, k: Key) {
    && (a.Request? && a.k == k ==> a.r !in s'.holders)
    && ((a.Finish? || a.Break?) && a.r in s.holders ==> s.holders[a.r].k != k)
  }

  /** It brings the key no holder. */
  lemma OtherHolders(ttlSec: int, s: Sys, a: Action, s': Sys, k: Key)
    requires Steps(ttlSec, s, a, s') && Elsewhere(s, a, s', k)
    ensures forall q :: q in s'.holders && s'.holders[q].k == k ==>
              q in s.holders && s.holders[q].k == k && s'.holders[q].hash == s.holders[q].hash
  {
  }

  /** It leaves the key's row alone, but for the purge of a request. */
  lemma OtherRow(ttlSec: int, s: Sys, a: Action, s': Sys, k: Key)
    requires Steps(ttlSec, s, a, s') && Elsewhere(s, a, s', k) && !a.Request?
    ensures (k in s'.rows <==> k in s.rows) && (k in s'.rows ==> s'.rows[k] == s.rows[k])
    ensures Valid(s'.clock) && Micros(s.clock) <= Micros(s'.clock)
  {
  }

  lemma OtherRequest(ttlSec: int, s: Sys, a: Action, s': Sys, k: Key)
    requires Steps(ttlSec, s, a, s') && Elsewhere(s, a, s', k) && a.Request?
    ensures Valid(a.now) && s'.clock == a.now && Micros(s.clock) <= Micros(a.now)
    ensures (k in s'.rows <==> k in Purge(s.rows, Iso(a.now))) && (k in s'.rows ==> s'.rows[k] == s.rows[k])
  {
  }

  lemma OtherKeepsRow(ttlSec: int, s: Sys, a: Action, s': Sys, k: Key, hash: string, completed: bool, response: Option<Response>,
                      at: DateTime)
    requires Steps(ttlSec, s, a, s') && Elsewhere(s, a, s', k) && RowIs(s, k, hash, completed, response, at)
    ensures RowIs(s', k, hash, completed, response, at)
  {
    if !a.Request? {
      OtherRow(ttlSec, s, a, s', k);
    } else {
      OtherRequest(ttlSec, s, a, s', k);
      PurgedRow(s, a.now, k, hash, completed, response, at, s');
    }
  }

  lemma OtherKeepsFree(ttlSec: int, s: Sys, a: Action, s': Sys, k: Key)
    requires Steps(ttlSec, s, a, s') && Elsewhere(s, a, s', k) && FreeShows(s, k)
    ensures FreeShows(s', k)
  {
    OtherHolders(ttlSec, s, a, s', k);
    if !a.Request? {
      OtherRow(ttlSec, s, a, s', k);
    } else {
      OtherRequest(ttlSec, s, a, s', k);
    }
  }

  lemma OtherKeepsShows(ttlSec: int, states: seq<Sys>, actions: seq<Action>, k: Key, m: nat, i: nat)
    requires IsRun(ttlSec, states, actions) && m < i < |actions| && Inv(states[i])
    requires Shows(ttlSec, states, actions, k, m, states[i]) && !EventAt(states, actions, k, i)
    ensures Shows(ttlSec, states, actions, k, m, states[i + 1])
  {
    var s, a, s' := states[i], actions[i], states[i + 1];
    assert Steps(ttlSec, s, a, s');
    assert !ClaimsAt(states, actions, k, i) && !EndsAt(states, actions, k, i);
    OtherHolders(ttlSec, s, a, s', k);
    if ClaimsAt(states, actions, k, m) {
      OtherKeepsRow(ttlSec, s, a, s', k, actions[m].hash, false, None, Expiry(ttlSec, actions[m].now));
    } else if CompletesAt(states, actions, k, m) {
      var h := states[m].holders[actions[m].r];
      OtherKeepsRow(ttlSec, s, a, s', k, h.hash, true, Some(Response(200, EVENT_STREAM, Concat(h.sent))), Expiry(ttlSec, actions[m].now));
    } else {
      OtherKeepsFree(ttlSec, s, a, s', k);
    }
  }

  /** A claim: the row is fresh, and the request is the key's only holder. */
  lemma ClaimBegins(ttlSec: int, s: Sys, a: Action, s': Sys, k: Key)
    requires Inv(s) && Steps(ttlSec, s, a, s') && a.Request? && a.k == k && a.r in s'.holders
    ensures ClaimShows(ttlSec, s', a, k)
  {
    NextKeepsInv(ttlSec, s, a);
    FreshRowLives(ttlSec, a.now);
  }

  lemma EndBegins(ttlSec: int, s: Sys, a: Action, s': Sys, k: Key)
    requires Inv(s) && Steps(ttlSec, s, a, s') && (a.Finish? || a.Break?) && a.r in s.holders && s.holders[a.r].k == k
    ensures a.Finish? && SawDone(s.holders[a.r].sent) ==> CompletionShows(ttlSec, s', a, s.holders[a.r], k)
    ensures a.Break? || !SawDone(s.holders[a.r].sent) ==> FreeShows(s', k)
  {
    assert Holds(s, s.holders[a.r]);
    NextKeepsInv(ttlSec, s, a);
    if a.Finish? {
      FreshRowLives(ttlSec, a.now);
    }
  }

  lemma EventShows(ttlSec: int, states: seq<Sys>, actions: seq<Action>, k: Key, i: nat)
    requires IsRun(ttlSec, states, actions) && i < |actions| && Inv(states[i]) && EventAt(states, actions, k, i)
    ensures Shows(ttlSec, states, actions, k, i, states[i + 1])
  {
    assert Steps(ttlSec, states[i], actions[i], states[i + 1]);
    if ClaimsAt(states, actions, k, i) {
      ClaimBegins(ttlSec, states[i], actions[i], states[i + 1], k);
    } else {
      EndBegins(ttlSec, states[i], actions[i], states[i + 1], k);
    }
  }

  // ---------- every run ----------

  lemma {:induction false} LastShows(ttlSec: int, states: seq<Sys>, actions: seq<Action>, k: Key, m: nat, i: nat)
    requires IsRun(ttlSec, states, actions) && i <= |actions| && LastEvent(states, actions, k, m, i)
    ensures Shows(ttlSec, states, actions, k, m, states[i])
    decreases i
  {
    RunKeepsInv(ttlSec, states, actions, i - 1);
    if m == i - 1 {
      EventShows(ttlSec, states, actions, k, m);
    } else {
      LastShows(ttlSec, states, actions, k, m, i - 1);
      OtherKeepsShows(ttlSec, states, actions, k, m, i - 1);
    }
  }

  lemma {:induction false} NoneShows(ttlSec: int, states: seq<Sys>, actions: seq<Action>, k: Key, i: nat)
    requires IsRun(ttlSec, states, actions) && i <= |actions| && NoEvent(states, actions, k, 0, i)
    ensures FreeShows(states[i], k)
  {
    if i > 0 {
      NoneShows(ttlSec, states, actions, k, i - 1);
      RunKeepsInv(ttlSec, states, actions, i - 1);
      assert Steps(ttlSec, states[i - 1], actions[i - 1], states[i]) && !EventAt(states, actions, k, i - 1);
      OtherKeepsFree(ttlSec, states[i - 1], actions[i - 1], states[i], k);
    }
  }

  // ---------- what a request is told ----------

  lemma LivesUntil(s: Sys, k: Key, hash: string, completed: bool, response: Option<Response>, at: DateTime, now: DateTime)
    requires RowIs(s, k, hash, completed, response, at) && Valid(now) && Micros(s.clock) <= Micros(now)
    ensures k in Purge(s.rows, Iso(now)) <==> Micros(now) < Micros(at)
    ensures k in Purge(s.rows, Iso(now)) ==> Purge(s.rows, Iso(now))[k] == s.rows[k]
  {
    if k in s.rows {
      PurgeByTime(s.rows, k, at, now);
    }
  }

  /** A lifetime from this moment has passed. */
  predicate Passed(ttlSec: int, since: DateTime, now: DateTime)
    requires Valid(since) && Valid(now)
  {
    Micros(now) >= Micros(since) + (if ttlSec < 1 then 1 else ttlSec) * 1_000_000
  }

  /** A request at a moment that is not before the last one is told, of a key whose last event was action m:
      after a claim, that it is in progress, or a conflict where the hash is another; after a completion, all the
      chunks that were sent, or a conflict; each for one lifetime from m on. In every other case it gets the key:
      once the lifetime is over, or if the stream broke off or ended without a done mark. */
  lemma VerdictOfHistory(ttlSec: int, states: seq<Sys>, actions: seq<Action>, k: Key, m: nat, i: nat, hash: string, now: DateTime)
    requires IsRun(ttlSec, states, actions) && i <= |actions| && LastEvent(states, actions, k, m, i)
    requires CanExpire(ttlSec, now) && Valid(states[i].clock) && Micros(states[i].clock) <= Micros(now)
    ensures ClaimsAt(states, actions, k, m) || CompletesAt(states, actions, k, m) ==> Valid(actions[m].now)
    ensures ClaimsAt(states, actions, k, m) ==>
              Verdict1(ttlSec, states[i], k, hash, now) ==
                (if Passed(ttlSec, actions[m].now, now) then Claimed else if actions[m].hash == hash then InProgress else Conflict)
    ensures CompletesAt(states, actions, k, m) ==>
              var h := states[m].holders[actions[m].r];
              Verdict1(ttlSec, states[i], k, hash, now) ==
                (if Passed(ttlSec, actions[m].now, now) then Claimed
                 else if h.hash == hash then Replay(Response(200, EVENT_STREAM, Concat(h.sent))) else Conflict)
    ensures EndsAt(states, actions, k, m) && !CompletesAt(states, actions, k, m) ==>
              Verdict1(ttlSec, states[i], k, hash, now) == Claimed
  {
    LastShows(ttlSec, states, actions, k, m, i);
    if ClaimsAt(states, actions, k, m) {
      FreshRowLives(ttlSec, actions[m].now);
      LivesUntil(states[i], k, actions[m].hash, false, None, Expiry(ttlSec, actions[m].now), now);
    } else if CompletesAt(states, actions, k, m) {
      var h := states[m].holders[actions[m].r];
      FreshRowLives(ttlSec, actions[m].now);
      LivesUntil(states[i], k, h.hash, true, Some(Response(200, EVENT_STREAM, Concat(h.sent))), Expiry(ttlSec, actions[m].now), now);
    }
  }

  /** A key that was never claimed is free. */
  lemma VerdictWithoutHistory(ttlSec: int, states: seq<Sys>, actions: seq<Action>, k: Key, i: nat, hash: string, now: DateTime)
    requires IsRun(ttlSec, states, actions) && i <= |actions| && NoEvent(states, actions, k, 0, i) && CanExpire(ttlSec, now)
    ensures Verdict1(ttlSec, states[i], k, hash, now) == Claimed
  {
    NoneShows(ttlSec, states, actions, k, i);
  }

  /** The response at the key's last event, if that completed a request with this hash within the lifetime. */
  ghost predicate ReplaysFrom(ttlSec: int, states: seq<Sys>, actions: seq<Action>, k: Key, m: nat, i: nat, hash: string, now: DateTime,
                              response: Response)
    requires i <= |actions| && |states| == |actions| + 1 && Valid(now)
  {
    && LastEvent(states, actions, k, m, i) && CompletesAt(states, actions, k, m)
    && Valid(actions[m].now) && !Passed(ttlSec, actions[m].now, now)
    && states[m].holders[actions[m].r].hash == hash
    && response == Response(200, EVENT_STREAM, Concat(states[m].holders[actions[m].r].sent))
  }

  /** So a request is given a replay exactly of a stream that was completed for its key and hash, is not older than
      the lifetime, and is the last thing that happened to the key. */
  lemma ReplayExactly(ttlSec: int, states: seq<Sys>, actions: seq<Action>, k: Key, i: nat, hash: string, now: DateTime,
                      response: Response)
    requires IsRun(ttlSec, states, actions) && i <= |actions| && CanExpire(ttlSec, now)
    requires Valid(states[i].clock) && Micros(states[i].clock) <= Micros(now)
    ensures Verdict1(ttlSec, states[i], k, hash, now) == Replay(response) <==>
              exists m :: 0 <= m < i && ReplaysFrom(ttlSec, states, actions, k, m, i, hash, now, response)
  {
    var last := LastOrNone(states, actions, k, i);
    if last.None? {
      VerdictWithoutHistory(ttlSec, states, actions, k, i, hash, now);
    } else {
      VerdictOfHistory(ttlSec, states, actions, k, last.value, i, hash, now);
      if Verdict1(ttlSec, states[i], k, hash, now) == Replay(response) {
        assert ReplaysFrom(ttlSec, states, actions, k, last.value, i, hash, now, response);
      }
    }
    if m :| 0 <= m < i && ReplaysFrom(ttlSec, states, actions, k, m, i, hash, now, response) {
      VerdictOfHistory(ttlSec, states, actions, k, m, i, hash, now);
    }
  }

  /** Once the key's holder has ended, nothing concerns the key before the next claim. */
  lemma {:induction false} EndThenClaim(ttlSec: int, states: seq<Sys>, actions: seq<Action>, k: Key, m: nat, i: nat)
    requires IsRun(ttlSec, states, actions) && m < i <= |actions| && EndsAt(states, actions, k, m)
    requires forall n :: m < n < i ==> !ClaimsAt(states, actions, k, n)
    ensures LastEvent(states, actions, k, m, i)
    decreases i
  {
    if m < i - 1 {
      EndThenClaim(ttlSec, states, actions, k, m, i - 1);
      LastShows(ttlSec, states, actions, k, m, i - 1);
      NotBoth(ttlSec, states, actions, k, m);
      assert !ClaimsAt(states, actions, k, i - 1) && NotHeld(states[i - 1], k);
    }
  }

  lemma NotBoth(ttlSec: int, states: seq<Sys>, actions: seq<Action>, k: Key, m: nat)
    requires IsRun(ttlSec, states, actions) && m < |actions| && EndsAt(states, actions, k, m)
    ensures !ClaimsAt(states, actions, k, m)
  {
  }

  /** The promise to a client: after a stream has ended with its done mark, the same request is answered with all
      its chunks, for one lifetime, unless the key is claimed again. */
  lemma CompletedIsReplayed(ttlSec: int, states: seq<Sys>, actions: seq<Action>, k: Key, j: nat, i: nat, now: DateTime)
    requires IsRun(ttlSec, states, actions) && j < i <= |actions| && CompletesAt(states, actions, k, j)
    requires forall n :: j < n < i ==> !ClaimsAt(states, actions, k, n)
    requires CanExpire(ttlSec, now) && Valid(states[i].clock) && Micros(states[i].clock) <= Micros(now)
    ensures Valid(actions[j].now)
    ensures !Passed(ttlSec, actions[j].now, now) ==>
              var h := states[j].holders[actions[j].r];
              Verdict1(ttlSec, states[i], k, h.hash, now) == Replay(Response(200, EVENT_STREAM, Concat(h.sent)))
  {
    EndThenClaim(ttlSec, states, actions, k, j, i);
    VerdictOfHistory(ttlSec, states, actions, k, j, i, states[j].holders[actions[j].r].hash, now);
  }

  /** And after a stream that broke off, or ended without one, any request gets the key. */
  lemma BrokenIsFree(ttlSec: int, states: seq<Sys>, actions: seq<Action>, k: Key, j: nat, i: nat, hash: string, now: DateTime)
    requires IsRun(ttlSec, states, actions) && j < i <= |actions|
    requires EndsAt(states, actions, k, j) && !CompletesAt(states, actions, k, j)
    requires forall n :: j < n < i ==> !ClaimsAt(states, actions, k, n)
    requires CanExpire(ttlSec, now) && Valid(states[i].clock) && Micros(states[i].clock) <= Micros(now)
    ensures Verdict1(ttlSec, states[i], k, hash, now) == Claimed
  {
    EndThenClaim(ttlSec, states, actions, k, j, i);
    VerdictOfHistory(ttlSec, states, actions, k, j, i, hash, now);
  }

  // ---------- the chunks, told from the actions ----------

  /** The chunks of a request's sends, in order. */
  function SentBy(actions: seq<Action>, r: RequestId): seq<string> {
    if actions == [] then []
    else
      var n := |actions| - 1;
      SentBy(actions[..n], r) + if actions[n].Send? && actions[n].r == r then [actions[n].chunk] else []
  }

  /** Between c and i the request does nothing but sending. */
  ghost predicate OnlySends(actions: seq<Action>, r: RequestId, c: nat, i: nat)
    requires i <= |actions|
  {
    forall n :: c < n < i ==> actions[n].Send? || actions[n].r != r
  }

  /** The request became the holder of its key at action c, and has done nothing but sending from then to i. */
  ghost predicate HoldsSince(states: seq<Sys>, actions: seq<Action>, r: RequestId, k: Key, hash: string, c: nat, i: nat)
    requires i <= |actions| && |states| == |actions| + 1
  {
    && c < i && ClaimsAt(states, actions, k, c) && actions[c].r == r && actions[c].hash == hash
    && OnlySends(actions, r, c, i)
  }

  /** What the table of holders says of a request. */
  function HolderIn(s: Sys, r: RequestId): Option<Holder> { if r in s.holders then Some(s.holders[r]) else None }

  /** What one action may make of it. */
  ghost predicate HolderGoes(before: Option<Holder>, a: Action, after: Option<Holder>, r: RequestId) {
    && (before.Some? && (a.Send? || a.r != r) ==> after.Some?)
    && (after.Some? ==>
          if before.Some? then
            && (a.Send? || a.r != r) && after.value.k == before.value.k && after.value.hash == before.value.hash
            && after.value.sent == before.value.sent + if a.Send? && a.r == r then [a.chunk] else []
          else a.Request? && a.r == r && after.value.k == a.k && after.value.hash == a.hash && after.value.sent == [])
  }

  lemma HolderStep(ttlSec: int, s: Sys, a: Action, s': Sys, r: RequestId)
    requires Steps(ttlSec, s, a, s')
    ensures HolderGoes(HolderIn(s, r), a, HolderIn(s', r), r)
  {
  }

  /** A request through a run. */
  ghost predicate Traced(hs: seq<Option<Holder>>, actions: seq<Action>, r: RequestId) {
    |hs| == |actions| + 1 && hs[0].None? && forall i :: 0 <= i < |actions| ==> HolderGoes(hs[i], actions[i], hs[i + 1], r)
  }

  lemma Trace(ttlSec: int, states: seq<Sys>, actions: seq<Action>, r: RequestId) returns (hs: seq<Option<Holder>>)
    requires IsRun(ttlSec, states, actions)
    ensures Traced(hs, actions, r) && forall i :: 0 <= i <= |actions| ==> hs[i] == HolderIn(states[i], r)
  {
    hs := seq(|states|, i requires 0 <= i < |states| => HolderIn(states[i], r));
    forall i | 0 <= i < |actions|
      ensures HolderGoes(hs[i], actions[i], hs[i + 1], r)
    {
      HolderStep(ttlSec, states[i], actions[i], states[i + 1], r);
    }
  }

  lemma SentSnoc(actions: seq<Action>, r: RequestId, c: nat, i: nat)
    requires c < i <= |actions|
    ensures SentBy(actions[c..i], r) ==
              SentBy(actions[c..i - 1], r) + if actions[i - 1].Send? && actions[i - 1].r == r then [actions[i - 1].chunk] else []
  {
    assert actions[c..i][..i - 1 - c] == actions[c..i - 1];
  }

  lemma {:induction false} TracedSent(hs: seq<Option<Holder>>, actions: seq<Action>, r: RequestId, c: nat, i: nat)
    requires Traced(hs, actions, r) && c < i <= |actions| && OnlySends(actions, r, c, i)
    requires actions[c].Request? && actions[c].r == r && hs[c + 1].Some?
    ensures hs[i].Some? && hs[i].value.k == actions[c].k && hs[i].value.hash == actions[c].hash
    ensures hs[i].value.sent == SentBy(actions[c..i], r)
    decreases i
  {
    assert HolderGoes(hs[i - 1], actions[i - 1], hs[i], r);
    SentSnoc(actions, r, c, i);
    if c == i - 1 {
      assert actions[c..c] == [];
    } else {
      TracedSent(hs, actions, r, c, i - 1);
    }
  }

  lemma {:induction false} TracedClaim(hs: seq<Option<Holder>>, actions: seq<Action>, r: RequestId, i: nat) returns (c: nat)
    requires Traced(hs, actions, r) && i <= |actions| && hs[i].Some?
    ensures c < i && OnlySends(actions, r, c, i) && actions[c].Request? && actions[c].r == r && hs[c + 1].Some?
    ensures hs[i].value.k == actions[c].k && hs[i].value.hash == actions[c].hash
    decreases i
  {
    assert HolderGoes(hs[i - 1], actions[i - 1], hs[i], r);
    if hs[i - 1].Some? {
      c := TracedClaim(hs, actions, r, i - 1);
    } else {
      c := i - 1;
    }
  }

  /** What a holder has sent are the chunks of its sends since its claim. */
  lemma HolderHasSent(ttlSec: int, states: seq<Sys>, actions: seq<Action>, r: RequestId, k: Key, hash: string, c: nat, i: nat)
    requires IsRun(ttlSec, states, actions) && i <= |actions| && HoldsSince(states, actions, r, k, hash, c, i)
    ensures r in states[i].holders
    ensures states[i].holders[r].k == k && states[i].holders[r].hash == hash && states[i].holders[r].sent == SentBy(actions[c..i], r)
  {
    var hs := Trace(ttlSec, states, actions, r);
    assert hs[c + 1] == HolderIn(states[c + 1], r) && hs[i] == HolderIn(states[i], r);
    TracedSent(hs, actions, r, c, i);
  }

  /** Every holder became one, and has only sent since. */
  lemma HolderHasClaimed(ttlSec: int, states: seq<Sys>, actions: seq<Action>, r: RequestId, i: nat) returns (c: nat)
    requires IsRun(ttlSec, states, actions) && i <= |actions| && r in states[i].holders
    ensures HoldsSince(states, actions, r, states[i].holders[r].k, states[i].holders[r].hash, c, i)
  {
    var hs := Trace(ttlSec, states, actions, r);
    assert hs[i] == HolderIn(states[i], r);
    c := TracedClaim(hs, actions, r, i);
    assert hs[c + 1] == HolderIn(states[c + 1], r);
  }

  /** The stream that a request with this hash began at c and ended at m, with these chunks, a done mark among them. */
  ghost predicate Streamed(states: seq<Sys>, actions: seq<Action>, k: Key, hash: string, c: nat, m: nat, chunks: seq<string>)
    requires m < |actions| && |states| == |actions| + 1
  {
    && c < m && actions[m].Finish? && HoldsSince(states, actions, actions[m].r, k, hash, c, m)
    && chunks == SentBy(actions[c..m], actions[m].r) && SawDone(chunks)
  }

  ghost predicate ReplaysStream(ttlSec: int, states: seq<Sys>, actions: seq<Action>, k: Key, hash: string, now: DateTime,
                                c: nat, m: nat, i: nat, chunks: seq<string>)
    requires i <= |actions| && |states| == |actions| + 1 && Valid(now)
  {
    && LastEvent(states, actions, k, m, i) && Streamed(states, actions, k, hash, c, m, chunks)
    && Valid(actions[m].now) && !Passed(ttlSec, actions[m].now, now)
  }

  lemma StreamedCompletes(ttlSec: int, states: seq<Sys>, actions: seq<Action>, k: Key, hash: string, c: nat, m: nat, chunks: seq<string>)
    requires IsRun(ttlSec, states, actions) && m < |actions| && Streamed(states, actions, k, hash, c, m, chunks)
    ensures CompletesAt(states, actions, k, m)
    ensures var h := states[m].holders[actions[m].r]; h.hash == hash && h.sent == chunks
  {
    HolderHasSent(ttlSec, states, actions, actions[m].r, k, hash, c, m);
  }

  lemma CompletedWasStreamed(ttlSec: int, states: seq<Sys>, actions: seq<Action>, k: Key, m: nat) returns (c: nat)
    requires IsRun(ttlSec, states, actions) && m < |actions| && CompletesAt(states, actions, k, m)
    ensures var h := states[m].holders[actions[m].r]; Streamed(states, actions, k, h.hash, c, m, h.sent)
  {
    var r := actions[m].r;
    c := HolderHasClaimed(ttlSec, states, actions, r, m);
    HolderHasSent(ttlSec, states, actions, r, k, states[m].holders[r].hash, c, m);
  }

  /** A replay, told from the actions: it gives the chunks that were sent between the claim and the end of the stream. */
  lemma ReplayOfStream(ttlSec: int, states: seq<Sys>, actions: seq<Action>, k: Key, i: nat, hash: string, now: DateTime,
                       response: Response)
    requires IsRun(ttlSec, states, actions) && i <= |actions| && CanExpire(ttlSec, now)
    requires Valid(states[i].clock) && Micros(states[i].clock) <= Micros(now)
    ensures Verdict1(ttlSec, states[i], k, hash, now) == Replay(response) <==>
              exists c: nat, m: nat, chunks ::
                ReplaysStream(ttlSec, states, actions, k, hash, now, c, m, i, chunks)
                && response == Response(200, EVENT_STREAM, Concat(chunks))
  {
    ReplayExactly(ttlSec, states, actions, k, i, hash, now, response);
    if Verdict1(ttlSec, states[i], k, hash, now) == Replay(response) {
      var m: nat :| m < i && ReplaysFrom(ttlSec, states, actions, k, m, i, hash, now, response);
      var c := CompletedWasStreamed(ttlSec, states, actions, k, m);
      assert ReplaysStream(ttlSec, states, actions, k, hash, now, c, m, i, states[m].holders[actions[m].r].sent);
    }
    if c: nat, m: nat, chunks :|
      ReplaysStream(ttlSec, states, actions, k, hash, now, c, m, i, chunks) && response == Response(200, EVENT_STREAM, Concat(chunks))
    {
      StreamedCompletes(ttlSec, states, actions, k, hash, c, m, chunks);
      assert ReplaysFrom(ttlSec, states, actions, k, m, i, hash, now, response);
    }
  }
}
