/** The in-process supervisor: one cancel token per execution id, made on first use and dropped on release. */
module SandboxSupervisor {
  /** threading.Event, with the number of its making. */
  class CancelEvent {
    ghost const token: nat
    var flag: bool

    constructor (ghost token: nat)
      ensures this.token == token && !flag
    {
      this.token := token;
      flag := false;
    }
  }

  /** The tokens in the table, those that have been set, and how many were ever made. */
  datatype Control = Control(tokens: map<string, nat>, raised: set<nat>, made: nat)

  datatype Call = Register(id: string) | RequestCancel(id: string) | Release(id: string)

  /** setdefault: the token in the table, or a new one. */
  function TokenFor(c: Control, id: string): nat {
    if id in c.tokens then c.tokens[id] else c.made
  }

  function WithToken(c: Control, id: string): Control {
    if id in c.tokens then c else Control(c.tokens[id := c.made], c.raised, c.made + 1)
  }

  function Called(c: Control, call: Call): Control {
    match call
    case Register(id) => WithToken(c, id)
    case RequestCancel(id) => WithToken(c, id).(raised := c.raised + {TokenFor(c, id)})
    case Release(id) => c.(tokens := c.tokens - {id})
  }

  class InProcessCodeSandboxSupervisor {
    var cancelEvents: map<string, CancelEvent>
    ghost var raised: set<nat>
    ghost var made: nat

    ghost predicate Valid()
      reads this, cancelEvents.Values
    {
      && (forall id :: id in cancelEvents ==> cancelEvents[id].token < made)
      && (forall id, other ::
            id in cancelEvents && other in cancelEvents && cancelEvents[id].token == cancelEvents[other].token ==> id == other)
      && (forall id :: id in cancelEvents ==> (cancelEvents[id].flag <==> cancelEvents[id].token in raised))
      && (forall t :: t in raised ==> t < made)
    }

    ghost function State(): Control
      reads this, cancelEvents.Values
    {
      Control(map id | id in cancelEvents :: cancelEvents[id].token, raised, made)
    }

    constructor ()
      ensures Valid() && State() == Control(map[], {}, 0)
    {
      cancelEvents, raised, made := map[], {}, 0;
    }

    /** The event of an id, made if there is none. Its flag is what the returned callable of the source reads. */
    method RegisterExecution(id: string) returns (event: CancelEvent)
      requires Valid()
      modifies this
      ensures Valid() && State() == Called(old(State()), Register(id))
      ensures id in cancelEvents && event == cancelEvents[id]
      ensures event.token == TokenFor(old(State()), id)
      ensures if id in old(cancelEvents) then event == old(cancelEvents[id]) else fresh(event)
    {
      if id in cancelEvents {
        return cancelEvents[id];
      }
      event := new CancelEvent(made);
      TokensWith(cancelEvents, id, event);
      cancelEvents := cancelEvents[id := event];
      made := made + 1;
    }

    method RequestCancelOf(id: string)
      requires Valid()
      modifies this, cancelEvents.Values
      ensures Valid() && State() == Called(old(State()), RequestCancel(id))
      ensures id in cancelEvents && cancelEvents[id].flag
    {
      var event := RegisterExecution(id);
      event.flag := true;
      raised := raised + {event.token};
    }

    method ReleaseExecution(id: string)
      requires Valid()
      modifies this`cancelEvents
      ensures Valid() && State() == Called(old(State()), Release(id))
    {
      cancelEvents := cancelEvents - {id};
      TokensWithout(old(cancelEvents), id);
    }
  }

  lemma TokensWith(events: map<string, CancelEvent>, id: string, event: CancelEvent)
    ensures var more := events[id := event];
            (map o | o in more :: more[o].token) == (map o | o in events :: events[o].token)[id := event.token]
  {
  }

  lemma TokensWithout(events: map<string, CancelEvent>, id: string)
    ensures var rest := events - {id};
            (map o | o in rest :: rest[o].token) == (map o | o in events :: events[o].token) - {id}
  {
  }

  // ---------- which requests a run of the executor sees ----------

  function CalledAll(c: Control, calls: seq<Call>): Control {
    if calls == [] then c else Called(CalledAll(c, calls[..|calls| - 1]), calls[|calls| - 1])
  }

  const EMPTY := Control(map[], {}, 0)

  /** Position of the last release of an id, counted from one; zero if there was none. */
  function LastRelease(calls: seq<Call>, id: string): (n: nat)
    ensures n <= |calls|
  {
    if calls == [] then 0
    else if calls[|calls| - 1] == Release(id) then |calls|
    else LastRelease(calls[..|calls| - 1], id)
  }

  /** A request for the id since its last release. */
  ghost predicate Asked(calls: seq<Call>, id: string) {
    exists k :: LastRelease(calls, id) <= k < |calls| && calls[k] == RequestCancel(id)
  }

  ghost predicate Sound(c: Control) {
    && (forall id :: id in c.tokens ==> c.tokens[id] < c.made)
    && (forall id, other :: id in c.tokens && other in c.tokens && c.tokens[id] == c.tokens[other] ==> id == other)
    && (forall t :: t in c.raised ==> t < c.made)
  }

  lemma {:induction false} CallsKeepSound(calls: seq<Call>)
    ensures Sound(CalledAll(EMPTY, calls))
  {
    if calls != [] {
      CallsKeepSound(calls[..|calls| - 1]);
    }
  }

  lemma AskedSnoc(calls: seq<Call>, call: Call, id: string)
    ensures Asked(calls + [call], id) <==> call != Release(id) && (call == RequestCancel(id) || Asked(calls, id))
  {
    var more := calls + [call];
    assert more[..|calls|] == calls;
    if call != Release(id) {
      assert LastRelease(more, id) == LastRelease(calls, id);
      if call == RequestCancel(id) {
        assert more[|calls|] == RequestCancel(id);
      }
      if Asked(calls, id) {
        var k :| LastRelease(calls, id) <= k < |calls| && calls[k] == RequestCancel(id);
        assert more[k] == RequestCancel(id);
      }
    }
  }

  /** After any calls, the token of an id is set exactly when a cancel was requested for that id since its last
      release, before or after the executor registered, and whatever happened to other ids. */
  lemma {:induction false} TokenTellsRequests(calls: seq<Call>, id: string)
    ensures var c := CalledAll(EMPTY, calls);
            Asked(calls, id) <==> id in c.tokens && c.tokens[id] in c.raised
  {
    if calls != [] {
      var n := |calls| - 1;
      TokenTellsRequests(calls[..n], id);
      CallsKeepSound(calls[..n]);
      assert calls == calls[..n] + [calls[n]];
      AskedSnoc(calls[..n], calls[n], id);
      CallSetsToken(CalledAll(EMPTY, calls[..n]), calls[n], id);
    }
  }

  ghost predicate IsSet(c: Control, id: string) { id in c.tokens && c.tokens[id] in c.raised }

  lemma CallSetsToken(c: Control, call: Call, id: string)
    requires Sound(c)
    ensures IsSet(Called(c, call), id) <==> call != Release(id) && (call == RequestCancel(id) || IsSet(c, id))
  {
  }

  /** The token is in nobody's hands, and no new token will have its number. */
  ghost predicate Retired(c: Control, t: nat) {
    t < c.made && forall id :: id in c.tokens ==> c.tokens[id] != t
  }

  lemma RetiredStays(c: Control, call: Call, t: nat)
    requires Retired(c, t)
    ensures Retired(Called(c, call), t) && (t in Called(c, call).raised <==> t in c.raised)
  {
  }

  lemma ReleaseRetires(c: Control, id: string)
    requires Sound(c) && id in c.tokens
    ensures Retired(Called(c, Release(id)), c.tokens[id])
  {
  }

  lemma CalledSnoc(calls: seq<Call>, call: Call)
    ensures CalledAll(EMPTY, calls + [call]) == Called(CalledAll(EMPTY, calls), call)
  {
    assert (calls + [call])[..|calls|] == calls;
  }

  /** A token handed out before a release is not set by anything that comes after it. */
  lemma {:induction false} StaleTokenStays(calls: seq<Call>, id: string, later: seq<Call>)
    requires id in CalledAll(EMPTY, calls).tokens
    ensures var t := CalledAll(EMPTY, calls).tokens[id];
            var c := CalledAll(EMPTY, calls + [Release(id)] + later);
            Retired(c, t) && (t in c.raised <==> t in CalledAll(EMPTY, calls).raised)
  {
    var before := CalledAll(EMPTY, calls);
    if later == [] {
      CallsKeepSound(calls);
      ReleaseRetires(before, id);
      CalledSnoc(calls, Release(id));
      assert calls + [Release(id)] + [] == calls + [Release(id)];
    } else {
      var n := |later| - 1;
      StaleTokenStays(calls, id, later[..n]);
      assert calls + [Release(id)] + later == (calls + [Release(id)] + later[..n]) + [later[n]];
      CalledSnoc(calls + [Release(id)] + later[..n], later[n]);
      RetiredStays(CalledAll(EMPTY, calls + [Release(id)] + later[..n]), later[n], before.tokens[id]);
    }
  }
}
