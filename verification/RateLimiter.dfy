/** The sliding-window rate limiter: a pruned, sorted bucket of timestamps per key, the pure policy, and the
    limiter that reads, decides and writes back. Times are seconds as reals. */
module RateLimiter {

  type Buckets = map<string, seq<real>>

  // ---------- the policy ----------

  datatype Decision = Decision(allowed: bool, retryAfter: int)

  datatype Policy = Policy(windowSec: int, maxRequests: int) {
    /** What the policy's own construction check enforces. */
    predicate Valid() { windowSec > 0 && maxRequests > 0 }

    function Window(): real { windowSec as real }
  }

  ghost predicate Ordered(s: seq<real>) {
    forall i, j :: 0 <= i < j < |s| ==> s[i] <= s[j]
  }

  function Insert(t: real, s: seq<real>): (r: seq<real>)
    ensures |r| == |s| + 1
  {
    if s == [] || t <= s[0] then [t] + s else [s[0]] + Insert(t, s[1..])
  }

  function Sorted(s: seq<real>): (r: seq<real>)
    ensures |r| == |s|
  {
    if s == [] then [] else Insert(s[0], Sorted(s[1..]))
  }

  /** The timestamps still inside the window at `now`. */
  function InWindow(s: seq<real>, now: real, window: real): seq<real> {
    if s == [] then []
    else if now - s[0] < window then [s[0]] + InWindow(s[1..], now, window)
    else InWindow(s[1..], now, window)
  }

  function AtLeastOne(x: int): int { if x < 1 then 1 else x }

  /** Python's int(): truncation toward zero. */
  function Truncate(x: real): int {
    if x >= 0.0 then x.Floor else -(-x).Floor
  }

  function Decide(p: Policy, observed: seq<real>, now: real): (d: Decision)
    requires p.Valid()
    ensures d.allowed ==> d.retryAfter == 0
    ensures !d.allowed ==> d.retryAfter >= 1
  {
    var windowed := Sorted(InWindow(observed, now, p.Window()));
    if |windowed| >= p.maxRequests
    then Decision(false, AtLeastOne(Truncate(windowed[0] + p.Window() - now)))
    else Decision(true, 0)
  }

  // ---------- store and limiter ----------

  /** Drop timestamps from the front while they are out of the window. */
  function Pruned(s: seq<real>, cutoff: real): seq<real> {
    if s != [] && s[0] <= cutoff then Pruned(s[1..], cutoff) else s
  }

  function Bucket(b: Buckets, key: string): seq<real> {
    if key in b then b[key] else []
  }

  /** One evaluation: the decision, and the buckets afterwards. */
  function Evaluated(p: Policy, b: Buckets, key: string, now: real): (Decision, Buckets)
    requires p.Valid()
  {
    var kept := Pruned(Bucket(b, key), now - p.Window());
    var d := Decide(p, kept, now);
    (d, b[key := if d.allowed then Sorted(kept + [now]) else kept])
  }

  class InMemorySlidingWindowRateLimitStore {
    var timestampsByKey: Buckets

    constructor ()
      ensures timestampsByKey == map[]
    {
      timestampsByKey := map[];
    }

    method GetTimestamps(key: string, now: real, windowSec: int) returns (active: seq<real>)
      modifies this
      ensures active == Pruned(Bucket(old(timestampsByKey), key), now - windowSec as real)
      ensures timestampsByKey == old(timestampsByKey)[key := active]
    {
      var bucket := Bucket(timestampsByKey, key);
      var cutoff := now - windowSec as real;
      while bucket != [] && bucket[0] <= cutoff
        invariant Pruned(bucket, cutoff) == Pruned(Bucket(old(timestampsByKey), key), cutoff)
        decreases |bucket|
      {
        bucket := bucket[1..];
      }
      timestampsByKey := timestampsByKey[key := bucket];
      active := bucket;
    }

    method ReplaceTimestamps(key: string, timestamps: seq<real>)
      modifies this
      ensures timestampsByKey == old(timestampsByKey)[key := Sorted(timestamps)]
    {
      timestampsByKey := timestampsByKey[key := Sorted(timestamps)];
    }
  }

  class StoredSlidingWindowRateLimiter {
    const policy: Policy
    const store: InMemorySlidingWindowRateLimitStore

    constructor (policy: Policy, store: InMemorySlidingWindowRateLimitStore)
      ensures this.policy == policy && this.store == store
    {
      this.policy := policy;
      this.store := store;
    }

    method Evaluate(key: string, now: real) returns (d: Decision)
      requires policy.Valid()
      modifies store
      ensures (d, store.timestampsByKey) == Evaluated(policy, old(store.timestampsByKey), key, now)
    {
      var timestamps := store.GetTimestamps(key, now, policy.windowSec);
      d := Decide(policy, timestamps, now);
      if d.allowed {
        ghost var before := old(store.timestampsByKey);
        store.ReplaceTimestamps(key, timestamps + [now]);
        assert before[key := timestamps][key := Sorted(timestamps + [now])] == before[key := Sorted(timestamps + [now])];
      }
    }
  }

  // ---------- the full history ----------

  datatype Request = Request(key: string, now: real)

  /** The decisions of a run of evaluations, one after the other. */
  function Decisions(p: Policy, b: Buckets, requests: seq<Request>): seq<Decision>
    requires p.Valid()
    decreases |requests|
  {
    if requests == [] then []
    else
      var (d, b') := Evaluated(p, b, requests[0].key, requests[0].now);
      [d] + Decisions(p, b', requests[1..])
  }

  /** The same with every admission remembered for ever. */
  function Admit(p: Policy, h: Buckets, key: string, now: real): (Decision, Buckets)
    requires p.Valid()
  {
    var d := Decide(p, Bucket(h, key), now);
    (d, if d.allowed then h[key := Bucket(h, key) + [now]] else h)
  }

  function Reference(p: Policy, h: Buckets, requests: seq<Request>): seq<Decision>
    requires p.Valid()
    decreases |requests|
  {
    if requests == [] then []
    else
      var (d, h') := Admit(p, h, requests[0].key, requests[0].now);
      [d] + Reference(p, h', requests[1..])
  }

  /** The admissions of a run. */
  function Admitted(p: Policy, h: Buckets, requests: seq<Request>): Buckets
    requires p.Valid()
    decreases |requests|
  {
    if requests == [] then h else Admitted(p, Admit(p, h, requests[0].key, requests[0].now).1, requests[1..])
  }

  /** The clock never goes back, and starts no earlier than `from`. */
  ghost predicate Clock(requests: seq<Request>, from: real)
    decreases |requests|
  {
    requests == [] || (from <= requests[0].now && Clock(requests[1..], requests[0].now))
  }

  // ---------- sorting and pruning ----------

  lemma {:induction false} SortedOfOrdered(s: seq<real>)
    requires Ordered(s)
    ensures Sorted(s) == s
  {
    if s != [] {
      SortedOfOrdered(s[1..]);
    }
  }

  /** On ordered times, pruning the front and filtering are the same: both leave a suffix. */
  lemma {:induction false} WindowIsPruned(s: seq<real>, now: real, window: real)
    requires Ordered(s)
    ensures InWindow(s, now, window) == Pruned(s, now - window)
  {
    if s != [] {
      WindowIsPruned(s[1..], now, window);
      if s[0] > now - window {
        AllInWindow(s, now, window);
      }
    }
  }

  lemma {:induction false} AllInWindow(s: seq<real>, now: real, window: real)
    requires forall i :: 0 <= i < |s| ==> s[i] > now - window
    ensures InWindow(s, now, window) == s
  {
    if s != [] {
      AllInWindow(s[1..], now, window);
    }
  }

  /** How many of the ordered times are at most x. */
  function AtMost(s: seq<real>, x: real): (n: nat)
    ensures n <= |s|
  {
    if s == [] || s[0] > x then 0 else 1 + AtMost(s[1..], x)
  }

  lemma {:induction false} AtMostSplits(s: seq<real>, x: real, i: nat)
    requires Ordered(s) && i < |s|
    ensures i < AtMost(s, x) <==> s[i] <= x
  {
    if i > 0 {
      if s[0] <= x {
        AtMostSplits(s[1..], x, i - 1);
      }
    }
  }

  lemma {:induction false} PrunedIsSuffix(s: seq<real>, cutoff: real)
    ensures Pruned(s, cutoff) == s[AtMost(s, cutoff)..]
  {
    if s != [] && s[0] <= cutoff {
      PrunedIsSuffix(s[1..], cutoff);
    }
  }

  lemma {:induction false} PrunedTwice(s: seq<real>, early: real, late: real)
    requires early <= late
    ensures Pruned(Pruned(s, early), late) == Pruned(s, late)
  {
    if s != [] && s[0] <= early {
      PrunedTwice(s[1..], early, late);
    }
  }

  lemma {:induction false} PrunedSnoc(s: seq<real>, cutoff: real, now: real)
    requires cutoff < now
    ensures Pruned(s + [now], cutoff) == Pruned(s, cutoff) + [now]
  {
    if s != [] && s[0] <= cutoff {
      assert (s + [now])[1..] == s[1..] + [now];
      PrunedSnoc(s[1..], cutoff, now);
    }
  }

  lemma OrderedSuffix(s: seq<real>, cutoff: real)
    requires Ordered(s)
    ensures Ordered(Pruned(s, cutoff))
  {
    PrunedIsSuffix(s, cutoff);
  }

  lemma OrderedSnoc(s: seq<real>, now: real)
    requires Ordered(s) && (s == [] || s[|s| - 1] <= now)
    ensures Ordered(s + [now])
  {
  }

  /** On ordered times a decision looks only at what pruning leaves. */
  lemma DecideOnPruned(p: Policy, s: seq<real>, now: real)
    requires p.Valid() && Ordered(s)
    ensures Decide(p, Pruned(s, now - p.Window()), now) == Decide(p, s, now)
  {
    var kept := Pruned(s, now - p.Window());
    OrderedSuffix(s, now - p.Window());
    WindowIsPruned(s, now, p.Window());
    WindowIsPruned(kept, now, p.Window());
    PrunedTwice(s, now - p.Window(), now - p.Window());
  }

  // ---------- pruning loses nothing ----------

  /** The history of a key: ordered, and not after the clock. */
  ghost predicate Past(s: seq<real>, last: real) {
    Ordered(s) && (s != [] ==> s[|s| - 1] <= last)
  }

  /** A bucket is its history, pruned at some moment that has passed. */
  ghost predicate PrunedAt(bucket: seq<real>, history: seq<real>, cutoff: real) {
    bucket == Pruned(history, cutoff)
  }

  ghost predicate Agrees(p: Policy, bucket: seq<real>, history: seq<real>, last: real) {
    Past(history, last) && exists cutoff :: cutoff <= last - p.Window() && PrunedAt(bucket, history, cutoff)
  }

  ghost predicate Agree(p: Policy, b: Buckets, h: Buckets, last: real) {
    forall key :: Agrees(p, Bucket(b, key), Bucket(h, key), last)
  }

  lemma KeptStep(p: Policy, bucket: seq<real>, history: seq<real>, cutoff: real, last: real, now: real)
    requires p.Valid() && Past(history, last) && last <= now
    requires cutoff <= last - p.Window() && PrunedAt(bucket, history, cutoff)
    ensures var kept := Pruned(bucket, now - p.Window());
            Decide(p, kept, now) == Decide(p, history, now) && PrunedAt(kept, history, now - p.Window())
  {
    PrunedTwice(history, cutoff, now - p.Window());
    DecideOnPruned(p, history, now);
  }

  lemma AdmittedStep(history: seq<real>, kept: seq<real>, edge: real, last: real, now: real)
    requires Past(history, last) && last <= now && edge < now && PrunedAt(kept, history, edge)
    ensures PrunedAt(Sorted(kept + [now]), history + [now], edge)
    ensures Past(history + [now], now)
  {
    PrunedSnoc(history, edge, now);
    OrderedSnoc(history, now);
    OrderedSuffix(history + [now], edge);
    SortedOfOrdered(kept + [now]);
  }

  lemma BucketStep(p: Policy, bucket: seq<real>, history: seq<real>, cutoff: real, last: real, now: real)
    requires p.Valid() && Past(history, last) && last <= now
    requires cutoff <= last - p.Window() && PrunedAt(bucket, history, cutoff)
    ensures var kept := Pruned(bucket, now - p.Window());
            && Decide(p, kept, now) == Decide(p, history, now)
            && PrunedAt(kept, history, now - p.Window())
            && PrunedAt(Sorted(kept + [now]), history + [now], now - p.Window())
            && Past(history + [now], now)
  {
    KeptStep(p, bucket, history, cutoff, last, now);
    AdmittedStep(history, Pruned(bucket, now - p.Window()), now - p.Window(), last, now);
  }

  lemma AgreesLater(p: Policy, bucket: seq<real>, history: seq<real>, last: real, now: real)
    requires Agrees(p, bucket, history, last) && last <= now
    ensures Agrees(p, bucket, history, now)
  {
    var cutoff :| cutoff <= last - p.Window() && PrunedAt(bucket, history, cutoff);
    assert cutoff <= now - p.Window();
  }

  lemma BucketAgrees(p: Policy, bucket: seq<real>, history: seq<real>, last: real, now: real)
    requires p.Valid() && Agrees(p, bucket, history, last) && last <= now
    ensures var kept := Pruned(bucket, now - p.Window());
            && Decide(p, kept, now) == Decide(p, history, now)
            && Agrees(p, kept, history, now)
            && Agrees(p, Sorted(kept + [now]), history + [now], now)
  {
    var cutoff :| cutoff <= last - p.Window() && PrunedAt(bucket, history, cutoff);
    BucketStep(p, bucket, history, cutoff, last, now);
  }

  /** Evaluation touches one bucket and one history. */
  lemma OtherKeys(p: Policy, b: Buckets, h: Buckets, key: string, now: real, k: string)
    requires p.Valid() && k != key
    ensures Bucket(Evaluated(p, b, key, now).1, k) == Bucket(b, k)
    ensures Bucket(Admit(p, h, key, now).1, k) == Bucket(h, k)
  {
  }

  lemma ThisKey(p: Policy, b: Buckets, h: Buckets, key: string, now: real, last: real)
    requires p.Valid() && Agrees(p, Bucket(b, key), Bucket(h, key), last) && last <= now
    ensures Evaluated(p, b, key, now).0 == Admit(p, h, key, now).0
    ensures Agrees(p, Bucket(Evaluated(p, b, key, now).1, key), Bucket(Admit(p, h, key, now).1, key), now)
  {
    BucketAgrees(p, Bucket(b, key), Bucket(h, key), last, now);
  }

  lemma StepAgrees(p: Policy, b: Buckets, h: Buckets, key: string, now: real, last: real)
    requires p.Valid() && Agree(p, b, h, last) && last <= now
    ensures Evaluated(p, b, key, now).0 == Admit(p, h, key, now).0
    ensures Agree(p, Evaluated(p, b, key, now).1, Admit(p, h, key, now).1, now)
  {
    assert Agrees(p, Bucket(b, key), Bucket(h, key), last);
    ThisKey(p, b, h, key, now, last);
    var b', h' := Evaluated(p, b, key, now).1, Admit(p, h, key, now).1;
    forall k
      ensures Agrees(p, Bucket(b', k), Bucket(h', k), now)
    {
      if k != key {
        assert Agrees(p, Bucket(b, k), Bucket(h, k), last);
        AgreesLater(p, Bucket(b, k), Bucket(h, k), last, now);
        OtherKeys(p, b, h, key, now, k);
      }
    }
  }

  lemma {:induction false} RunAgrees(p: Policy, b: Buckets, h: Buckets, requests: seq<Request>, last: real)
    requires p.Valid() && Agree(p, b, h, last) && Clock(requests, last)
    ensures Decisions(p, b, requests) == Reference(p, h, requests)
    decreases |requests|
  {
    if requests != [] {
      var r := requests[0];
      StepAgrees(p, b, h, r.key, r.now, last);
      RunAgrees(p, Evaluated(p, b, r.key, r.now).1, Admit(p, h, r.key, r.now).1, requests[1..], r.now);
    }
  }

  /** The pruned buckets decide every request of every run as the full history of admissions would. */
  lemma PruningLosesNothing(p: Policy, requests: seq<Request>, from: real)
    requires p.Valid() && Clock(requests, from)
    ensures Decisions(p, map[], requests) == Reference(p, map[], requests)
  {
    forall key
      ensures Agrees(p, Bucket(map[], key), Bucket(map[], key), from)
    {
      assert PrunedAt(Bucket(map[], key), Bucket(map[], key), from - p.Window());
    }
    RunAgrees(p, map[], map[], requests, from);
  }

  // ---------- no window is ever overfull ----------

  /** Admissions in the half-open window (lo, hi]. */
  function CountIn(s: seq<real>, lo: real, hi: real): nat {
    if s == [] then 0 else (if lo < s[0] <= hi then 1 else 0) + CountIn(s[1..], lo, hi)
  }

  /** Admissions that are `maxRequests` apart in the list are a window apart in time. */
  ghost predicate Spaced(p: Policy, s: seq<real>)
    requires p.Valid()
  {
    forall i :: 0 <= i < |s| - p.maxRequests ==> SpacedAt(p, s, i)
  }

  ghost predicate SpacedAt(p: Policy, s: seq<real>, i: int)
    requires p.Valid() && 0 <= i && i + p.maxRequests < |s|
  {
    s[i] + p.Window() <= s[i + p.maxRequests]
  }

  lemma DecideByCount(p: Policy, s: seq<real>, now: real)
    requires p.Valid() && Ordered(s)
    ensures Decide(p, s, now).allowed <==> |s| - AtMost(s, now - p.Window()) < p.maxRequests
    ensures !Decide(p, s, now).allowed ==>
              && AtMost(s, now - p.Window()) < |s|
              && Decide(p, s, now).retryAfter == AtLeastOne(Truncate(s[AtMost(s, now - p.Window())] + p.Window() - now))
  {
    var edge := now - p.Window();
    WindowIsPruned(s, now, p.Window());
    OrderedSuffix(s, edge);
    SortedOfOrdered(Pruned(s, edge));
    PrunedIsSuffix(s, edge);
  }

  lemma AdmitKeepsSpaced(p: Policy, s: seq<real>, now: real)
    requires p.Valid() && Past(s, now) && Spaced(p, s) && Decide(p, s, now).allowed
    ensures Spaced(p, s + [now])
  {
    DecideByCount(p, s, now);
    forall i | 0 <= i < |s + [now]| - p.maxRequests
      ensures SpacedAt(p, s + [now], i)
    {
      if i < |s| - p.maxRequests {
        assert SpacedAt(p, s, i);
      } else {
        AtMostSplits(s, now - p.Window(), i);
      }
    }
  }

  lemma {:induction false} NoneAfter(s: seq<real>, lo: real, hi: real)
    requires forall i :: 0 <= i < |s| ==> s[i] > hi
    ensures CountIn(s, lo, hi) == 0
  {
    if s != [] {
      NoneAfter(s[1..], lo, hi);
    }
  }

  lemma {:induction false} CountByPosition(s: seq<real>, lo: real, hi: real)
    requires Ordered(s) && lo <= hi
    ensures CountIn(s, lo, hi) == AtMost(s, hi) - AtMost(s, lo)
  {
    if s != [] {
      if s[0] > hi {
        NoneAfter(s, lo, hi);
      } else {
        CountByPosition(s[1..], lo, hi);
      }
    }
  }

  lemma SpacedNeverOverfull(p: Policy, s: seq<real>, t: real)
    requires p.Valid() && Ordered(s) && Spaced(p, s)
    ensures CountIn(s, t - p.Window(), t) <= p.maxRequests
  {
    var lo := t - p.Window();
    CountByPosition(s, lo, t);
    var first := AtMost(s, lo);
    var last := first + p.maxRequests;
    if last < |s| {
      AtMostSplits(s, lo, first);
      AtMostSplits(s, t, last);
      assert SpacedAt(p, s, first);
    }
  }

  ghost predicate Histories(p: Policy, h: Buckets, last: real)
    requires p.Valid()
  {
    forall key :: History(p, Bucket(h, key), last)
  }

  ghost predicate History(p: Policy, s: seq<real>, last: real)
    requires p.Valid()
  {
    Past(s, last) && Spaced(p, s)
  }

  lemma HistoryStep(p: Policy, s: seq<real>, last: real, now: real)
    requires p.Valid() && History(p, s, last) && last <= now
    ensures History(p, s, now)
    ensures Decide(p, s, now).allowed ==> History(p, s + [now], now)
  {
    if Decide(p, s, now).allowed {
      AdmitKeepsSpaced(p, s, now);
      OrderedSnoc(s, now);
    }
  }

  /** At every moment of a run each key's admissions are ordered and well spaced. */
  lemma {:induction false} RunKeepsHistories(p: Policy, h: Buckets, requests: seq<Request>, last: real, n: nat)
    returns (now: real)
    requires p.Valid() && Histories(p, h, last) && Clock(requests, last) && n <= |requests|
    ensures Histories(p, Admitted(p, h, requests[..n]), now) && (n < |requests| ==> now <= requests[n].now)
    decreases n
  {
    if n == 0 {
      return last;
    }
    var r := requests[0];
    var h' := Admit(p, h, r.key, r.now).1;
    forall key
      ensures History(p, Bucket(h', key), r.now)
    {
      assert History(p, Bucket(h, key), last);
      HistoryStep(p, Bucket(h, key), last, r.now);
    }
    now := RunKeepsHistories(p, h', requests[1..], r.now, n - 1);
    assert requests[..n][1..] == requests[1..][..n - 1];
  }

  /** No window of any run ever holds more than the allowed number of admissions. */
  lemma NoWindowOverfull(p: Policy, requests: seq<Request>, from: real, key: string, t: real)
    requires p.Valid() && Clock(requests, from)
    ensures CountIn(Bucket(Admitted(p, map[], requests), key), t - p.Window(), t) <= p.maxRequests
  {
    EmptyHistories(p, from);
    var now := RunKeepsHistories(p, map[], requests, from, |requests|);
    assert requests[..|requests|] == requests;
    assert History(p, Bucket(Admitted(p, map[], requests), key), now);
    SpacedNeverOverfull(p, Bucket(Admitted(p, map[], requests), key), t);
  }

  lemma EmptyHistories(p: Policy, from: real)
    requires p.Valid()
    ensures Histories(p, map[], from)
  {
    forall key
      ensures History(p, Bucket(map[], key), from)
    {
    }
  }

  // ---------- denials ----------

  lemma {:induction false} AllAtMost(s: seq<real>, x: real)
    requires forall i :: 0 <= i < |s| ==> s[i] <= x
    ensures AtMost(s, x) == |s|
  {
    if s != [] {
      AllAtMost(s[1..], x);
    }
  }

  /** A request is denied exactly when its window is full. */
  lemma DeniedExactlyWhenFull(p: Policy, s: seq<real>, now: real)
    requires p.Valid() && History(p, s, now)
    ensures !Decide(p, s, now).allowed <==> CountIn(s, now - p.Window(), now) == p.maxRequests
  {
    DecideByCount(p, s, now);
    CountByPosition(s, now - p.Window(), now);
    AllAtMost(s, now);
    SpacedNeverOverfull(p, s, now);
  }

  /** In any run, the request at position n is denied exactly when its key's window is full. */
  lemma DenialsOfEveryRun(p: Policy, requests: seq<Request>, from: real, n: nat)
    requires p.Valid() && Clock(requests, from) && n < |requests|
    ensures var r := requests[n];
            var s := Bucket(Admitted(p, map[], requests[..n]), r.key);
            !Decide(p, s, r.now).allowed <==> CountIn(s, r.now - p.Window(), r.now) == p.maxRequests
  {
    var r := requests[n];
    var h := Admitted(p, map[], requests[..n]);
    EmptyHistories(p, from);
    var now := RunKeepsHistories(p, map[], requests, from, n);
    assert History(p, Bucket(h, r.key), now);
    HistoryStep(p, Bucket(h, r.key), now, r.now);
    DeniedExactlyWhenFull(p, Bucket(h, r.key), r.now);
  }

  // ---------- the limiter as its clients see it ----------

  /** How many of the first n requests with this key were let in at a moment in (lo, hi]. */
  function LetIn(requests: seq<Request>, ds: seq<Decision>, key: string, lo: real, hi: real, n: nat): nat
    requires n <= |requests| && n <= |ds|
  {
    if n == 0 then 0
    else
      var r := requests[n - 1];
      LetIn(requests, ds, key, lo, hi, n - 1) + if ds[n - 1].allowed && r.key == key && lo < r.now <= hi then 1 else 0
  }

  lemma {:induction false} CountSnoc(s: seq<real>, t: real, lo: real, hi: real)
    ensures CountIn(s + [t], lo, hi) == CountIn(s, lo, hi) + if lo < t <= hi then 1 else 0
  {
    if s == [] {
      assert s + [t] == [t] && [t][1..] == [];
    } else {
      assert (s + [t])[1..] == s[1..] + [t];
      CountSnoc(s[1..], t, lo, hi);
    }
  }

  lemma {:induction false} ReferenceAt(p: Policy, h: Buckets, requests: seq<Request>, n: nat)
    requires p.Valid() && n < |requests|
    ensures |Reference(p, h, requests)| == |requests|
    ensures Reference(p, h, requests)[n] == Decide(p, Bucket(Admitted(p, h, requests[..n]), requests[n].key), requests[n].now)
    ensures Admitted(p, h, requests[..n + 1]) == Admit(p, Admitted(p, h, requests[..n]), requests[n].key, requests[n].now).1
    decreases n
  {
    var h' := Admit(p, h, requests[0].key, requests[0].now).1;
    ReferenceLength(p, h, requests);
    if n > 0 {
      ReferenceAt(p, h', requests[1..], n - 1);
      assert requests[..n][1..] == requests[1..][..n - 1] && requests[..n + 1][1..] == requests[1..][..n];
    } else {
      assert requests[..1][1..] == [];
    }
  }

  lemma {:induction false} ReferenceLength(p: Policy, h: Buckets, requests: seq<Request>)
    requires p.Valid()
    ensures |Reference(p, h, requests)| == |requests|
    decreases |requests|
  {
    if requests != [] {
      ReferenceLength(p, Admit(p, h, requests[0].key, requests[0].now).1, requests[1..]);
    }
  }

  /** The history of a key holds the requests that were let in, and no others. */
  lemma {:induction false} HistoryCounts(p: Policy, requests: seq<Request>, key: string, lo: real, hi: real, n: nat)
    requires p.Valid() && n <= |requests|
    ensures |Reference(p, map[], requests)| == |requests|
    ensures CountIn(Bucket(Admitted(p, map[], requests[..n]), key), lo, hi)
         == LetIn(requests, Reference(p, map[], requests), key, lo, hi, n)
  {
    ReferenceLength(p, map[], requests);
    if n > 0 {
      HistoryCounts(p, requests, key, lo, hi, n - 1);
      ReferenceAt(p, map[], requests, n - 1);
      CountSnoc(Bucket(Admitted(p, map[], requests[..n - 1]), key), requests[n - 1].now, lo, hi);
    }
  }

  /** Any run of the limiter, told from its requests and its own answers alone: a request is let in exactly when
      fewer than `maxRequests` with its key were let in during the window before it, and no window of the length of
      the policy ever sees more. */
  lemma LimiterExactly(p: Policy, requests: seq<Request>, from: real, n: nat, key: string, t: real)
    requires p.Valid() && Clock(requests, from) && n < |requests|
    ensures var ds := Decisions(p, map[], requests);
            && |ds| == |requests|
            && (ds[n].allowed <==>
                  LetIn(requests, ds, requests[n].key, requests[n].now - p.windowSec as real, requests[n].now, n) < p.maxRequests)
            && LetIn(requests, ds, key, t - p.windowSec as real, t, |requests|) <= p.maxRequests
  {
    PruningLosesNothing(p, requests, from);
    var r := requests[n];
    HistoryCounts(p, requests, r.key, r.now - p.Window(), r.now, n);
    ReferenceAt(p, map[], requests, n);
    DenialsOfEveryRun(p, requests, from, n);
    WindowOfPrefix(p, requests, from, n);
    HistoryCounts(p, requests, key, t - p.Window(), t, |requests|);
    assert requests[..|requests|] == requests;
    NoWindowOverfull(p, requests, from, key, t);
  }

  lemma WindowOfPrefix(p: Policy, requests: seq<Request>, from: real, n: nat)
    requires p.Valid() && Clock(requests, from) && n < |requests|
    ensures var r := requests[n];
            CountIn(Bucket(Admitted(p, map[], requests[..n]), r.key), r.now - p.Window(), r.now) <= p.maxRequests
  {
    ClockOfPrefix(requests, from, n);
    NoWindowOverfull(p, requests[..n], from, requests[n].key, requests[n].now);
  }

  lemma {:induction false} ClockOfPrefix(requests: seq<Request>, from: real, n: nat)
    requires Clock(requests, from) && n <= |requests|
    ensures Clock(requests[..n], from)
    decreases n
  {
    if n > 0 {
      ClockOfPrefix(requests[1..], requests[0].now, n - 1);
      assert requests[..n][1..] == requests[1..][..n - 1];
    }
  }

  /** Request j is the first one with this key that was let in at a moment after lo. */
  ghost predicate OldestIn(requests: seq<Request>, ds: seq<Decision>, key: string, lo: real, j: nat, n: nat)
    requires n <= |requests| && n <= |ds|
  {
    && j < n && ds[j].allowed && requests[j].key == key && requests[j].now > lo
    && forall i :: 0 <= i < j && ds[i].allowed && requests[i].key == key ==> requests[i].now <= lo
  }

  lemma {:induction false} HistoryAt(p: Policy, requests: seq<Request>, key: string, lo: real, n: nat, j: nat)
    requires p.Valid() && n <= |requests| && |Reference(p, map[], requests)| == |requests|
    requires OldestIn(requests, Reference(p, map[], requests), key, lo, j, n)
    ensures var s := Bucket(Admitted(p, map[], requests[..n]), key);
            AtMost(s, lo) < |s| && s[AtMost(s, lo)] == requests[j].now
    decreases n
  {
    var ds := Reference(p, map[], requests);
    var before := Bucket(Admitted(p, map[], requests[..n - 1]), key);
    ReferenceAt(p, map[], requests, n - 1);
    if j < n - 1 {
      assert OldestIn(requests, ds, key, lo, j, n - 1);
      HistoryAt(p, requests, key, lo, n - 1, j);
      if ds[n - 1].allowed && requests[n - 1].key == key {
        AtMostOfFront(before, requests[n - 1].now, lo);
      }
    } else {
      AllOld(p, requests, key, lo, j);
      AtMostOfAll(before, requests[j].now, lo);
    }
  }

  lemma {:induction false} AtMostOfFront(s: seq<real>, t: real, lo: real)
    requires AtMost(s, lo) < |s|
    ensures AtMost(s + [t], lo) == AtMost(s, lo)
  {
    if s[0] <= lo {
      assert (s + [t])[1..] == s[1..] + [t];
      AtMostOfFront(s[1..], t, lo);
    }
  }

  lemma {:induction false} AtMostOfAll(s: seq<real>, t: real, lo: real)
    requires t > lo && forall i :: 0 <= i < |s| ==> s[i] <= lo
    ensures AtMost(s + [t], lo) == |s|
  {
    if s != [] {
      assert (s + [t])[1..] == s[1..] + [t];
      AtMostOfAll(s[1..], t, lo);
    }
  }

  lemma {:induction false} AllOld(p: Policy, requests: seq<Request>, key: string, lo: real, n: nat)
    requires p.Valid() && n <= |requests| && |Reference(p, map[], requests)| == |requests|
    requires forall i :: 0 <= i < n && Reference(p, map[], requests)[i].allowed && requests[i].key == key ==> requests[i].now <= lo
    ensures var s := Bucket(Admitted(p, map[], requests[..n]), key); forall i :: 0 <= i < |s| ==> s[i] <= lo
  {
    if n > 0 {
      AllOld(p, requests, key, lo, n - 1);
      ReferenceAt(p, map[], requests, n - 1);
      var before, after := Bucket(Admitted(p, map[], requests[..n - 1]), key), Bucket(Admitted(p, map[], requests[..n]), key);
      var d := Reference(p, map[], requests)[n - 1];
      assert after == if d.allowed && requests[n - 1].key == key then before + [requests[n - 1].now] else before;
    }
  }

  /** And a denied client is told to wait until the oldest of them leaves the window, in whole seconds and at least one. */
  lemma RetryExactly(p: Policy, requests: seq<Request>, from: real, n: nat, j: nat)
    requires p.Valid() && Clock(requests, from) && n < |requests|
    requires |Decisions(p, map[], requests)| == |requests| && !Decisions(p, map[], requests)[n].allowed
    requires OldestIn(requests, Decisions(p, map[], requests), requests[n].key, requests[n].now - p.windowSec as real, j, n)
    ensures var wait := requests[j].now + p.windowSec as real - requests[n].now;
            Decisions(p, map[], requests)[n].retryAfter == if wait.Floor < 1 then 1 else wait.Floor
  {
    PruningLosesNothing(p, requests, from);
    var r := requests[n];
    ReferenceAt(p, map[], requests, n);
    HistoryAt(p, requests, r.key, r.now - p.Window(), n, j);
    EmptyHistories(p, from);
    var now := RunKeepsHistories(p, map[], requests, from, n);
    var s := Bucket(Admitted(p, map[], requests[..n]), r.key);
    assert History(p, s, now);
    HistoryStep(p, s, now, r.now);
    WaitBounds(p, s, r.now);
  }

  /** How long after a denial the oldest admission in the window leaves it. */
  function Wait(p: Policy, s: seq<real>, now: real): real
    requires p.Valid() && AtMost(s, now - p.Window()) < |s|
  {
    s[AtMost(s, now - p.Window())] + p.Window() - now
  }

  lemma WaitBounds(p: Policy, s: seq<real>, now: real)
    requires p.Valid() && History(p, s, now) && !Decide(p, s, now).allowed
    ensures AtMost(s, now - p.Window()) < |s|
    ensures 0.0 < Wait(p, s, now) <= p.Window()
    ensures Decide(p, s, now).retryAfter == AtLeastOne(Wait(p, s, now).Floor)
  {
    DecideByCount(p, s, now);
    var i := AtMost(s, now - p.Window());
    AtMostSplits(s, now - p.Window(), i);
    assert s[i] <= s[|s| - 1] <= now;
  }

  /** The retry delay lies between one second and the window. */
  lemma RetryAfterBounds(p: Policy, s: seq<real>, now: real)
    requires p.Valid() && History(p, s, now) && !Decide(p, s, now).allowed
    ensures 1 <= Decide(p, s, now).retryAfter <= p.windowSec
  {
    WaitBounds(p, s, now);
    FloorAtMost(Wait(p, s, now), p.windowSec);
  }

  lemma FloorAtMost(x: real, n: int)
    requires x <= n as real
    ensures x.Floor <= n
  {
  }

  /** With no admission in between, a later request is let in exactly when the oldest one has left the window. */
  lemma FreedExactly(p: Policy, s: seq<real>, now: real, later: real)
    requires p.Valid() && History(p, s, now) && !Decide(p, s, now).allowed && now <= later
    ensures AtMost(s, now - p.Window()) < |s|
    ensures Decide(p, s, later).allowed <==> now + Wait(p, s, now) <= later
  {
    WaitBounds(p, s, now);
    DecideByCount(p, s, now);
    DecideByCount(p, s, later);
    var first := AtMost(s, now - p.Window());
    AtMostSplits(s, later - p.Window(), first);
    DeniedExactlyWhenFull(p, s, now);
    CountByPosition(s, now - p.Window(), now);
    AllAtMost(s, now);
  }

  /** Waiting one second longer than told always frees a slot. */
  lemma RetryPlusOneFrees(p: Policy, s: seq<real>, now: real, later: real)
    requires p.Valid() && History(p, s, now) && !Decide(p, s, now).allowed
    requires later >= now + (Decide(p, s, now).retryAfter + 1) as real
    ensures Decide(p, s, later).allowed
  {
    WaitBounds(p, s, now);
    FreedExactly(p, s, now, later);
  }

  /** Waiting exactly as long as told frees a slot only where truncation to whole seconds lost nothing. */
  lemma RetryAloneExact(p: Policy, s: seq<real>, now: real)
    requires p.Valid() && History(p, s, now) && !Decide(p, s, now).allowed
    ensures AtMost(s, now - p.Window()) < |s|
    ensures var wait := Wait(p, s, now);
            Decide(p, s, now + Decide(p, s, now).retryAfter as real).allowed <==> wait <= 1.0 || wait == wait.Floor as real
  {
    WaitBounds(p, s, now);
    FreedExactly(p, s, now, now + Decide(p, s, now).retryAfter as real);
  }

  /** One request per ten seconds, admitted at 0 and asked again at 0.5: the client is told to wait 9 seconds,
      and is denied again when it does. */
  lemma RetryCanBeTooShort()
    ensures var p, s := Policy(10, 1), [0.0];
            && History(p, s, 0.5)
            && Decide(p, s, 0.5) == Decision(false, 9)
            && !Decide(p, s, 9.5).allowed
  {
    var p, s := Policy(10, 1), [0.0];
    DecideByCount(p, s, 0.5);
    DecideByCount(p, s, 9.5);
    assert AtMost(s, 0.5 - 10.0) == 0 && AtMost(s, 9.5 - 10.0) == 0;
    assert (9.5).Floor == 9;
  }
}
