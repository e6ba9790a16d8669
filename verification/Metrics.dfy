/** The metrics endpoint: escaping of label values, and the request counters with their duration histogram.
    Durations are reals, and the last histogram bound is infinite. */
module Metrics {
  import opened Wrappers

  // ---------- label values ----------

  /** str.replace for a single character. */
  function Replace(s: string, c: char, sub: string): string {
    if s == "" then "" else (if s[0] == c then sub else [s[0]]) + Replace(s[1..], c, sub)
  }

  function EscapeLabel(value: string): string {
    Replace(Replace(Replace(value, '\\', "\\\\"), '\n', "\\n"), '"', "\\\"")
  }

  /** What escaping makes of one character. */
  function EscapeOne(c: char): (e: string)
    ensures e != "" && |e| <= 2
  {
    if c == '\\' then ['\\', '\\'] else if c == '\n' then ['\\', 'n'] else if c == '"' then ['\\', '"'] else [c]
  }

  function EscapeEach(value: string): string {
    if value == "" then "" else EscapeOne(value[0]) + EscapeEach(value[1..])
  }

  lemma {:induction false} ReplaceConcat(s: string, t: string, c: char, sub: string)
    ensures Replace(s + t, c, sub) == Replace(s, c, sub) + Replace(t, c, sub)
  {
    if s == "" {
      assert s + t == t;
    } else {
      assert (s + t)[1..] == s[1..] + t;
      ReplaceConcat(s[1..], t, c, sub);
    }
  }

  lemma ReplacePair(a: char, b: char, c: char, sub: string)
    ensures Replace([a, b], c, sub) == (if a == c then sub else [a]) + (if b == c then sub else [b])
    ensures Replace([a], c, sub) == if a == c then sub else [a]
  {
    assert [a, b][1..] == [b] && [b][1..] == "" && [a][1..] == "";
    assert sub + "" == sub && [a] + "" == [a] && [b] + "" == [b];
    assert Replace([b], c, sub) == if b == c then sub else [b];
  }

  lemma EscapeOfOne(c: char)
    ensures EscapeLabel([c]) == EscapeOne(c)
  {
    ReplacePair(c, c, '\\', "\\\\");
    ReplacePair('\\', '\\', '\n', "\\n");
    ReplacePair(c, c, '\n', "\\n");
    ReplacePair('\\', '\\', '"', "\\\"");
    ReplacePair('\\', 'n', '"', "\\\"");
    ReplacePair(c, c, '"', "\\\"");
  }

  lemma EscapeConcat(s: string, t: string)
    ensures EscapeLabel(s + t) == EscapeLabel(s) + EscapeLabel(t)
  {
    ReplaceConcat(s, t, '\\', "\\\\");
    ReplaceConcat(Replace(s, '\\', "\\\\"), Replace(t, '\\', "\\\\"), '\n', "\\n");
    ReplaceConcat(Replace(Replace(s, '\\', "\\\\"), '\n', "\\n"), Replace(Replace(t, '\\', "\\\\"), '\n', "\\n"), '"', "\\\"");
  }

  /** The three replacements, one after the other, are one map over the characters. */
  lemma {:induction false} EscapeIsCharacterwise(value: string)
    ensures EscapeLabel(value) == EscapeEach(value)
  {
    if value != "" {
      EscapeIsCharacterwise(value[1..]);
      EscapeOfOne(value[0]);
      EscapeConcat([value[0]], value[1..]);
      assert value == [value[0]] + value[1..];
    }
  }

  /** A scraper's reading of a label value, up to its closing quote: the value and the text after it. */
  function ReadLabel(t: string): Option<(string, string)>
    decreases |t|
  {
    if t == "" || t[0] == '\n' then None
    else if t[0] == '"' then Some(("", t[1..]))
    else if t[0] != '\\' then
      match ReadLabel(t[1..])
      case None => None
      case Some((v, rest)) => Some(([t[0]] + v, rest))
    else if |t| < 2 || t[1] !in ['\\', 'n', '"'] then None
    else
      match ReadLabel(t[2..])
      case None => None
      case Some((v, rest)) => Some(([if t[1] == 'n' then '\n' else t[1]] + v, rest))
  }

  lemma ReadStep(c: char, t: string, v: string, rest: string)
    requires ReadLabel(t) == Some((v, rest))
    ensures ReadLabel(EscapeOne(c) + t) == Some(([c] + v, rest))
  {
    var e := EscapeOne(c);
    assert (e + t)[|e|..] == t && forall i :: 0 <= i < |e| ==> (e + t)[i] == e[i];
  }

  lemma Associate(a: string, b: string, c: string)
    ensures (a + b) + c == a + (b + c)
  {
  }

  lemma {:induction false} ReadEach(value: string, tail: string)
    requires tail != "" && tail[0] == '"'
    ensures ReadLabel(EscapeEach(value) + tail) == Some((value, tail[1..]))
  {
    if value == "" {
      assert EscapeEach(value) + tail == tail;
    } else {
      ReadEach(value[1..], tail);
      Associate(EscapeOne(value[0]), EscapeEach(value[1..]), tail);
      ReadStep(value[0], EscapeEach(value[1..]) + tail, value[1..], tail[1..]);
      assert [value[0]] + value[1..] == value;
    }
  }

  /** An escaped value is read back exactly: it holds no line break, and no quote that would end it early. */
  lemma LabelRoundTrip(value: string, tail: string)
    requires tail != "" && tail[0] == '"'
    ensures ReadLabel(EscapeLabel(value) + tail) == Some((value, tail[1..]))
  {
    EscapeIsCharacterwise(value);
    ReadEach(value, tail);
  }

  // ---------- sample lines ----------

  datatype Labels = Labels(name: string, route: string, status: string)

  /** The label part of a request counter's line, and the count after it. */
  function SampleLine(k: Labels, count: string): string {
    "http_requests_total{method=\"" + (EscapeLabel(k.name) + ("\",route=\"" + (EscapeLabel(k.route) +
      ("\",status=\"" + (EscapeLabel(k.status) + ("\"} " + count))))))
  }

  lemma SameTail(a: string, b: string, c: string)
    requires a + b == a + c
    ensures b == c
  {
    assert (a + b)[|a|..] == b && (a + c)[|a|..] == c;
  }

  /** From equal text, equal values and equal rests. */
  lemma PeelLabel(v: string, w: string, quote: string, rest: string, other: string)
    requires |quote| > 0 && quote[0] == '"'
    requires EscapeLabel(v) + (quote + rest) == EscapeLabel(w) + (quote + other)
    ensures v == w && rest == other
  {
    LabelRoundTrip(v, quote + rest);
    LabelRoundTrip(w, quote + other);
    assert (quote + rest)[1..] == quote[1..] + rest && (quote + other)[1..] == quote[1..] + other;
    SameTail(quote[1..], rest, other);
  }

  /** A line tells its counter: different labels never give the same line, whatever characters they hold. */
  lemma LineTellsItsLabels(k: Labels, l: Labels, m: string, n: string)
    requires SampleLine(k, m) == SampleLine(l, n)
    ensures k == l && m == n
  {
    var toRoute, toStatus, end := "\",route=\"", "\",status=\"", "\"} ";
    var kRest := EscapeLabel(k.status) + (end + m);
    var lRest := EscapeLabel(l.status) + (end + n);
    var kRoute := EscapeLabel(k.route) + (toStatus + kRest);
    var lRoute := EscapeLabel(l.route) + (toStatus + lRest);
    SameTail("http_requests_total{method=\"", EscapeLabel(k.name) + (toRoute + kRoute), EscapeLabel(l.name) + (toRoute + lRoute));
    PeelLabel(k.name, l.name, toRoute, kRoute, lRoute);
    PeelLabel(k.route, l.route, toStatus, kRest, lRest);
    PeelLabel(k.status, l.status, end, m, n);
  }

  // ---------- counters ----------

  /** The upper bounds of the histogram; None is infinity. */
  const BOUNDS: seq<Option<real>> := [Some(0.005), Some(0.01), Some(0.025), Some(0.05), Some(0.1), Some(0.25),
    Some(0.5), Some(1.0), Some(2.5), Some(5.0), None]

  predicate Within(duration: real, bound: Option<real>) { bound.None? || duration <= bound.value }

  datatype Exchange = Exchange(labels: Labels, duration: real)

  datatype Counters = Counters(requests: map<Labels, nat>, buckets: seq<nat>, sum: real, count: nat)

  class HttpMetrics {
    var requests: map<Labels, nat>
    var buckets: seq<nat>
    var sum: real
    var count: nat

    ghost predicate Valid()
      reads this
    {
      |buckets| == |BOUNDS|
    }

    ghost function State(): Counters
      reads this
    {
      Counters(requests, buckets, sum, count)
    }

    constructor ()
      ensures Valid() && State() == Start()
    {
      requests, buckets, sum, count := map[], seq(|BOUNDS|, i => 0), 0.0, 0;
    }

    /** Count one finished exchange; an empty route counts as the root. */
    method RecordHttpRequest(name: string, route: string, status: string, duration: real, upper: string -> string)
      requires Valid()
      modifies this
      ensures Valid()
      ensures State() == Recorded(old(State()), Exchange(Labels(upper(name), if route == "" then "/" else route, status), duration))
    {
      var k := Labels(upper(name), if route == "" then "/" else route, status);
      requests := requests[k := (if k in requests then requests[k] else 0) + 1];
      sum := sum + duration;
      count := count + 1;
      for i := 0 to |BOUNDS|
        invariant |buckets| == |BOUNDS|
        invariant forall j :: 0 <= j < |BOUNDS| ==>
          buckets[j] == old(buckets)[j] + if j < i && Within(duration, BOUNDS[j]) then 1 else 0
        invariant requests == old(requests)[k := (if k in old(requests) then old(requests)[k] else 0) + 1]
        invariant sum == old(sum) + duration && count == old(count) + 1
      {
        if Within(duration, BOUNDS[i]) {
          buckets := buckets[i := buckets[i] + 1];
        }
      }
    }
  }

  function Start(): Counters {
    Counters(map[], seq(|BOUNDS|, i => 0), 0.0, 0)
  }

  function CountFor(m: map<Labels, nat>, k: Labels): nat {
    if k in m then m[k] else 0
  }

  /** The counters after one more exchange. */
  function Recorded(c: Counters, x: Exchange): Counters
    requires |c.buckets| == |BOUNDS|
  {
    Counters(c.requests[x.labels := CountFor(c.requests, x.labels) + 1],
             seq(|BOUNDS|, i requires 0 <= i < |BOUNDS| => c.buckets[i] + if Within(x.duration, BOUNDS[i]) then 1 else 0),
             c.sum + x.duration,
             c.count + 1)
  }

  /** The counters after a run of exchanges. */
  function After(run: seq<Exchange>): (c: Counters)
    ensures |c.buckets| == |BOUNDS|
  {
    if run == [] then Start() else Recorded(After(run[..|run| - 1]), run[|run| - 1])
  }

  /** How many exchanges of a run took at most the bound. */
  function AtMost(run: seq<Exchange>, bound: Option<real>): nat {
    if run == [] then 0
    else AtMost(run[..|run| - 1], bound) + if bound.None? || run[|run| - 1].duration <= bound.value then 1 else 0
  }

  function Labelled(run: seq<Exchange>, k: Labels): nat {
    if run == [] then 0
    else Labelled(run[..|run| - 1], k) + if run[|run| - 1].labels == k then 1 else 0
  }

  /** The time that the exchanges of a run took together, from the first one on. */
  function TimeTaken(run: seq<Exchange>): real {
    if run == [] then 0.0 else run[0].duration + TimeTaken(run[1..])
  }

  lemma {:induction false} TimeSnoc(run: seq<Exchange>, x: Exchange)
    ensures TimeTaken(run + [x]) == TimeTaken(run) + x.duration
  {
    if run == [] {
      assert run + [x] == [x] && [x][1..] == [];
    } else {
      assert (run + [x])[1..] == run[1..] + [x];
      TimeSnoc(run[1..], x);
    }
  }

  /** Over every run the sum of the histogram is the time taken. */
  lemma {:induction false} SumOfEveryRun(run: seq<Exchange>)
    ensures After(run).sum == TimeTaken(run)
  {
    if run != [] {
      var front := run[..|run| - 1];
      SumOfEveryRun(front);
      TimeSnoc(front, run[|run| - 1]);
      assert run == front + [run[|run| - 1]];
    }
  }

  /** The sum of all labelled counters. */
  ghost function Total(m: map<Labels, nat>): nat {
    if m == map[] then 0
    else
      var k :| k in m;
      m[k] + Total(m - {k})
  }

  lemma {:induction false} TotalFrom(m: map<Labels, nat>, k: Labels)
    requires k in m
    ensures Total(m) == m[k] + Total(m - {k})
    decreases |m|
  {
    var first :| first in m && Total(m) == m[first] + Total(m - {first});
    if first != k {
      TotalFrom(m - {first}, k);
      TotalFrom(m - {k}, first);
      assert m - {first} - {k} == m - {k} - {first};
    }
  }

  lemma TotalUpdate(m: map<Labels, nat>, k: Labels, n: nat)
    ensures Total(m[k := n]) + CountFor(m, k) == Total(m) + n
  {
    TotalFrom(m[k := n], k);
    if k in m {
      TotalFrom(m, k);
      assert m[k := n] - {k} == m - {k};
    } else {
      assert m[k := n] - {k} == m;
    }
  }

  /** Over every run, each bucket counts the durations at most its bound, and each labelled counter the
      exchanges with its labels. */
  lemma {:induction false} CountersOfEveryRun(run: seq<Exchange>, i: nat, k: Labels)
    requires i < |BOUNDS|
    ensures After(run).buckets[i] == AtMost(run, BOUNDS[i])
    ensures CountFor(After(run).requests, k) == Labelled(run, k)
    ensures After(run).count == |run|
  {
    if run != [] {
      CountersOfEveryRun(run[..|run| - 1], i, k);
    }
  }

  lemma {:induction false} AllWithinInfinity(run: seq<Exchange>)
    ensures AtMost(run, None) == |run|
  {
    if run != [] {
      AllWithinInfinity(run[..|run| - 1]);
    }
  }

  lemma {:induction false} AtMostGrows(run: seq<Exchange>, small: Option<real>, large: Option<real>)
    requires large.None? || (small.Some? && small.value <= large.value)
    ensures AtMost(run, small) <= AtMost(run, large)
  {
    if run != [] {
      AtMostGrows(run[..|run| - 1], small, large);
    }
  }

  lemma {:induction false} LabelledSum(run: seq<Exchange>)
    ensures Total(After(run).requests) == After(run).count
  {
    if run != [] {
      var before := After(run[..|run| - 1]);
      var k := run[|run| - 1].labels;
      LabelledSum(run[..|run| - 1]);
      TotalUpdate(before.requests, k, CountFor(before.requests, k) + 1);
    }
  }

  /** The histogram is cumulative, its last bucket equals the count, and so does the sum of the labelled
      counters. */
  lemma HistogramAgrees(run: seq<Exchange>, i: nat, j: nat)
    requires i <= j < |BOUNDS|
    ensures After(run).buckets[i] <= After(run).buckets[j]
    ensures After(run).buckets[|BOUNDS| - 1] == After(run).count == Total(After(run).requests)
  {
    var k := Labels("", "", "");
    CountersOfEveryRun(run, i, k);
    CountersOfEveryRun(run, j, k);
    CountersOfEveryRun(run, |BOUNDS| - 1, k);
    AllWithinInfinity(run);
    BoundsRise(i, j);
    AtMostGrows(run, BOUNDS[i], BOUNDS[j]);
    LabelledSum(run);
  }

  lemma BoundsRise(i: nat, j: nat)
    requires i <= j < |BOUNDS|
    ensures BOUNDS[j].None? || (BOUNDS[i].Some? && BOUNDS[i].value <= BOUNDS[j].value)
  {
  }
}
