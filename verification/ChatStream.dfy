/** The chat stream itself: input guard, model phase with its three paths, completion, and the sequencing
    around them. Every run's frames and saved result are the outcome of its script. */
module ChatStream {
  import opened Wrappers
  import opened SseFrames
  import opened OutputBuffer
  import opened ChatOutcome

  // ---------- small facts about scripts ----------

  /** Once the text is unsafe, what would have come after makes no difference. */
  lemma {:induction false} CutStays(safe: Judge, a: seq<string>, b: seq<string>)
    requires SafeCount(safe, a) < |a|
    ensures SafeCount(safe, a + b) < |a + b| && Reached(safe, a + b) == Reached(safe, a)
  {
    if b == [] {
      assert a + b == a;
    } else {
      var n := |b| - 1;
      CutStays(safe, a, b[..n]);
      ReachedGrows(safe, a + b[..n], b[n]);
      CountGrows(safe, a + b[..n], b[n]);
      assert (a + b[..n]) + [b[n]] == a + b;
    }
  }

  lemma ToldTold(s: Script, a: seq<Part>, b: seq<Part>)
    ensures Told(Told(s, a), b) == Told(s, a + b)
  {
    assert (s.parts + a) + b == s.parts + (a + b);
  }

  lemma NextPart(s: Script, parts: seq<Part>, i: nat)
    requires i < |parts|
    ensures Told(Told(s, parts[..i]), [parts[i]]) == Told(s, parts[..i + 1])
  {
    ToldTold(s, parts[..i], [parts[i]]);
    assert parts[..i] + [parts[i]] == parts[..i + 1];
  }

  lemma ToldNothing(s: Script)
    ensures Told(s, []) == s
  {
  }

  /** A run's state belongs to a script it has been told so far. */
  ghost predicate Streamed(safe: Judge, holdback: nat, buffer: seq<string>, b: Buffer, sent: seq<Event>, s: Script) {
    && Feed(safe, holdback, buffer) == (b, Tokens(sent))
    && NonEmpty(buffer) == buffer
    && buffer == Reached(safe, s.Texts())
    && (b.blocked <==> IsCut(safe, s.Texts()))
    && sent == Rendered(safe, holdback, s.parts)
  }

  lemma StreamedCut(safe: Judge, holdback: nat, buffer: seq<string>, b: Buffer, sent: seq<Event>, s: Script, more: seq<Part>)
    requires Streamed(safe, holdback, buffer, b, sent, s) && b.blocked
    ensures Streamed(safe, holdback, buffer, b, sent, Told(s, more))
  {
    PartsConcat(s.parts, more);
    CutStays(safe, s.Texts(), TextsOf(more));
    RenderedCut(safe, holdback, s.parts, more);
  }

  lemma NonEmptySnoc(tokens: seq<string>, token: string)
    requires token != ""
    ensures NonEmpty(tokens + [token]) == NonEmpty(tokens) + [token]
  {
    assert (tokens + [token])[..|tokens|] == tokens;
  }

  lemma FeedSnoc(safe: Judge, holdback: nat, tokens: seq<string>, token: string)
    ensures var (b, out) := Feed(safe, holdback, tokens);
            var (b', more) := Push(safe, holdback, b, token);
            Feed(safe, holdback, tokens + [token]) == (b', out + more)
  {
    assert (tokens + [token])[..|tokens|] == tokens;
  }

  lemma ReachedUncut(safe: Judge, texts: seq<string>, text: string)
    requires SafeCount(safe, texts) == |texts|
    ensures Reached(safe, texts) == texts && Reached(safe, texts + [text]) == texts + [text]
  {
    ReachedGrows(safe, texts, text);
  }

  /** One more text of the script has gone through the buffer. */
  lemma StreamedPush(safe: Judge, holdback: nat, buffer: seq<string>, b: Buffer, sent: seq<Event>, s: Script,
                     text: string, b': Buffer, sent': seq<Event>)
    requires Streamed(safe, holdback, buffer, b, sent, s) && !b.blocked && text != ""
    requires b' == Push(safe, holdback, b, text).0 && sent' == sent + TokenFrames(Push(safe, holdback, b, text).1)
    ensures Streamed(safe, holdback, buffer + [text], b', sent', Told(s, [Text(text)]))
  {
    var more := Push(safe, holdback, b, text).1;
    ReachedUncut(safe, s.Texts(), text);
    FeedSnoc(safe, holdback, buffer, text);
    NonEmptySnoc(buffer, text);
    RenderedFacts(safe, holdback, s.parts);
    TokensAdd(sent, more);
    PartsConcat(s.parts, [Text(text)]);
    OnePart(Text(text));
    RenderedSnoc(safe, holdback, s.parts, Text(text));
    PushedAreDue(safe, holdback, buffer, text);
  }

  /** What a push lets out are the tokens that became due. */
  lemma PushedAreDue(safe: Judge, holdback: nat, tokens: seq<string>, text: string)
    requires NonEmpty(tokens) == tokens && !Feed(safe, holdback, tokens).0.blocked && text != ""
    ensures Push(safe, holdback, Feed(safe, holdback, tokens).0, text).1 == Due(safe, holdback, tokens, tokens + [text])
    ensures Push(safe, holdback, Feed(safe, holdback, tokens).0, text).0.blocked <==> IsCut(safe, tokens + [text])
  {
    var (b, out) := Feed(safe, holdback, tokens);
    var (b', more) := Push(safe, holdback, b, text);
    FeedShape(safe, holdback, tokens);
    FeedShape(safe, holdback, tokens + [text]);
    FeedSnoc(safe, holdback, tokens, text);
    NonEmptySnoc(tokens, text);
    ReachedUncut(safe, tokens, text);
    SuffixOfPrefix(out, more, b'.pending, tokens + [text]);
  }

  lemma SuffixOfPrefix(out: seq<string>, more: seq<string>, pending: seq<string>, all: seq<string>)
    requires (out + more) + pending == all
    ensures |out + more| <= |all| && more == all[|out|..|out + more|]
  {
  }

  lemma StreamedThought(safe: Judge, holdback: nat, buffer: seq<string>, b: Buffer, sent: seq<Event>, s: Script, text: string)
    requires Streamed(safe, holdback, buffer, b, sent, s) && !b.blocked && text != ""
    ensures Streamed(safe, holdback, buffer, b, sent + [Sse(Thinking(text))], Told(s, [Thought(text)]))
  {
    PartsConcat(s.parts, [Thought(text)]);
    OnePart(Thought(text));
    RenderedSnoc(safe, holdback, s.parts, Thought(text));
    FrameAdds(sent, Thinking(text));
    assert s.Texts() + [] == s.Texts();
  }

  lemma StreamedEmpty(safe: Judge, holdback: nat, buffer: seq<string>, b: Buffer, sent: seq<Event>, s: Script, part: Part)
    requires Streamed(safe, holdback, buffer, b, sent, s) && part.text == ""
    ensures Streamed(safe, holdback, buffer, b, sent, Told(s, [part]))
  {
    PartsConcat(s.parts, [part]);
    OnePart(part);
    RenderedSnoc(safe, holdback, s.parts, part);
    assert s.Texts() + [] == s.Texts() && sent + [] == sent;
  }

  /** What a scan has passed on is kept by the rest of the scan. */
  lemma {:induction false} ChartScanKeeps(events: seq<ToolEvent>, passed: seq<Part>)
    ensures passed <= ChartScan(events, passed).0
  {
    if events != [] && events[0].Said? {
      ChartScanKeeps(events[1..], passed + [events[0].part]);
    } else if events != [] && events[0].chart.NoSpec? {
      ChartScanKeeps(events[1..], passed);
    }
  }

  lemma {:induction false} ChartScanEnds(events: seq<ToolEvent>, passed: seq<Part>)
    ensures !ChartScan(events, passed).1.GaveUp?
  {
    if events != [] && events[0].Said? {
      ChartScanEnds(events[1..], passed + [events[0].part]);
    } else if events != [] && events[0].chart.NoSpec? {
      ChartScanEnds(events[1..], passed);
    }
  }

  /** The chart path plays what its loop passed on, and then perhaps the follow-up. */
  lemma ChartScriptParts(e: Env) returns (more: seq<Part>)
    requires TextsOf(ChartScan(e.tools.events, []).0) != []
    ensures ChartScript(e).parts == Told(Told(SILENT, ChartScan(e.tools.events, []).0), more).parts
  {
    var (passed, end) := ChartScan(e.tools.events, []);
    var s := Told(SILENT, passed);
    assert SILENT.parts + passed == passed && s.parts + [] == s.parts;
    more := if end.Hit? then e.followup.parts else [];
  }

  lemma NextEvent(events: seq<ToolEvent>, i: nat)
    requires i < |events|
    ensures events[i..] != [] && events[i..][0] == events[i] && events[i..][1..] == events[i + 1..]
  {
  }

  // ---------- from the script to the outcome ----------

  lemma {:induction false} CountOfPrefix(safe: Judge, texts: seq<string>, n: nat)
    requires n <= |texts|
    ensures SafeCount(safe, texts[..n]) == if SafeCount(safe, texts) <= n then SafeCount(safe, texts) else n
  {
    if n == |texts| {
      assert texts[..n] == texts;
    } else {
      CountOfPrefix(safe, texts[..|texts| - 1], n);
      assert texts[..|texts| - 1][..n] == texts[..n];
    }
  }

  lemma ReachedIsFixed(safe: Judge, texts: seq<string>)
    ensures var r := Reached(safe, texts);
            Reached(safe, r) == r && SafeCount(safe, r) == SafeCount(safe, texts) && r == texts[..|r|]
  {
    var k := SafeCount(safe, texts);
    if k < |texts| {
      CountOfPrefix(safe, texts, k + 1);
      ReachedWhenSafe(safe, texts[..k + 1]);
    } else {
      assert texts[..|texts|] == texts;
    }
  }

  lemma TokensOut(safe: Judge, holdback: nat, buffer: seq<string>, b: Buffer, sent: seq<Event>, s: Script)
    requires Streamed(safe, holdback, buffer, b, sent, s)
    ensures Tokens(sent) == s.Texts()[..Emitted(safe, holdback, s.Texts())]
    ensures Tokens(sent) + b.pending == buffer && b.text == Join(buffer)
    ensures b.blocked ==> buffer != []
    ensures !b.blocked ==> buffer == s.Texts()
  {
    FeedShape(safe, holdback, buffer);
    ReachedIsFixed(safe, s.Texts());
    var n := Emitted(safe, holdback, s.Texts());
    PrefixOfConcat(Tokens(sent), b.pending, n);
    SliceOfSlice(s.Texts(), |buffer|, n);
  }

  /** Nothing is lost when the text is safe to the end: the flush brings the rest. */
  lemma WholeText(safe: Judge, holdback: nat, buffer: seq<string>, b: Buffer, sent: seq<Event>, s: Script)
    requires Streamed(safe, holdback, buffer, b, sent, s) && !b.blocked && s.Texts() != []
    ensures Flush(safe, b).1 == s.Texts()[Emitted(safe, holdback, s.Texts())..]
  {
    TokensOut(safe, holdback, buffer, b, sent, s);
    SafeCountAt(safe, s.Texts(), |s.Texts()|);
    assert s.Texts()[..|s.Texts()|] == s.Texts();
    RestOfPrefix(s.Texts(), Emitted(safe, holdback, s.Texts()), b.pending);
  }

  lemma RestOfPrefix(s: seq<string>, n: nat, rest: seq<string>)
    requires n <= |s| && s[..n] + rest == s
    ensures rest == s[n..]
  {
  }

  lemma CutOutcome(e: Env, safe: Judge, holdback: nat, buffer: seq<string>, b: Buffer, body: seq<Event>)
    requires Streamed(safe, holdback, buffer, b, body, Scripted(e)) && !EndOf(e, safe).Complete?
    ensures Outcome(e, false, safe, holdback, body + Frames(e, EndOf(e, safe)), Kept(e, EndOf(e, safe)))
  {
    assert body + [] == body;
  }

  /** Which end a run without a fault comes to can be told from its buffer. */
  lemma EndOfPlayed(e: Env, safe: Judge, holdback: nat, buffer: seq<string>, b: Buffer, sent: seq<Event>)
    requires Streamed(safe, holdback, buffer, b, sent, Scripted(e)) && (!b.blocked ==> Scripted(e).fault == NoFault)
    ensures var clean := e.stripCharts(Join(buffer));
            EndOf(e, safe) ==
              if buffer == [] then Fail(e.words.noOutput)
              else if b.blocked || !safe(clean) then Refuse
              else Complete(clean, Scripted(e).chart)
  {
    TokensOut(safe, holdback, buffer, b, sent, Scripted(e));
  }

  class ChatRun {
    const env: Env
    const out: StreamingOutputBuffer
    var buffer: seq<string>
    var chart: Option<string>
    var inputBlocked: bool
    var sent: seq<Event>
    var saved: seq<Saved>

    constructor (env: Env, safeguard: Option<(string, string) -> bool>, userText: string)
      ensures fresh(out) && this.env == env
      ensures out.safeguard == safeguard && out.holdbackTokens == if safeguard.Some? then 1 else 0
      ensures Follows(SILENT) && !out.blocked && chart == None && !inputBlocked && sent == [] && saved == []
    {
      this.env := env;
      out := new StreamingOutputBuffer(safeguard, userText, if safeguard.Some? then 1 else 0);
      buffer, chart, inputBlocked, sent, saved := [], None, false, [], [];
    }

    /** The frames and the buffer are those of a script that has come this far. */
    ghost predicate Follows(s: Script)
      reads this, out
    {
      Streamed(out.Safe(), out.holdbackTokens, buffer, out.State(), sent, s)
    }

    /** The model phase is over and went as the script says, unless it was cut. */
    ghost predicate Played(s: Script, fault: Fault)
      reads this, out
    {
      && Follows(s)
      && fault == (if out.blocked then NoFault else s.fault)
      && (!out.blocked ==> chart == s.chart)
    }

    method EmitThinking(text: string, ghost s: Script)
      requires Follows(s) && !out.blocked
      modifies this`sent
      ensures Follows(Told(s, [Thought(text)]))
    {
      if text != "" {
        StreamedThought(out.Safe(), out.holdbackTokens, buffer, out.State(), sent, s, text);
        sent := sent + [Sse(Thinking(text))];
      } else {
        StreamedEmpty(out.Safe(), out.holdbackTokens, buffer, out.State(), sent, s, Thought(text));
      }
    }

    method EmitContent(text: string, ghost s: Script)
      requires Follows(s) && !out.blocked
      modifies this`buffer, this`sent, out
      ensures Follows(Told(s, [Text(text)]))
    {
      if text == "" {
        StreamedEmpty(out.Safe(), out.holdbackTokens, buffer, out.State(), sent, s, Text(text));
        return;
      }
      ghost var b, was := out.State(), sent;
      buffer := buffer + [text];
      var tokens := out.PushToken(text);
      EmitTokens(tokens);
      StreamedPush(out.Safe(), out.holdbackTokens, old(buffer), b, was, s, text, out.State(), sent);
    }

    method EmitTokens(tokens: seq<string>)
      modifies this`sent
      ensures sent == old(sent) + TokenFrames(tokens)
    {
      for i := 0 to |tokens|
        invariant sent == old(sent) + TokenFrames(tokens[..i])
      {
        assert tokens[..i + 1][..i] == tokens[..i];
        sent := sent + [Sse(Token(tokens[i]))];
      }
      assert tokens[..|tokens|] == tokens;
    }

    method ConsumeItem(part: Part, ghost s: Script)
      requires Follows(s) && !out.blocked
      modifies this`buffer, this`sent, out
      ensures Follows(Told(s, [part]))
    {
      match part
      case Text(text) => EmitContent(text, s);
      case Thought(text) => EmitThinking(text, s);
    }

    lemma Cut(s: Script, more: seq<Part>)
      requires Follows(s) && out.blocked
      ensures Follows(Told(s, more))
    {
      StreamedCut(out.Safe(), out.holdbackTokens, buffer, out.State(), sent, s, more);
    }

    lemma CutShort(s: Script, parts: seq<Part>, i: nat)
      requires i <= |parts| && Follows(Told(s, parts[..i])) && out.blocked
      ensures Follows(Told(s, parts))
    {
      Cut(Told(s, parts[..i]), parts[i..]);
      ToldTold(s, parts[..i], parts[i..]);
      assert parts[..i] + parts[i..] == parts;
    }

    lemma PlayedThen(s: Script, stream: PartStream, fault: Fault)
      requires Follows(Told(s, stream.parts)) && chart == s.chart
      requires fault == if out.blocked then NoFault else stream.fault
      ensures Played(Then(s, stream), fault)
    {
    }

    method ConsumeNth(parts: seq<Part>, i: nat, ghost s: Script)
      requires i < |parts| && Follows(Told(s, parts[..i])) && !out.blocked
      modifies this`buffer, this`sent, out
      ensures Follows(Told(s, parts[..i + 1]))
    {
      ConsumeItem(parts[i], Told(s, parts[..i]));
      NextPart(s, parts, i);
    }

    /** A stream of parts, left as soon as the output is blocked. */
    method Consume(stream: PartStream, ghost s: Script) returns (fault: Fault)
      requires Follows(s) && !out.blocked && chart == s.chart
      modifies this`buffer, this`sent, out
      ensures Played(Then(s, stream), fault)
    {
      var parts := stream.parts;
      ToldNothing(s);
      assert parts[..0] == [];
      for i := 0 to |parts|
        invariant Follows(Told(s, parts[..i])) && !out.blocked
      {
        ConsumeNth(parts, i, s);
        if out.blocked {
          CutShort(s, parts, i + 1);
          PlayedThen(s, stream, NoFault);
          return NoFault;
        }
      }
      assert parts[..|parts|] == parts;
      PlayedThen(s, stream, stream.fault);
      return stream.fault;
    }

    method StreamPlainCompletion(ghost s: Script) returns (fault: Fault)
      requires Follows(s) && !out.blocked && chart == s.chart
      modifies this`buffer, this`sent, out
      ensures Played(Then(s, env.plain), fault)
    {
      fault := Consume(env.plain, s);
    }

    /** Tool calls of the search path, up to the first that brings a context or fails. */
    method SearchWithTools() returns (end: ScanEnd, ghost passed: seq<Part>)
      requires Follows(SILENT) && !out.blocked
      modifies this`sent
      ensures Follows(Told(SILENT, passed)) && (passed, end) == SearchScan(env.tools.events, [])
    {
      var events := env.tools.events;
      passed := [];
      ToldNothing(SILENT);
      assert events[0..] == events;
      for i := 0 to |events|
        invariant Follows(Told(SILENT, passed)) && !out.blocked
        invariant SearchScan(events, []) == SearchScan(events[i..], passed)
      {
        NextEvent(events, i);
        match events[i] {
          case Plan(Found, _) => return Hit(""), passed;
          case Plan(Failed(message), _) => return GaveUp(message), passed;
          case Plan(SearchRaised, _) => return Raised, passed;
          case Plan(NotFound, _) =>
          case Said(part) =>
            if part.Thought? {
              EmitThinking(part.text, Told(SILENT, passed));
              ToldTold(SILENT, passed, [part]);
              passed := passed + [part];
            }
        }
      }
      return Exhausted, passed;
    }

    /** The web-search path: tool calls where the model supports them, a direct search if they bring nothing. */
    method StreamWebSearch() returns (fault: Fault)
      requires Follows(SILENT) && !out.blocked && chart == None
      modifies this`buffer, this`sent, out
      ensures Played(if env.hasSettings then SearchScript(env) else Then(SILENT, env.plain), fault)
    {
      if !env.hasSettings {
        fault := StreamPlainCompletion(SILENT);
        return;
      }
      var end := Exhausted;
      ghost var passed := [];
      ToldNothing(SILENT);
      if env.nativeSearch {
        end, passed := SearchWithTools();
        if end.Exhausted? && env.tools.fault != NoFault {
          return env.tools.fault;
        }
      }
      if end.Raised? || (end.Exhausted? && env.search.SearchRaised?) {
        return Unexpected;
      }
      if end.GaveUp? || (end.Exhausted? && env.search.Failed?) {
        EmitContent(if end.GaveUp? then end.message else env.search.message, Told(SILENT, passed));
        return NoFault;
      }
      fault := Consume(env.followup, Told(SILENT, passed));
    }

    method ConsumeAfter(part: Part, ghost passed: seq<Part>)
      requires Follows(Told(SILENT, passed)) && !out.blocked
      modifies this`buffer, this`sent, out
      ensures Follows(Told(SILENT, passed + [part]))
    {
      ConsumeItem(part, Told(SILENT, passed));
      ToldTold(SILENT, passed, [part]);
    }

    /** Events of the chart path, up to a block or the first call that compiles. */
    method ChartWithTools() returns (end: ScanEnd, ghost passed: seq<Part>)
      requires Follows(SILENT) && !out.blocked && chart == None
      modifies this`buffer, this`chart, this`sent, out
      ensures Follows(Told(SILENT, passed))
      ensures out.blocked ==> end.Exhausted? && passed <= ChartScan(env.tools.events, []).0
      ensures !out.blocked ==> (passed, end) == ChartScan(env.tools.events, [])
      ensures chart == if end.Hit? then Some(end.spec) else None
    {
      var events := env.tools.events;
      passed := [];
      ToldNothing(SILENT);
      assert events[0..] == events;
      for i := 0 to |events|
        invariant Follows(Told(SILENT, passed)) && !out.blocked && chart == None
        invariant ChartScan(events, []) == ChartScan(events[i..], passed)
      {
        NextEvent(events, i);
        match events[i] {
          case Plan(_, Spec(spec)) => chart := Some(spec); return Hit(spec), passed;
          case Plan(_, ChartRaised) => return Raised, passed;
          case Plan(_, NoSpec) =>
          case Said(part) =>
            ConsumeAfter(part, passed);
            passed := passed + [part];
            if out.blocked {
              ChartScanKeeps(events[i + 1..], passed);
              return Exhausted, passed;
            }
        }
      }
      return Exhausted, passed;
    }

    lemma SameParts(s: Script, t: Script)
      requires Follows(s) && t.parts == s.parts
      ensures Follows(t)
    {
    }

    lemma CutHasText(s: Script)
      requires Follows(s) && out.blocked
      ensures buffer != [] && s.Texts() != []
    {
    }

    lemma BlockedChart(passed: seq<Part>)
      requires Follows(Told(SILENT, passed)) && out.blocked && passed <= ChartScan(env.tools.events, []).0
      ensures Follows(ChartScript(env)) && buffer != []
    {
      var all := ChartScan(env.tools.events, []).0;
      assert all[..|passed|] == passed;
      CutShort(SILENT, all, |passed|);
      assert SILENT.parts + all == all;
      CutHasText(Told(SILENT, all));
      var more := ChartScriptParts(env);
      Cut(Told(SILENT, all), more);
      SameParts(Told(Told(SILENT, all), more), ChartScript(env));
    }

    lemma Uncut(s: Script)
      requires Follows(s) && !out.blocked
      ensures buffer == s.Texts()
    {
    }

    /** Where the chart loop was not cut, the script goes on as its end says. */
    lemma ChartScriptOf(passed: seq<Part>, end: ScanEnd)
      requires (passed, end) == ChartScan(env.tools.events, [])
      ensures var s := Told(SILENT, passed);
              && (end.Raised? ==> ChartScript(env) == s.(fault := Unexpected))
              && (end.Hit? ==> ChartScript(env) == Then(s.(chart := Some(end.spec)), env.followup))
              && (end.Exhausted? && env.tools.fault != NoFault ==> ChartScript(env) == s.(fault := env.tools.fault))
              && (end.Exhausted? && env.tools.fault == NoFault ==>
                    ChartScript(env) == if s.Texts() == [] then Then(s, env.plain) else s)
      ensures !end.GaveUp?
    {
      ChartScanEnds(env.tools.events, []);
    }

    /** The chart path: a compiled call is followed up, and a silent model is asked again without tools. */
    method StreamNativeChart() returns (fault: Fault)
      requires Follows(SILENT) && !out.blocked && chart == None
      modifies this`buffer, this`chart, this`sent, out
      ensures Played(ChartScript(env), fault)
    {
      var end;
      ghost var passed;
      end, passed := ChartWithTools();
      ghost var s := Told(SILENT, passed);
      if out.blocked {
        BlockedChart(passed);
      } else {
        ChartScriptOf(passed, end);
        Uncut(s);
        if end.Raised? {
          return Unexpected;
        } else if end.Exhausted? && env.tools.fault != NoFault {
          return env.tools.fault;
        }
      }
      if end.Hit? {
        fault := Consume(env.followup, s.(chart := chart));
      } else if buffer == [] {
        fault := StreamPlainCompletion(s);
      } else {
        fault := NoFault;
      }
    }

    method LlmPhase() returns (fault: Fault)
      requires Follows(SILENT) && !out.blocked && chart == None && !inputBlocked
      modifies this`buffer, this`chart, this`sent, out
      ensures Played(Scripted(env), fault)
    {
      if env.attemptSearch {
        fault := StreamWebSearch();
      } else if env.nativeCharts && env.hasDataframe {
        fault := StreamNativeChart();
      } else {
        fault := StreamPlainCompletion(SILENT);
      }
    }

    method EmitFailure(message: string)
      modifies this`sent
      ensures sent == old(sent) + Failure(message)
    {
      sent := sent + [Sse(Error(message))];
      sent := sent + [Sse(Done)];
    }

    /** A refusal instead of an answer, saved under its own title. */
    method YieldBlockedResponse()
      modifies this`sent, this`saved
      ensures sent == old(sent) + Frames(env, Refuse) && saved == old(saved) + Kept(env, Refuse)
    {
      sent := sent + [Sse(Token(env.words.refusal))];
      if !env.persists {
        EmitFailure(env.words.notPersisted);
        return;
      }
      saved := saved + [Saved(env.words.refusal, None, true)];
      sent := sent + [Sse(Done)];
    }

    method InputGuard()
      modifies this`inputBlocked, this`sent, this`saved
      ensures inputBlocked == (old(inputBlocked) || (out.safeguard.Some? && !env.inputAllowed))
      ensures out.safeguard.Some? && !env.inputAllowed ==>
                sent == old(sent) + Frames(env, Refuse) && saved == old(saved) + Kept(env, Refuse)
      ensures out.safeguard.None? || env.inputAllowed ==> sent == old(sent) && saved == old(saved)
    {
      if out.safeguard.None? || env.inputAllowed {
        return;
      }
      inputBlocked := true;
      YieldBlockedResponse();
    }

    method EmitArtifacts(files: seq<string>)
      modifies this`sent
      ensures sent == old(sent) + Artifacts(files)
    {
      for i := 0 to |files|
        invariant sent == old(sent) + Artifacts(files[..i])
      {
        assert files[..i + 1][..i] == files[..i];
        sent := sent + [Artifact(files[i])];
      }
      assert files[..|files|] == files;
    }

    /** After the text of an allowed answer: its files, its chart, and saving it. */
    method EmitTail(clean: string)
      modifies this`sent, this`saved
      ensures sent == old(sent) + Frames(env, Complete(clean, chart))
      ensures saved == old(saved) + Kept(env, Complete(clean, chart))
    {
      var files := Files(env);
      if files.None? {
        EmitFailure(env.words.notPersisted);
        return;
      }
      EmitArtifacts(files.value);
      sent := sent + Charts(chart);
      if !env.persists {
        EmitFailure(env.words.notPersisted);
        return;
      }
      saved := saved + [Saved(clean, chart, false)];
      sent := sent + [Sse(Done)];
    }

    method EmitAnswer(clean: string)
      requires Follows(Scripted(env)) && !out.blocked && saved == []
      requires EndOf(env, out.Safe()) == Complete(clean, chart)
      modifies this`sent, this`saved, out
      ensures Outcome(env, false, out.Safe(), out.holdbackTokens, sent, saved)
    {
      WholeText(out.Safe(), out.holdbackTokens, buffer, out.State(), sent, Scripted(env));
      var tokens := out.FlushTokens();
      EmitTokens(tokens);
      EmitTail(clean);
    }

    /** The end of a run that was let in: the error tail, or the last review, saving, and done. */
    method EmitCompletion(error: Option<string>)
      requires !inputBlocked && error.None? ==> Played(Scripted(env), NoFault) && saved == []
      modifies this`sent, this`saved, out
      ensures inputBlocked ==> sent == old(sent) && saved == old(saved)
      ensures !inputBlocked && error.Some? ==> sent == old(sent) + DONE && saved == old(saved)
      ensures !inputBlocked && error.None? ==> Outcome(env, false, out.Safe(), out.holdbackTokens, sent, saved)
    {
      if inputBlocked {
        return;
      }
      if error.Some? {
        sent := sent + [Sse(Done)];
        return;
      }
      var clean := env.stripCharts(Join(buffer));
      EndOfPlayed(env, out.Safe(), out.holdbackTokens, buffer, out.State(), sent);
      ghost var body := sent;
      if buffer == [] {
        EmitFailure(env.words.noOutput);
        CutOutcome(env, out.Safe(), out.holdbackTokens, buffer, out.State(), body);
        return;
      }
      var allowed := false;
      if !out.blocked {
        allowed := out.IsSafe(clean);
      }
      if allowed {
        EmitAnswer(clean);
        return;
      }
      YieldBlockedResponse();
      CutOutcome(env, out.Safe(), out.holdbackTokens, buffer, out.State(), body);
    }

    /** The error tail of a run whose model phase raised. */
    method EmitFault(fault: Fault)
      requires fault != NoFault && Played(Scripted(env), fault) && !inputBlocked && saved == []
      modifies this`sent, this`saved, out
      ensures inputBlocked == old(inputBlocked) && Outcome(env, false, out.Safe(), out.holdbackTokens, sent, saved)
    {
      ghost var body := sent;
      CutOutcome(env, out.Safe(), out.holdbackTokens, buffer, out.State(), body);
      var message := if fault.Unavailable? then env.words.unavailable else env.words.unexpected;
      sent := sent + [Sse(Error(message))];
      EmitCompletion(Some(message));
      assert sent == body + Failure(message);
    }

    /** The model phase and the end of a run that was let in. */
    method Answer()
      requires Follows(SILENT) && !out.blocked && chart == None && !inputBlocked && saved == []
      modifies this, out
      ensures inputBlocked == old(inputBlocked) && Outcome(env, false, out.Safe(), out.holdbackTokens, sent, saved)
    {
      var fault := LlmPhase();
      if fault == NoFault {
        EmitCompletion(None);
      } else {
        EmitFault(fault);
      }
    }

    /** The whole stream of a run: whatever the model, the safeguard and the storage do, its frames and what it
        saves are the outcome of its script. */
    method Stream()
      requires Follows(SILENT) && !out.blocked && chart == None && !inputBlocked && sent == [] && saved == []
      modifies this, out
      ensures inputBlocked <==> out.safeguard.Some? && !env.inputAllowed
      ensures Outcome(env, inputBlocked, out.Safe(), out.holdbackTokens, sent, saved)
    {
      InputGuard();
      if inputBlocked {
        EmitCompletion(None);
      } else {
        Answer();
      }
    }
  }
}
