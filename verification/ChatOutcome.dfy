/** What a chat stream is meant to show: the script its model events spell out, the outcomes allowed for
    that script, and what follows from them. */
module ChatOutcome {
  import opened Wrappers
  import opened SseFrames
  import opened OutputBuffer
  import opened Idempotency

  // ---------- inputs of a run ----------

  datatype Fault = NoFault | Unavailable | Unexpected

  datatype Part = Text(text: string) | Thought(text: string)

  /** The texts the service itself writes into a stream; nothing below depends on their wording. */
  datatype Words = Words(refusal: string, notPersisted: string, noOutput: string, unavailable: string, unexpected: string)

  /** What the web search makes of a tool call. */
  datatype Search = Found | NotFound | Failed(message: string) | SearchRaised

  /** What the chart compiler makes of a tool call. */
  datatype Chart = Spec(spec: string) | NoSpec | ChartRaised

  datatype ToolEvent = Said(part: Part) | Plan(search: Search, chart: Chart)

  /** A finite stream, which may end by raising. */
  datatype PartStream = PartStream(parts: seq<Part>, fault: Fault)
  datatype ToolStream = ToolStream(events: seq<ToolEvent>, fault: Fault)

  datatype Env = Env(
    words: Words,
    inputAllowed: bool,
    attemptSearch: bool,
    nativeSearch: bool,
    nativeCharts: bool,
    hasDataframe: bool,
    hasSettings: bool,
    hasRepository: bool,
    plain: PartStream,
    followup: PartStream,
    tools: ToolStream,
    search: Search,
    /** The files made from the answer, or nothing when writing them fails. */
    artifacts: Option<seq<string>>,
    persists: bool,
    stripCharts: string -> string)

  datatype Event = Sse(frame: Frame) | Artifact(file: string) | ChartSpec(spec: string)

  datatype Saved = Saved(text: string, chart: Option<string>, refused: bool)

  // ---------- the script ----------

  function TextsOf(parts: seq<Part>): seq<string> {
    if parts == [] then []
    else if parts[0].Text? && parts[0].text != "" then [parts[0].text] + TextsOf(parts[1..])
    else TextsOf(parts[1..])
  }

  function ThoughtsOf(parts: seq<Part>): seq<string> {
    if parts == [] then []
    else if parts[0].Thought? && parts[0].text != "" then [parts[0].text] + ThoughtsOf(parts[1..])
    else ThoughtsOf(parts[1..])
  }

  /** Everything the model says on the path the run takes, how the path ends, and the chart it makes. */
  datatype Script = Script(parts: seq<Part>, fault: Fault, chart: Option<string>) {
    function Texts(): seq<string> { TextsOf(parts) }
  }

  function Told(s: Script, parts: seq<Part>): Script { s.(parts := s.parts + parts) }

  function Then(s: Script, p: PartStream): Script { Told(s, p.parts).(fault := p.fault) }

  const SILENT := Script([], NoFault, None)

  /** How a loop over tool events ends. */
  datatype ScanEnd = Exhausted | Hit(spec: string) | GaveUp(message: string) | Raised

  /** The search loop passes thoughts on, drops text, and stops at the first call that is not empty-handed. */
  function SearchScan(events: seq<ToolEvent>, passed: seq<Part>): (seq<Part>, ScanEnd) {
    if events == [] then (passed, Exhausted)
    else
      match events[0]
      case Said(part) => SearchScan(events[1..], if part.Thought? then passed + [part] else passed)
      case Plan(Found, _) => (passed, Hit(""))
      case Plan(NotFound, _) => SearchScan(events[1..], passed)
      case Plan(Failed(message), _) => (passed, GaveUp(message))
      case Plan(SearchRaised, _) => (passed, Raised)
  }

  function SearchScript(e: Env): Script {
    var (passed, end) := if e.nativeSearch then SearchScan(e.tools.events, []) else ([], Exhausted);
    var s := Told(SILENT, passed);
    if end.GaveUp? then Told(s, [Text(end.message)])
    else if end.Raised? then s.(fault := Unexpected)
    else if end.Exhausted? && e.nativeSearch && e.tools.fault != NoFault then s.(fault := e.tools.fault)
    else if end.Exhausted? && e.search.Failed? then Told(s, [Text(e.search.message)])
    else if end.Exhausted? && e.search.SearchRaised? then s.(fault := Unexpected)
    else Then(s, e.followup)
  }

  /** The chart loop passes everything on and stops at the first call that compiles. */
  function ChartScan(events: seq<ToolEvent>, passed: seq<Part>): (seq<Part>, ScanEnd) {
    if events == [] then (passed, Exhausted)
    else
      match events[0]
      case Said(part) => ChartScan(events[1..], passed + [part])
      case Plan(_, Spec(spec)) => (passed, Hit(spec))
      case Plan(_, NoSpec) => ChartScan(events[1..], passed)
      case Plan(_, ChartRaised) => (passed, Raised)
  }

  function ChartScript(e: Env): Script {
    var (passed, end) := ChartScan(e.tools.events, []);
    var s := Told(SILENT, passed);
    if end.Raised? then s.(fault := Unexpected)
    else if end.Hit? then Then(s.(chart := Some(end.spec)), e.followup)
    else if e.tools.fault != NoFault then s.(fault := e.tools.fault)
    else if s.Texts() == [] then Then(s, e.plain)
    else s
  }

  function Scripted(e: Env): Script {
    if e.attemptSearch && e.hasSettings then SearchScript(e)
    else if !e.attemptSearch && e.nativeCharts && e.hasDataframe then ChartScript(e)
    else Then(SILENT, e.plain)
  }

  // ---------- outcomes ----------

  function Tokens(sent: seq<Event>): seq<string> {
    if sent == [] then []
    else
      var n := |sent| - 1;
      Tokens(sent[..n]) + if sent[n].Sse? && sent[n].frame.Token? then [sent[n].frame.text] else []
  }

  function Thoughts(sent: seq<Event>): seq<string> {
    if sent == [] then []
    else
      var n := |sent| - 1;
      Thoughts(sent[..n]) + if sent[n].Sse? && sent[n].frame.Thinking? then [sent[n].frame.text] else []
  }

  predicate IsProse(e: Event) { e.Sse? && (e.frame.Token? || e.frame.Thinking?) }

  predicate Prose(sent: seq<Event>) { forall i :: 0 <= i < |sent| ==> IsProse(sent[i]) }

  const DONE := [Sse(Done)]

  function Failure(message: string): seq<Event> { [Sse(Error(message))] + DONE }

  function Refusal(e: Env): seq<Event> {
    [Sse(Token(e.words.refusal))] + if e.persists then DONE else Failure(e.words.notPersisted)
  }

  function Files(e: Env): Option<seq<string>> {
    if e.hasSettings && e.hasRepository then e.artifacts else Some([])
  }

  function Artifacts(files: seq<string>): seq<Event> {
    if files == [] then [] else Artifacts(files[..|files| - 1]) + [Artifact(files[|files| - 1])]
  }

  function Charts(chart: Option<string>): seq<Event> {
    if chart.None? then [] else [ChartSpec(chart.value)]
  }

  /** What follows the text of an answer that is allowed. */
  function Completion(e: Env, chart: Option<string>): seq<Event> {
    if Files(e).None? then Failure(e.words.notPersisted)
    else Artifacts(Files(e).value) + Charts(chart) + if e.persists then DONE else Failure(e.words.notPersisted)
  }

  function Apologise(e: Env, f: Fault): string {
    if f.Unavailable? then e.words.unavailable else e.words.unexpected
  }

  /** How a run that was let in ends. */
  datatype End = Refuse | Fail(message: string) | Complete(text: string, chart: Option<string>)

  /** The text is cut at the first unsafe token; a fault counts only if the cut does not come first. */
  function EndOf(e: Env, safe: Judge): End {
    var s := Scripted(e);
    var clean := e.stripCharts(Join(s.Texts()));
    if SafeCount(safe, s.Texts()) < |s.Texts()| then Refuse
    else if s.fault != NoFault then Fail(Apologise(e, s.fault))
    else if s.Texts() == [] then Fail(e.words.noOutput)
    else if !safe(clean) then Refuse
    else Complete(clean, s.chart)
  }

  /** The frames after the prose. */
  function Frames(e: Env, end: End): seq<Event> {
    match end
    case Refuse => Refusal(e)
    case Fail(message) => Failure(message)
    case Complete(_, chart) => Completion(e, chart)
  }

  function Kept(e: Env, end: End): seq<Saved> {
    match end
    case Refuse => if e.persists then [Saved(e.words.refusal, None, true)] else []
    case Fail(_) => []
    case Complete(text, chart) => if Files(e).Some? && e.persists then [Saved(text, chart, false)] else []
  }

  /** How many tokens of the script are shown: all of an answer that is allowed, otherwise those the buffer
      had let out. */
  function Shown(e: Env, safe: Judge, holdback: nat): (n: nat)
    ensures n <= |Scripted(e).Texts()|
  {
    if EndOf(e, safe).Complete? then |Scripted(e).Texts()| else Emitted(safe, holdback, Scripted(e).Texts())
  }

  function TokenFrames(texts: seq<string>): seq<Event> {
    if texts == [] then [] else TokenFrames(texts[..|texts| - 1]) + [Sse(Token(texts[|texts| - 1]))]
  }

  /** The first unsafe text has been reached. */
  predicate IsCut(safe: Judge, texts: seq<string>) { SafeCount(safe, texts) < |texts| }

  /** The tokens that become due as the text grows. */
  function Due(safe: Judge, holdback: nat, before: seq<string>, texts: seq<string>): seq<string> {
    var m, n := Emitted(safe, holdback, before), Emitted(safe, holdback, texts);
    if m <= n then texts[m..n] else []
  }

  /** The frames of what the model says, in order: a thought at once, the tokens when they are due, and
      nothing after the cut. */
  function Rendered(safe: Judge, holdback: nat, parts: seq<Part>): seq<Event> {
    if parts == [] then []
    else
      var front, part := parts[..|parts| - 1], parts[|parts| - 1];
      Rendered(safe, holdback, front) +
      if IsCut(safe, TextsOf(front)) || part.text == "" then []
      else if part.Thought? then [Sse(Thinking(part.text))]
      else TokenFrames(Due(safe, holdback, TextsOf(front), TextsOf(parts)))
  }

  /** Everything before the frames of the end: an answer that is allowed is let out to its last token. */
  function Body(e: Env, safe: Judge, holdback: nat): seq<Event> {
    var s := Scripted(e);
    Rendered(safe, holdback, s.parts) +
    if EndOf(e, safe).Complete? then TokenFrames(s.Texts()[Emitted(safe, holdback, s.Texts())..]) else []
  }

  /** The stream of a run and what it saves. */
  ghost predicate Outcome(e: Env, inputBlocked: bool, safe: Judge, holdback: nat, sent: seq<Event>, saved: seq<Saved>) {
    if inputBlocked then sent == Frames(e, Refuse) && saved == Kept(e, Refuse)
    else sent == Body(e, safe, holdback) + Frames(e, EndOf(e, safe)) && saved == Kept(e, EndOf(e, safe))
  }

  // ---------- the rendering ----------

  lemma {:induction false} PartsConcat(a: seq<Part>, b: seq<Part>)
    ensures TextsOf(a + b) == TextsOf(a) + TextsOf(b)
    ensures ThoughtsOf(a + b) == ThoughtsOf(a) + ThoughtsOf(b)
  {
    if a == [] {
      assert a + b == b;
    } else {
      assert (a + b)[1..] == a[1..] + b;
      PartsConcat(a[1..], b);
    }
  }

  lemma OnePart(part: Part)
    ensures TextsOf([part]) == if part.Text? && part.text != "" then [part.text] else []
    ensures ThoughtsOf([part]) == if part.Thought? && part.text != "" then [part.text] else []
  {
    assert [part][1..] == [];
  }

  lemma RenderedSnoc(safe: Judge, holdback: nat, parts: seq<Part>, part: Part)
    ensures Rendered(safe, holdback, parts + [part]) == Rendered(safe, holdback, parts) +
              (if IsCut(safe, TextsOf(parts)) || part.text == "" then []
               else if part.Thought? then [Sse(Thinking(part.text))]
               else TokenFrames(Due(safe, holdback, TextsOf(parts), TextsOf(parts + [part]))))
  {
    assert (parts + [part])[..|parts|] == parts;
  }

  lemma LastTokenFrame(texts: seq<string>) returns (front: seq<string>, last: string)
    requires texts != []
    ensures texts == front + [last] && TokenFrames(texts) == TokenFrames(front) + [Sse(Token(last))]
  {
    front, last := texts[..|texts| - 1], texts[|texts| - 1];
  }

  lemma {:induction false} TokenFramesAre(texts: seq<string>)
    ensures Tokens(TokenFrames(texts)) == texts && Thoughts(TokenFrames(texts)) == []
    decreases |texts|
  {
    if texts != [] {
      var front, last := LastTokenFrame(texts);
      TokenFramesAre(front);
      FrameAdds(TokenFrames(front), Token(last));
    }
  }

  lemma {:induction false} TokenFramesAreProse(texts: seq<string>)
    ensures Prose(TokenFrames(texts))
  {
    if texts != [] {
      TokenFramesAreProse(texts[..|texts| - 1]);
    }
  }

  lemma FrameAdds(sent: seq<Event>, f: Frame)
    ensures Tokens(sent + [Sse(f)]) == if f.Token? then Tokens(sent) + [f.text] else Tokens(sent)
    ensures Thoughts(sent + [Sse(f)]) == if f.Thinking? then Thoughts(sent) + [f.text] else Thoughts(sent)
  {
    OneFrame(sent, Sse(f));
    assert Tokens(sent) + [] == Tokens(sent) && Thoughts(sent) + [] == Thoughts(sent);
  }

  lemma OneFrame(sent: seq<Event>, event: Event)
    ensures Tokens(sent + [event]) == Tokens(sent) + if event.Sse? && event.frame.Token? then [event.frame.text] else []
    ensures Thoughts(sent + [event]) == Thoughts(sent) + if event.Sse? && event.frame.Thinking? then [event.frame.text] else []
  {
    assert (sent + [event])[..|sent|] == sent;
  }

  lemma {:induction false} ThoughtsConcat(a: seq<Event>, b: seq<Event>)
    ensures Thoughts(a + b) == Thoughts(a) + Thoughts(b)
  {
    if b == [] {
      assert a + b == a;
    } else {
      var front, last := b[..|b| - 1], b[|b| - 1];
      ThoughtsConcat(a, front);
      OneFrame(a + front, last);
      OneFrame(front, last);
      assert a + b == (a + front) + [last] && b == front + [last];
    }
  }

  /** What rendering shows of a script: prose only, the tokens that are out, and all thoughts if nothing is cut. */
  ghost predicate Renders(safe: Judge, holdback: nat, parts: seq<Part>, sent: seq<Event>) {
    && Prose(sent)
    && Tokens(sent) == TextsOf(parts)[..Emitted(safe, holdback, TextsOf(parts))]
    && (!IsCut(safe, TextsOf(parts)) ==> Thoughts(sent) == ThoughtsOf(parts))
  }

  lemma {:induction false} RenderedFacts(safe: Judge, holdback: nat, parts: seq<Part>)
    ensures Renders(safe, holdback, parts, Rendered(safe, holdback, parts))
  {
    if parts != [] {
      var front, part := parts[..|parts| - 1], parts[|parts| - 1];
      assert parts == front + [part];
      RenderedFacts(safe, holdback, front);
      RenderedSnoc(safe, holdback, front, part);
      RendersOneMore(safe, holdback, front, part, Rendered(safe, holdback, front));
    }
  }

  lemma RendersOneMore(safe: Judge, holdback: nat, parts: seq<Part>, part: Part, sent: seq<Event>)
    requires Renders(safe, holdback, parts, sent)
    ensures Renders(safe, holdback, parts + [part], sent +
              (if IsCut(safe, TextsOf(parts)) || part.text == "" then []
               else if part.Thought? then [Sse(Thinking(part.text))]
               else TokenFrames(Due(safe, holdback, TextsOf(parts), TextsOf(parts + [part])))))
  {
    if part.text == "" || part.Thought? {
      RendersThought(safe, holdback, parts, part, sent);
    } else {
      RendersText(safe, holdback, parts, part, sent);
    }
  }

  lemma RendersThought(safe: Judge, holdback: nat, parts: seq<Part>, part: Part, sent: seq<Event>)
    requires Renders(safe, holdback, parts, sent) && (part.text == "" || part.Thought?)
    ensures Renders(safe, holdback, parts + [part], sent +
              (if IsCut(safe, TextsOf(parts)) || part.text == "" then [] else [Sse(Thinking(part.text))]))
  {
    PartsConcat(parts, [part]);
    OnePart(part);
    FrameAdds(sent, Thinking(part.text));
    assert sent + [] == sent;
    assert TextsOf(parts) + [] == TextsOf(parts) && ThoughtsOf(parts) + [] == ThoughtsOf(parts);
  }

  lemma RendersText(safe: Judge, holdback: nat, parts: seq<Part>, part: Part, sent: seq<Event>)
    requires Renders(safe, holdback, parts, sent) && part.Text? && part.text != ""
    ensures Renders(safe, holdback, parts + [part], sent +
              (if IsCut(safe, TextsOf(parts)) then [] else TokenFrames(Due(safe, holdback, TextsOf(parts), TextsOf(parts + [part])))))
  {
    var before := TextsOf(parts);
    PartsConcat(parts, [part]);
    OnePart(part);
    CountGrows(safe, before, part.text);
    DueContinues(safe, holdback, before, part.text);
    assert ThoughtsOf(parts) + [] == ThoughtsOf(parts);
    if IsCut(safe, before) {
      assert sent + [] == sent && Tokens(sent) + [] == Tokens(sent);
    } else {
      TokensAdd(sent, Due(safe, holdback, before, before + [part.text]));
    }
  }

  lemma TokensAdd(sent: seq<Event>, texts: seq<string>)
    requires Prose(sent)
    ensures Prose(sent + TokenFrames(texts))
    ensures Tokens(sent + TokenFrames(texts)) == Tokens(sent) + texts && Thoughts(sent + TokenFrames(texts)) == Thoughts(sent)
  {
    TokenFramesAre(texts);
    TokenFramesAreProse(texts);
    TokensConcat(sent, TokenFrames(texts));
    ThoughtsConcat(sent, TokenFrames(texts));
    assert Thoughts(sent) + [] == Thoughts(sent);
  }

  lemma DueContinues(safe: Judge, holdback: nat, before: seq<string>, text: string)
    ensures var texts := before + [text];
            var due := if IsCut(safe, before) then [] else Due(safe, holdback, before, texts);
            before[..Emitted(safe, holdback, before)] + due == texts[..Emitted(safe, holdback, texts)]
  {
    CountGrows(safe, before, text);
    PrefixOfConcat(before, [text], Emitted(safe, holdback, before));
  }

  /** Nothing is rendered after the cut. */
  lemma {:induction false} RenderedCut(safe: Judge, holdback: nat, parts: seq<Part>, more: seq<Part>)
    requires IsCut(safe, TextsOf(parts))
    ensures IsCut(safe, TextsOf(parts + more)) && Rendered(safe, holdback, parts + more) == Rendered(safe, holdback, parts)
  {
    if more == [] {
      assert parts + more == parts;
    } else {
      var front, part := more[..|more| - 1], more[|more| - 1];
      RenderedCut(safe, holdback, parts, front);
      assert parts + more == (parts + front) + [part];
      RenderedSnoc(safe, holdback, parts + front, part);
      PartsConcat(parts + front, [part]);
      OnePart(part);
      CutGrows(safe, TextsOf(parts + front), TextsOf([part]));
    }
  }

  lemma CutGrows(safe: Judge, texts: seq<string>, more: seq<string>)
    requires IsCut(safe, texts) && |more| <= 1
    ensures IsCut(safe, texts + more)
  {
    if more == [] {
      assert texts + more == texts;
    } else {
      CountGrows(safe, texts, more[0]);
      assert more == [more[0]];
    }
  }

  lemma {:induction false} RenderedPrefix(safe: Judge, holdback: nat, parts: seq<Part>, i: nat)
    requires i <= |parts|
    ensures Rendered(safe, holdback, parts[..i]) <= Rendered(safe, holdback, parts)
  {
    if i == |parts| {
      assert parts[..i] == parts;
    } else {
      var front := parts[..|parts| - 1];
      RenderedPrefix(safe, holdback, front, i);
      assert front[..i] == parts[..i];
    }
  }

  lemma PlaceOf(front: seq<Event>, event: Event, sent: seq<Event>)
    requires front + [event] <= sent
    ensures |front| < |sent| && sent[..|front|] == front && sent[|front|] == event
  {
    assert (front + [event])[|front|] == sent[|front|];
  }

  /** Where the rendering has the thought. */
  lemma ThoughtInRendering(safe: Judge, holdback: nat, parts: seq<Part>, i: nat) returns (n: nat)
    requires i < |parts| && parts[i].Thought? && parts[i].text != "" && !IsCut(safe, TextsOf(parts[..i]))
    ensures var all := Rendered(safe, holdback, parts);
            && n < |all| && all[n] == Sse(Thinking(parts[i].text))
            && Tokens(all[..n]) == TextsOf(parts[..i])[..Emitted(safe, holdback, TextsOf(parts[..i]))]
  {
    RenderedFacts(safe, holdback, parts[..i]);
    RenderedSnoc(safe, holdback, parts[..i], parts[i]);
    assert parts[..i] + [parts[i]] == parts[..i + 1];
    RenderedPrefix(safe, holdback, parts, i + 1);
    PlaceOf(Rendered(safe, holdback, parts[..i]), Sse(Thinking(parts[i].text)), Rendered(safe, holdback, parts));
    n := |Rendered(safe, holdback, parts[..i])|;
  }

  /** Thoughts keep their place: a thought that comes before the cut is sent right when the tokens due by then,
      and no others, have been sent. */
  lemma ThoughtsKeepTheirPlace(e: Env, safe: Judge, holdback: nat, sent: seq<Event>, saved: seq<Saved>, i: nat)
    returns (n: nat)
    requires Outcome(e, false, safe, holdback, sent, saved)
    requires i < |Scripted(e).parts| && Scripted(e).parts[i].Thought? && Scripted(e).parts[i].text != ""
    requires !IsCut(safe, TextsOf(Scripted(e).parts[..i]))
    ensures n < |sent| && sent[n] == Sse(Thinking(Scripted(e).parts[i].text))
    ensures var said := TextsOf(Scripted(e).parts[..i]); Tokens(sent[..n]) == said[..Emitted(safe, holdback, said)]
  {
    n := ThoughtInRendering(safe, holdback, Scripted(e).parts, i);
    var all := Rendered(safe, holdback, Scripted(e).parts);
    PrefixOfRun(all, sent, n);
  }

  lemma PrefixOfRun(all: seq<Event>, sent: seq<Event>, n: nat)
    requires n < |all| && all <= sent
    ensures n < |sent| && sent[n] == all[n] && sent[..n] == all[..n]
  {
  }

  // ---------- what every outcome guarantees ----------

  predicate IsDone(e: Event) { e == Sse(Done) }

  /** A done frame, and only one, at the very end. */
  ghost predicate EndsOnce(sent: seq<Event>) {
    && sent != [] && IsDone(sent[|sent| - 1])
    && forall i :: 0 <= i < |sent| - 1 ==> !IsDone(sent[i])
  }

  ghost predicate NoDone(sent: seq<Event>) { forall i :: 0 <= i < |sent| ==> !IsDone(sent[i]) }

  lemma EndsOnceAfter(a: seq<Event>, b: seq<Event>)
    requires NoDone(a) && EndsOnce(b)
    ensures EndsOnce(a + b)
  {
  }

  lemma {:induction false} ArtifactsNoDone(files: seq<string>)
    ensures NoDone(Artifacts(files)) && Tokens(Artifacts(files)) == []
  {
    if files != [] {
      ArtifactsNoDone(files[..|files| - 1]);
    }
  }

  lemma CompletionEndsOnce(e: Env, chart: Option<string>)
    ensures EndsOnce(Completion(e, chart))
  {
    if Files(e).Some? {
      ArtifactsNoDone(Files(e).value);
      var last := if e.persists then DONE else Failure(e.words.notPersisted);
      EndsOnceAfter(Artifacts(Files(e).value) + Charts(chart), last);
    }
  }

  lemma FramesEndOnce(e: Env, end: End)
    ensures EndsOnce(Frames(e, end))
  {
    if end.Complete? {
      CompletionEndsOnce(e, end.chart);
    }
  }

  /** A run that was let in is prose followed by the frames of its end. */
  lemma BodyOf(e: Env, safe: Judge, holdback: nat, sent: seq<Event>, saved: seq<Saved>) returns (body: seq<Event>)
    requires Outcome(e, false, safe, holdback, sent, saved)
    ensures sent == body + Frames(e, EndOf(e, safe)) && saved == Kept(e, EndOf(e, safe)) && Prose(body)
    ensures Tokens(body) == Scripted(e).Texts()[..Shown(e, safe, holdback)]
  {
    body := Body(e, safe, holdback);
    BodyFacts(e, safe, holdback);
  }

  lemma BodyFacts(e: Env, safe: Judge, holdback: nat)
    ensures Prose(Body(e, safe, holdback))
    ensures Tokens(Body(e, safe, holdback)) == Scripted(e).Texts()[..Shown(e, safe, holdback)]
  {
    var s := Scripted(e);
    RenderedFacts(safe, holdback, s.parts);
    var rest := if EndOf(e, safe).Complete? then s.Texts()[Emitted(safe, holdback, s.Texts())..] else [];
    TokensAdd(Rendered(safe, holdback, s.parts), rest);
    PrefixAndRest(s.Texts(), Emitted(safe, holdback, s.Texts()));
  }

  lemma PrefixAndRest(s: seq<string>, n: nat)
    requires n <= |s|
    ensures s[..n] + s[n..] == s && s[..|s|] == s && s[..n] + [] == s[..n]
  {
  }

  /** Every run, whatever the model, the safeguard and the storage do, ends with its one done frame. */
  lemma OneDoneAndItIsLast(e: Env, inputBlocked: bool, safe: Judge, holdback: nat, sent: seq<Event>, saved: seq<Saved>)
    requires Outcome(e, inputBlocked, safe, holdback, sent, saved)
    ensures EndsOnce(sent)
  {
    if inputBlocked {
      FramesEndOnce(e, Refuse);
    } else {
      var end := EndOf(e, safe);
      var body := BodyOf(e, safe, holdback, sent, saved);
      FramesEndOnce(e, end);
      ProseHasNoDone(body);
      EndsOnceAfter(body, Frames(e, end));
    }
  }

  lemma ProseHasNoDone(body: seq<Event>)
    requires Prose(body)
    ensures NoDone(body)
  {
    forall i | 0 <= i < |body|
      ensures !IsDone(body[i])
    {
      assert IsProse(body[i]);
    }
  }

  lemma {:induction false} TokensConcat(a: seq<Event>, b: seq<Event>)
    ensures Tokens(a + b) == Tokens(a) + Tokens(b)
  {
    if b == [] {
      assert a + b == a;
    } else {
      var front, last := b[..|b| - 1], b[|b| - 1];
      TokensConcat(a, front);
      OneFrame(a + front, last);
      OneFrame(front, last);
      assert a + b == (a + front) + [last] && b == front + [last];
    }
  }

  lemma NoTokens(a: seq<Event>, b: seq<Event>)
    requires Tokens(a) == [] && Tokens(b) == []
    ensures Tokens(a + b) == []
  {
    TokensConcat(a, b);
  }

  lemma TokensOfFailure(message: string)
    ensures Tokens(Failure(message)) == [] && Tokens(DONE) == []
  {
    assert Failure(message)[..1] == [Sse(Error(message))];
    assert Tokens([Sse(Error(message))]) == Tokens([]) + [];
  }

  lemma TokensOfCompletion(e: Env, chart: Option<string>)
    ensures Tokens(Completion(e, chart)) == []
  {
    TokensOfFailure(e.words.notPersisted);
    if Files(e).Some? {
      var files := Artifacts(Files(e).value);
      ArtifactsNoDone(Files(e).value);
      NoTokens(files, Charts(chart));
      NoTokens(files + Charts(chart), if e.persists then DONE else Failure(e.words.notPersisted));
    }
  }

  lemma TokensOfRefusal(e: Env)
    ensures Tokens(Refusal(e)) == [e.words.refusal]
  {
    var last := if e.persists then DONE else Failure(e.words.notPersisted);
    TokensOfFailure(e.words.notPersisted);
    TokensConcat([Sse(Token(e.words.refusal))], last);
    assert Tokens([Sse(Token(e.words.refusal))]) == Tokens([]) + [e.words.refusal];
  }

  lemma TokensOfFrames(e: Env, end: End)
    ensures Tokens(Frames(e, end)) == if end.Refuse? then [e.words.refusal] else []
  {
    match end
    case Refuse => TokensOfRefusal(e);
    case Fail(message) => TokensOfFailure(message);
    case Complete(_, chart) => TokensOfCompletion(e, chart);
  }

  /** Where an answer that is not cut is let through, all of its text is shown. */
  lemma AllShown(e: Env, safe: Judge, holdback: nat)
    requires EndOf(e, safe).Complete?
    ensures Scripted(e).Texts()[..Shown(e, safe, holdback)] == Scripted(e).Texts()
    ensures EndOf(e, safe).text == e.stripCharts(Join(Scripted(e).Texts())) && safe(EndOf(e, safe).text)
  {
  }

  lemma TokensAfter(e: Env, end: End, body: seq<Event>)
    ensures end.Refuse? ==> Tokens(body + Frames(e, end)) == Tokens(body) + [e.words.refusal]
    ensures !end.Refuse? ==> Tokens(body + Frames(e, end)) == Tokens(body)
  {
    TokensConcat(body, Frames(e, end));
    TokensOfFrames(e, end);
    assert Tokens(body) + [] == Tokens(body);
  }

  lemma KeptFacts(e: Env, end: End)
    ensures |Kept(e, end)| <= 1
    ensures Kept(e, end) != [] && Kept(e, end)[0].refused ==> end.Refuse? && Kept(e, end)[0] == Saved(e.words.refusal, None, true)
    ensures Kept(e, end) != [] && !Kept(e, end)[0].refused ==> end.Complete? && Kept(e, end)[0].text == end.text
  {
  }

  /** What is saved is what was shown: at most one entry, and it is either the refusal, shown last, or the
      text of all the token frames with its chart blocks stripped, which was judged safe. */
  lemma SavedIsWhatWasShown(e: Env, inputBlocked: bool, safe: Judge, holdback: nat, sent: seq<Event>, saved: seq<Saved>)
    requires Outcome(e, inputBlocked, safe, holdback, sent, saved)
    ensures |saved| <= 1
    ensures saved != [] && saved[0].refused ==>
              && saved[0] == Saved(e.words.refusal, None, true)
              && |Tokens(sent)| > 0 && Tokens(sent)[|Tokens(sent)| - 1] == e.words.refusal
    ensures saved != [] && !saved[0].refused ==>
              && saved[0].text == e.stripCharts(Join(Tokens(sent)))
              && safe(saved[0].text)
  {
    if inputBlocked {
      KeptFacts(e, Refuse);
      TokensOfFrames(e, Refuse);
    } else {
      var end := EndOf(e, safe);
      var body := BodyOf(e, safe, holdback, sent, saved);
      KeptFacts(e, end);
      TokensAfter(e, end, body);
      if end.Complete? {
        AllShown(e, safe, holdback);
      }
    }
  }

  /** The tokens a run shows before its ending are the first ones of its script. */
  lemma TokensShown(e: Env, safe: Judge, holdback: nat, sent: seq<Event>, saved: seq<Saved>, i: nat)
    requires Outcome(e, false, safe, holdback, sent, saved) && i <= Shown(e, safe, holdback)
    ensures i <= |Tokens(sent)| && Tokens(sent)[..i] == Scripted(e).Texts()[..i]
  {
    var body := BodyOf(e, safe, holdback, sent, saved);
    var ending := Frames(e, EndOf(e, safe));
    TokensConcat(body, ending);
    PrefixOfConcat(Tokens(body), Tokens(ending), i);
    SliceOfSlice(Scripted(e).Texts(), Shown(e, safe, holdback), i);
  }

  lemma SliceOfSlice(s: seq<string>, n: nat, i: nat)
    requires i <= n <= |s|
    ensures s[..n][..i] == s[..i]
  {
  }

  /** Moderation holds on the wire: every prefix of the text shown before a refusal was judged safe, and
      unless the whole answer was allowed the text judged safe reached at least the hold-back further. */
  lemma ShownTextIsSafe(e: Env, safe: Judge, holdback: nat, sent: seq<Event>, saved: seq<Saved>, i: nat)
    requires Outcome(e, false, safe, holdback, sent, saved) && 1 <= i <= Shown(e, safe, holdback)
    ensures i <= |Tokens(sent)| && safe(Join(Tokens(sent)[..i]))
    ensures Shown(e, safe, holdback) < |Scripted(e).Texts()| ==>
              i + holdback <= |Scripted(e).Texts()| && safe(Join(Scripted(e).Texts()[..i + holdback]))
  {
    TokensShown(e, safe, holdback, sent, saved, i);
    SafeUpTo(e, safe, holdback, i);
  }

  lemma SafeUpTo(e: Env, safe: Judge, holdback: nat, i: nat)
    requires 1 <= i <= Shown(e, safe, holdback)
    ensures safe(Join(Scripted(e).Texts()[..i]))
    ensures Shown(e, safe, holdback) < |Scripted(e).Texts()| ==>
              i + holdback <= |Scripted(e).Texts()| && safe(Join(Scripted(e).Texts()[..i + holdback]))
  {
    var texts := Scripted(e).Texts();
    SafeCountAt(safe, texts, i);
    if Shown(e, safe, holdback) < |texts| {
      SafeCountAt(safe, texts, i + holdback);
    }
  }

  // ---------- the run and the idempotency capture ----------

  function Chunks(sent: seq<Event>, wire: Event -> string): seq<string> {
    seq(|sent|, i requires 0 <= i < |sent| => wire(sent[i]))
  }

  /** Whether a file or chart frame spells the done mark somewhere inside. */
  ghost predicate MarkInside(e: Event, wire: Event -> string) {
    !e.Sse? && Contains(wire(e), DONE_MARK)
  }

  lemma WireHasMark(e: Event, wire: Event -> string)
    requires forall f :: wire(Sse(f)) == Encode(f)
    ensures Contains(wire(e), DONE_MARK) <==> IsDone(e) || MarkInside(e, wire)
  {
    if e.Sse? {
      OnlyDoneHasTheMark(e.frame);
    }
  }

  ghost predicate HoldsMark(sent: seq<Event>, wire: Event -> string) {
    exists i :: 0 <= i < |sent| && (IsDone(sent[i]) || MarkInside(sent[i], wire))
  }

  lemma MarkOfChunks(sent: seq<Event>, wire: Event -> string)
    requires forall f :: wire(Sse(f)) == Encode(f)
    ensures SawDone(Chunks(sent, wire)) <==> HoldsMark(sent, wire)
  {
    var chunks := Chunks(sent, wire);
    forall i | 0 <= i < |sent|
      ensures Contains(chunks[i], DONE_MARK) <==> IsDone(sent[i]) || MarkInside(sent[i], wire)
    {
      WireHasMark(sent[i], wire);
    }
  }

  lemma MarkOfPart(sent: seq<Event>, wire: Event -> string, n: nat)
    requires EndsOnce(sent) && n <= |sent|
    ensures HoldsMark(sent[..n], wire) <==> n == |sent| || exists i :: 0 <= i < n && MarkInside(sent[i], wire)
  {
    var part := sent[..n];
    if n == |sent| {
      assert IsDone(part[n - 1]);
    }
    if i :| 0 <= i < n && MarkInside(sent[i], wire) {
      assert MarkInside(part[i], wire);
    }
  }

  /** The capture takes what it has passed on for complete exactly when that is the whole run, or when a file or
      chart frame in it spells the done mark. */
  lemma CapturedExactlyWhenWhole(sent: seq<Event>, wire: Event -> string, n: nat)
    requires EndsOnce(sent) && n <= |sent|
    requires forall f :: wire(Sse(f)) == Encode(f)
    ensures SawDone(Chunks(sent[..n], wire)) <==>
              n == |sent| || exists i :: 0 <= i < n && MarkInside(sent[i], wire)
  {
    MarkOfChunks(sent[..n], wire);
    MarkOfPart(sent, wire, n);
  }
}
