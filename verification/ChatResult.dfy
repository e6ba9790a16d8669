/** What a chat run saves and how it ends, told from the frames that the client sees and from what the model, the
    tools, the safeguard and the storage do. */
module ChatResult {
  import opened Wrappers
  import opened SseFrames
  import opened OutputBuffer
  import opened ChatOutcome

  // ---------- the frames of one sort ----------

  function ErrorOf(e: Event): Option<string> { if e.Sse? && e.frame.Error? then Some(e.frame.text) else None }
  function FileOf(e: Event): Option<string> { if e.Artifact? then Some(e.file) else None }
  function ChartOf(e: Event): Option<string> { if e.ChartSpec? then Some(e.spec) else None }

  /** What the events of one sort carry, in order. */
  function Carried(sent: seq<Event>, of: Event -> Option<string>): seq<string> {
    if sent == [] then []
    else
      var front, last := Carried(sent[..|sent| - 1], of), of(sent[|sent| - 1]);
      if last.Some? then front + [last.value] else front
  }

  lemma {:induction false} CarriedConcat(a: seq<Event>, b: seq<Event>, of: Event -> Option<string>)
    ensures Carried(a + b, of) == Carried(a, of) + Carried(b, of)
  {
    if b == [] {
      assert a + b == a && Carried(a, of) + [] == Carried(a, of);
    } else {
      var front, last := b[..|b| - 1], b[|b| - 1];
      CarriedConcat(a, front, of);
      assert (a + b)[..|a + b| - 1] == a + front && (a + b)[|a + b| - 1] == last;
    }
  }

  lemma {:induction false} NoneCarried(sent: seq<Event>, of: Event -> Option<string>)
    requires forall i :: 0 <= i < |sent| ==> of(sent[i]).None?
    ensures Carried(sent, of) == []
  {
    if sent != [] {
      NoneCarried(sent[..|sent| - 1], of);
    }
  }

  lemma OneCarried(e: Event, of: Event -> Option<string>)
    ensures Carried([e], of) == if of(e).Some? then [of(e).value] else []
  {
    assert [e][..0] == [];
    assert Carried([], of) == [];
  }

  lemma {:induction false} FilesCarried(files: seq<string>)
    ensures Carried(Artifacts(files), FileOf) == files
    ensures Carried(Artifacts(files), ErrorOf) == [] && Carried(Artifacts(files), ChartOf) == []
  {
    if files != [] {
      var front, last := files[..|files| - 1], files[|files| - 1];
      FilesCarried(front);
      var sent := Artifacts(front) + [Artifact(last)];
      assert Artifacts(files) == sent && sent[..|sent| - 1] == Artifacts(front);
      assert files == front + [last];
    }
  }

  lemma ChartCarried(chart: Option<string>)
    ensures Carried(Charts(chart), ChartOf) == if chart.Some? then [chart.value] else []
    ensures Carried(Charts(chart), ErrorOf) == [] && Carried(Charts(chart), FileOf) == []
  {
    if chart.Some? {
      OneCarried(ChartSpec(chart.value), ChartOf);
      OneCarried(ChartSpec(chart.value), ErrorOf);
      OneCarried(ChartSpec(chart.value), FileOf);
    }
  }

  /** Errors, files and charts of some events. */
  ghost predicate Carries(sent: seq<Event>, errors: seq<string>, files: seq<string>, charts: seq<string>) {
    Carried(sent, ErrorOf) == errors && Carried(sent, FileOf) == files && Carried(sent, ChartOf) == charts
  }

  lemma CarriesConcat(a: seq<Event>, e: seq<string>, f: seq<string>, c: seq<string>,
                      b: seq<Event>, e': seq<string>, f': seq<string>, c': seq<string>)
    requires Carries(a, e, f, c) && Carries(b, e', f', c')
    ensures Carries(a + b, e + e', f + f', c + c')
  {
    CarriedConcat(a, b, ErrorOf);
    CarriedConcat(a, b, FileOf);
    CarriedConcat(a, b, ChartOf);
  }

  lemma ProseCarriesNothing(sent: seq<Event>)
    requires Prose(sent)
    ensures Carries(sent, [], [], [])
  {
    forall i | 0 <= i < |sent|
      ensures ErrorOf(sent[i]).None? && FileOf(sent[i]).None? && ChartOf(sent[i]).None?
    {
      assert IsProse(sent[i]);
    }
    NoneCarried(sent, ErrorOf);
    NoneCarried(sent, FileOf);
    NoneCarried(sent, ChartOf);
  }

  lemma OneEvent(e: Event)
    ensures Carries([e], if ErrorOf(e).Some? then [ErrorOf(e).value] else [], if FileOf(e).Some? then [FileOf(e).value] else [],
                    if ChartOf(e).Some? then [ChartOf(e).value] else [])
  {
    OneCarried(e, ErrorOf);
    OneCarried(e, FileOf);
    OneCarried(e, ChartOf);
  }

  lemma FailureCarries(message: string)
    ensures Carries(DONE, [], [], []) && Carries(Failure(message), [message], [], [])
  {
    OneEvent(Sse(Done));
    OneEvent(Sse(Error(message)));
    CarriesConcat([Sse(Error(message))], [message], [], [], DONE, [], [], []);
  }

  lemma LastCarries(e: Env)
    ensures Carries(if e.persists then DONE else Failure(e.words.notPersisted),
                    if e.persists then [] else [e.words.notPersisted], [], [])
  {
    FailureCarries(e.words.notPersisted);
  }

  lemma RefusalCarries(e: Env)
    ensures Carries(Frames(e, Refuse), if e.persists then [] else [e.words.notPersisted], [], [])
  {
    OneEvent(Sse(Token(e.words.refusal)));
    LastCarries(e);
    CarriesConcat([Sse(Token(e.words.refusal))], [], [], [], if e.persists then DONE else Failure(e.words.notPersisted),
                  if e.persists then [] else [e.words.notPersisted], [], []);
  }

  lemma CompletionCarries(e: Env, text: string, chart: Option<string>)
    ensures Files(e).None? ==> Carries(Frames(e, Complete(text, chart)), [e.words.notPersisted], [], [])
    ensures Files(e).Some? ==>
              Carries(Frames(e, Complete(text, chart)), if e.persists then [] else [e.words.notPersisted],
                      Files(e).value, if chart.Some? then [chart.value] else [])
  {
    FailureCarries(e.words.notPersisted);
    if Files(e).Some? {
      var files := Files(e).value;
      var charts := if chart.Some? then [chart.value] else [];
      FilesCarried(files);
      ChartCarried(chart);
      LastCarries(e);
      CarriesConcat(Artifacts(files), [], files, [], Charts(chart), [], [], charts);
      var last := if e.persists then DONE else Failure(e.words.notPersisted);
      CarriesConcat(Artifacts(files) + Charts(chart), [], files, charts, last,
                    if e.persists then [] else [e.words.notPersisted], [], []);
      assert files + [] == files && charts + [] == charts;
    }
  }

  // ---------- what is saved ----------

  /** Some prefix of the text is unsafe. */
  ghost predicate TurnsUnsafe(safe: Judge, texts: seq<string>) {
    exists i :: 1 <= i <= |texts| && !safe(Join(texts[..i]))
  }

  lemma UnsafeIsCut(safe: Judge, texts: seq<string>)
    ensures TurnsUnsafe(safe, texts) <==> IsCut(safe, texts)
  {
    if IsCut(safe, texts) {
      SafeCountAt(safe, texts, SafeCount(safe, texts) + 1);
    }
    if i :| 1 <= i <= |texts| && !safe(Join(texts[..i])) {
      SafeCountAt(safe, texts, i);
    }
  }

  /** The run is refused: its input was, or its text turns unsafe, or the finished answer without its charts is unsafe. */
  ghost predicate Refused(e: Env, inputBlocked: bool, safe: Judge) {
    var s := Scripted(e);
    || inputBlocked
    || TurnsUnsafe(safe, s.Texts())
    || (s.fault == NoFault && s.Texts() != [] && !safe(e.stripCharts(Join(s.Texts()))))
  }

  /** The message with which a run ends that cannot be finished, if any. */
  function Trouble(e: Env, refused: bool): Option<string> {
    var s := Scripted(e);
    if refused then (if e.persists then None else Some(e.words.notPersisted))
    else if s.fault == Unavailable then Some(e.words.unavailable)
    else if s.fault == Unexpected then Some(e.words.unexpected)
    else if s.Texts() == [] then Some(e.words.noOutput)
    else if e.hasSettings && e.hasRepository && e.artifacts.None? then Some(e.words.notPersisted)
    else if !e.persists then Some(e.words.notPersisted)
    else None
  }

  /** What the frames of a run say about what it saves. */
  ghost predicate Tells(e: Env, refused: bool, tokens: seq<string>, errors: seq<string>, files: seq<string>, charts: seq<string>,
                        saved: seq<Saved>)
  {
    && errors == (if Trouble(e, refused).Some? then [Trouble(e, refused).value] else [])
    && (|saved| == 1 <==> errors == []) && (saved == [] <==> errors != [])
    && (refused ==> files == [] && charts == [])
    && (refused && saved != [] ==>
          && saved == [Saved(e.words.refusal, None, true)]
          && tokens != [] && tokens[|tokens| - 1] == e.words.refusal)
    && (!refused && saved != [] ==>
          && |charts| <= 1
          && saved == [Saved(e.stripCharts(Join(tokens)), if charts == [] then None else Some(charts[0]), false)]
          && tokens == Scripted(e).Texts()
          && files == (if e.hasSettings && e.hasRepository then e.artifacts.value else [])
          && charts == (if Scripted(e).chart.Some? then [Scripted(e).chart.value] else []))
  }

  lemma RefusalTells(e: Env, tokens: seq<string>)
    requires tokens != [] && tokens[|tokens| - 1] == e.words.refusal
    ensures Tells(e, true, tokens, if e.persists then [] else [e.words.notPersisted], [], [], Kept(e, Refuse))
  {
  }

  lemma FailureTells(e: Env, tokens: seq<string>, message: string)
    requires Trouble(e, false) == Some(message)
    ensures Tells(e, false, tokens, [message], [], [], Kept(e, Fail(message)))
  {
  }

  lemma AnswerTells(e: Env, tokens: seq<string>, text: string, chart: Option<string>)
    requires Scripted(e).fault == NoFault && Scripted(e).Texts() != [] && chart == Scripted(e).chart
    requires tokens == Scripted(e).Texts() && text == e.stripCharts(Join(tokens))
    ensures Files(e).None? ==> Tells(e, false, tokens, [e.words.notPersisted], [], [], Kept(e, Complete(text, chart)))
    ensures Files(e).Some? ==>
              Tells(e, false, tokens, if e.persists then [] else [e.words.notPersisted], Files(e).value,
                    if chart.Some? then [chart.value] else [], Kept(e, Complete(text, chart)))
  {
  }

  /** The frames of a run say what it saves. There is at most one error frame, and it comes exactly with the first
      trouble; without one exactly one result is saved, and with one none. What is saved is the refusal, which is
      the last token shown, or the text of all tokens shown without its charts, with the chart that was sent. */
  lemma SavedExactly(e: Env, inputBlocked: bool, safe: Judge, holdback: nat, sent: seq<Event>, saved: seq<Saved>, refused: bool)
    requires Outcome(e, inputBlocked, safe, holdback, sent, saved) && (refused <==> Refused(e, inputBlocked, safe))
    ensures Tells(e, refused, Tokens(sent), Carried(sent, ErrorOf), Carried(sent, FileOf), Carried(sent, ChartOf), saved)
  {
    if inputBlocked {
      RefusalCarries(e);
      TokensOfFrames(e, Refuse);
      RefusalTells(e, Tokens(sent));
    } else {
      AnswerExactly(e, safe, holdback, sent, saved);
    }
  }

  lemma AnswerExactly(e: Env, safe: Judge, holdback: nat, sent: seq<Event>, saved: seq<Saved>)
    requires Outcome(e, false, safe, holdback, sent, saved)
    ensures Tells(e, Refused(e, false, safe), Tokens(sent), Carried(sent, ErrorOf), Carried(sent, FileOf),
                  Carried(sent, ChartOf), saved)
  {
    var end := EndOf(e, safe);
    var body := BodyOf(e, safe, holdback, sent, saved);
    HowItEnds(e, safe);
    ProseCarriesNothing(body);
    EndCarries(e, safe, body);
    TokensAfter(e, end, body);
    match end
    case Refuse => RefusalTells(e, Tokens(sent));
    case Fail(message) => FailureTells(e, Tokens(sent), message);
    case Complete(text, chart) =>
      AllShown(e, safe, holdback);
      AnswerTells(e, Tokens(sent), text, chart);
  }

  lemma HowItEnds(e: Env, safe: Judge)
    ensures var end, refused := EndOf(e, safe), Refused(e, false, safe);
            && (end.Refuse? <==> refused)
            && (end.Fail? ==> Trouble(e, refused) == Some(end.message))
            && (end.Complete? ==>
                  && Scripted(e).fault == NoFault && Scripted(e).Texts() != [] && end.chart == Scripted(e).chart
                  && end.text == e.stripCharts(Join(Scripted(e).Texts())))
  {
    UnsafeIsCut(safe, Scripted(e).Texts());
  }

  lemma EndCarries(e: Env, safe: Judge, body: seq<Event>)
    requires Carries(body, [], [], [])
    ensures var end := EndOf(e, safe);
            && (end.Refuse? ==> Carries(body + Frames(e, end), if e.persists then [] else [e.words.notPersisted], [], []))
            && (end.Fail? ==> Carries(body + Frames(e, end), [end.message], [], []))
            && (end.Complete? && Files(e).None? ==> Carries(body + Frames(e, end), [e.words.notPersisted], [], []))
            && (end.Complete? && Files(e).Some? ==>
                  Carries(body + Frames(e, end), if e.persists then [] else [e.words.notPersisted], Files(e).value,
                          if end.chart.Some? then [end.chart.value] else []))
  {
    var end := EndOf(e, safe);
    match end
    case Refuse =>
      RefusalCarries(e);
      BodyAdds(body, Frames(e, end));
    case Fail(message) =>
      FailureCarries(message);
      BodyAdds(body, Frames(e, end));
    case Complete(text, chart) =>
      CompletionCarries(e, text, chart);
      BodyAdds(body, Frames(e, end));
  }

  lemma BodyAdds(body: seq<Event>, frames: seq<Event>)
    requires Carries(body, [], [], [])
    ensures Carries(body + frames, Carried(frames, ErrorOf), Carried(frames, FileOf), Carried(frames, ChartOf))
  {
    CarriesConcat(body, [], [], [], frames, Carried(frames, ErrorOf), Carried(frames, FileOf), Carried(frames, ChartOf));
    NothingBefore(Carried(frames, ErrorOf));
    NothingBefore(Carried(frames, FileOf));
    NothingBefore(Carried(frames, ChartOf));
  }

  lemma NothingBefore(s: seq<string>)
    ensures [] + s == s
  {
  }

  /** The tokens shown: those that trail the safe part of the text by the hold-back, then the refusal where there is
      one; all of the text where the answer is let through. */
  lemma TokensExactly(e: Env, inputBlocked: bool, safe: Judge, holdback: nat, sent: seq<Event>, saved: seq<Saved>, k: nat)
    requires Outcome(e, inputBlocked, safe, holdback, sent, saved)
    requires k <= |Scripted(e).Texts()| && forall j :: 1 <= j <= k ==> safe(Join(Scripted(e).Texts()[..j]))
    requires k < |Scripted(e).Texts()| ==> !safe(Join(Scripted(e).Texts()[..k + 1]))
    ensures var s := Scripted(e); var texts := s.Texts();
            var shown := texts[..if k <= holdback then 0 else k - holdback];
            Tokens(sent) == if inputBlocked then [e.words.refusal]
                            else if Refused(e, inputBlocked, safe) then shown + [e.words.refusal]
                            else if s.fault != NoFault || texts == [] then shown
                            else texts
  {
    var texts := Scripted(e).Texts();
    SafeCountIs(safe, texts, k);
    UnsafeIsCut(safe, texts);
    if inputBlocked {
      TokensOfFrames(e, Refuse);
    } else {
      var body := BodyOf(e, safe, holdback, sent, saved);
      TokensAfter(e, EndOf(e, safe), body);
      assert texts[..|texts|] == texts;
    }
  }

  lemma SafeCountIs(safe: Judge, texts: seq<string>, k: nat)
    requires k <= |texts| && forall j :: 1 <= j <= k ==> safe(Join(texts[..j]))
    requires k < |texts| ==> !safe(Join(texts[..k + 1]))
    ensures SafeCount(safe, texts) == k
  {
    var n := SafeCount(safe, texts);
    if n < k {
      SafeCountAt(safe, texts, n + 1);
    } else if n > k {
      SafeCountAt(safe, texts, k + 1);
    }
  }

  lemma {:induction false} NoThinking(sent: seq<Event>)
    requires forall i :: 0 <= i < |sent| ==> !(sent[i].Sse? && sent[i].frame.Thinking?)
    ensures Thoughts(sent) == []
  {
    if sent != [] {
      NoThinking(sent[..|sent| - 1]);
    }
  }

  lemma {:induction false} FilesThinkNothing(files: seq<string>)
    ensures forall i :: 0 <= i < |Artifacts(files)| ==> Artifacts(files)[i].Artifact?
  {
    if files != [] {
      FilesThinkNothing(files[..|files| - 1]);
    }
  }

  lemma EndThinksNothing(e: Env, end: End)
    ensures Thoughts(Frames(e, end)) == []
  {
    if end.Complete? && Files(e).Some? {
      FilesThinkNothing(Files(e).value);
    }
    NoThinking(Frames(e, end));
  }

  /** The thoughts shown are those that come before the first text that makes the answer unsafe. */
  lemma ThoughtsExactly(e: Env, safe: Judge, holdback: nat, sent: seq<Event>, saved: seq<Saved>, i: nat)
    requires Outcome(e, false, safe, holdback, sent, saved) && i <= |Scripted(e).parts|
    requires !TurnsUnsafe(safe, TextsOf(Scripted(e).parts[..i]))
    requires i < |Scripted(e).parts| ==> TurnsUnsafe(safe, TextsOf(Scripted(e).parts[..i + 1]))
    ensures Thoughts(sent) == ThoughtsOf(Scripted(e).parts[..i])
  {
    var s := Scripted(e);
    ThoughtsRendered(safe, holdback, s.parts, i);
    EndThinksNothing(e, EndOf(e, safe));
    var rest := if EndOf(e, safe).Complete? then s.Texts()[Emitted(safe, holdback, s.Texts())..] else [];
    RenderedFacts(safe, holdback, s.parts);
    TokensAdd(Rendered(safe, holdback, s.parts), rest);
    ThoughtsConcat(Body(e, safe, holdback), Frames(e, EndOf(e, safe)));
    assert Thoughts(Body(e, safe, holdback)) + [] == Thoughts(Body(e, safe, holdback));
  }

  lemma ThoughtsRendered(safe: Judge, holdback: nat, parts: seq<Part>, i: nat)
    requires i <= |parts| && !TurnsUnsafe(safe, TextsOf(parts[..i]))
    requires i < |parts| ==> TurnsUnsafe(safe, TextsOf(parts[..i + 1]))
    ensures Thoughts(Rendered(safe, holdback, parts)) == ThoughtsOf(parts[..i])
  {
    UnsafeIsCut(safe, TextsOf(parts[..i]));
    RenderedFacts(safe, holdback, parts[..i]);
    if i == |parts| {
      assert parts[..i] == parts;
    } else {
      UnsafeIsCut(safe, TextsOf(parts[..i + 1]));
      assert parts == parts[..i + 1] + parts[i + 1..] && parts[..i + 1] == parts[..i] + [parts[i]];
      RenderedCut(safe, holdback, parts[..i + 1], parts[i + 1..]);
      CutIsText(safe, parts[..i], parts[i]);
      RenderedSnoc(safe, holdback, parts[..i], parts[i]);
      TokensAdd(Rendered(safe, holdback, parts[..i]), Due(safe, holdback, TextsOf(parts[..i]), TextsOf(parts[..i + 1])));
    }
  }

  lemma CutIsText(safe: Judge, parts: seq<Part>, part: Part)
    requires !IsCut(safe, TextsOf(parts)) && IsCut(safe, TextsOf(parts + [part]))
    ensures part.Text? && part.text != ""
  {
    PartsConcat(parts, [part]);
    OnePart(part);
    assert TextsOf(parts) + [] == TextsOf(parts);
  }

  // ---------- the order of the frames ----------

  /** Prose comes first, then files, the chart, an error, and done. */
  function Stage(e: Event): nat {
    match e
    case Sse(Token(_)) => 0
    case Sse(Thinking(_)) => 0
    case Artifact(_) => 1
    case ChartSpec(_) => 2
    case Sse(Error(_)) => 3
    case Sse(Done) => 4
  }

  ghost predicate Within(sent: seq<Event>, low: nat, high: nat) {
    && (forall i :: 0 <= i < |sent| ==> low <= Stage(sent[i]) <= high)
    && (forall i, j :: 0 <= i < j < |sent| ==> Stage(sent[i]) <= Stage(sent[j]))
  }

  lemma WithinConcat(a: seq<Event>, m: nat, b: seq<Event>, low: nat, high: nat)
    requires Within(a, low, m) && Within(b, m, high) && low <= m <= high
    ensures Within(a + b, low, high)
  {
  }

  lemma {:induction false} FilesWithin(files: seq<string>)
    ensures Within(Artifacts(files), 1, 1)
  {
    if files != [] {
      FilesWithin(files[..|files| - 1]);
    }
  }

  lemma LastWithin(e: Env, message: string)
    ensures Within(DONE, 3, 4) && Within(Failure(message), 3, 4)
  {
  }

  lemma FramesWithin(e: Env, end: End)
    ensures Within(Frames(e, end), 0, 4)
  {
    LastWithin(e, e.words.notPersisted);
    var last := if e.persists then DONE else Failure(e.words.notPersisted);
    match end
    case Refuse =>
      assert Within([Sse(Token(e.words.refusal))], 0, 3);
      WithinConcat([Sse(Token(e.words.refusal))], 3, last, 0, 4);
    case Fail(message) => LastWithin(e, message);
    case Complete(text, chart) =>
      if Files(e).Some? {
        var files := Artifacts(Files(e).value);
        FilesWithin(Files(e).value);
        assert Within(Charts(chart), 1, 3);
        WithinConcat(files, 1, Charts(chart), 1, 3);
        WithinConcat(files + Charts(chart), 3, last, 1, 4);
      }
  }

  /** The frames of every run come in this order. */
  lemma FramesInOrder(e: Env, inputBlocked: bool, safe: Judge, holdback: nat, sent: seq<Event>, saved: seq<Saved>)
    requires Outcome(e, inputBlocked, safe, holdback, sent, saved)
    ensures forall i, j :: 0 <= i < j < |sent| ==> Stage(sent[i]) <= Stage(sent[j])
  {
    if inputBlocked {
      FramesWithin(e, Refuse);
    } else {
      var end := EndOf(e, safe);
      var body := BodyOf(e, safe, holdback, sent, saved);
      FramesWithin(e, end);
      forall i | 0 <= i < |body|
        ensures Stage(body[i]) == 0
      {
        assert IsProse(body[i]);
      }
      WithinConcat(body, 0, Frames(e, end), 0, 4);
    }
  }

  // ---------- what the model is heard to say ----------

  /** Event i is the first tool call that the search does not come back from empty-handed. */
  ghost predicate FirstFind(events: seq<ToolEvent>, i: nat) {
    && i < |events| && events[i].Plan? && events[i].search != NotFound
    && forall j :: 0 <= j < i ==> events[j].Said? || events[j].search == NotFound
  }

  ghost predicate NoFind(events: seq<ToolEvent>) {
    forall j :: 0 <= j < |events| ==> events[j].Said? || events[j].search == NotFound
  }

  /** The thoughts among the first n events, in order. */
  function ThoughtsSaid(events: seq<ToolEvent>, n: nat): seq<Part>
    requires n <= |events|
  {
    if n == 0 then []
    else ThoughtsSaid(events, n - 1) + if events[n - 1].Said? && events[n - 1].part.Thought? then [events[n - 1].part] else []
  }

  lemma {:induction false} ScanTo(events: seq<ToolEvent>, n: nat)
    requires n <= |events| && forall j :: 0 <= j < n ==> events[j].Said? || events[j].search == NotFound
    ensures SearchScan(events, []) == SearchScan(events[n..], ThoughtsSaid(events, n))
  {
    if n == 0 {
      assert events[0..] == events;
    } else {
      ScanTo(events, n - 1);
      assert events[n - 1..][1..] == events[n..] && events[n - 1..][0] == events[n - 1];
      assert ThoughtsSaid(events, n - 1) + [] == ThoughtsSaid(events, n - 1);
    }
  }

  lemma ScanFinds(events: seq<ToolEvent>, i: nat)
    requires FirstFind(events, i)
    ensures SearchScan(events, []) == (ThoughtsSaid(events, i),
              match events[i].search
              case Found => Hit("")
              case Failed(message) => GaveUp(message)
              case SearchRaised => Raised
              case NotFound => Exhausted)
  {
    ScanTo(events, i);
    assert events[i..][0] == events[i];
  }

  lemma ScanFindsNothing(events: seq<ToolEvent>)
    requires NoFind(events)
    ensures SearchScan(events, []) == (ThoughtsSaid(events, |events|), Exhausted)
  {
    ScanTo(events, |events|);
    assert events[|events|..] == [];
  }

  predicate Searches(e: Env) { e.attemptSearch && e.hasSettings }

  /** Where the tools find something, the search path says the thoughts before that, and then the follow-up, or the
      apology for a failed search, or nothing more where the search raised. */
  lemma SearchWithFind(e: Env, i: nat)
    requires Searches(e) && e.nativeSearch && FirstFind(e.tools.events, i)
    ensures var s, thoughts := Scripted(e), ThoughtsSaid(e.tools.events, i);
            && s.chart == None
            && (e.tools.events[i].search == Found ==> s.parts == thoughts + e.followup.parts && s.fault == e.followup.fault)
            && (e.tools.events[i].search.Failed? ==> s.parts == thoughts + [Text(e.tools.events[i].search.message)] && s.fault == NoFault)
            && (e.tools.events[i].search == SearchRaised ==> s.parts == thoughts && s.fault == Unexpected)
  {
    ScanFinds(e.tools.events, i);
    var thoughts := ThoughtsSaid(e.tools.events, i);
    assert [] + thoughts == thoughts;
  }

  /** Where they find nothing, or are not used, it is a direct search: its follow-up, apology or exception, unless
      the tool stream itself raised. */
  lemma SearchWithoutFind(e: Env)
    requires Searches(e) && (e.nativeSearch ==> NoFind(e.tools.events))
    ensures var s, thoughts := Scripted(e), if e.nativeSearch then ThoughtsSaid(e.tools.events, |e.tools.events|) else [];
            && s.chart == None
            && if e.nativeSearch && e.tools.fault != NoFault then s.parts == thoughts && s.fault == e.tools.fault
               else
                 && (e.search == Found || e.search == NotFound ==> s.parts == thoughts + e.followup.parts && s.fault == e.followup.fault)
                 && (e.search.Failed? ==> s.parts == thoughts + [Text(e.search.message)] && s.fault == NoFault)
                 && (e.search == SearchRaised ==> s.parts == thoughts && s.fault == Unexpected)
  {
    if e.nativeSearch {
      ScanFindsNothing(e.tools.events);
    }
    var thoughts := if e.nativeSearch then ThoughtsSaid(e.tools.events, |e.tools.events|) else [];
    assert [] + thoughts == thoughts;
  }

  predicate UsesCharts(e: Env) { !e.attemptSearch && e.nativeCharts && e.hasDataframe }

  /** Event i is the first tool call that compiles, or raises. */
  ghost predicate FirstChart(events: seq<ToolEvent>, i: nat) {
    && i < |events| && events[i].Plan? && events[i].chart != NoSpec
    && forall j :: 0 <= j < i ==> events[j].Said? || events[j].chart == NoSpec
  }

  ghost predicate NoChart(events: seq<ToolEvent>) {
    forall j :: 0 <= j < |events| ==> events[j].Said? || events[j].chart == NoSpec
  }

  function AllSaid(events: seq<ToolEvent>, n: nat): seq<Part>
    requires n <= |events|
  {
    if n == 0 then [] else AllSaid(events, n - 1) + if events[n - 1].Said? then [events[n - 1].part] else []
  }

  lemma {:induction false} ChartsTo(events: seq<ToolEvent>, n: nat)
    requires n <= |events| && forall j :: 0 <= j < n ==> events[j].Said? || events[j].chart == NoSpec
    ensures ChartScan(events, []) == ChartScan(events[n..], AllSaid(events, n))
  {
    if n == 0 {
      assert events[0..] == events;
    } else {
      ChartsTo(events, n - 1);
      assert events[n - 1..][1..] == events[n..] && events[n - 1..][0] == events[n - 1];
      assert AllSaid(events, n - 1) + [] == AllSaid(events, n - 1);
    }
  }

  /** Where a call compiles, the chart path says what was said before it, then the follow-up, and has its chart; where
      compiling raises, it stops there. */
  lemma ChartWithSpec(e: Env, i: nat)
    requires UsesCharts(e) && FirstChart(e.tools.events, i)
    ensures var s, said := Scripted(e), AllSaid(e.tools.events, i);
            && (e.tools.events[i].chart.Spec? ==>
                  s.parts == said + e.followup.parts && s.fault == e.followup.fault && s.chart == Some(e.tools.events[i].chart.spec))
            && (e.tools.events[i].chart == ChartRaised ==> s.parts == said && s.fault == Unexpected && s.chart == None)
  {
    ChartsTo(e.tools.events, i);
    assert e.tools.events[i..][0] == e.tools.events[i];
    assert [] + AllSaid(e.tools.events, i) == AllSaid(e.tools.events, i);
  }

  /** Where none does, it says everything, and if that holds no text and nothing was raised, the plain answer. */
  lemma ChartWithoutSpec(e: Env)
    requires UsesCharts(e) && NoChart(e.tools.events)
    ensures var s, said := Scripted(e), AllSaid(e.tools.events, |e.tools.events|);
            && s.chart == None
            && if e.tools.fault != NoFault then s.parts == said && s.fault == e.tools.fault
               else if TextsOf(said) == [] then s.parts == said + e.plain.parts && s.fault == e.plain.fault
               else s.parts == said && s.fault == NoFault
  {
    ChartsTo(e.tools.events, |e.tools.events|);
    assert e.tools.events[|e.tools.events|..] == [];
    assert [] + AllSaid(e.tools.events, |e.tools.events|) == AllSaid(e.tools.events, |e.tools.events|);
  }

  /** On every other path it is the plain answer. */
  lemma PlainScript(e: Env)
    requires !Searches(e) && !UsesCharts(e)
    ensures Scripted(e) == Script(e.plain.parts, e.plain.fault, None)
  {
    assert [] + e.plain.parts == e.plain.parts;
  }
}
