/** What a conversation becomes when it is stored and read again, told from its turns: the messages of the request
    and the new answer. */
module SessionBuilding {
  import opened Wrappers
  import opened SessionCodec
  import opened SessionLists

  /** A user turn that carries a file: flagged, with some text in it, or an old upload prompt. */
  predicate CarriesFile(m: ChatMessage, looksUploaded: string -> bool) {
    m.role == "user" && ((m.fileContext && Strip(m.content) != "") || (!m.fileContext && looksUploaded(m.content)))
  }

  /** The assistant's fixed reply to one. */
  predicate Acknowledges(m: ChatMessage) { m.role == "assistant" && m.content == "I have loaded the file context." }

  /** A turn that stays in the conversation. */
  function Stays(looksUploaded: string -> bool): ChatMessage -> bool {
    (m: ChatMessage) => !CarriesFile(m, looksUploaded) && !Acknowledges(m)
  }

  /** A turn as it is shown again: an assistant turn with the text of the answer has the answer's artifacts. */
  predicate ShownAs(validate: Validate, x: Inputs, m: ChatMessage, shown: Message) {
    && shown.role == m.role && shown.content == m.content
    && shown.ids == Taken(m.ids, Cleaned())
    && shown.artifacts == if m.role == "assistant" && m.content == x.answer then Taken(x.artifacts, ArtifactOf(validate)) else []
  }

  function Cleaned(): string -> Option<string> {
    (s: string) => if Strip(s) != "" then Some(Strip(s)) else None
  }

  lemma {:induction false} IdsAreCleaned(ids: seq<string>)
    ensures KeepIds(ids) == Taken(ids, Cleaned())
  {
    if ids != [] {
      IdsAreCleaned(ids[1..]);
    }
  }

  function IfStays(looksUploaded: string -> bool): ChatMessage -> Option<ChatMessage> {
    (m: ChatMessage) => if Stays(looksUploaded)(m) then Some(m) else None
  }

  lemma {:induction false} KeptAreTaken(turns: seq<ChatMessage>, looksUploaded: string -> bool)
    ensures Kept(turns, looksUploaded) == Taken(turns, IfStays(looksUploaded))
  {
    if turns != [] {
      var n := |turns| - 1;
      KeptAreTaken(turns[..n], looksUploaded);
      TakenSnoc(turns[..n], turns[n], IfStays(looksUploaded));
      assert turns[..n] + [turns[n]] == turns;
      KeptSnoc(turns, looksUploaded, turns[n]);
    }
  }

  lemma KeptSnoc(turns: seq<ChatMessage>, looksUploaded: string -> bool, m: ChatMessage)
    requires turns != [] && m == turns[|turns| - 1]
    ensures var front := Kept(turns[..|turns| - 1], looksUploaded);
            Kept(turns, looksUploaded) == if IfStays(looksUploaded)(m).Some? then front + [m] else front
  {
    StaysExactly(looksUploaded, m);
  }

  lemma StaysExactly(looksUploaded: string -> bool, m: ChatMessage)
    ensures Stays(looksUploaded)(m) <==> !IsFileContext(m, looksUploaded) && !IsAck(m)
  {
    assert REPLY == "I have loaded the file context.";
  }

  lemma {:induction false} ShownOne(validate: Validate, turns: seq<ChatMessage>, answer: string, artifacts: seq<Json>, n: nat)
    requires n < |turns|
    ensures |ShownAll(validate, turns, answer, artifacts)| == |turns|
    ensures ShownAll(validate, turns, answer, artifacts)[n] == Shown(validate, turns[n], answer, artifacts)
    decreases |turns|
  {
    ShownCount(validate, turns, answer, artifacts);
    ShownCount(validate, turns[..|turns| - 1], answer, artifacts);
    if n < |turns| - 1 {
      ShownOne(validate, turns[..|turns| - 1], answer, artifacts, n);
    }
  }

  lemma {:induction false} ShownCount(validate: Validate, turns: seq<ChatMessage>, answer: string, artifacts: seq<Json>)
    ensures |ShownAll(validate, turns, answer, artifacts)| == |turns|
  {
    if turns != [] {
      ShownCount(validate, turns[..|turns| - 1], answer, artifacts);
    }
  }

  lemma ShownIs(validate: Validate, x: Inputs, m: ChatMessage)
    ensures ShownAs(validate, x, m, Shown(validate, m, x.answer, x.artifacts))
  {
    IdsAreCleaned(m.ids);
    ArtifactsAreTaken(validate, x.artifacts);
  }

  // ---------- the file context ----------

  ghost predicate LastFile(turns: seq<ChatMessage>, looksUploaded: string -> bool, i: nat) {
    && i < |turns| && CarriesFile(turns[i], looksUploaded)
    && forall j :: i < j < |turns| ==> !CarriesFile(turns[j], looksUploaded)
  }

  /** The content of the last file, if any. */
  ghost predicate FileTold(turns: seq<ChatMessage>, looksUploaded: string -> bool, context: Option<string>) {
    if context.None? then forall j :: 0 <= j < |turns| ==> !CarriesFile(turns[j], looksUploaded)
    else exists i: nat :: LastFile(turns, looksUploaded, i) && turns[i].content == context.value
  }

  lemma {:induction false} ContextIsTold(turns: seq<ChatMessage>, looksUploaded: string -> bool)
    ensures FileTold(turns, looksUploaded, Context(turns, looksUploaded))
  {
    if turns != [] {
      var n := |turns| - 1;
      ContextIsTold(turns[..n], looksUploaded);
      if CarriesFile(turns[n], looksUploaded) {
        assert LastFile(turns, looksUploaded, n);
      } else if Context(turns[..n], looksUploaded).Some? {
        var i: nat :| LastFile(turns[..n], looksUploaded, i) && turns[..n][i].content == Context(turns[..n], looksUploaded).value;
        assert LastFile(turns, looksUploaded, i);
      } else {
        assert forall j :: 0 <= j < n ==> turns[j] == turns[..n][j];
      }
    }
  }

  // ---------- the conversation ----------

  /** The turns: the messages, and the answer as the assistant's. */
  ghost predicate AreTurns(x: Inputs, turns: seq<ChatMessage>) {
    && |turns| == |x.messages| + 1 && turns[..|x.messages|] == x.messages
    && turns[|x.messages|] == ChatMessage("assistant", x.answer, false, [])
  }

  /** A conversation is stored and read again as its turns but for files and their acknowledgements, in order, each
      with its role, its text, its ids and the artifacts if it has the text of the answer; with the content of the
      last file, the chart, the documents that are complete, the source, and a persona with a known theme. */
  lemma ConversationExactly(validate: Validate, parse: string -> Option<Json>, x: Inputs, looksUploaded: string -> bool)
    returns (turns: seq<ChatMessage>, at: seq<nat>)
    requires Builds(x) && IsSource(x.source) && RolesOk(x.messages)
    ensures AreTurns(x, turns) && Takes(turns, Stays(looksUploaded), at)
    ensures var d := Decode(validate, parse, Built(x, looksUploaded));
            && d.Session? && |d.messages| == |at|
            && (forall n :: 0 <= n < |at| ==> at[n] < |turns| && ShownAs(validate, x, turns[at[n]], d.messages[n]))
            && FileTold(turns, looksUploaded, d.fileContext)
            && d.chart == (if x.chart.Some? then Some(Obj(x.chart.value)) else None)
            && d.documents == Taken(x.documents, DocumentOf()) && d.source == x.source && PersonaTold(x.persona, d.persona)
    ensures Get(Built(x, looksUploaded), Version) == Int(5)
  {
    turns := Turns(x);
    BuildRoundTrip(validate, x, looksUploaded);
    BuiltFields(x, looksUploaded);
    at := MessagesAt(validate, x, looksUploaded, turns);
    ContextIsTold(turns, looksUploaded);
    DocumentsAreTaken(x.documents);
  }

  lemma MessagesAt(validate: Validate, x: Inputs, looksUploaded: string -> bool, turns: seq<ChatMessage>) returns (at: seq<nat>)
    ensures var messages := ShownAll(validate, Kept(turns, looksUploaded), x.answer, x.artifacts);
            && Takes(turns, Stays(looksUploaded), at) && |messages| == |at|
            && forall n :: 0 <= n < |at| ==> at[n] < |turns| && ShownAs(validate, x, turns[at[n]], messages[n])
  {
    KeptAreTaken(turns, looksUploaded);
    at := TakenExactly(turns, Stays(looksUploaded), IfStays(looksUploaded), IfStays(looksUploaded));
    var kept := Kept(turns, looksUploaded);
    ShownCount(validate, kept, x.answer, x.artifacts);
    forall n | 0 <= n < |at|
      ensures at[n] < |turns| && ShownAs(validate, x, turns[at[n]], ShownAll(validate, kept, x.answer, x.artifacts)[n])
    {
      ShownOne(validate, kept, x.answer, x.artifacts, n);
      ShownIs(validate, x, kept[n]);
      assert IfStays(looksUploaded)(turns[at[n]]) == Some(kept[n]);
    }
  }

  /** Building raises exactly for a chart without a version and a persona with a compound theme. */
  lemma RaisesExactly(x: Inputs)
    ensures !Builds(x) <==>
              (x.chart.Some? && Version !in x.chart.value) || (x.persona.Obj? && Compound(Get(x.persona, ThemeStyle)))
  {
  }
}
