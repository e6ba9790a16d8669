/** What the lists of the session codec hold, item by item: which items are taken, in which order, and what is taken
    of each. */
module SessionLists {
  import opened Wrappers
  import opened SessionCodec

  // ---------- taking items of a list ----------

  ghost predicate Held<T>(items: seq<T>, take: T -> bool, at: seq<nat>) {
    forall n :: 0 <= n < |at| ==> at[n] < |items| && take(items[at[n]])
  }

  ghost predicate Rising(at: seq<nat>) { forall m, n :: 0 <= m < n < |at| ==> at[m] < at[n] }

  ghost predicate Among(i: nat, at: seq<nat>) { exists n :: 0 <= n < |at| && at[n] == i }

  ghost predicate NoneMissed<T>(items: seq<T>, take: T -> bool, at: seq<nat>) {
    forall i: nat :: i < |items| && take(items[i]) ==> Among(i, at)
  }

  /** The places of the items that are taken, in order. */
  ghost predicate Takes<T>(items: seq<T>, take: T -> bool, at: seq<nat>) {
    Held(items, take, at) && Rising(at) && NoneMissed(items, take, at)
  }

  /** What is taken of the items, where something is. */
  function Taken<T, U>(items: seq<T>, of: T -> Option<U>): seq<U> {
    if items == [] then []
    else if of(items[0]).Some? then [of(items[0]).value] + Taken(items[1..], of)
    else Taken(items[1..], of)
  }

  lemma {:induction false} TakenSnoc<T, U>(items: seq<T>, item: T, of: T -> Option<U>)
    ensures Taken(items + [item], of) == if of(item).Some? then Taken(items, of) + [of(item).value] else Taken(items, of)
  {
    if items == [] {
      assert items + [item] == [item] && [item][1..] == [];
    } else {
      assert (items + [item])[1..] == items[1..] + [item];
      TakenSnoc(items[1..], item, of);
    }
  }

  lemma HeldSnoc<T>(items: seq<T>, item: T, take: T -> bool, at: seq<nat>)
    requires Held(items, take, at) && Rising(at)
    ensures Held(items + [item], take, at) && (take(item) ==> Held(items + [item], take, at + [|items|]) && Rising(at + [|items|]))
  {
    forall n | 0 <= n < |at|
      ensures at[n] < |items + [item]| && take((items + [item])[at[n]])
    {
      assert (items + [item])[at[n]] == items[at[n]];
    }
  }

  lemma AmongMore(i: nat, at: seq<nat>, last: nat)
    ensures Among(i, at) || i == last ==> Among(i, at + [last])
  {
    if Among(i, at) {
      var n :| 0 <= n < |at| && at[n] == i;
      assert (at + [last])[n] == i;
    }
    assert (at + [last])[|at|] == last;
  }

  lemma NoneMissedSnoc<T>(items: seq<T>, item: T, take: T -> bool, at: seq<nat>)
    requires NoneMissed(items, take, at)
    ensures NoneMissed(items + [item], take, if take(item) then at + [|items|] else at)
  {
    forall i: nat | i < |items + [item]| && take((items + [item])[i])
      ensures Among(i, if take(item) then at + [|items|] else at)
    {
      AmongMore(i, at, |items|);
      if i < |items| {
        assert take(items[i]);
      }
    }
  }

  lemma TakesSnoc<T>(items: seq<T>, item: T, take: T -> bool, at: seq<nat>)
    requires Takes(items, take, at)
    ensures Takes(items + [item], take, if take(item) then at + [|items|] else at)
  {
    HeldSnoc(items, item, take, at);
    NoneMissedSnoc(items, item, take, at);
  }

  /** Where two things are taken of the same items, they come from the same places. */
  ghost predicate TakenAt<T, U>(items: seq<T>, of: T -> Option<U>, at: seq<nat>) {
    && |Taken(items, of)| == |at|
    && forall n :: 0 <= n < |at| ==> at[n] < |items| && of(items[at[n]]) == Some(Taken(items, of)[n])
  }

  lemma TakenAtSnoc<T, U>(items: seq<T>, item: T, of: T -> Option<U>, at: seq<nat>)
    requires TakenAt(items, of, at)
    ensures TakenAt(items + [item], of, if of(item).Some? then at + [|items|] else at)
  {
    TakenSnoc(items, item, of);
  }

  lemma {:induction false} TakenExactly<T, U, V>(items: seq<T>, take: T -> bool, of: T -> Option<U>, other: T -> Option<V>)
    returns (at: seq<nat>)
    requires forall x :: take(x) == of(x).Some? == other(x).Some?
    ensures Takes(items, take, at) && TakenAt(items, of, at) && TakenAt(items, other, at)
    decreases |items|
  {
    at := [];
    if items != [] {
      var front, last := items[..|items| - 1], items[|items| - 1];
      at := TakenExactly(front, take, of, other);
      TakesSnoc(front, last, take, at);
      TakenAtSnoc(front, last, of, at);
      TakenAtSnoc(front, last, other, at);
      at := if take(last) then at + [|front|] else at;
      assert items == front + [last];
    }
  }

  // ---------- stripping ----------

  ghost predicate Blank(blank: char -> bool, s: string, from: nat, to: nat)
    requires to <= |s|
  {
    forall i :: from <= i < to ==> blank(s[i])
  }

  lemma BlankIn(blank: char -> bool, s: string, from: nat, to: nat, k: nat, n: nat)
    requires from <= to <= |s| && k <= n <= to - from && Blank(blank, s[from..to], k, n)
    ensures Blank(blank, s, from + k, from + n)
  {
    forall i | from + k <= i < from + n
      ensures blank(s[i])
    {
      assert s[i] == s[from..to][i - from];
    }
  }

  /** Stripping takes the blank ends off and nothing else. */
  lemma StripExactly(s: string) returns (from: nat, to: nat)
    ensures from <= to <= |s| && Strip(s) == s[from..to] && Blank(IsSpace, s, 0, from) && Blank(IsSpace, s, to, |s|)
    ensures Strip(s) != "" ==> !IsSpace(Strip(s)[0]) && !IsSpace(Strip(s)[|Strip(s)| - 1])
  {
    from := LeftBlank(s);
    var n := RightBlank(s[from..]);
    to := from + n;
    assert s[from..] == s[from..|s|] && s[from..][..n] == s[from..to];
    BlankIn(IsSpace, s, from, |s|, n, |s| - from);
    EndsNotBlank(StripLeft(s));
  }

  lemma EndsNotBlank(l: string)
    requires l == "" || !IsSpace(l[0])
    ensures StripRight(l) != "" ==> !IsSpace(StripRight(l)[0]) && !IsSpace(StripRight(l)[|StripRight(l)| - 1])
  {
    if StripRight(l) != "" {
      assert StripRight(l)[0] == l[0];
    }
  }

  lemma {:induction false} LeftBlank(s: string) returns (k: nat)
    ensures k <= |s| && StripLeft(s) == s[k..] && Blank(IsSpace, s, 0, k)
  {
    k := 0;
    if s != "" && IsSpace(s[0]) {
      k := LeftBlank(s[1..]);
      assert s[1..] == s[1..|s|] && s[1..][k..] == s[k + 1..];
      BlankIn(IsSpace, s, 1, |s|, 0, k);
      k := k + 1;
    }
  }

  lemma {:induction false} RightBlank(s: string) returns (n: nat)
    ensures n <= |s| && StripRight(s) == s[..n] && Blank(IsSpace, s, n, |s|)
  {
    n := |s|;
    if s != "" && IsSpace(s[|s| - 1]) {
      var front := s[..|s| - 1];
      n := RightBlank(front);
      assert front == s[0..|s| - 1] && front[..n] == s[..n];
      BlankIn(IsSpace, s, 0, |s| - 1, n, |s| - 1);
    }
  }

  // ---------- the lists ----------

  /** A field that is text and not blank. */
  predicate Filled(j: Json, k: Key) { Get(j, k).Str? && Strip(Get(j, k).text) != "" }

  function DocumentOf(): Json -> Option<Document> {
    (j: Json) => if Complete(j)
                 then Some(Document(Get(j, DocumentId).text, Get(j, Filename).text, Get(j, MimeType).text)) else None
  }

  /** A text id that is not blank, stripped. */
  function IdOf(): Json -> Option<string> {
    (j: Json) => if j.Str? && Strip(j.text) != "" then Some(Strip(j.text)) else None
  }

  /** An object that validates, in its normal form. */
  function ArtifactOf(validate: Validate): Json -> Option<Json> {
    (j: Json) => if j.Obj? then validate(j) else None
  }

  predicate Complete(j: Json) { Filled(j, DocumentId) && Filled(j, Filename) && Filled(j, MimeType) }

  predicate Spoken(j: Json) {
    && j.Obj? && Get(j, Role).Str? && Get(j, Content).Str?
    && (Get(j, Role).text == "user" || Get(j, Role).text == "assistant" || Get(j, Role).text == "system")
  }

  function ItemsOf(j: Json): seq<Json> { if j.List? then j.items else [] }

  /** The row of a message: its role and content, its ids, and its artifacts as they are. */
  function RowTaken(): Json -> Option<Message> {
    (j: Json) => if !Spoken(j) then None
                 else Some(Message(Get(j, Role).text, Get(j, Content).text,
                                   Taken(ItemsOf(Get(j, ImageIds)), IdOf()), ItemsOf(Get(j, Artifacts))))
  }

  /** A message as it is shown: the same, with the artifacts that validate. */
  function ShownTaken(validate: Validate): Json -> Option<Message> {
    (j: Json) => if !Spoken(j) then None
                 else Some(Message(Get(j, Role).text, Get(j, Content).text,
                                   Taken(ItemsOf(Get(j, ImageIds)), IdOf()),
                                   Taken(ItemsOf(Get(j, Artifacts)), ArtifactOf(validate))))
  }

  lemma {:induction false} IdsAreTaken(raw: seq<Json>)
    ensures CleanIds(raw) == Taken(raw, IdOf())
  {
    if raw != [] {
      IdsAreTaken(raw[1..]);
    }
  }

  lemma {:induction false} ArtifactsAreTaken(validate: Validate, raw: seq<Json>)
    ensures ValidArtifacts(validate, raw) == Taken(raw, ArtifactOf(validate))
  {
    if raw != [] {
      ArtifactsAreTaken(validate, raw[1..]);
    }
  }

  lemma MessageIsTaken(validate: Validate, j: Json)
    ensures RowOf(j) == RowTaken()(j) && Normalize(validate, j) == ShownTaken(validate)(j)
  {
    IdsAreTaken(ItemsOf(Get(j, ImageIds)));
    ArtifactsAreTaken(validate, ItemsOf(Get(j, Artifacts)));
  }

  lemma {:induction false} RowsAreTaken(validate: Validate, items: seq<Json>)
    ensures RowsIn(items) == Taken(items, RowTaken()) && NormalizeAll(validate, items) == Taken(items, ShownTaken(validate))
  {
    if items != [] {
      MessageIsTaken(validate, items[0]);
      RowsAreTaken(validate, items[1..]);
    }
  }

  lemma {:induction false} DocumentsAreTaken(items: seq<Json>)
    ensures DocumentsIn(items) == Taken(items, DocumentOf())
  {
    if items != [] {
      DocumentsAreTaken(items[1..]);
    }
  }

  /** A payload's documents are those of its items that have all three fields filled, in order, each field as it
      stands there. */
  lemma DocumentsExactly(items: seq<Json>) returns (at: seq<nat>)
    ensures Takes(items, Complete, at)
    ensures |DocumentsIn(items)| == |at|
    ensures forall n :: 0 <= n < |at| ==>
              var d, j := DocumentsIn(items)[n], items[at[n]];
              d.id == Get(j, DocumentId).text && d.filename == Get(j, Filename).text && d.mimeType == Get(j, MimeType).text
  {
    DocumentsAreTaken(items);
    at := TakenExactly(items, Complete, DocumentOf(), DocumentOf());
    forall n | 0 <= n < |at|
      ensures var d, j := DocumentsIn(items)[n], items[at[n]];
              d.id == Get(j, DocumentId).text && d.filename == Get(j, Filename).text && d.mimeType == Get(j, MimeType).text
    {
      assert DocumentOf()(items[at[n]]) == Some(DocumentsIn(items)[n]);
    }
  }

  /** The messages that a payload decodes to, and the rows that it is stored with, are its items with a known role
      and a text, in order: role and content as they stand there, the ids stripped and the blank ones left out, and
      the artifacts, all of them in a row and the valid ones when decoded. */
  lemma MessagesExactly(validate: Validate, payload: Json) returns (items: seq<Json>, at: seq<nat>)
    ensures items == ItemsOf(Get(payload, Messages)) && Takes(items, Spoken, at)
    ensures |Visible(payload)| == |at| && |NormalizeAll(validate, items)| == |at|
    ensures forall n :: 0 <= n < |at| ==>
              var row, m, j := Visible(payload)[n], NormalizeAll(validate, items)[n], items[at[n]];
              && row.role == m.role == Get(j, Role).text && row.content == m.content == Get(j, Content).text
              && row.ids == m.ids == Taken(ItemsOf(Get(j, ImageIds)), IdOf())
              && row.artifacts == ItemsOf(Get(j, Artifacts))
              && m.artifacts == Taken(ItemsOf(Get(j, Artifacts)), ArtifactOf(validate))
  {
    items := ItemsOf(Get(payload, Messages));
    RowsAreTaken(validate, items);
    at := TakenExactly(items, Spoken, RowTaken(), ShownTaken(validate));
    forall n | 0 <= n < |at|
      ensures RowTaken()(items[at[n]]) == Some(Visible(payload)[n])
      ensures ShownTaken(validate)(items[at[n]]) == Some(NormalizeAll(validate, items)[n])
    {
    }
  }

  /** A value that cannot be looked up among strings. */
  predicate Compound(j: Json) { j.List? || j.Obj? }

  /** Some message's role, or the theme of the persona, is compound. */
  ghost predicate CannotLookUp(payload: Json) {
    || (exists j :: j in ItemsOf(Get(payload, Messages)) && j.Obj? && Compound(Get(j, Role)))
    || (Get(payload, Persona).Obj? && Compound(Get(Get(payload, Persona), ThemeStyle)))
  }

  /** A payload object that a newer version wrote is refused, and one with a compound role or theme raises. Any other
      decodes to the messages and documents of its lists, a chart that is an object, a text context, the source it
      names or else the one its context stands for, and a persona with a known theme and a text instruction. */
  lemma ObjectExactly(validate: Validate, parse: string -> Option<Json>, payload: Json)
    requires payload.Obj?
    ensures var d, version := Decode(validate, parse, payload), Get(payload, Version);
            && (d.TooNew? <==> version.Int? && version.number > 5)
            && (d.Unhashable? <==> !d.TooNew? && CannotLookUp(payload))
            && (d.Session? ==>
                  && d.messages == NormalizeAll(validate, ItemsOf(Get(payload, Messages)))
                  && d.documents == DocumentsIn(ItemsOf(Get(payload, Documents)))
                  && d.chart == (if Get(payload, ChartSpec).Obj? then Some(Get(payload, ChartSpec)) else None)
                  && d.fileContext == (if Get(payload, FileContext).Str? then Some(Get(payload, FileContext).text) else None)
                  && SourceTold(Get(payload, ChartSource), d) && PersonaTold(Get(payload, Persona), d.persona))
  {
    if Storable(payload) {
      assert forall j :: j in ItemsOf(Get(payload, Messages)) ==> Hashable(j);
    } else {
      var items := Get(payload, Messages).items;
      var i :| 0 <= i < |items| && !Hashable(items[i]);
      assert items[i] in ItemsOf(Get(payload, Messages));
    }
  }

  ghost predicate SourceTold(named: Json, d: Decoded)
    requires d.Session?
  {
    if named == Str("uploaded") || named == Str("demo") || named == Str("none") then named == Str(d.source)
    else d.source == if d.fileContext == None || d.fileContext == Some("") then "none" else "uploaded"
  }

  ghost predicate PersonaTold(raw: Json, persona: Option<Snapshot>) {
    var theme, instruction := Get(raw, ThemeStyle), Get(raw, Instruction);
    if raw.Obj? && instruction.Str? && (theme == Str("classic") || theme == Str("urochester") || theme == Str("thu"))
    then persona.Some? && Str(persona.value.themeStyle) == theme && Str(persona.value.instruction) == instruction
    else persona.None?
  }
}
