/** The stored form of a chat session: building a versioned payload from chat messages, picking out its visible
    messages, and decoding a payload again. JSON text is taken as the value it stands for. */
module SessionCodec {
  import opened Wrappers

  // ---------- JSON values ----------

  /** The keys the codec looks at. */
  datatype Key = Role | Content | ImageIds | Artifacts
               | Version | Messages | ChartSpec | FileContext | Documents | ChartSource | Persona
               | DocumentId | Filename | MimeType | ThemeStyle | Instruction
               | Other(name: string)

  datatype Json = Null | Bool(value: bool) | Int(number: int) | Float(approx: real) | Str(text: string)
                | List(items: seq<Json>) | Obj(fields: map<Key, Json>)

  function Get(j: Json, k: Key): Json {
    if j.Obj? && k in j.fields then j.fields[k] else Null
  }

  const PAYLOAD_VERSION := 5

  // ---------- strip ----------

  /** What str.strip removes. */
  predicate IsSpace(c: char) {
    var n := c as int;
    || 9 <= n <= 13 || 28 <= n <= 32 || n == 0x85 || n == 0xA0 || n == 0x1680 || 0x2000 <= n <= 0x200A
    || n == 0x2028 || n == 0x2029 || n == 0x202F || n == 0x205F || n == 0x3000
  }

  function StripLeft(s: string): (r: string)
    ensures r == "" || !IsSpace(r[0])
    ensures |r| <= |s| && s[|s| - |r|..] == r
  {
    if s == "" then "" else if IsSpace(s[0]) then StripLeft(s[1..]) else s
  }

  function StripRight(s: string): (r: string)
    ensures r == "" || !IsSpace(r[|r| - 1])
    ensures r <= s
  {
    if s == "" then "" else if IsSpace(s[|s| - 1]) then StripRight(s[..|s| - 1]) else s
  }

  function Strip(s: string): string { StripRight(StripLeft(s)) }

  lemma {:induction false} StripIdempotent(s: string)
    ensures Strip(Strip(s)) == Strip(s)
  {
    var l := StripLeft(s);
    var r := StripRight(l);
    if r != "" {
      assert r[0] == l[0];
      assert StripLeft(r) == r;
    }
  }

  // ---------- messages ----------

  /** A message as it is stored in a row and as it is shown; empty ids and artifacts stand for missing ones. */
  datatype Message = Message(role: string, content: string, ids: seq<string>, artifacts: seq<Json>)

  predicate IsRole(s: string) { s == "user" || s == "assistant" || s == "system" }

  predicate IsMessage(item: Json) {
    && item.Obj?
    && Get(item, Role).Str? && IsRole(Get(item, Role).text)
    && Get(item, Content).Str?
  }

  /** The stripped ids that are not blank. */
  function CleanIds(raw: seq<Json>): seq<string> {
    if raw == [] then []
    else if raw[0].Str? && Strip(raw[0].text) != "" then [Strip(raw[0].text)] + CleanIds(raw[1..])
    else CleanIds(raw[1..])
  }

  function IdsOf(item: Json): seq<string> {
    if Get(item, ImageIds).List? then CleanIds(Get(item, ImageIds).items) else []
  }

  function ArtifactsOf(item: Json): seq<Json> {
    if Get(item, Artifacts).List? then Get(item, Artifacts).items else []
  }

  /** The row made from an item of a payload, if it is a message. */
  function RowOf(item: Json): Option<Message> {
    if IsMessage(item) then Some(Message(Get(item, Role).text, Get(item, Content).text, IdsOf(item), ArtifactsOf(item)))
    else None
  }

  /** Whether an artifact is well formed, and its normal form. */
  type Validate = Json -> Option<Json>

  function ValidArtifacts(validate: Validate, raw: seq<Json>): seq<Json> {
    if raw == [] then []
    else if raw[0].Obj? && validate(raw[0]).Some? then [validate(raw[0]).value] + ValidArtifacts(validate, raw[1..])
    else ValidArtifacts(validate, raw[1..])
  }

  function Normalize(validate: Validate, item: Json): Option<Message> {
    if IsMessage(item) then
      Some(Message(Get(item, Role).text, Get(item, Content).text, IdsOf(item), ValidArtifacts(validate, ArtifactsOf(item))))
    else None
  }

  function Strs(ids: seq<string>): seq<Json> {
    if ids == [] then [] else [Str(ids[0])] + Strs(ids[1..])
  }

  /** A message as a JSON object: ids and artifacts only where there are some. */
  function ToJson(m: Message): Json {
    var base := map[Role := Str(m.role), Content := Str(m.content)];
    var withIds := if m.ids == [] then base else base[ImageIds := List(Strs(m.ids))];
    Obj(if m.artifacts == [] then withIds else withIds[Artifacts := List(m.artifacts)])
  }

  lemma {:induction false} CleanIsClean(raw: seq<Json>)
    ensures CleanIds(Strs(CleanIds(raw))) == CleanIds(raw)
  {
    if raw != [] {
      CleanIsClean(raw[1..]);
      if raw[0].Str? && Strip(raw[0].text) != "" {
        var ids := CleanIds(raw);
        StripIdempotent(raw[0].text);
        assert ids[0] == Strip(raw[0].text) && ids[1..] == CleanIds(raw[1..]);
        assert Strs(ids)[1..] == Strs(ids[1..]);
      }
    }
  }

  lemma ToJsonFields(m: Message)
    requires IsRole(m.role)
    ensures IsMessage(ToJson(m)) && Get(ToJson(m), Role) == Str(m.role) && Get(ToJson(m), Content) == Str(m.content)
    ensures IdsOf(ToJson(m)) == CleanIds(Strs(m.ids)) && ArtifactsOf(ToJson(m)) == m.artifacts
  {
  }

  /** A row, read back as an object, is normalised to the same message as the item it was made from. */
  lemma {:induction false} RowKeepsMessage(validate: Validate, item: Json)
    requires IsMessage(item)
    ensures Normalize(validate, ToJson(RowOf(item).value)) == Normalize(validate, item)
  {
    ToJsonFields(RowOf(item).value);
    if Get(item, ImageIds).List? {
      CleanIsClean(Get(item, ImageIds).items);
    }
  }

  // ---------- payloads ----------

  function RowsIn(items: seq<Json>): seq<Message> {
    if items == [] then []
    else if RowOf(items[0]).Some? then [RowOf(items[0]).value] + RowsIn(items[1..])
    else RowsIn(items[1..])
  }

  /** The visible messages of a payload. */
  function Visible(payload: Json): seq<Message> {
    if Get(payload, Messages).List? then RowsIn(Get(payload, Messages).items) else []
  }

  function NormalizeAll(validate: Validate, items: seq<Json>): seq<Message> {
    if items == [] then []
    else if Normalize(validate, items[0]).Some? then [Normalize(validate, items[0]).value] + NormalizeAll(validate, items[1..])
    else NormalizeAll(validate, items[1..])
  }

  function Prepend(m: Option<Message>, ms: seq<Message>): seq<Message> {
    if m.Some? then [m.value] + ms else ms
  }

  function Append(ms: seq<Message>, m: Option<Message>): seq<Message> {
    if m.Some? then ms + [m.value] else ms
  }

  function ToJsons(ms: seq<Message>): seq<Json> {
    if ms == [] then [] else [ToJson(ms[0])] + ToJsons(ms[1..])
  }

  lemma {:induction false} RowsKeepMessages(validate: Validate, items: seq<Json>)
    ensures NormalizeAll(validate, ToJsons(RowsIn(items))) == NormalizeAll(validate, items)
  {
    if items != [] {
      RowsKeepMessages(validate, items[1..]);
      if IsMessage(items[0]) {
        RowKeepsMessage(validate, items[0]);
        var row := RowOf(items[0]).value;
        ToJsonsStep(row, RowsIn(items[1..]));
        NormalizeStep(validate, ToJson(row), ToJsons(RowsIn(items[1..])));
      }
    }
  }

  lemma ToJsonsStep(m: Message, ms: seq<Message>)
    ensures ToJsons([m] + ms) == [ToJson(m)] + ToJsons(ms)
  {
    assert ([m] + ms)[1..] == ms;
  }

  lemma NormalizeStep(validate: Validate, item: Json, items: seq<Json>)
    ensures NormalizeAll(validate, [item] + items) == Prepend(Normalize(validate, item), NormalizeAll(validate, items))
  {
    assert ([item] + items)[1..] == items;
  }

  datatype Document = Document(id: string, filename: string, mimeType: string)

  datatype Snapshot = Snapshot(themeStyle: string, instruction: string)

  /** A decoded payload, or the refusal of one written by a newer version, or the TypeError of a lookup. */
  datatype Decoded = TooNew
                   | Unhashable
                   | Session(messages: seq<Message>, chart: Option<Json>, fileContext: Option<string>,
                             documents: seq<Document>, source: string, persona: Option<Snapshot>)

  predicate IsTheme(s: string) { s == "classic" || s == "urochester" || s == "thu" }

  function PersonaOf(raw: Json): Option<Snapshot> {
    var theme, instruction := Get(raw, ThemeStyle), Get(raw, Instruction);
    if raw.Obj? && theme.Str? && IsTheme(theme.text) && instruction.Str? then Some(Snapshot(theme.text, instruction.text))
    else None
  }

  /** A list or an object cannot be looked up in a set: Python raises TypeError. */
  predicate CanLookUp(j: Json) { !j.List? && !j.Obj? }

  predicate Hashable(item: Json) { item.Obj? ==> CanLookUp(Get(item, Role)) }

  predicate AllHashable(items: seq<Json>) { forall i :: 0 <= i < |items| ==> Hashable(items[i]) }

  /** Every role in the message list can be looked up among the known roles. */
  predicate Storable(payload: Json) {
    Get(payload, Messages).List? ==> AllHashable(Get(payload, Messages).items)
  }

  predicate HashableTheme(persona: Json) { persona.Obj? ==> CanLookUp(Get(persona, ThemeStyle)) }

  predicate IsDocument(item: Json) {
    && Get(item, DocumentId).Str? && Strip(Get(item, DocumentId).text) != ""
    && Get(item, Filename).Str? && Strip(Get(item, Filename).text) != ""
    && Get(item, MimeType).Str? && Strip(Get(item, MimeType).text) != ""
  }

  function DocumentsIn(items: seq<Json>): seq<Document> {
    if items == [] then []
    else if IsDocument(items[0]) then
      [Document(Get(items[0], DocumentId).text, Get(items[0], Filename).text, Get(items[0], MimeType).text)] + DocumentsIn(items[1..])
    else DocumentsIn(items[1..])
  }

  predicate IsSource(s: string) { s == "uploaded" || s == "demo" || s == "none" }

  function SourceOf(raw: Json, fileContext: Option<string>): string {
    if raw.Str? && IsSource(raw.text) then raw.text
    else if fileContext.Some? && fileContext.value != "" then "uploaded"
    else "none"
  }

  function DecodeObject(validate: Validate, payload: Json): Decoded
    requires payload.Obj?
  {
    if Get(payload, Version).Int? && Get(payload, Version).number > PAYLOAD_VERSION then TooNew
    else if !Storable(payload) || !HashableTheme(Get(payload, Persona)) then Unhashable
    else
      var messages := Get(payload, Messages);
      var context := Get(payload, FileContext);
      var fileContext := if context.Str? then Some(context.text) else None;
      var documents := Get(payload, Documents);
      Session(if messages.List? then NormalizeAll(validate, messages.items) else [],
              if Get(payload, ChartSpec).Obj? then Some(Get(payload, ChartSpec)) else None,
              fileContext,
              if documents.List? then DocumentsIn(documents.items) else [],
              SourceOf(Get(payload, ChartSource), fileContext),
              PersonaOf(Get(payload, Persona)))
  }

  /** What an old role-tagged list has said so far. */
  datatype Legacy = Legacy(messages: seq<Message>, chart: Option<Json>, fileContext: Option<string>)

  function LegacyStep(validate: Validate, parse: string -> Option<Json>, l: Legacy, item: Json): Legacy {
    if !item.Obj? || !Get(item, Role).Str? || !Get(item, Content).Str? then l
    else
      var role, content := Get(item, Role).text, Get(item, Content).text;
      if role == "__file_context__" then l.(fileContext := Some(content))
      else if role == "__file_context_ack__" then l
      else if role == "__chart__" then
        l.(chart := if parse(content).Some? && parse(content).value.Obj? then parse(content) else None)
      else l.(messages := Append(l.messages, Normalize(validate, item)))
  }

  function LegacyOf(validate: Validate, parse: string -> Option<Json>, items: seq<Json>): Legacy {
    if items == [] then Legacy([], None, None)
    else LegacyStep(validate, parse, LegacyOf(validate, parse, items[..|items| - 1]), items[|items| - 1])
  }

  function DecodeLegacy(validate: Validate, parse: string -> Option<Json>, items: seq<Json>): Decoded {
    var l := LegacyOf(validate, parse, items);
    Session(l.messages, l.chart, l.fileContext, [],
            if l.fileContext.Some? && l.fileContext.value != "" then "uploaded" else "none", None)
  }

  // ---------- what an old list decodes to ----------

  /** An item with a text role and a text content. */
  predicate Speaks(item: Json) { item.Obj? && Get(item, Role).Str? && Get(item, Content).Str? }

  predicate HasTag(item: Json, tag: string) { Speaks(item) && Get(item, Role).text == tag }

  predicate IsTagged(item: Json) {
    HasTag(item, "__chart__") || HasTag(item, "__file_context__") || HasTag(item, "__file_context_ack__")
  }

  /** The items that are neither tagged nor unreadable, in order. */
  function Plain(items: seq<Json>): seq<Json> {
    if items == [] then []
    else Plain(items[..|items| - 1]) + if Speaks(items[|items| - 1]) && !IsTagged(items[|items| - 1]) then [items[|items| - 1]] else []
  }

  /** Item i is the last one with the tag. */
  ghost predicate LastWith(items: seq<Json>, tag: string, i: nat) {
    i < |items| && HasTag(items[i], tag) && forall j :: i < j < |items| ==> !HasTag(items[j], tag)
  }

  ghost predicate NoneWith(items: seq<Json>, tag: string) {
    forall j :: 0 <= j < |items| ==> !HasTag(items[j], tag)
  }

  /** The value is what the last item with the tag gives, or nothing where there is none. */
  ghost predicate FromLast<T>(items: seq<Json>, tag: string, value: Option<T>, give: string -> Option<T>) {
    || (NoneWith(items, tag) && value.None?)
    || exists i: nat :: LastWith(items, tag, i) && value == give(Get(items[i], Content).text)
  }

  lemma FromLastSnoc<T>(items: seq<Json>, item: Json, tag: string, value: Option<T>, give: string -> Option<T>)
    requires FromLast(items, tag, value, give)
    ensures FromLast(items + [item], tag, if HasTag(item, tag) then give(Get(item, Content).text) else value, give)
  {
    var more := items + [item];
    if HasTag(item, tag) {
      assert LastWith(more, tag, |items|) && more[|items|] == item;
    } else if !NoneWith(items, tag) || value.Some? {
      var i: nat :| LastWith(items, tag, i) && value == give(Get(items[i], Content).text);
      assert LastWith(more, tag, i) && more[i] == items[i];
    }
  }

  /** The value of a chart item: its text, if that parses to an object. */
  function ChartOf(parse: string -> Option<Json>): string -> Option<Json> {
    (text: string) => if parse(text).Some? && parse(text).value.Obj? then parse(text) else None
  }

  function Same(): string -> Option<string> { (text: string) => Some(text) }

  lemma {:induction false} LegacyFacts(validate: Validate, parse: string -> Option<Json>, items: seq<Json>)
    ensures var l := LegacyOf(validate, parse, items);
            && l.messages == NormalizeAll(validate, Plain(items))
            && FromLast(items, "__file_context__", l.fileContext, Same())
            && FromLast(items, "__chart__", l.chart, ChartOf(parse))
  {
    if items != [] {
      var front, item := items[..|items| - 1], items[|items| - 1];
      LegacyFacts(validate, parse, front);
      LegacyOne(validate, parse, LegacyOf(validate, parse, front), item);
      FromLastSnoc(front, item, "__file_context__", LegacyOf(validate, parse, front).fileContext, Same());
      FromLastSnoc(front, item, "__chart__", LegacyOf(validate, parse, front).chart, ChartOf(parse));
      NormalizeSnoc(validate, Plain(front), item);
      assert items == front + [item] && Plain(front) + [] == Plain(front);
    }
  }

  lemma LegacyOne(validate: Validate, parse: string -> Option<Json>, l: Legacy, item: Json)
    ensures var m := LegacyStep(validate, parse, l, item);
            && m.messages == (if Speaks(item) && !IsTagged(item) then Append(l.messages, Normalize(validate, item)) else l.messages)
            && m.fileContext == (if HasTag(item, "__file_context__") then Some(Get(item, Content).text) else l.fileContext)
            && m.chart == (if HasTag(item, "__chart__") then ChartOf(parse)(Get(item, Content).text) else l.chart)
  {
  }

  /** An old list decodes to the plain messages in order, the content of the last file context, the chart of the
      last chart item if that is one, and nothing else. */
  lemma LegacyExact(validate: Validate, parse: string -> Option<Json>, items: seq<Json>)
    ensures var d := Decode(validate, parse, List(items));
            && d.Session?
            && d.messages == NormalizeAll(validate, Plain(items))
            && FromLast(items, "__file_context__", d.fileContext, Same())
            && FromLast(items, "__chart__", d.chart, ChartOf(parse))
            && d.documents == [] && d.persona.None?
            && d.source == if d.fileContext.Some? && d.fileContext.value != "" then "uploaded" else "none"
  {
    LegacyFacts(validate, parse, items);
  }

  /** Decode a payload object, an old list, or anything else. */
  function Decode(validate: Validate, parse: string -> Option<Json>, payload: Json): Decoded {
    if payload.List? then DecodeLegacy(validate, parse, payload.items)
    else if payload.Obj? then DecodeObject(validate, payload)
    else Session([], None, None, [], "none", None)
  }

  /** Decoding looks at seven keys, and at the messages only as they normalise. */
  lemma DecodeSame(validate: Validate, p: Json, q: Json)
    requires p.Obj? && q.Obj? && Get(p, Messages).List? && Get(q, Messages).List?
    requires NormalizeAll(validate, Get(p, Messages).items) == NormalizeAll(validate, Get(q, Messages).items)
    requires forall k :: k != Messages ==> Get(p, k) == Get(q, k)
    requires Storable(p) && Storable(q)
    ensures DecodeObject(validate, p) == DecodeObject(validate, q)
  {
    assert Get(p, Version) == Get(q, Version) && Get(p, FileContext) == Get(q, FileContext);
    assert Get(p, Documents) == Get(q, Documents) && Get(p, ChartSpec) == Get(q, ChartSpec);
    assert Get(p, ChartSource) == Get(q, ChartSource) && Get(p, Persona) == Get(q, Persona);
  }

  lemma GetUpdated(f: map<Key, Json>, k: Key, v: Json)
    ensures Get(Obj(f[k := v]), k) == v
    ensures forall j :: j != k ==> Get(Obj(f[k := v]), j) == Get(Obj(f), j)
  {
  }

  lemma {:induction false} RowsAreHashable(items: seq<Json>)
    ensures AllHashable(ToJsons(RowsIn(items)))
  {
    if items != [] {
      RowsAreHashable(items[1..]);
      if IsMessage(items[0]) {
        ToJsonFields(RowOf(items[0]).value);
        ToJsonsStep(RowOf(items[0]).value, RowsIn(items[1..]));
      }
    }
  }

  /** Merging rows over the message list of an object changes nothing that decoding sees; where the message
      list itself makes decoding raise, there was nothing to see. */
  lemma MergeIsTransparent(validate: Validate, payload: Json)
    requires payload.Obj? && Visible(payload) != []
    ensures Storable(payload) ==>
              DecodeObject(validate, Obj(payload.fields[Messages := List(ToJsons(Visible(payload)))])) == DecodeObject(validate, payload)
    ensures !Storable(payload) ==> !DecodeObject(validate, payload).Session?
  {
    var rows := List(ToJsons(Visible(payload)));
    RowsKeepMessages(validate, Get(payload, Messages).items);
    RowsAreHashable(Get(payload, Messages).items);
    GetUpdated(payload.fields, Messages, rows);
    if Storable(payload) {
      DecodeSame(validate, Obj(payload.fields[Messages := rows]), payload);
    }
  }

  // ---------- the same as loops ----------

  /** Collect the rows of a payload's messages. */
  method PayloadVisibleMessages(payload: Json) returns (rows: seq<Message>)
    ensures rows == Visible(payload)
  {
    rows := [];
    if !Get(payload, Messages).List? {
      return;
    }
    var items := Get(payload, Messages).items;
    for i := 0 to |items|
      invariant RowsIn(items) == rows + RowsIn(items[i..])
    {
      var row := RowOf(items[i]);
      RestOf(items, i);
      if row.Some? {
        assert rows + ([row.value] + RowsIn(items[i + 1..])) == (rows + [row.value]) + RowsIn(items[i + 1..]);
        rows := rows + [row.value];
      }
    }
  }

  /** Message objects for a list of rows. */
  method MessagesAsJson(messages: seq<Message>) returns (items: seq<Json>)
    ensures items == ToJsons(messages)
  {
    items := [];
    assert messages[0..] == messages;
    for i := 0 to |messages|
      invariant ToJsons(messages) == items + ToJsons(messages[i..])
    {
      assert messages[i..][1..] == messages[i + 1..];
      var item := ToJson(messages[i]);
      assert items + ([item] + ToJsons(messages[i + 1..])) == (items + [item]) + ToJsons(messages[i + 1..]);
      items := items + [item];
    }
    assert messages[|messages|..] == [];
  }

  /** The messages of a list, or nothing where a role cannot be looked up. */
  method NormalizedMessages(validate: Validate, items: seq<Json>) returns (messages: Option<seq<Message>>)
    ensures messages == if AllHashable(items) then Some(NormalizeAll(validate, items)) else None
  {
    var kept: seq<Message> := [];
    for i := 0 to |items|
      invariant forall j :: 0 <= j < i ==> Hashable(items[j])
      invariant NormalizeAll(validate, items) == kept + NormalizeAll(validate, items[i..])
    {
      if !Hashable(items[i]) {
        return None;
      }
      var m := Normalize(validate, items[i]);
      RestOf(items, i);
      if m.Some? {
        OneMoreMessage(kept, m.value, NormalizeAll(validate, items[i + 1..]));
        kept := kept + [m.value];
      }
    }
    assert kept == NormalizeAll(validate, items) by {
      assert items[|items|..] == [] && kept + [] == kept;
    }
    return Some(kept);
  }

  lemma OneMoreMessage(ms: seq<Message>, m: Message, rest: seq<Message>)
    ensures ms + ([m] + rest) == (ms + [m]) + rest
  {
  }

  method WellFormedDocuments(items: seq<Json>) returns (documents: seq<Document>)
    ensures documents == DocumentsIn(items)
  {
    documents := [];
    for i := 0 to |items|
      invariant DocumentsIn(items) == documents + DocumentsIn(items[i..])
    {
      RestOf(items, i);
      if IsDocument(items[i]) {
        var d := Document(Get(items[i], DocumentId).text, Get(items[i], Filename).text, Get(items[i], MimeType).text);
        OneMoreDocument(documents, d, DocumentsIn(items[i + 1..]));
        documents := documents + [d];
      }
    }
  }

  lemma OneMoreDocument(documents: seq<Document>, d: Document, rest: seq<Document>)
    ensures documents + ([d] + rest) == (documents + [d]) + rest
  {
  }

  lemma RestOf(items: seq<Json>, i: nat)
    requires i < |items|
    ensures items[i..] != [] && items[i..][0] == items[i] && items[i..][1..] == items[i + 1..]
  {
  }

  method DecodeLegacyPayload(validate: Validate, parse: string -> Option<Json>, items: seq<Json>) returns (d: Decoded)
    ensures d == DecodeLegacy(validate, parse, items)
  {
    var l := Legacy([], None, None);
    for i := 0 to |items|
      invariant l == LegacyOf(validate, parse, items[..i])
    {
      assert items[..i + 1][..i] == items[..i];
      l := LegacyStep(validate, parse, l, items[i]);
    }
    assert items[..|items|] == items;
    return Session(l.messages, l.chart, l.fileContext, [],
                   if l.fileContext.Some? && l.fileContext.value != "" then "uploaded" else "none", None);
  }

  /** Decode a stored payload of any shape. */
  method DecodeSessionPayload(validate: Validate, parse: string -> Option<Json>, payload: Json) returns (d: Decoded)
    ensures d == Decode(validate, parse, payload)
  {
    if payload.List? {
      d := DecodeLegacyPayload(validate, parse, payload.items);
      return;
    }
    if !payload.Obj? {
      return Session([], None, None, [], "none", None);
    }
    var version := Get(payload, Version);
    if version.Int? && version.number > PAYLOAD_VERSION {
      return TooNew;
    }
    var messages: Option<seq<Message>> := Some([]);
    if Get(payload, Messages).List? {
      messages := NormalizedMessages(validate, Get(payload, Messages).items);
    }
    if messages.None? {
      return Unhashable;
    }
    var chart := if Get(payload, ChartSpec).Obj? then Some(Get(payload, ChartSpec)) else None;
    var context := if Get(payload, FileContext).Str? then Some(Get(payload, FileContext).text) else None;
    var documents: seq<Document> := [];
    if Get(payload, Documents).List? {
      documents := WellFormedDocuments(Get(payload, Documents).items);
    }
    if !HashableTheme(Get(payload, Persona)) {
      return Unhashable;
    }
    return Session(messages.value, chart, context, documents, SourceOf(Get(payload, ChartSource), context), PersonaOf(Get(payload, Persona)));
  }

  // ---------- building a payload ----------

  datatype ChatMessage = ChatMessage(role: string, content: string, fileContext: bool, ids: seq<string>)

  const REPLY := "I have loaded the file context."

  function KeepIds(ids: seq<string>): seq<string> {
    if ids == [] then []
    else if Strip(ids[0]) != "" then [Strip(ids[0])] + KeepIds(ids[1..])
    else KeepIds(ids[1..])
  }

  predicate IsAck(m: ChatMessage) { m.role == "assistant" && m.content == REPLY }

  /** Whether a message is a file context: a flag of the message, or the look of an old upload prompt. */
  predicate IsFileContext(m: ChatMessage, looksUploaded: string -> bool) {
    m.role == "user" && if m.fileContext then Strip(m.content) != "" else looksUploaded(m.content)
  }

  predicate IsFinal(m: ChatMessage, answer: string) { m.role == "assistant" && m.content == answer }

  /** What is stored of a chat message. */
  function StoredMessage(m: ChatMessage, answer: string, artifacts: seq<Json>): Message {
    Message(m.role, m.content, m.ids, if IsFinal(m, answer) then artifacts else [])
  }

  datatype Inputs = Inputs(messages: seq<ChatMessage>, answer: string, chart: Option<map<Key, Json>>,
                           documents: seq<Json>, artifacts: seq<Json>, source: string, persona: Json)

  /** The conversation with its new answer. */
  function Turns(x: Inputs): seq<ChatMessage> {
    x.messages + [ChatMessage("assistant", x.answer, false, [])]
  }

  /** The messages of a conversation that are shown: neither a file context nor its acknowledgement. */
  function Kept(turns: seq<ChatMessage>, looksUploaded: string -> bool): seq<ChatMessage> {
    if turns == [] then []
    else
      var n := |turns| - 1;
      Kept(turns[..n], looksUploaded) + if IsFileContext(turns[n], looksUploaded) || IsAck(turns[n]) then [] else [turns[n]]
  }

  /** The latest file context. */
  function Context(turns: seq<ChatMessage>, looksUploaded: string -> bool): Option<string> {
    if turns == [] then None
    else
      var n := |turns| - 1;
      if IsFileContext(turns[n], looksUploaded) then Some(turns[n].content) else Context(turns[..n], looksUploaded)
  }

  function StoredAll(turns: seq<ChatMessage>, answer: string, artifacts: seq<Json>): seq<Json> {
    if turns == [] then []
    else
      var n := |turns| - 1;
      StoredAll(turns[..n], answer, artifacts) + [ToJson(StoredMessage(turns[n], answer, artifacts))]
  }

  lemma StoredSnoc(turns: seq<ChatMessage>, m: ChatMessage, answer: string, artifacts: seq<Json>)
    ensures StoredAll(turns + [m], answer, artifacts) ==
              StoredAll(turns, answer, artifacts) + [ToJson(StoredMessage(m, answer, artifacts))]
  {
    assert (turns + [m])[..|turns|] == turns;
  }

  predicate HasVersion(chart: Option<map<Key, Json>>) { chart.None? || Version in chart.value }

  /** What the builder raises on: a chart without a version, a theme that cannot be looked up. */
  predicate Builds(x: Inputs) { HasVersion(x.chart) && HashableTheme(x.persona) }

  lemma KeptStep(turns: seq<ChatMessage>, i: nat, looksUploaded: string -> bool)
    requires i < |turns|
    ensures Kept(turns[..i + 1], looksUploaded) ==
              if IsFileContext(turns[i], looksUploaded) || IsAck(turns[i]) then Kept(turns[..i], looksUploaded)
              else Kept(turns[..i], looksUploaded) + [turns[i]]
    ensures Context(turns[..i + 1], looksUploaded) ==
              if IsFileContext(turns[i], looksUploaded) then Some(turns[i].content) else Context(turns[..i], looksUploaded)
  {
    assert turns[..i + 1][..i] == turns[..i];
    assert Kept(turns[..i], looksUploaded) + [] == Kept(turns[..i], looksUploaded);
  }

  method CollectMessages(x: Inputs, looksUploaded: string -> bool) returns (visible: seq<Json>, context: Option<string>)
    ensures visible == StoredAll(Kept(Turns(x), looksUploaded), x.answer, x.artifacts)
    ensures context == Context(Turns(x), looksUploaded)
  {
    visible, context := [], None;
    var turns := Turns(x);
    for i := 0 to |turns|
      invariant visible == StoredAll(Kept(turns[..i], looksUploaded), x.answer, x.artifacts)
      invariant context == Context(turns[..i], looksUploaded)
    {
      var m := turns[i];
      KeptStep(turns, i, looksUploaded);
      if IsFileContext(m, looksUploaded) {
        context := Some(m.content);
        continue;
      }
      if IsAck(m) {
        continue;
      }
      StoredSnoc(Kept(turns[..i], looksUploaded), m, x.answer, x.artifacts);
      visible := visible + [ToJson(StoredMessage(m, x.answer, x.artifacts))];
    }
    assert turns[..|turns|] == turns;
  }

  /** Build the payload, or raise. */
  method BuildSessionPayload(x: Inputs, looksUploaded: string -> bool) returns (payload: Option<Json>)
    ensures payload == if Builds(x) then Some(Built(x, looksUploaded)) else None
  {
    var visible, context := CollectMessages(x, looksUploaded);
    var fields := Base(visible, x.source);
    if x.chart.Some? {
      if Version !in x.chart.value {
        return None;
      }
      fields := fields[ChartSpec := Obj(x.chart.value)];
    }
    if context.Some? {
      fields := fields[FileContext := Str(context.value)];
    }
    if x.documents != [] {
      fields := fields[Documents := List(x.documents)];
    }
    if !HashableTheme(x.persona) {
      return None;
    }
    var persona := PersonaOf(x.persona);
    if persona.Some? {
      fields := fields[Persona := PersonaJson(persona.value)];
    }
    return Some(Obj(fields));
  }

  function PersonaJson(s: Snapshot): Json {
    Obj(map[ThemeStyle := Str(s.themeStyle), Instruction := Str(s.instruction)])
  }

  function Base(visible: seq<Json>, source: string): map<Key, Json> {
    map[Version := Int(PAYLOAD_VERSION), Messages := List(visible), ChartSource := Str(source)]
  }

  function Put(f: map<Key, Json>, k: Key, v: Option<Json>): map<Key, Json> {
    if v.Some? then f[k := v.value] else f
  }

  function OrNull(v: Option<Json>): Json { if v.Some? then v.value else Null }

  function ChartJson(x: Inputs): Option<Json> {
    if x.chart.Some? then Some(Obj(x.chart.value)) else None
  }

  function ContextJson(x: Inputs, looksUploaded: string -> bool): Option<Json> {
    var context := Context(Turns(x), looksUploaded);
    if context.Some? then Some(Str(context.value)) else None
  }

  function DocumentsJson(x: Inputs): Option<Json> {
    if x.documents != [] then Some(List(x.documents)) else None
  }

  function PersonaOption(x: Inputs): Option<Json> {
    var persona := PersonaOf(x.persona);
    if persona.Some? then Some(PersonaJson(persona.value)) else None
  }

  function Built(x: Inputs, looksUploaded: string -> bool): Json {
    var visible := StoredAll(Kept(Turns(x), looksUploaded), x.answer, x.artifacts);
    Obj(Put4(Base(visible, x.source), ChartJson(x), ContextJson(x, looksUploaded), DocumentsJson(x), PersonaOption(x)))
  }

  // ---------- decoding what was built ----------

  /** What a kept message is decoded to. */
  function Shown(validate: Validate, m: ChatMessage, answer: string, artifacts: seq<Json>): Message {
    Message(m.role, m.content, KeepIds(m.ids), if IsFinal(m, answer) then ValidArtifacts(validate, artifacts) else [])
  }

  function ShownAll(validate: Validate, turns: seq<ChatMessage>, answer: string, artifacts: seq<Json>): seq<Message> {
    if turns == [] then []
    else
      var n := |turns| - 1;
      ShownAll(validate, turns[..n], answer, artifacts) + [Shown(validate, turns[n], answer, artifacts)]
  }

  ghost predicate RolesOk(turns: seq<ChatMessage>) { forall i :: 0 <= i < |turns| ==> IsRole(turns[i].role) }

  lemma {:induction false} CleanStrs(ids: seq<string>)
    ensures CleanIds(Strs(ids)) == KeepIds(ids)
  {
    if ids != [] {
      CleanStrs(ids[1..]);
      assert Strs(ids)[1..] == Strs(ids[1..]);
    }
  }

  lemma StoredIsShown(validate: Validate, m: ChatMessage, answer: string, artifacts: seq<Json>)
    requires IsRole(m.role)
    ensures Normalize(validate, ToJson(StoredMessage(m, answer, artifacts))) == Some(Shown(validate, m, answer, artifacts))
  {
    ToJsonFields(StoredMessage(m, answer, artifacts));
    CleanStrs(m.ids);
  }

  lemma {:induction false} NormalizeSnoc(validate: Validate, items: seq<Json>, item: Json)
    ensures NormalizeAll(validate, items + [item]) == Append(NormalizeAll(validate, items), Normalize(validate, item))
  {
    if items == [] {
      assert items + [item] == [item] + [];
      NormalizeStep(validate, item, []);
    } else {
      assert items + [item] == [items[0]] + (items[1..] + [item]);
      assert items == [items[0]] + items[1..];
      NormalizeSnoc(validate, items[1..], item);
      NormalizeStep(validate, items[0], items[1..] + [item]);
      NormalizeStep(validate, items[0], items[1..]);
      PrependAppend(Normalize(validate, items[0]), NormalizeAll(validate, items[1..]), Normalize(validate, item));
    }
  }

  lemma PrependAppend(a: Option<Message>, ms: seq<Message>, b: Option<Message>)
    ensures Prepend(a, Append(ms, b)) == Append(Prepend(a, ms), b)
  {
    if a.Some? && b.Some? {
      assert [a.value] + (ms + [b.value]) == ([a.value] + ms) + [b.value];
    }
  }

  lemma {:induction false} StoredAllIsShown(validate: Validate, turns: seq<ChatMessage>, answer: string, artifacts: seq<Json>)
    requires RolesOk(turns)
    ensures NormalizeAll(validate, StoredAll(turns, answer, artifacts)) == ShownAll(validate, turns, answer, artifacts)
  {
    if turns != [] {
      var n := |turns| - 1;
      StoredAllIsShown(validate, turns[..n], answer, artifacts);
      StoredIsShown(validate, turns[n], answer, artifacts);
      NormalizeSnoc(validate, StoredAll(turns[..n], answer, artifacts), ToJson(StoredMessage(turns[n], answer, artifacts)));
    }
  }

  lemma {:induction false} KeptRoles(turns: seq<ChatMessage>, looksUploaded: string -> bool)
    requires RolesOk(turns)
    ensures RolesOk(Kept(turns, looksUploaded))
  {
    if turns != [] {
      KeptRoles(turns[..|turns| - 1], looksUploaded);
    }
  }

  function Put4(f: map<Key, Json>, a: Option<Json>, b: Option<Json>, c: Option<Json>, d: Option<Json>): map<Key, Json> {
    Put(Put(Put(Put(f, ChartSpec, a), FileContext, b), Documents, c), Persona, d)
  }

  lemma GetPut4(f: map<Key, Json>, a: Option<Json>, b: Option<Json>, c: Option<Json>, d: Option<Json>)
    requires ChartSpec !in f && FileContext !in f && Documents !in f && Persona !in f
    ensures var p := Obj(Put4(f, a, b, c, d));
            && Get(p, ChartSpec) == OrNull(a) && Get(p, FileContext) == OrNull(b)
            && Get(p, Documents) == OrNull(c) && Get(p, Persona) == OrNull(d)
    ensures var p := Obj(Put4(f, a, b, c, d));
            && Get(p, Version) == Get(Obj(f), Version) && Get(p, Messages) == Get(Obj(f), Messages)
            && Get(p, ChartSource) == Get(Obj(f), ChartSource)
  {
  }

  lemma BaseFields(visible: seq<Json>, source: string)
    ensures var p := Obj(Base(visible, source));
            && Get(p, Version) == Int(PAYLOAD_VERSION) && Get(p, Messages) == List(visible) && Get(p, ChartSource) == Str(source)
    ensures var f := Base(visible, source); ChartSpec !in f && FileContext !in f && Documents !in f && Persona !in f
  {
  }

  lemma BuiltFields(x: Inputs, looksUploaded: string -> bool)
    ensures var p := Built(x, looksUploaded);
            && p.Obj? && Get(p, Version) == Int(PAYLOAD_VERSION)
            && Get(p, Messages) == List(StoredAll(Kept(Turns(x), looksUploaded), x.answer, x.artifacts))
            && Get(p, ChartSource) == Str(x.source)
            && Get(p, ChartSpec) == OrNull(ChartJson(x))
            && Get(p, FileContext) == OrNull(ContextJson(x, looksUploaded))
            && Get(p, Documents) == OrNull(DocumentsJson(x))
            && Get(p, Persona) == OrNull(PersonaOption(x))
  {
    var visible := StoredAll(Kept(Turns(x), looksUploaded), x.answer, x.artifacts);
    BaseFields(visible, x.source);
    GetPut4(Base(visible, x.source), ChartJson(x), ContextJson(x, looksUploaded), DocumentsJson(x), PersonaOption(x));
  }

  lemma PersonaKept(raw: Json)
    ensures PersonaOf(raw).Some? ==> PersonaOf(PersonaJson(PersonaOf(raw).value)) == PersonaOf(raw)
    ensures PersonaOf(Null) == None
    ensures PersonaOf(raw).Some? ==> HashableTheme(PersonaJson(PersonaOf(raw).value))
  {
  }

  /** Decoding what was built gives back the conversation: its kept messages in order, the answer's artifacts
      validated, the latest file context, the chart, the well-formed documents, the source and the persona. */
  lemma {:induction false} BuildRoundTrip(validate: Validate, x: Inputs, looksUploaded: string -> bool)
    requires Builds(x) && IsSource(x.source) && RolesOk(x.messages)
    ensures DecodeObject(validate, Built(x, looksUploaded)) ==
              Session(ShownAll(validate, Kept(Turns(x), looksUploaded), x.answer, x.artifacts),
                      if x.chart.Some? then Some(Obj(x.chart.value)) else None,
                      Context(Turns(x), looksUploaded),
                      DocumentsIn(x.documents),
                      x.source,
                      PersonaOf(x.persona))
  {
    BuiltFields(x, looksUploaded);
    PersonaKept(x.persona);
    BuiltIsStorable(x, looksUploaded);
    KeptRoles(Turns(x), looksUploaded);
    StoredAllIsShown(validate, Kept(Turns(x), looksUploaded), x.answer, x.artifacts);
  }

  // ---------- what can be stored ----------

  lemma {:induction false} StoredAllHashable(turns: seq<ChatMessage>, answer: string, artifacts: seq<Json>)
    requires RolesOk(turns)
    ensures AllHashable(StoredAll(turns, answer, artifacts))
  {
    if turns != [] {
      var n := |turns| - 1;
      StoredAllHashable(turns[..n], answer, artifacts);
      ToJsonFields(StoredMessage(turns[n], answer, artifacts));
    }
  }

  lemma BuiltIsStorable(x: Inputs, looksUploaded: string -> bool)
    requires RolesOk(x.messages)
    ensures Storable(Built(x, looksUploaded))
  {
    BuiltFields(x, looksUploaded);
    KeptRoles(Turns(x), looksUploaded);
    StoredAllHashable(Kept(Turns(x), looksUploaded), x.answer, x.artifacts);
  }
}
