/** Server-sent event frames: JSON strings, the frames built from them, and a reader of the stream.

    Strings are escaped as section 7 of RFC 8259 asks (the encoder leaves non-ASCII text as it is);
    the stream is read as section 9.2 of the WHATWG HTML Standard says. */
module SseFrames {
  import opened Wrappers
  import opened Idempotency

  // ---------- JSON strings ----------

  function Hex(n: nat): char
    requires n < 16
  {
    if n < 10 then '0' + n as char else 'a' + (n - 10) as char
  }

  function EscapeChar(c: char): (e: string)
    ensures e != ""
  {
    if c == '"' then ['\\', '"']
    else if c == '\\' then ['\\', '\\']
    else if c == '\n' then ['\\', 'n']
    else if c == '\r' then ['\\', 'r']
    else if c == '\t' then ['\\', 't']
    else if c == 8 as char then ['\\', 'b']
    else if c == 12 as char then ['\\', 'f']
    else if c < ' ' then ['\\', 'u', '0', '0', Hex(c as int / 16), Hex(c as int % 16)]
    else [c]
  }

  function Escape(s: string): string {
    if s == "" then "" else EscapeChar(s[0]) + Escape(s[1..])
  }

  function HexValue(c: char): Option<nat> {
    if '0' <= c <= '9' then Some((c as int) - 48)
    else if 'a' <= c <= 'f' then Some((c as int) - 87)
    else None
  }

  /** One character of a JSON string and the text after it. */
  function ReadChar(t: string): Option<(char, string)> {
    if t == "" || t[0] == '"' || t[0] < ' ' then None
    else if t[0] != '\\' then Some((t[0], t[1..]))
    else if |t| < 2 then None
    else if t[1] == '"' || t[1] == '\\' || t[1] == '/' then Some((t[1], t[2..]))
    else if t[1] == 'n' then Some(('\n', t[2..]))
    else if t[1] == 'r' then Some(('\r', t[2..]))
    else if t[1] == 't' then Some(('\t', t[2..]))
    else if t[1] == 'b' then Some((8 as char, t[2..]))
    else if t[1] == 'f' then Some((12 as char, t[2..]))
    else if t[1] == 'u' && |t| >= 6 && t[2] == '0' && t[3] == '0' && HexValue(t[4]).Some? && HexValue(t[5]).Some? then
      Some(((HexValue(t[4]).value * 16 + HexValue(t[5]).value) as char, t[6..]))
    else None
  }

  /** The string up to the closing quote, and the text after the quote. */
  function ReadString(t: string): Option<(string, string)>
    decreases |t|
  {
    if t == "" then None
    else if t[0] == '"' then Some(("", t[1..]))
    else match ReadChar(t)
      case None => None
      case Some((c, rest)) =>
        if |rest| >= |t| then None
        else match ReadString(rest)
          case None => None
          case Some((s, after)) => Some(([c] + s, after))
  }

  lemma ReadEscapedChar(c: char, rest: string)
    ensures ReadChar(EscapeChar(c) + rest) == Some((c, rest))
    ensures (EscapeChar(c) + rest)[0] != '"'
  {
    var e := EscapeChar(c);
    var t := e + rest;
    assert t[|e|..] == rest && forall i :: 0 <= i < |e| ==> t[i] == e[i];
    if c < ' ' && |e| == 6 {
      var n := c as int;
      assert n / 16 * 16 + n % 16 == n;
    }
  }

  lemma ReadStringStep(c: char, after: string, s: string, rest: string)
    requires ReadString(after) == Some((s, rest))
    ensures ReadString(EscapeChar(c) + after) == Some(([c] + s, rest))
  {
    ReadEscapedChar(c, after);
  }

  lemma ReadEnd(tail: string)
    requires tail != "" && tail[0] == '"'
    ensures ReadString(Escape("") + tail) == Some(("", tail[1..]))
  {
    assert Escape("") + tail == tail;
  }

  lemma Associate(a: string, b: string, c: string)
    ensures (a + b) + c == a + (b + c)
  {
  }

  lemma EscapeSplit(s: string, tail: string)
    requires s != ""
    ensures Escape(s) + tail == EscapeChar(s[0]) + (Escape(s[1..]) + tail)
  {
    Associate(EscapeChar(s[0]), Escape(s[1..]), tail);
  }

  lemma {:induction false} EscapeUpToQuote(s: string, tail: string)
    requires tail != "" && tail[0] == '"'
    ensures ReadString(Escape(s) + tail) == Some((s, tail[1..]))
  {
    if s == "" {
      ReadEnd(tail);
    } else {
      EscapeUpToQuote(s[1..], tail);
      EscapeSplit(s, tail);
      ReadStringStep(s[0], Escape(s[1..]) + tail, s[1..], tail[1..]);
      assert [s[0]] + s[1..] == s;
    }
  }

  /** Escaping is read back exactly, whatever follows. */
  lemma {:induction false} EscapeRoundTrip(s: string, rest: string)
    ensures ReadString(Escape(s) + ("\"" + rest)) == Some((s, rest))
  {
    EscapeUpToQuote(s, "\"" + rest);
    assert ("\"" + rest)[1..] == rest;
  }

  /** In escaped text every quote follows a backslash, and there is no line break. */
  ghost predicate Guarded(e: string) {
    forall j :: 0 <= j < |e| ==> GuardedAt(e, j)
  }

  ghost predicate GuardedAt(e: string, j: nat)
    requires j < |e|
  {
    && e[j] != '\n' && e[j] != '\r'
    && (e[j] == '"' ==> j > 0 && e[j - 1] == '\\')
  }

  lemma GuardedConcat(a: string, b: string)
    requires Guarded(a) && Guarded(b)
    ensures Guarded(a + b)
  {
    forall j | 0 <= j < |a + b|
      ensures GuardedAt(a + b, j)
    {
      if j < |a| {
        assert GuardedAt(a, j);
      } else {
        assert GuardedAt(b, j - |a|);
      }
    }
  }

  lemma {:induction false} EscapeIsGuarded(s: string)
    ensures Guarded(Escape(s))
  {
    if s != "" {
      EscapeIsGuarded(s[1..]);
      CharIsGuarded(s[0]);
      GuardedConcat(EscapeChar(s[0]), Escape(s[1..]));
    }
  }

  lemma CharIsGuarded(c: char)
    ensures Guarded(EscapeChar(c))
  {
  }

  // ---------- frames ----------

  datatype Frame = Token(text: string) | Thinking(text: string) | Error(text: string) | Done

  function Kind(f: Frame): string {
    match f
    case Token(_) => "token"
    case Thinking(_) => "thinking"
    case Error(_) => "error"
    case Done => "done"
  }

  /** The key of the frame's text. */
  function Label(f: Frame): string
    requires !f.Done?
  {
    if f.Error? then "message" else "token"
  }

  const OPENING := "{\"type\": \""

  /** The text before the string of a frame. */
  function Head(f: Frame): string {
    if f.Done? then OPENING + (Kind(f) + "\"}")
    else OPENING + (Kind(f) + ("\", \"" + (Label(f) + "\": \"")))
  }

  /** The JSON object of a frame, as the encoder spells it. */
  function Payload(f: Frame): string {
    if f.Done? then Head(f) else Head(f) + (Escape(f.text) + "\"}")
  }

  function Wire(payload: string): string { "data: " + payload + "\n\n" }

  function Encode(f: Frame): string { Wire(Payload(f)) }

  predicate StartsWith(t: string, p: string) { |p| <= |t| && t[..|p|] == p }

  /** The frame with the given payload. */
  function ReadPayload(t: string): Option<Frame> {
    if t == Head(Done) then Some(Done)
    else if StartsWith(t, Head(Token(""))) then ReadText(t, Token(""))
    else if StartsWith(t, Head(Thinking(""))) then ReadText(t, Thinking(""))
    else if StartsWith(t, Head(Error(""))) then ReadText(t, Error(""))
    else None
  }

  function ReadText(t: string, f: Frame): Option<Frame>
    requires !f.Done? && StartsWith(t, Head(f))
  {
    match ReadString(t[|Head(f)|..])
    case Some((s, after)) => if after == "}" then Some(f.(text := s)) else None
    case None => None
  }

  /** The kind of a frame can be read off the two characters after the opening. */
  lemma HeadStart(f: Frame, rest: string)
    ensures var t := Head(f) + rest;
            |t| >= 12 && t[10] == Kind(f)[0] && t[11] == Kind(f)[1]
  {
    assert |OPENING| == 10;
  }

  lemma StartsSame(t: string, p: string)
    requires StartsWith(t, p) && |p| >= 12
    ensures t[10] == p[10] && t[11] == p[11]
  {
    assert t[..|p|][10] == t[10] && t[..|p|][11] == t[11];
  }

  lemma HeadsDiffer(f: Frame, rest: string)
    requires !f.Done?
    ensures StartsWith(Head(f) + rest, Head(f)) && Head(f) + rest != Head(Done)
    ensures f.Thinking? ==> !StartsWith(Head(f) + rest, Head(Token("")))
    ensures f.Error? ==> !StartsWith(Head(f) + rest, Head(Token(""))) && !StartsWith(Head(f) + rest, Head(Thinking("")))
  {
    var t := Head(f) + rest;
    assert t[..|Head(f)|] == Head(f);
    HeadStart(f, rest);
    HeadStart(Done, "");
    assert Head(Done) + "" == Head(Done);
    HeadStart(Token(""), "");
    assert Head(Token("")) + "" == Head(Token(""));
    HeadStart(Thinking(""), "");
    assert Head(Thinking("")) + "" == Head(Thinking(""));
    if StartsWith(t, Head(Token(""))) {
      StartsSame(t, Head(Token("")));
    }
    if StartsWith(t, Head(Thinking(""))) {
      StartsSame(t, Head(Thinking("")));
    }
  }

  /** A payload tells its frame. */
  lemma PayloadRoundTrip(f: Frame)
    ensures ReadPayload(Payload(f)) == Some(f)
  {
    if !f.Done? {
      var body := Escape(f.text) + "\"}";
      HeadsDiffer(f, body);
      assert Payload(f)[|Head(f)|..] == body;
      EscapeRoundTrip(f.text, "}");
      assert body == Escape(f.text) + ("\"" + "}");
    }
  }

  // ---------- reading a stream ----------

  predicate IsBreak(c: char) { c == '\n' || c == '\r' }

  predicate OneLine(s: string) { forall i :: 0 <= i < |s| ==> !IsBreak(s[i]) }

  /** Position of the first line break, or the length. */
  function LineEnd(s: string): (n: nat)
    ensures n <= |s| && OneLine(s[..n]) && (n < |s| ==> IsBreak(s[n]))
  {
    if s == "" || IsBreak(s[0]) then 0
    else
      var n := LineEnd(s[1..]);
      assert s[..1 + n] == [s[0]] + s[1..][..n];
      1 + n
  }

  function Colon(line: string): (n: nat)
    ensures n <= |line|
  {
    if line == "" || line[0] == ':' then 0 else 1 + Colon(line[1..])
  }

  /** What a line that is not blank does to the data buffer. Fields other than `data` do not reach it. */
  function TakeLine(line: string, buffer: string): string {
    var n := Colon(line);
    var name := line[..n];
    var raw := if n < |line| then line[n + 1..] else "";
    var value := if raw != "" && raw[0] == ' ' then raw[1..] else raw;
    if name == "data" then buffer + value + "\n" else buffer
  }

  /** The data of every event that the stream dispatches. An event without its blank line is dropped. */
  function ReadStream(s: string, buffer: string): seq<string>
    decreases |s|
  {
    var n := LineEnd(s);
    if n == |s| then []
    else
      var rest := if s[n] == '\r' && n + 1 < |s| && s[n + 1] == '\n' then s[n + 2..] else s[n + 1..];
      if n > 0 then ReadStream(rest, TakeLine(s[..n], buffer))
      else if buffer == "" then ReadStream(rest, "")
      else [buffer[..|buffer| - 1]] + ReadStream(rest, "")
  }

  lemma {:induction false} LineEndAt(line: string, rest: string)
    requires OneLine(line)
    ensures LineEnd(line + "\n" + rest) == |line|
  {
    if line == "" {
      assert (line + "\n" + rest)[0] == '\n';
    } else {
      assert (line + "\n" + rest)[1..] == line[1..] + "\n" + rest;
      LineEndAt(line[1..], rest);
    }
  }

  lemma ReadLine(line: string, rest: string, buffer: string)
    requires OneLine(line)
    ensures ReadStream(line + "\n" + rest, buffer) ==
              if line != "" then ReadStream(rest, TakeLine(line, buffer))
              else if buffer == "" then ReadStream(rest, "")
              else [buffer[..|buffer| - 1]] + ReadStream(rest, "")
  {
    var s := line + "\n" + rest;
    LineEndAt(line, rest);
    assert s[..|line|] == line && s[|line|] == '\n' && s[|line| + 1..] == rest;
  }

  lemma {:induction false} ColonAt(line: string, n: nat)
    requires n < |line| && line[n] == ':' && forall j :: 0 <= j < n ==> line[j] != ':'
    ensures Colon(line) == n
  {
    if n > 0 {
      ColonAt(line[1..], n - 1);
    }
  }

  lemma TakeField(line: string, n: nat, payload: string)
    requires Colon(line) == n && n + 2 <= |line| && line[n + 1] == ' ' && line[..n] == "data" && line[n + 2..] == payload
    ensures TakeLine(line, "") == payload + "\n"
  {
    assert line[n + 1..][1..] == line[n + 2..];
    assert "" + payload == payload;
  }

  lemma DataLine(payload: string)
    ensures TakeLine("data: " + payload, "") == payload + "\n"
  {
    var line := "data: " + payload;
    ColonAt(line, 4);
    TakeField(line, 4, payload);
  }

  /** A frame is read back as its payload, and the stream goes on after it. */
  lemma ReadFrame(payload: string, rest: string)
    requires OneLine(payload)
    ensures ReadStream(Wire(payload) + rest, "") == [payload] + ReadStream(rest, "")
  {
    var line := "data: " + payload;
    var after := "" + "\n" + rest;
    assert Wire(payload) + rest == line + "\n" + after;
    ReadLine(line, after, "");
    DataLine(payload);
    ReadLine("", rest, payload + "\n");
    assert (payload + "\n")[..|payload|] == payload;
  }

  function Stream(frames: seq<Frame>): string {
    if frames == [] then "" else Encode(frames[0]) + Stream(frames[1..])
  }

  function ReadPayloads(ps: seq<string>): seq<Option<Frame>> {
    if ps == [] then [] else [ReadPayload(ps[0])] + ReadPayloads(ps[1..])
  }

  function Somes(frames: seq<Frame>): seq<Option<Frame>> {
    if frames == [] then [] else [Some(frames[0])] + Somes(frames[1..])
  }

  lemma OneLineConcat(a: string, b: string)
    requires OneLine(a) && OneLine(b)
    ensures OneLine(a + b)
  {
  }

  lemma GuardedIsOneLine(e: string)
    requires Guarded(e)
    ensures OneLine(e)
  {
    forall i | 0 <= i < |e|
      ensures !IsBreak(e[i])
    {
      assert GuardedAt(e, i);
    }
  }

  lemma HeadIsOneLine(f: Frame)
    ensures OneLine(Head(f))
  {
    assert OneLine(OPENING) && OneLine(Kind(f)) && OneLine("\"}");
    if f.Done? {
      OneLineConcat(Kind(f), "\"}");
      OneLineConcat(OPENING, Kind(f) + "\"}");
    } else {
      assert OneLine("\", \"") && OneLine(Label(f)) && OneLine("\": \"");
      OneLineConcat(Label(f), "\": \"");
      OneLineConcat("\", \"", Label(f) + "\": \"");
      OneLineConcat(Kind(f), "\", \"" + (Label(f) + "\": \""));
      OneLineConcat(OPENING, Kind(f) + ("\", \"" + (Label(f) + "\": \"")));
    }
  }

  lemma PayloadIsOneLine(f: Frame)
    ensures OneLine(Payload(f))
  {
    HeadIsOneLine(f);
    if !f.Done? {
      EscapeIsGuarded(f.text);
      GuardedIsOneLine(Escape(f.text));
      OneLineConcat(Escape(f.text), "\"}");
      OneLineConcat(Head(f), Escape(f.text) + "\"}");
    }
  }

  /** Any concatenation of frames is read back as the same frames, in order. */
  lemma {:induction false} StreamRoundTrip(frames: seq<Frame>)
    ensures ReadPayloads(ReadStream(Stream(frames), "")) == Somes(frames)
  {
    if frames != [] {
      PayloadIsOneLine(frames[0]);
      ReadFrame(Payload(frames[0]), Stream(frames[1..]));
      PayloadRoundTrip(frames[0]);
      StreamRoundTrip(frames[1..]);
      var ps := [Payload(frames[0])] + ReadStream(Stream(frames[1..]), "");
      assert ps[1..] == ReadStream(Stream(frames[1..]), "");
    }
  }

  lemma {:induction false} SomesInjective(f: seq<Frame>, g: seq<Frame>)
    requires Somes(f) == Somes(g)
    ensures f == g
  {
    if f != [] {
      assert Somes(f)[0] == Some(f[0]) && Somes(f)[1..] == Somes(f[1..]);
      assert Somes(g)[0] == Some(g[0]) && Somes(g)[1..] == Somes(g[1..]);
      SomesInjective(f[1..], g[1..]);
      assert f == [f[0]] + f[1..] && g == [g[0]] + g[1..];
    }
  }

  /** So the bytes on the wire determine the frames. */
  lemma {:induction false} StreamInjective(f: seq<Frame>, g: seq<Frame>)
    requires Stream(f) == Stream(g)
    ensures f == g
  {
    StreamRoundTrip(f);
    StreamRoundTrip(g);
    SomesInjective(f, g);
  }

  // ---------- recognising done ----------

  ghost predicate NoD(s: string) { forall j :: 0 <= j < |s| ==> s[j] != 'd' }

  /** What the search for the done mark needs to know about the text before a frame's string. */
  ghost predicate PlainHead(h: string) {
    |h| >= 9 && h[|h| - 1] == '"' && h[|h| - 9] != '"' && NoD(h[1..])
  }

  lemma MarkChars()
    ensures var m := DONE_MARK;
            && |m| == 14 && m[0] == '"' && m[7] == ' ' && m[8] == '"' && m[9] == 'd' && m[10] == 'o'
            && m[11] == 'n' && m[12] == 'e' && m[13] == '"'
  {
  }

  /** Wherever the done mark is tried in such a frame, some character differs: its last two quotes would
      have to be unescaped, and then it would have to end at the frame's own closing quote. */
  lemma Mismatch(h: string, e: string, tail: string, i: nat) returns (j: nat)
    requires PlainHead(h) && Guarded(e) && |tail| == 4 && tail[1] != '"' && tail[2] != '"' && tail[3] != '"'
    requires i + 14 <= |h + (e + tail)|
    ensures j < 14 && (h + (e + tail))[i + j] != DONE_MARK[j]
  {
    MarkChars();
    var w := h + (e + tail);
    var last := i + 13;
    if last < |h| {
      assert w[i + 9] == h[1..][i + 8];
      return 9;
    } else if w[last] != '"' {
      return 13;
    } else if last < |h| + |e| {
      var p := last - |h|;
      assert GuardedAt(e, p) && e[p] == w[last];
      assert e[p - 1] == w[last - 1];
      return 12;
    }
    assert w[last] == tail[last - |h| - |e|];
    assert last == |h| + |e|;
    if |e| >= 5 {
      if w[i + 8] != '"' {
        return 8;
      }
      var p := i + 8 - |h|;
      assert GuardedAt(e, p) && e[p] == w[i + 8];
      assert e[p - 1] == w[i + 7];
      return 7;
    } else if |e| == 4 {
      assert w[i] == h[|h| - 9];
      return 0;
    } else {
      j := 12 - |e|;
      assert w[i + j] == h[|h| - 1];
      assert j == 9 || j == 10 || j == 11 || j == 12;
    }
  }

  lemma MismatchAnywhere(w: string, i: nat, j: nat)
    requires i + |DONE_MARK| <= |w| && j < |DONE_MARK| && w[i + j] != DONE_MARK[j]
    ensures !MatchesAt(w, DONE_MARK, i)
  {
    assert w[i..i + |DONE_MARK|][j] == w[i + j];
  }

  lemma NoDConcat(a: string, b: string)
    requires NoD(a) && NoD(b)
    ensures NoD(a + b)
  {
  }

  lemma HeadHasNoD(f: Frame)
    requires !f.Done?
    ensures NoD(Head(f))
  {
    assert NoD(OPENING) && NoD(Kind(f)) && NoD("\", \"") && NoD(Label(f)) && NoD("\": \"");
    NoDConcat(Label(f), "\": \"");
    NoDConcat("\", \"", Label(f) + "\": \"");
    NoDConcat(Kind(f), "\", \"" + (Label(f) + "\": \""));
    NoDConcat(OPENING, Kind(f) + ("\", \"" + (Label(f) + "\": \"")));
  }

  lemma HeadIsPlain(f: Frame)
    requires !f.Done?
    ensures PlainHead("data: " + Head(f))
  {
    HeadHasNoD(f);
    HeadEnds(f);
    LabelEnds(f);
    assert NoD("data: "[1..]);
    PlainFrom("data: ", Head(f), Label(f) + "\": \"");
  }

  lemma PlainFrom(a: string, b: string, ending: string)
    requires a != "" && NoD(a[1..]) && NoD(b) && |b| >= |ending| >= 9 && b[|b| - |ending|..] == ending
    requires ending[|ending| - 1] == '"' && ending[|ending| - 9] != '"'
    ensures PlainHead(a + b)
  {
    EndingsMatch(a, b, ending);
    NoDConcat(a[1..], b);
    assert (a + b)[1..] == a[1..] + b;
  }

  lemma LabelEnds(f: Frame)
    requires !f.Done?
    ensures var ending := Label(f) + "\": \""; |ending| >= 9 && ending[|ending| - 1] == '"' && ending[|ending| - 9] != '"'
  {
    var ending := Label(f) + "\": \"";
    assert ending[|ending| - 9] == Label(f)[|Label(f)| - 5];
  }

  lemma EndingsMatch(a: string, b: string, ending: string)
    requires |b| >= |ending| >= 9 && b[|b| - |ending|..] == ending
    ensures var h := a + b; h[|h| - 1] == ending[|ending| - 1] && h[|h| - 9] == ending[|ending| - 9]
  {
    var k := |b| - |ending|;
    assert b[k..][|ending| - 1] == b[|b| - 1] && b[k..][|ending| - 9] == b[|b| - 9];
  }

  lemma HeadEnds(f: Frame)
    requires !f.Done?
    ensures var h, ending := Head(f), Label(f) + "\": \"";
            |h| >= |ending| >= 9 && h[|h| - |ending|..] == ending
  {
  }

  lemma TextFrameLacksMark(f: Frame)
    requires !f.Done?
    ensures !Contains(Encode(f), DONE_MARK)
  {
    var h, e, tail := EncodeParts(f);
    EscapeIsGuarded(f.text);
    MarkNowhere(h, e, tail);
  }

  lemma EncodeParts(f: Frame) returns (h: string, e: string, tail: string)
    requires !f.Done?
    ensures PlainHead(h) && e == Escape(f.text) && |tail| == 4 && tail[1] != '"' && tail[2] != '"' && tail[3] != '"'
    ensures Encode(f) == h + (e + tail)
  {
    h, e, tail := "data: " + Head(f), Escape(f.text), "\"}\n\n";
    HeadIsPlain(f);
    WireParts("data: ", Head(f), e, "\"}", "\n\n");
    assert "\"}" + "\n\n" == tail;
  }

  lemma WireParts(a: string, b: string, c: string, d: string, e: string)
    ensures a + (b + (c + d)) + e == (a + b) + (c + (d + e))
  {
  }

  lemma MarkNowhere(h: string, e: string, tail: string)
    requires PlainHead(h) && Guarded(e) && |tail| == 4 && tail[1] != '"' && tail[2] != '"' && tail[3] != '"'
    ensures !Contains(h + (e + tail), DONE_MARK)
  {
    MarkChars();
    var w := h + (e + tail);
    forall i | 0 <= i <= |w| - |DONE_MARK|
      ensures !MatchesAt(w, DONE_MARK, i)
    {
      var j := Mismatch(h, e, tail, i);
      MismatchAnywhere(w, i, j);
    }
  }

  lemma DoneFrameHasMark()
    ensures Contains(Encode(Done), DONE_MARK)
  {
    var w := Encode(Done);
    var before, after := "data: {", "}\n\n";
    assert w == before + DONE_MARK + after;
    assert w[|before|..|before| + |DONE_MARK|] == DONE_MARK;
    assert MatchesAt(w, DONE_MARK, |before|);
  }

  /** The capture recognises done frames and nothing else: whatever text a token, a thinking step or an
      error carries, its frame does not contain the mark. */
  lemma OnlyDoneHasTheMark(f: Frame)
    ensures Contains(Encode(f), DONE_MARK) <==> f == Done
  {
    if f == Done {
      DoneFrameHasMark();
    } else {
      TextFrameLacksMark(f);
    }
  }
}
