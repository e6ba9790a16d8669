/** The bounded text accumulator of a sandbox run: text is kept until a byte budget is used up. */
module OutputAccumulator {
  import opened Utf8
  import opened Wrappers

  const MARKER := "\n[output truncated]"

  /** The accumulator's fields as a value. */
  datatype Acc = Acc(maxBytes: int, parts: seq<string>, bytesUsed: int, truncated: bool) {
    function Text(): string { Join(parts) }
  }

  function Join(parts: seq<string>): string {
    if parts == [] then "" else Join(parts[..|parts| - 1]) + parts[|parts| - 1]
  }

  function Empty(maxBytes: int): Acc { Acc(maxBytes, [], 0, false) }

  /** What one append does to the fields, and the text it hands on. */
  function Append(a: Acc, text: string): (Acc, Option<string>) {
    if text == "" || a.maxBytes <= 0 || a.truncated then (a, None)
    else
      var remaining := a.maxBytes - a.bytesUsed;
      var encoded := Encode(text);
      if remaining <= 0 then (a.(truncated := true), None)
      else if |encoded| <= remaining then
        (a.(parts := a.parts + [text], bytesUsed := a.bytesUsed + |encoded|), Some(text))
      else
        var out := DecodeIgnore(encoded[..remaining]) + MARKER;
        (a.(parts := a.parts + [out], bytesUsed := a.maxBytes, truncated := true), Some(out))
  }

  /** The accumulator after a list of appends. */
  function Fed(maxBytes: int, chunks: seq<string>): Acc {
    if chunks == [] then Empty(maxBytes)
    else Append(Fed(maxBytes, chunks[..|chunks| - 1]), chunks[|chunks| - 1]).0
  }

  class BoundedTextAccumulator {
    var maxBytes: int
    var textParts: seq<string>
    var bytesUsed: int
    var truncated: bool

    ghost function State(): Acc reads this { Acc(maxBytes, textParts, bytesUsed, truncated) }

    constructor (limit: int)
      ensures State() == Empty(limit)
    {
      maxBytes, textParts, bytesUsed, truncated := limit, [], 0, false;
    }

    method AppendText(text: string) returns (out: Option<string>)
      modifies this
      ensures (State(), out) == Append(old(State()), text)
      ensures State().Text() == old(State()).Text() + (if out.Some? then out.value else "")
      ensures out.Some? ==> out.value != ""
    {
      AppendGrowsText(State(), text);
      if text == "" || maxBytes <= 0 {
        return None;
      }
      if truncated {
        return None;
      }
      var encoded := Encode(text);
      var remaining := maxBytes - bytesUsed;
      if remaining <= 0 {
        truncated := true;
        return None;
      }
      if |encoded| <= remaining {
        textParts := textParts + [text];
        bytesUsed := bytesUsed + |encoded|;
        return Some(text);
      }
      var clipped := DecodeIgnore(encoded[..remaining]);
      var marked := clipped + MARKER;
      textParts := textParts + [marked];
      bytesUsed := maxBytes;
      truncated := true;
      return Some(marked);
    }

    method Text() returns (text: string)
      ensures text == State().Text()
    {
      text := Join(textParts);
    }
  }

  /** Budget is left. */
  predicate HasRoom(a: Acc) { a.maxBytes > 0 && !a.truncated && a.bytesUsed < a.maxBytes }

  /** An append hands something on exactly when there is text and budget left, and budget never comes back. */
  lemma AppendHandsOn(a: Acc, text: string)
    ensures Append(a, text).1.Some? <==> text != "" && HasRoom(a)
    ensures HasRoom(Append(a, text).0) ==> HasRoom(a)
  {
  }

  /** What an append hands on is exactly what the kept text grows by, and it is never empty. */
  lemma AppendGrowsText(a: Acc, text: string)
    ensures var (b, out) := Append(a, text);
            && b.Text() == a.Text() + (if out.Some? then out.value else "")
            && b.maxBytes == a.maxBytes
            && (out.Some? ==> out.value != "")
  {
    var (b, out) := Append(a, text);
    if out.Some? {
      assert b.parts[..|b.parts| - 1] == a.parts;
    } else {
      assert a.Text() + "" == a.Text();
    }
  }

  // ---------- what the accumulator keeps, without running it ----------

  /** Chunk `i` straddles: it starts inside the budget and ends beyond it. */
  ghost predicate StraddlesAt(maxBytes: int, chunks: seq<string>, i: nat)
    requires i < |chunks|
  {
    ByteLen(Join(chunks[..i])) < maxBytes < ByteLen(Join(chunks[..i + 1]))
  }

  ghost predicate Straddles(maxBytes: int, chunks: seq<string>) {
    exists i :: 0 <= i < |chunks| && StraddlesAt(maxBytes, chunks, i)
  }

  function Budget(maxBytes: int): nat { if maxBytes < 0 then 0 else maxBytes }

  /** The longest prefix of the whole input that fits the budget. */
  function Kept(maxBytes: int, input: string): string {
    input[..Fit(input, Budget(maxBytes))]
  }

  lemma {:induction false} JoinAppend(parts: seq<string>, last: string)
    ensures Join(parts + [last]) == Join(parts) + last
  {
    assert (parts + [last])[..|parts|] == parts;
  }

  /** The text depends on the input as a whole except for the marker, and the marker is there exactly
      when some chunk straddled the budget. */
  lemma {:induction false} KeptText(maxBytes: int, chunks: seq<string>)
    ensures Fed(maxBytes, chunks).Text()
         == Kept(maxBytes, Join(chunks)) + (if Straddles(maxBytes, chunks) then MARKER else "")
  {
    FedTracks(maxBytes, chunks);
  }

  /** The accumulator `a` has been fed the text `s`; `marked` tells whether a chunk of it straddled. */
  ghost predicate Tracks(maxBytes: int, s: string, marked: bool, a: Acc) {
    && a.maxBytes == maxBytes
    && a.Text() == Kept(maxBytes, s) + (if marked then MARKER else "")
    && (marked ==> maxBytes > 0 && ByteLen(s) > maxBytes)
    && (maxBytes > 0 ==> (a.truncated <==> ByteLen(s) > maxBytes))
    && (maxBytes > 0 ==> a.bytesUsed == if a.truncated then maxBytes else ByteLen(s))
  }

  lemma {:induction false} FedTracks(maxBytes: int, chunks: seq<string>)
    ensures Tracks(maxBytes, Join(chunks), Straddles(maxBytes, chunks), Fed(maxBytes, chunks))
  {
    if chunks == [] {
      assert Join(chunks) == "" && !Straddles(maxBytes, chunks);
      assert Kept(maxBytes, "") + "" == "";
    } else {
      var n := |chunks| - 1;
      var front, last := chunks[..n], chunks[n];
      FedTracks(maxBytes, front);
      StraddlesSnoc(maxBytes, front, last);
      assert chunks == front + [last];
      AppendTracks(maxBytes, Join(front), Straddles(maxBytes, front), Fed(maxBytes, front), last);
    }
  }

  lemma AppendTracks(maxBytes: int, s: string, marked: bool, a: Acc, t: string)
    requires Tracks(maxBytes, s, marked, a)
    ensures Tracks(maxBytes, s + t, marked || ByteLen(s) < maxBytes < ByteLen(s + t), Append(a, t).0)
  {
    ByteLenConcat(s, t);
    if t == "" {
      assert s + t == s;
    } else if maxBytes <= 0 {
      KeptNothing(maxBytes, s);
      KeptNothing(maxBytes, s + t);
    } else if a.truncated {
      KeptBeyond(maxBytes, s, t);
    } else {
      AppendTracksOpen(maxBytes, s, marked, a, t);
    }
  }

  /** The same step when the accumulator is still open. */
  lemma AppendTracksOpen(maxBytes: int, s: string, marked: bool, a: Acc, t: string)
    requires Tracks(maxBytes, s, marked, a) && t != "" && maxBytes > 0 && !a.truncated
    requires ByteLen(s + t) == ByteLen(s) + ByteLen(t)
    ensures Tracks(maxBytes, s + t, ByteLen(s) < maxBytes < ByteLen(s + t), Append(a, t).0)
  {
    var remaining := maxBytes - ByteLen(s);
    var b := Append(a, t).0;
    ByteLenPositive(t);
    ByteLenIsEncodedLength(t);
    AppendGrowsText(a, t);
    KeptWithin(maxBytes, s, t);
    assert a.Text() == s by { assert s + "" == s; }
    if remaining == 0 {
      FitNothing(t);
      assert s + t[..0] == s;
    } else if ByteLen(t) <= remaining {
      FitWhole(t, remaining);
      assert t[..|t|] == t;
    } else {
      DecodeCut(t, remaining);
      ConcatAssociates(s, t[..Fit(t, remaining)], MARKER);
    }
  }

  lemma ConcatAssociates(a: string, b: string, c: string)
    ensures a + (b + c) == (a + b) + c
  {
  }

  lemma FitNothing(t: string)
    ensures Fit(t, 0) == 0
  {
  }

  lemma KeptNothing(maxBytes: int, s: string)
    requires maxBytes <= 0
    ensures Kept(maxBytes, s) == ""
  {
    FitNothing(s);
  }

  /** Input past the budget changes nothing that is kept. */
  lemma KeptBeyond(maxBytes: int, s: string, t: string)
    requires maxBytes > 0 && ByteLen(s) > maxBytes
    ensures Kept(maxBytes, s + t) == Kept(maxBytes, s)
  {
    FitConcat(s, t, maxBytes);
    var n := Fit(s, maxBytes);
    assert (s + t)[..n] == s[..n];
  }

  /** Input within the budget is kept whole, followed by what fits of the rest. */
  lemma KeptWithin(maxBytes: int, s: string, t: string)
    requires maxBytes > 0 && ByteLen(s) <= maxBytes
    ensures Kept(maxBytes, s) == s
    ensures Kept(maxBytes, s + t) == s + t[..Fit(t, maxBytes - ByteLen(s))]
  {
    FitWhole(s, maxBytes);
    FitConcat(s, t, maxBytes);
    var n := Fit(t, maxBytes - ByteLen(s));
    assert (s + t)[..|s| + n] == s + t[..n];
  }

  lemma StraddlesSnoc(maxBytes: int, front: seq<string>, last: string)
    ensures Straddles(maxBytes, front + [last])
        <==> Straddles(maxBytes, front) || ByteLen(Join(front)) < maxBytes < ByteLen(Join(front) + last)
  {
    var chunks := front + [last];
    JoinAppend(front, last);
    assert chunks[..|front|] == front && chunks[..|front| + 1] == chunks;
    forall i | 0 <= i < |front|
      ensures StraddlesAt(maxBytes, chunks, i) == StraddlesAt(maxBytes, front, i)
    {
      assert chunks[..i] == front[..i] && chunks[..i + 1] == front[..i + 1];
    }
    if ByteLen(Join(front)) < maxBytes < ByteLen(Join(front) + last) {
      assert StraddlesAt(maxBytes, chunks, |front|);
    }
    if Straddles(maxBytes, front) {
      var i :| 0 <= i < |front| && StraddlesAt(maxBytes, front, i);
      assert StraddlesAt(maxBytes, chunks, i);
    }
  }

  // ---------- consequences ----------

  /** Two ways of splitting the same output keep the same text, up to the marker. */
  lemma {:induction false} SplitIndependence(maxBytes: int, first: seq<string>, second: seq<string>)
    requires Join(first) == Join(second)
    ensures Fed(maxBytes, first).Text() == Fed(maxBytes, second).Text()
        <==> (Straddles(maxBytes, first) <==> Straddles(maxBytes, second))
  {
    KeptText(maxBytes, first);
    KeptText(maxBytes, second);
    var kept := Kept(maxBytes, Join(first));
    assert |kept + MARKER| != |kept + ""|;
  }

  lemma JoinOneAndTwo(a: string, b: string)
    ensures Join([a]) == a && Join([a, b]) == a + b
  {
    JoinAppend([], a);
    JoinAppend([a], b);
    assert [] + [a] == [a] && [a] + [b] == [a, b] && "" + a == a;
  }

  lemma StraddlesOneAndTwo(maxBytes: int, a: string, b: string)
    ensures Straddles(maxBytes, [a]) <==> 0 < maxBytes < ByteLen(a)
    ensures Straddles(maxBytes, [a, b]) <==> 0 < maxBytes < ByteLen(a) || ByteLen(a) < maxBytes < ByteLen(a + b)
  {
    StraddlesSnoc(maxBytes, [], a);
    StraddlesSnoc(maxBytes, [a], b);
    JoinOneAndTwo(a, b);
    assert [] + [a] == [a] && [a] + [b] == [a, b] && "" + a == a;
  }

  lemma KeptAtEnd(head: string, tail: string)
    requires head != ""
    ensures Kept(ByteLen(head), head + tail) == head
  {
    ByteLenPositive(head);
    KeptWithin(ByteLen(head), head, tail);
    FitNothing(tail);
    assert head + tail[..0] == head;
  }

  /** The marker does depend on the split: output that ends a chunk exactly at the budget is cut silently. */
  lemma SplitChangesMarker(head: string, tail: string)
    requires head != "" && tail != ""
    ensures var whole, split := [head + tail], [head, tail];
            && Join(whole) == Join(split)
            && Fed(ByteLen(head), whole).Text() == head + MARKER
            && Fed(ByteLen(head), split).Text() == head
  {
    var max := ByteLen(head);
    ByteLenPositive(head);
    ByteLenPositive(tail);
    ByteLenConcat(head, tail);
    JoinOneAndTwo(head + tail, "");
    JoinOneAndTwo(head, tail);
    StraddlesOneAndTwo(max, head + tail, "");
    StraddlesOneAndTwo(max, head, tail);
    KeptText(max, [head + tail]);
    KeptText(max, [head, tail]);
    KeptAtEnd(head, tail);
    assert head + "" == head;
  }

  /** The text never takes more than the budget plus the nineteen bytes of the marker. */
  lemma BoundedSize(maxBytes: int, chunks: seq<string>)
    ensures ByteLen(Fed(maxBytes, chunks).Text())
         <= Budget(maxBytes) + (if Straddles(maxBytes, chunks) then 19 else 0)
  {
    KeptText(maxBytes, chunks);
    MarkerSize();
    KeptSize(maxBytes, Join(chunks), MARKER);
    KeptSize(maxBytes, Join(chunks), "");
  }

  lemma KeptSize(maxBytes: int, s: string, tail: string)
    ensures ByteLen(Kept(maxBytes, s) + tail) <= Budget(maxBytes) + ByteLen(tail)
  {
    FitIsLongest(s, Budget(maxBytes), Fit(s, Budget(maxBytes)));
    ByteLenConcat(Kept(maxBytes, s), tail);
  }

  lemma MarkerSize()
    ensures ByteLen(MARKER) == 19
  {
    var m := MARKER;
    AsciiLen(m, 19);
  }

  lemma {:induction false} AsciiLen(s: string, n: nat)
    requires |s| == n
    requires forall i :: 0 <= i < n ==> s[i] < 128 as char
    ensures ByteLen(s) == n
  {
    if n > 0 {
      AsciiLen(s[1..], n - 1);
    }
  }
}
