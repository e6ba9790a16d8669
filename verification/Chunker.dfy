/** Greedy packing of paragraphs into chunks of bounded length. The paragraphs are the stripped, non-empty
    pieces of a document, in order. */
module Chunker {

  datatype Chunk = Chunk(index: nat, text: string, charStart: nat, charEnd: nat)

  const GAP := "\n\n"

  /** The paragraphs from a up to b, joined by blank lines. */
  function Joined(parts: seq<string>, a: nat, b: nat): (t: string)
    requires a < b <= |parts|
    decreases b
  {
    if a + 1 == b then parts[a] else Joined(parts, a, b - 1) + GAP + parts[b - 1]
  }

  /** A group is one paragraph, or short enough. */
  predicate Fits(parts: seq<string>, maxChars: int, a: nat, b: nat)
    requires a < b <= |parts|
  {
    a + 1 == b || |Joined(parts, a, b)| <= maxChars
  }

  /** Where group j begins, when group i ends before paragraph ends[i]. */
  function Start(ends: seq<nat>, j: nat): nat
    requires j <= |ends|
  {
    if j == 0 then 0 else ends[j - 1]
  }

  ghost predicate CutAt(ends: seq<nat>, n: nat, j: nat)
    requires j < |ends|
  {
    Start(ends, j) < ends[j] <= n
  }

  ghost predicate GroupAt(parts: seq<string>, maxChars: int, ends: seq<nat>, j: nat)
    requires j < |ends|
  {
    CutAt(ends, |parts|, j) && Fits(parts, maxChars, Start(ends, j), ends[j])
  }

  /** A way to pack all the paragraphs: non-empty consecutive groups, each a single paragraph or short enough. */
  ghost predicate Grouping(parts: seq<string>, maxChars: int, ends: seq<nat>) {
    && Start(ends, |ends|) == |parts|
    && forall j :: 0 <= j < |ends| ==> GroupAt(parts, maxChars, ends, j)
  }

  /** Group j could not have taken one more paragraph. */
  ghost predicate Full(parts: seq<string>, maxChars: int, ends: seq<nat>, j: nat)
    requires j < |ends|
  {
    CutAt(ends, |parts|, j) && (ends[j] < |parts| ==> !Fits(parts, maxChars, Start(ends, j), ends[j] + 1))
  }

  /** Chunk j holds group j, and takes up where the chunk before it ended. */
  ghost predicate ChunkAt(chunks: seq<Chunk>, parts: seq<string>, ends: seq<nat>, j: nat)
    requires j < |chunks| && j < |ends|
  {
    && CutAt(ends, |parts|, j)
    && chunks[j].index == j
    && chunks[j].text == Joined(parts, Start(ends, j), ends[j])
    && chunks[j].charStart == EndOf(chunks, j)
    && chunks[j].charEnd == chunks[j].charStart + |chunks[j].text|
  }

  function EndOf(chunks: seq<Chunk>, j: nat): nat
    requires j <= |chunks|
  {
    if j == 0 then 0 else chunks[j - 1].charEnd
  }

  ghost predicate Closed(parts: seq<string>, maxChars: int, chunks: seq<Chunk>, ends: seq<nat>, j: nat)
    requires j < |chunks| && j < |ends|
  {
    && Full(parts, maxChars, ends, j)
    && Fits(parts, maxChars, Start(ends, j), ends[j])
    && ChunkAt(chunks, parts, ends, j)
  }

  ghost predicate AllClosed(parts: seq<string>, maxChars: int, chunks: seq<Chunk>, ends: seq<nat>) {
    |chunks| == |ends| && forall j :: 0 <= j < |ends| ==> Closed(parts, maxChars, chunks, ends, j)
  }

  /** The group being packed holds the paragraphs from the last cut up to i. */
  ghost predicate Open(parts: seq<string>, maxChars: int, ends: seq<nat>, current: string, i: nat)
    requires i <= |parts|
  {
    var a := Start(ends, |ends|);
    if i == 0 then ends == [] && current == ""
    else a < i && current == Joined(parts, a, i) && Fits(parts, maxChars, a, i) && current != ""
  }

  lemma CloseGroup(parts: seq<string>, maxChars: int, chunks: seq<Chunk>, ends: seq<nat>, chunk: Chunk, end: nat)
    requires AllClosed(parts, maxChars, chunks, ends)
    requires Start(ends, |ends|) < end <= |parts|
    requires var a := Start(ends, |ends|);
             && Fits(parts, maxChars, a, end)
             && (end < |parts| ==> !Fits(parts, maxChars, a, end + 1))
             && chunk.index == |chunks| && chunk.text == Joined(parts, a, end)
             && chunk.charStart == EndOf(chunks, |chunks|) && chunk.charEnd == chunk.charStart + |chunk.text|
    ensures AllClosed(parts, maxChars, chunks + [chunk], ends + [end])
  {
    var c, e := chunks + [chunk], ends + [end];
    forall j | 0 <= j < |e|
      ensures Closed(parts, maxChars, c, e, j)
    {
      assert Start(e, j) == Start(ends, j) && EndOf(c, j) == EndOf(chunks, j);
      if j < |ends| {
        assert Closed(parts, maxChars, chunks, ends, j);
      }
    }
  }

  lemma PackedIsGrouping(parts: seq<string>, maxChars: int, chunks: seq<Chunk>, ends: seq<nat>)
    requires AllClosed(parts, maxChars, chunks, ends) && Start(ends, |ends|) == |parts|
    ensures Grouping(parts, maxChars, ends)
  {
    forall j | 0 <= j < |ends|
      ensures GroupAt(parts, maxChars, ends, j)
    {
      assert Closed(parts, maxChars, chunks, ends, j);
    }
  }

  /** Pack the paragraphs one after the other. `ends` tells where the groups were cut. */
  method ChunkText(parts: seq<string>, maxChars: int) returns (chunks: seq<Chunk>, ghost ends: seq<nat>)
    requires forall i :: 0 <= i < |parts| ==> parts[i] != ""
    ensures Grouping(parts, maxChars, ends)
    ensures AllClosed(parts, maxChars, chunks, ends)
    ensures forall other :: Grouping(parts, maxChars, other) ==> |chunks| <= |other|
  {
    var pieces := if parts == [] then [""] else parts;
    var cursor, current, start := 0, "", 0;
    chunks, ends := [], [];
    for i := 0 to |pieces|
      invariant parts == [] ==> chunks == [] && ends == [] && current == ""
      invariant AllClosed(parts, maxChars, chunks, ends)
      invariant start == EndOf(chunks, |chunks|) && (current == "" ==> cursor == start)
      invariant parts != [] ==> Open(parts, maxChars, ends, current, i)
    {
      var piece := pieces[i];
      var candidate := if current == "" then piece else current + GAP + piece;
      if current != "" && |candidate| > maxChars {
        var end := start + |current|;
        var chunk := Chunk(|chunks|, current, start, end);
        CloseGroup(parts, maxChars, chunks, ends, chunk, i);
        chunks := chunks + [chunk];
        ends := ends + [i];
        cursor := end;
        current := piece;
        start := cursor;
        continue;
      }
      if current == "" {
        start := cursor;
      }
      current := candidate;
      cursor := start + |current|;
    }
    if current != "" {
      var chunk := Chunk(|chunks|, current, start, start + |current|);
      CloseGroup(parts, maxChars, chunks, ends, chunk, |parts|);
      chunks := chunks + [chunk];
      ends := ends + [|parts|];
    }
    PackedIsGrouping(parts, maxChars, chunks, ends);
    GreedyIsMinimal(parts, maxChars, chunks, ends);
  }

  // ---------- minimality ----------

  lemma {:induction false} JoinedWidth(parts: seq<string>, a: nat, b: nat)
    requires a + 1 < b <= |parts|
    ensures |Joined(parts, a, b)| == |parts[a]| + |GAP| + |Joined(parts, a + 1, b)|
    decreases b
  {
    if a + 2 < b {
      JoinedWidth(parts, a, b - 1);
    }
  }

  /** A group inside another is no longer than it. */
  lemma {:induction false} JoinedInside(parts: seq<string>, a: nat, b: nat, c: nat, d: nat)
    requires a <= b < c <= d <= |parts|
    ensures |Joined(parts, b, c)| <= |Joined(parts, a, d)|
    decreases b - a + d - c
  {
    if a < b {
      JoinedWidth(parts, a, d);
      JoinedInside(parts, a + 1, b, c, d);
    } else if c < d {
      JoinedInside(parts, a, b, c, d - 1);
    }
  }

  ghost predicate AllFull(parts: seq<string>, maxChars: int, ends: seq<nat>) {
    forall i :: 0 <= i < |ends| ==> Full(parts, maxChars, ends, i)
  }

  /** A group that starts no later than a full one ends no later. */
  lemma NotOvertaken(parts: seq<string>, maxChars: int, a: nat, d: nat, b: nat, c: nat)
    requires a <= b < c <= |parts| && a < d <= |parts| && Fits(parts, maxChars, a, d)
    requires c < |parts| ==> !Fits(parts, maxChars, b, c + 1)
    ensures d <= c
  {
    if c < d {
      JoinedInside(parts, a, b, c + 1, d);
    }
  }

  /** The greedy cuts stay ahead of any others. */
  lemma {:induction false} GreedyStaysAhead(parts: seq<string>, maxChars: int, ends: seq<nat>, other: seq<nat>, j: nat)
    requires j < |ends| && j < |other|
    requires AllFull(parts, maxChars, ends) && Grouping(parts, maxChars, other)
    ensures other[j] <= ends[j]
  {
    if j > 0 {
      GreedyStaysAhead(parts, maxChars, ends, other, j - 1);
    }
    assert Full(parts, maxChars, ends, j) && GroupAt(parts, maxChars, other, j);
    NotOvertaken(parts, maxChars, Start(other, j), other[j], Start(ends, j), ends[j]);
  }

  lemma MinimalAgainst(parts: seq<string>, maxChars: int, ends: seq<nat>, other: seq<nat>)
    requires AllFull(parts, maxChars, ends) && Grouping(parts, maxChars, other)
    ensures |ends| <= |other|
  {
    var n := |other|;
    if n < |ends| {
      assert Full(parts, maxChars, ends, n);
      if n > 0 {
        GreedyStaysAhead(parts, maxChars, ends, other, n - 1);
      }
    }
  }

  lemma GreedyIsMinimal(parts: seq<string>, maxChars: int, chunks: seq<Chunk>, ends: seq<nat>)
    requires AllClosed(parts, maxChars, chunks, ends)
    ensures forall other :: Grouping(parts, maxChars, other) ==> |chunks| <= |other|
  {
    forall i | 0 <= i < |ends|
      ensures Full(parts, maxChars, ends, i)
    {
      assert Closed(parts, maxChars, chunks, ends, i);
    }
    forall other | Grouping(parts, maxChars, other)
      ensures |ends| <= |other|
    {
      MinimalAgainst(parts, maxChars, ends, other);
    }
  }

  /** The size of a chunk: it holds one paragraph, or has at most maxChars characters; and with a blank line and the
      next paragraph it would have more. */
  lemma ChunkSize(parts: seq<string>, maxChars: int, chunks: seq<Chunk>, ends: seq<nat>, j: nat)
    requires AllClosed(parts, maxChars, chunks, ends) && j < |chunks|
    ensures var before := if j == 0 then 0 else ends[j - 1];
            && before < ends[j] <= |parts|
            && (|chunks[j].text| <= maxChars || (ends[j] == before + 1 && chunks[j].text == parts[before]))
            && (ends[j] < |parts| ==> |chunks[j].text| + 2 + |parts[ends[j]]| > maxChars)
  {
    assert Closed(parts, maxChars, chunks, ends, j);
  }

  // ---------- the chunks and the document ----------

  function ChunkTexts(chunks: seq<Chunk>): (texts: seq<string>)
    ensures |texts| == |chunks|
  {
    if chunks == [] then [] else ChunkTexts(chunks[..|chunks| - 1]) + [chunks[|chunks| - 1].text]
  }

  lemma {:induction false} JoinedSplit(parts: seq<string>, a: nat, b: nat, c: nat)
    requires a < b < c <= |parts|
    ensures Joined(parts, a, c) == Joined(parts, a, b) + GAP + Joined(parts, b, c)
    decreases c
  {
    if b + 1 < c {
      JoinedSplit(parts, a, b, c - 1);
      Regroup(Joined(parts, a, b), GAP, Joined(parts, b, c - 1), parts[c - 1]);
    }
  }

  lemma Regroup(a: string, gap: string, b: string, c: string)
    ensures (a + gap + b) + gap + c == a + gap + (b + gap + c)
  {
  }

  lemma Within(a: string, gap: string, b: string)
    ensures var n := |a| + |gap|; (a + gap + b)[n..n + |b|] == b
  {
  }

  lemma PrefixStays(a: string, b: string, i: nat, j: nat)
    requires i <= j <= |a|
    ensures (a + b)[i..j] == a[i..j]
  {
  }

  lemma {:induction false} JoinedPrefix(texts: seq<string>, more: string, n: nat)
    requires 0 < n <= |texts|
    ensures Joined(texts + [more], 0, n) == Joined(texts, 0, n)
    decreases n
  {
    if n > 1 {
      JoinedPrefix(texts, more, n - 1);
    }
  }

  lemma TextsSnoc(chunks: seq<Chunk>, n: nat)
    requires n < |chunks|
    ensures ChunkTexts(chunks[..n + 1]) == ChunkTexts(chunks[..n]) + [chunks[n].text]
  {
    assert chunks[..n + 1][..n] == chunks[..n];
  }

  /** The first n chunks, joined again, are the paragraphs they hold, and their recorded ranges leave out
      every gap between them. */
  lemma {:induction false} ChunksJoinBack(parts: seq<string>, maxChars: int, chunks: seq<Chunk>, ends: seq<nat>, n: nat)
    requires AllClosed(parts, maxChars, chunks, ends) && 1 <= n <= |ends|
    ensures 0 < ends[n - 1] <= |parts|
    ensures Joined(ChunkTexts(chunks[..n]), 0, n) == Joined(parts, 0, ends[n - 1])
    ensures |Joined(parts, 0, ends[n - 1])| == EndOf(chunks, n) + 2 * (n - 1)
    decreases n
  {
    assert Closed(parts, maxChars, chunks, ends, n - 1);
    TextsSnoc(chunks, n - 1);
    if n > 1 {
      ChunksJoinBack(parts, maxChars, chunks, ends, n - 1);
      JoinedPrefix(ChunkTexts(chunks[..n - 1]), chunks[n - 1].text, n - 1);
      JoinedSplit(parts, 0, ends[n - 2], ends[n - 1]);
    }
  }

  /** All the chunks, joined again, are all the paragraphs. */
  lemma WholeDocument(parts: seq<string>, maxChars: int, chunks: seq<Chunk>, ends: seq<nat>)
    requires AllClosed(parts, maxChars, chunks, ends) && Start(ends, |ends|) == |parts| && parts != []
    ensures |chunks| > 0 && Joined(ChunkTexts(chunks), 0, |chunks|) == Joined(parts, 0, |parts|)
  {
    ChunksJoinBack(parts, maxChars, chunks, ends, |ends|);
    assert chunks[..|chunks|] == chunks;
  }

  lemma ChunkInPrefix(parts: seq<string>, maxChars: int, chunks: seq<Chunk>, ends: seq<nat>, j: nat)
    requires AllClosed(parts, maxChars, chunks, ends) && j < |ends|
    ensures 0 < ends[j] <= |parts|
    ensures var head, c := Joined(parts, 0, ends[j]), chunks[j];
            && c.charStart <= c.charEnd && c.charEnd + 2 * j == |head|
            && head[c.charStart + 2 * j..c.charEnd + 2 * j] == c.text
  {
    ChunksJoinBack(parts, maxChars, chunks, ends, j + 1);
    assert Closed(parts, maxChars, chunks, ends, j);
    if j > 0 {
      ChunksJoinBack(parts, maxChars, chunks, ends, j);
      JoinedSplit(parts, 0, ends[j - 1], ends[j]);
      Within(Joined(parts, 0, ends[j - 1]), GAP, chunks[j].text);
    }
  }

  /** Where chunk j really starts in the joined text: after the groups before it and a blank line. */
  function TrueStart(parts: seq<string>, ends: seq<nat>, j: nat): nat
    requires j < |ends| && (j > 0 ==> 0 < ends[j - 1] <= |parts|)
  {
    if j == 0 then 0 else |Joined(parts, 0, ends[j - 1])| + |GAP|
  }

  /** The chunk is found there, and its recorded range falls short of it by two characters for every chunk
      before it: the recorded offset is right exactly for the first chunk. */
  lemma OffsetsDrift(parts: seq<string>, maxChars: int, chunks: seq<Chunk>, ends: seq<nat>, j: nat)
    requires AllClosed(parts, maxChars, chunks, ends) && j < |ends|
    ensures parts != [] && (j > 0 ==> 0 < ends[j - 1] <= |parts|)
    ensures var doc, c, start := Joined(parts, 0, |parts|), chunks[j], TrueStart(parts, ends, j);
            && start + |c.text| <= |doc| && doc[start..start + |c.text|] == c.text
            && start == c.charStart + 2 * j
            && (c.charStart == start <==> j == 0)
  {
    ChunkInPrefix(parts, maxChars, chunks, ends, j);
    StartOfChunk(parts, maxChars, chunks, ends, j);
    if ends[j] < |parts| {
      JoinedSplit(parts, 0, ends[j], |parts|);
      var head, rest := Joined(parts, 0, ends[j]), Joined(parts, ends[j], |parts|);
      assert head + GAP + rest == head + (GAP + rest);
      PrefixStays(head, GAP + rest, chunks[j].charStart + 2 * j, chunks[j].charEnd + 2 * j);
    }
  }

  lemma StartOfChunk(parts: seq<string>, maxChars: int, chunks: seq<Chunk>, ends: seq<nat>, j: nat)
    requires AllClosed(parts, maxChars, chunks, ends) && j < |ends|
    ensures j > 0 ==> 0 < ends[j - 1] <= |parts|
    ensures TrueStart(parts, ends, j) == chunks[j].charStart + 2 * j
    ensures chunks[j].charEnd == chunks[j].charStart + |chunks[j].text|
  {
    assert Closed(parts, maxChars, chunks, ends, j);
    if j > 0 {
      ChunksJoinBack(parts, maxChars, chunks, ends, j);
    }
  }
}
