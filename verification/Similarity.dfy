/** Bag-of-words vectors and the search over them. Floats are modelled as reals; the square root is a
    parameter that returns the non-negative root, and the hash is an uninterpreted function of the token. */
module Similarity {

  const DIMS: nat := 128

  type Hash = string -> nat

  function BucketOf(hash: Hash, token: string): (i: nat)
    ensures i < DIMS
  {
    hash(token) % DIMS
  }

  /** How many of the tokens fall into bucket i. */
  function Count(hash: Hash, tokens: seq<string>, i: nat): nat {
    if tokens == [] then 0
    else Count(hash, tokens[..|tokens| - 1], i) + if BucketOf(hash, tokens[|tokens| - 1]) == i then 1 else 0
  }

  /** The sum of products of two vectors, up to the shorter one. */
  function Dot(a: seq<real>, b: seq<real>): real {
    if a == [] || b == [] then 0.0 else a[0] * b[0] + Dot(a[1..], b[1..])
  }

  function Divide(v: seq<real>, n: real): (r: seq<real>)
    requires n != 0.0
    ensures |r| == |v| && forall i :: 0 <= i < |v| ==> r[i] == v[i] / n
  {
    if v == [] then [] else [v[0] / n] + Divide(v[1..], n)
  }

  ghost predicate IsRoot(root: real -> real) {
    forall x :: x >= 0.0 ==> root(x) >= 0.0 && root(x) * root(x) == x
  }

  /** The counts of a text, one per bucket. */
  ghost predicate Counts(hash: Hash, tokens: seq<string>, v: seq<real>) {
    |v| == DIMS && forall i :: 0 <= i < DIMS ==> v[i] == Count(hash, tokens, i) as real
  }

  /** The vector of a text: its counts over their length, or all zeros. */
  ghost predicate Embeds(hash: Hash, tokens: seq<string>, v: seq<real>) {
    exists c, n :: EmbedsBy(hash, tokens, v, c, n)
  }

  ghost predicate EmbedsBy(hash: Hash, tokens: seq<string>, v: seq<real>, c: seq<real>, n: real) {
    && Counts(hash, tokens, c)
    && n >= 0.0 && n * n == Dot(c, c)
    && v == if n == 0.0 then c else Divide(c, n)
  }

  method EmbedText(tokens: seq<string>, hash: Hash, root: real -> real) returns (vector: seq<real>)
    requires IsRoot(root)
    ensures Embeds(hash, tokens, vector)
  {
    vector := seq(DIMS, i => 0.0);
    for t := 0 to |tokens|
      invariant Counts(hash, tokens[..t], vector)
    {
      var index := BucketOf(hash, tokens[t]);
      assert tokens[..t + 1][..t] == tokens[..t];
      vector := vector[index := vector[index] + 1.0];
    }
    assert tokens[..|tokens|] == tokens;
    var counts := vector;
    SquaresNonNegative(counts);
    var total := SumSquares(vector);
    var norm := root(total);
    if norm != 0.0 {
      vector := Divide(vector, norm);
    }
    assert EmbedsBy(hash, tokens, vector, counts, norm);
  }

  method SumSquares(v: seq<real>) returns (total: real)
    ensures total == Dot(v, v)
  {
    total := 0.0;
    var i := |v|;
    while i > 0
      invariant 0 <= i <= |v| && total == Dot(v[i..], v[i..])
    {
      i := i - 1;
      assert v[i..][1..] == v[i + 1..];
      total := v[i] * v[i] + total;
    }
    assert v[0..] == v;
  }

  function Cosine(left: seq<real>, right: seq<real>): real {
    if left == [] || right == [] || |left| != |right| then 0.0 else Dot(left, right)
  }

  // ---------- sums of products ----------

  /** The same sum by position. */
  function Products(a: seq<real>, b: seq<real>, n: nat): real
    requires n <= |a| && n <= |b|
  {
    if n == 0 then 0.0 else Products(a, b, n - 1) + a[n - 1] * b[n - 1]
  }

  lemma {:induction false} ProductsShift(a: seq<real>, b: seq<real>, n: nat)
    requires 0 < n <= |a| && n <= |b|
    ensures Products(a, b, n) == a[0] * b[0] + Products(a[1..], b[1..], n - 1)
  {
    if n > 1 {
      ProductsShift(a, b, n - 1);
    }
  }

  lemma {:induction false} DotByPosition(a: seq<real>, b: seq<real>)
    requires |a| == |b|
    ensures Dot(a, b) == Products(a, b, |a|)
  {
    if a != [] {
      ProductsShift(a, b, |a|);
      DotByPosition(a[1..], b[1..]);
    }
  }

  /** The similarity of two vectors is the sum of the products of their entries; vectors of different lengths
      have none. */
  lemma CosineByPosition(left: seq<real>, right: seq<real>)
    ensures |left| == |right| ==> Cosine(left, right) == Products(left, right, |left|)
    ensures |left| != |right| ==> Cosine(left, right) == 0.0
  {
    if |left| == |right| {
      DotByPosition(left, right);
    }
  }

  ghost predicate NonNegative(v: seq<real>) { forall i :: 0 <= i < |v| ==> v[i] >= 0.0 }

  lemma {:induction false} SquaresNonNegative(v: seq<real>)
    ensures Dot(v, v) >= 0.0
  {
    if v != [] {
      SquaresNonNegative(v[1..]);
    }
  }

  lemma {:induction false} DotNonNegative(a: seq<real>, b: seq<real>)
    requires NonNegative(a) && NonNegative(b)
    ensures Dot(a, b) >= 0.0
  {
    if a != [] && b != [] {
      DotNonNegative(a[1..], b[1..]);
    }
  }

  lemma TwiceProduct(x: real, y: real)
    ensures 2.0 * (x * y) <= x * x + y * y
  {
    assert (x - y) * (x - y) >= 0.0;
  }

  lemma {:induction false} DotBelowSquares(a: seq<real>, b: seq<real>)
    requires |a| == |b|
    ensures 2.0 * Dot(a, b) <= Dot(a, a) + Dot(b, b)
  {
    if a != [] {
      DotBelowSquares(a[1..], b[1..]);
      TwiceProduct(a[0], b[0]);
    }
  }

  lemma Quotients(x: real, y: real, n: real, m: real)
    requires n != 0.0 && m != 0.0
    ensures ((x / n) * (y / m)) * (n * m) == x * y
  {
    assert (x / n) * n == x && (y / m) * m == y;
    var p, q := x / n, y / m;
    assert (p * q) * (n * m) == (p * n) * (q * m);
  }

  lemma DotStep(a: seq<real>, b: seq<real>)
    requires a != [] && b != []
    ensures Dot(a, b) == a[0] * b[0] + Dot(a[1..], b[1..])
  {
  }

  lemma DivideTail(v: seq<real>, n: real)
    requires n != 0.0 && v != []
    ensures Divide(v, n)[1..] == Divide(v[1..], n)
  {
  }

  lemma HeadProduct(a: seq<real>, b: seq<real>, n: real, m: real, k: real)
    requires n != 0.0 && m != 0.0 && k == n * m && a != [] && b != []
    ensures (Divide(a, n)[0] * Divide(b, m)[0]) * k == a[0] * b[0]
  {
    Quotients(a[0], b[0], n, m);
  }

  function Times(x: real, y: real): real { x * y }

  lemma {:induction false} DotDivide(a: seq<real>, b: seq<real>, n: real, m: real, k: real)
    requires n != 0.0 && m != 0.0 && k == n * m && |a| == |b|
    ensures Times(Dot(Divide(a, n), Divide(b, m)), k) == Dot(a, b)
  {
    if a != [] {
      var p, q := Divide(a, n), Divide(b, m);
      DotDivide(a[1..], b[1..], n, m, k);
      DivideTail(a, n);
      DivideTail(b, m);
      DotStep(p, q);
      DotStep(a, b);
      HeadProduct(a, b, n, m, k);
      ScaledSum(Dot(p, q), p[0] * q[0], Dot(p[1..], q[1..]), k);
    }
  }

  lemma ScaledSum(sum: real, x: real, y: real, z: real)
    requires sum == x + y
    ensures sum * z == x * z + y * z
  {
  }

  /** A sum of products of non-negative numbers is positive exactly when some product is. */
  lemma {:induction false} DotPositive(a: seq<real>, b: seq<real>)
    requires |a| == |b| && NonNegative(a) && NonNegative(b)
    ensures Dot(a, b) > 0.0 <==> exists i :: 0 <= i < |a| && a[i] > 0.0 && b[i] > 0.0
  {
    if a != [] {
      DotPositive(a[1..], b[1..]);
      DotNonNegative(a[1..], b[1..]);
      if a[0] > 0.0 && b[0] > 0.0 {
        assert a[0] * b[0] > 0.0;
      } else {
        assert a[0] * b[0] == 0.0;
        if i :| 0 <= i < |a| && a[i] > 0.0 && b[i] > 0.0 {
          assert a[1..][i - 1] > 0.0 && b[1..][i - 1] > 0.0;
        }
        if j :| 0 <= j < |a| - 1 && a[1..][j] > 0.0 && b[1..][j] > 0.0 {
          assert a[j + 1] > 0.0 && b[j + 1] > 0.0;
        }
      }
    }
  }

  // ---------- what a vector says about its text ----------

  lemma {:induction false} CountOfMember(hash: Hash, tokens: seq<string>, k: nat)
    requires k < |tokens|
    ensures Count(hash, tokens, BucketOf(hash, tokens[k])) > 0
  {
    if k < |tokens| - 1 {
      CountOfMember(hash, tokens[..|tokens| - 1], k);
    }
  }

  lemma EmptyVector(hash: Hash, v: seq<real>, c: seq<real>, n: real)
    requires EmbedsBy(hash, [], v, c, n)
    ensures v == c && Dot(v, v) == 0.0 && NonNegative(v)
  {
    DotPositive(c, c);
    SquaresNonNegative(c);
    SquareOfZero(n);
  }

  lemma CountsOfUsed(hash: Hash, tokens: seq<string>, c: seq<real>)
    requires Counts(hash, tokens, c) && tokens != []
    ensures Dot(c, c) > 0.0
  {
    CountOfMember(hash, tokens, 0);
    DotPositive(c, c);
    assert c[BucketOf(hash, tokens[0])] > 0.0;
  }

  lemma Normalised(c: seq<real>, n: real)
    requires n >= 0.0 && n * n == Dot(c, c) && Dot(c, c) > 0.0
    ensures n > 0.0 && Dot(Divide(c, n), Divide(c, n)) == 1.0
  {
    SquareOfZero(n);
    DotDivide(c, c, n, n, Dot(c, c));
    RatioIsOne(Dot(Divide(c, n), Divide(c, n)), Dot(c, c));
  }

  lemma UsedVector(hash: Hash, tokens: seq<string>, v: seq<real>, c: seq<real>, n: real)
    requires EmbedsBy(hash, tokens, v, c, n) && tokens != []
    ensures n > 0.0 && v == Divide(c, n) && Dot(v, v) == 1.0
  {
    CountsOfUsed(hash, tokens, c);
    Normalised(c, n);
  }

  /** A vector is non-negative, positive in exactly the buckets its text uses, and has length one unless the
      text is empty. */
  lemma VectorFacts(hash: Hash, tokens: seq<string>, v: seq<real>)
    requires Embeds(hash, tokens, v)
    ensures |v| == DIMS && NonNegative(v)
    ensures forall i :: 0 <= i < DIMS ==> (v[i] > 0.0 <==> Count(hash, tokens, i) > 0)
    ensures Dot(v, v) == if tokens == [] then 0.0 else 1.0
  {
    var c, n :| EmbedsBy(hash, tokens, v, c, n);
    if tokens == [] {
      EmptyVector(hash, v, c, n);
    } else {
      UsedVector(hash, tokens, v, c, n);
      forall k | 0 <= k < DIMS
        ensures v[k] >= 0.0 && (v[k] > 0.0 <==> Count(hash, tokens, k) > 0)
      {
        QuotientSign(c[k], n);
      }
    }
  }

  lemma SquareOfZero(n: real)
    requires n >= 0.0
    ensures n > 0.0 ==> n * n > 0.0
    ensures n == 0.0 ==> n * n == 0.0
  {
  }

  lemma RatioIsOne(x: real, y: real)
    requires y != 0.0 && Times(x, y) == y
    ensures x == 1.0
  {
    assert x * y / y == x;
  }

  lemma QuotientSign(x: real, n: real)
    requires x >= 0.0 && n > 0.0
    ensures x / n >= 0.0 && (x / n > 0.0 <==> x > 0.0)
  {
    assert (x / n) * n == x;
  }

  /** Two texts use a common bucket. */
  ghost predicate Share(hash: Hash, a: seq<string>, b: seq<string>) {
    exists i :: 0 <= i < DIMS && Count(hash, a, i) > 0 && Count(hash, b, i) > 0
  }

  /** The similarity of two texts lies between 0 and 1, and is positive exactly when they share a bucket. */
  lemma SimilarityRange(hash: Hash, a: seq<string>, b: seq<string>, u: seq<real>, v: seq<real>)
    requires Embeds(hash, a, u) && Embeds(hash, b, v)
    ensures 0.0 <= Cosine(u, v) <= 1.0
    ensures Cosine(u, v) > 0.0 <==> Share(hash, a, b)
  {
    VectorFacts(hash, a, u);
    VectorFacts(hash, b, v);
    DotNonNegative(u, v);
    DotBelowSquares(u, v);
    DotPositive(u, v);
    if Share(hash, a, b) {
      var i :| 0 <= i < DIMS && Count(hash, a, i) > 0 && Count(hash, b, i) > 0;
      assert u[i] > 0.0 && v[i] > 0.0;
    }
  }

  /** A text with a token is exactly similar to itself. */
  lemma SelfSimilarity(hash: Hash, tokens: seq<string>, v: seq<real>)
    requires Embeds(hash, tokens, v)
    ensures Cosine(v, v) == if tokens == [] then 0.0 else 1.0
  {
    VectorFacts(hash, tokens, v);
  }

  function Without(tokens: seq<string>, k: nat): seq<string>
    requires k < |tokens|
  {
    tokens[..k] + tokens[k + 1..]
  }

  lemma WithoutEarlier(tokens: seq<string>, k: nat)
    requires k < |tokens| - 1
    ensures Without(tokens, k) == Without(tokens[..|tokens| - 1], k) + [tokens[|tokens| - 1]]
  {
  }

  lemma CountSnoc(hash: Hash, tokens: seq<string>, token: string, i: nat)
    ensures Count(hash, tokens + [token], i) == Count(hash, tokens, i) + if BucketOf(hash, token) == i then 1 else 0
  {
    assert (tokens + [token])[..|tokens|] == tokens;
  }

  lemma {:induction false} CountRemove(hash: Hash, tokens: seq<string>, k: nat, i: nat)
    requires k < |tokens|
    ensures Count(hash, tokens, i) == Count(hash, Without(tokens, k), i) + if BucketOf(hash, tokens[k]) == i then 1 else 0
  {
    var n := |tokens| - 1;
    if k == n {
      assert Without(tokens, k) == tokens[..n];
    } else {
      CountRemove(hash, tokens[..n], k, i);
      WithoutEarlier(tokens, k);
      CountSnoc(hash, Without(tokens[..n], k), tokens[n], i);
    }
  }

  /** The counts depend on the multiset of tokens only. */
  lemma {:induction false} CountOfMultiset(hash: Hash, a: seq<string>, b: seq<string>, i: nat)
    requires multiset(a) == multiset(b)
    ensures Count(hash, a, i) == Count(hash, b, i)
    decreases |a|
  {
    assert |multiset(a)| == |a| && |multiset(b)| == |b|;
    if a != [] {
      var n := |a| - 1;
      assert a == a[..n] + [a[n]];
      assert a[n] in multiset(b);
      var k :| 0 <= k < |b| && b[k] == a[n];
      var rest := Without(b, k);
      assert b == b[..k] + [b[k]] + b[k + 1..];
      assert multiset(rest) == multiset(b) - multiset{b[k]};
      CountRemove(hash, b, k, i);
      CountOfMultiset(hash, a[..n], rest, i);
    }
  }

  lemma RootUnique(n: real, m: real)
    requires n >= 0.0 && m >= 0.0 && n * n == m * m
    ensures n == m
  {
    assert (n - m) * (n + m) == 0.0;
    if n + m == 0.0 {
    } else {
      assert n - m == 0.0 || n + m == 0.0;
    }
  }

  /** So two texts with the same tokens, in whatever order, have the same vector. */
  lemma VectorOfMultiset(hash: Hash, a: seq<string>, b: seq<string>, u: seq<real>, v: seq<real>)
    requires multiset(a) == multiset(b) && Embeds(hash, a, u) && Embeds(hash, b, v)
    ensures u == v
  {
    var c, n :| EmbedsBy(hash, a, u, c, n);
    var d, m :| EmbedsBy(hash, b, v, d, m);
    forall i | 0 <= i < DIMS
      ensures c[i] == d[i]
    {
      CountOfMultiset(hash, a, b, i);
    }
    assert c == d;
    RootUnique(n, m);
  }

  // ---------- search ----------

  datatype IndexedChunk = IndexedChunk(vectorRef: string, vector: seq<real>, snippet: string)
  datatype Payload = Payload(documentId: string, filename: string, chunks: seq<IndexedChunk>)
  datatype Hit = Hit(chunkId: string, documentId: string, filename: string, snippet: string, score: real)

  /** No filter lets every document through. */
  predicate Passes(filters: seq<string>, documentId: string) { filters == [] || documentId in filters }

  function HitOf(query: seq<real>, p: Payload, c: IndexedChunk): Hit {
    Hit(c.vectorRef, p.documentId, p.filename, c.snippet, Cosine(query, c.vector))
  }

  /** The hits of the first n chunks of a payload, in order. */
  function HitsIn(query: seq<real>, p: Payload, n: nat): seq<Hit>
    requires n <= |p.chunks|
  {
    if n == 0 then []
    else HitsIn(query, p, n - 1) + if Cosine(query, p.chunks[n - 1].vector) > 0.0 then [HitOf(query, p, p.chunks[n - 1])] else []
  }

  function HitsUpTo(query: seq<real>, payloads: seq<Payload>, filters: seq<string>, n: nat): seq<Hit>
    requires n <= |payloads|
  {
    if n == 0 then []
    else HitsUpTo(query, payloads, filters, n - 1) +
         if Passes(filters, payloads[n - 1].documentId) then HitsIn(query, payloads[n - 1], |payloads[n - 1].chunks|) else []
  }

  /** Stable insertion by falling score. */
  function Place(h: Hit, hits: seq<Hit>): seq<Hit> {
    if hits == [] || hits[|hits| - 1].score >= h.score then hits + [h]
    else Place(h, hits[..|hits| - 1]) + [hits[|hits| - 1]]
  }

  function Ranked(hits: seq<Hit>): seq<Hit> {
    if hits == [] then [] else Place(hits[|hits| - 1], Ranked(hits[..|hits| - 1]))
  }

  method SearchVectorIndex(payloads: seq<Payload>, queryTokens: seq<string>, filters: seq<string>, hash: Hash, root: real -> real)
    returns (hits: seq<Hit>, query: seq<real>)
    requires IsRoot(root)
    ensures Embeds(hash, queryTokens, query)
    ensures hits == Ranked(HitsUpTo(query, payloads, filters, |payloads|))
  {
    query := EmbedText(queryTokens, hash, root);
    hits := [];
    for i := 0 to |payloads|
      invariant hits == HitsUpTo(query, payloads, filters, i)
    {
      var payload := payloads[i];
      if !Passes(filters, payload.documentId) {
        continue;
      }
      ghost var before := hits;
      for j := 0 to |payload.chunks|
        invariant hits == before + HitsIn(query, payload, j)
      {
        var score := Cosine(query, payload.chunks[j].vector);
        if score <= 0.0 {
          continue;
        }
        hits := hits + [HitOf(query, payload, payload.chunks[j])];
      }
    }
    hits := Ranked(hits);
  }

  // ---------- what a search returns ----------

  /** A chunk of the index by its place. */
  datatype At = At(doc: nat, chunk: nat)

  predicate Points(payloads: seq<Payload>, a: At) {
    a.doc < |payloads| && a.chunk < |payloads[a.doc].chunks|
  }

  function ScoreAt(query: seq<real>, payloads: seq<Payload>, a: At): real
    requires Points(payloads, a)
  {
    Cosine(query, payloads[a.doc].chunks[a.chunk].vector)
  }

  /** The hit reports this chunk: its reference, its document, its snippet, and its own cosine. */
  predicate Reports(query: seq<real>, payloads: seq<Payload>, h: Hit, a: At)
    requires Points(payloads, a)
  {
    var p, c := payloads[a.doc], payloads[a.doc].chunks[a.chunk];
    && h.chunkId == c.vectorRef && h.documentId == p.documentId && h.filename == p.filename
    && h.snippet == c.snippet && h.score == Cosine(query, c.vector)
  }

  /** The chunk is to be found: its document is let through and it scores above zero. */
  predicate Wanted(query: seq<real>, payloads: seq<Payload>, filters: seq<string>, a: At) {
    && Points(payloads, a)
    && (filters == [] || payloads[a.doc].documentId in filters)
    && ScoreAt(query, payloads, a) > 0.0
  }

  predicate IndexBefore(a: At, b: At) { a.doc < b.doc || (a.doc == b.doc && a.chunk < b.chunk) }

  /** Chunk a comes before chunk b: it scores higher, or as high and stands earlier in the index. */
  predicate Better(query: seq<real>, payloads: seq<Payload>, a: At, b: At)
    requires Points(payloads, a) && Points(payloads, b)
  {
    || ScoreAt(query, payloads, a) > ScoreAt(query, payloads, b)
    || (ScoreAt(query, payloads, a) == ScoreAt(query, payloads, b) && IndexBefore(a, b))
  }

  /** The hits report these chunks, one by one. */
  ghost predicate Listed(query: seq<real>, payloads: seq<Payload>, hits: seq<Hit>, at: seq<At>) {
    |hits| == |at| && forall n :: 0 <= n < |at| ==> Points(payloads, at[n]) && Reports(query, payloads, hits[n], at[n])
  }

  ghost predicate InIndexOrder(at: seq<At>) {
    forall m, n :: 0 <= m < n < |at| ==> IndexBefore(at[m], at[n])
  }

  ghost predicate BestFirst(query: seq<real>, payloads: seq<Payload>, at: seq<At>) {
    && (forall n :: 0 <= n < |at| ==> Points(payloads, at[n]))
    && (forall m, n :: 0 <= m < n < |at| ==> Better(query, payloads, at[m], at[n]))
  }

  lemma ListedConcat(query: seq<real>, payloads: seq<Payload>, h: seq<Hit>, a: seq<At>, k: seq<Hit>, b: seq<At>)
    requires Listed(query, payloads, h, a) && Listed(query, payloads, k, b)
    ensures Listed(query, payloads, h + k, a + b)
  {
  }

  lemma OrderConcat(a: seq<At>, b: seq<At>)
    requires InIndexOrder(a) && InIndexOrder(b)
    requires forall m, n :: 0 <= m < |a| && 0 <= n < |b| ==> IndexBefore(a[m], b[n])
    ensures InIndexOrder(a + b)
  {
  }

  ghost predicate AllIn(query: seq<real>, payloads: seq<Payload>, d: nat, n: nat, at: seq<At>)
    requires d < |payloads| && n <= |payloads[d].chunks|
  {
    forall a :: a in at <==> a.doc == d && a.chunk < n && ScoreAt(query, payloads, At(d, a.chunk)) > 0.0
  }

  ghost predicate AllUpTo(query: seq<real>, payloads: seq<Payload>, filters: seq<string>, n: nat, at: seq<At>) {
    forall a :: a in at <==> a.doc < n && Wanted(query, payloads, filters, a)
  }

  lemma OneMoreIn(query: seq<real>, payloads: seq<Payload>, d: nat, n: nat, at: seq<At>)
    requires d < |payloads| && n < |payloads[d].chunks| && AllIn(query, payloads, d, n, at) && InIndexOrder(at)
    ensures var more := if ScoreAt(query, payloads, At(d, n)) > 0.0 then [At(d, n)] else [];
            AllIn(query, payloads, d, n + 1, at + more) && InIndexOrder(at + more)
  {
    var more := if ScoreAt(query, payloads, At(d, n)) > 0.0 then [At(d, n)] else [];
    forall m | 0 <= m < |at|
      ensures IndexBefore(at[m], At(d, n))
    {
      assert at[m] in at;
    }
    OrderConcat(at, more);
    forall a
      ensures a in at + more <==> a.doc == d && a.chunk < n + 1 && ScoreAt(query, payloads, At(d, a.chunk)) > 0.0
    {
    }
  }

  /** The chunks that the loop over one payload collects. */
  lemma {:induction false} CollectIn(query: seq<real>, payloads: seq<Payload>, d: nat, n: nat) returns (at: seq<At>)
    requires d < |payloads| && n <= |payloads[d].chunks|
    ensures Listed(query, payloads, HitsIn(query, payloads[d], n), at)
    ensures InIndexOrder(at) && AllIn(query, payloads, d, n, at)
  {
    if n == 0 {
      at := [];
    } else {
      var before := CollectIn(query, payloads, d, n - 1);
      OneMoreIn(query, payloads, d, n - 1, before);
      if ScoreAt(query, payloads, At(d, n - 1)) > 0.0 {
        var hit := HitOf(query, payloads[d], payloads[d].chunks[n - 1]);
        ListedConcat(query, payloads, HitsIn(query, payloads[d], n - 1), before, [hit], [At(d, n - 1)]);
        at := before + [At(d, n - 1)];
      } else {
        ListedConcat(query, payloads, HitsIn(query, payloads[d], n - 1), before, [], []);
        at := before + [];
      }
    }
  }

  lemma OneMoreUpTo(query: seq<real>, payloads: seq<Payload>, filters: seq<string>, d: nat, at: seq<At>, more: seq<At>)
    requires d < |payloads| && AllUpTo(query, payloads, filters, d, at) && InIndexOrder(at)
    requires InIndexOrder(more) && AllIn(query, payloads, d, |payloads[d].chunks|, more)
    requires filters == [] || payloads[d].documentId in filters
    ensures AllUpTo(query, payloads, filters, d + 1, at + more) && InIndexOrder(at + more)
  {
    forall m, n | 0 <= m < |at| && 0 <= n < |more|
      ensures IndexBefore(at[m], more[n])
    {
      assert at[m] in at && more[n] in more;
    }
    OrderConcat(at, more);
    forall a
      ensures a in at + more <==> a.doc < d + 1 && Wanted(query, payloads, filters, a)
    {
      assert a in more <==> a.doc == d && Wanted(query, payloads, filters, a);
    }
  }

  lemma {:induction false} CollectUpTo(query: seq<real>, payloads: seq<Payload>, filters: seq<string>, n: nat) returns (at: seq<At>)
    requires n <= |payloads|
    ensures Listed(query, payloads, HitsUpTo(query, payloads, filters, n), at)
    ensures InIndexOrder(at) && AllUpTo(query, payloads, filters, n, at)
  {
    if n == 0 {
      at := [];
    } else {
      var before := CollectUpTo(query, payloads, filters, n - 1);
      var hits := HitsUpTo(query, payloads, filters, n - 1);
      if filters == [] || payloads[n - 1].documentId in filters {
        var more := CollectIn(query, payloads, n - 1, |payloads[n - 1].chunks|);
        OneMoreUpTo(query, payloads, filters, n - 1, before, more);
        ListedConcat(query, payloads, hits, before, HitsIn(query, payloads[n - 1], |payloads[n - 1].chunks|), more);
        at := before + more;
      } else {
        ListedConcat(query, payloads, hits, before, [], []);
        at := before + [];
        NoneUpTo(query, payloads, filters, n - 1, before);
      }
    }
  }

  lemma NoneUpTo(query: seq<real>, payloads: seq<Payload>, filters: seq<string>, d: nat, at: seq<At>)
    requires d < |payloads| && AllUpTo(query, payloads, filters, d, at)
    requires filters != [] && payloads[d].documentId !in filters
    ensures AllUpTo(query, payloads, filters, d + 1, at + [])
  {
  }

  /** A hit that stands later in the index than all others finds its place among them. */
  lemma {:induction false} PlaceListed(query: seq<real>, payloads: seq<Payload>, h: Hit, a: At, hits: seq<Hit>, at: seq<At>)
    returns (more: seq<At>)
    requires Listed(query, payloads, hits, at) && BestFirst(query, payloads, at)
    requires Points(payloads, a) && Reports(query, payloads, h, a)
    requires forall b :: b in at ==> IndexBefore(b, a)
    ensures Listed(query, payloads, Place(h, hits), more) && BestFirst(query, payloads, more)
    ensures forall b :: b in more <==> b in at || b == a
    decreases |hits|
  {
    if hits == [] || hits[|hits| - 1].score >= h.score {
      more := at + [a];
    } else {
      var n := |hits| - 1;
      var front := PlaceListed(query, payloads, h, a, hits[..n], at[..n]);
      more := front + [at[n]];
      assert at == at[..n] + [at[n]];
      forall m | 0 <= m < |front|
        ensures Better(query, payloads, front[m], at[n])
      {
        assert front[m] in at[..n] || front[m] == a;
      }
    }
  }

  lemma {:induction false} RankedListed(query: seq<real>, payloads: seq<Payload>, hits: seq<Hit>, at: seq<At>)
    returns (ranked: seq<At>)
    requires Listed(query, payloads, hits, at) && InIndexOrder(at)
    ensures Listed(query, payloads, Ranked(hits), ranked) && BestFirst(query, payloads, ranked)
    ensures forall a :: a in ranked <==> a in at
    decreases |hits|
  {
    if hits == [] {
      ranked := [];
    } else {
      var n := |hits| - 1;
      var front := RankedListed(query, payloads, hits[..n], at[..n]);
      ranked := PlaceListed(query, payloads, hits[n], at[n], Ranked(hits[..n]), front);
      assert at == at[..n] + [at[n]];
    }
  }

  /** A search returns one hit for each chunk that scores above zero in a document let through, and no other,
      each with its own cosine; and they come by falling cosine, equal ones in the order of the index. */
  lemma SearchExact(query: seq<real>, payloads: seq<Payload>, filters: seq<string>) returns (at: seq<At>)
    ensures var hits := Ranked(HitsUpTo(query, payloads, filters, |payloads|));
            && |hits| == |at|
            && (forall n :: 0 <= n < |at| ==> Points(payloads, at[n]) && Reports(query, payloads, hits[n], at[n]))
    ensures forall a :: a in at <==> Wanted(query, payloads, filters, a)
    ensures forall m, n :: 0 <= m < n < |at| ==> at[m] != at[n] && Better(query, payloads, at[m], at[n])
  {
    var found := CollectUpTo(query, payloads, filters, |payloads|);
    at := RankedListed(query, payloads, HitsUpTo(query, payloads, filters, |payloads|), found);
  }
}
