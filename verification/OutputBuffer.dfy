/** The moderated output buffer: assistant tokens are held back until the text that follows them has been
    judged safe. The safeguard is a deterministic predicate on the whole assistant text so far. */
module OutputBuffer {
  import opened Wrappers

  type Judge = string -> bool

  datatype Buffer = Buffer(pending: seq<string>, text: string, blocked: bool)

  const EMPTY := Buffer([], "", false)

  /** What one push leaves in the buffer, and the tokens it lets out. */
  function Push(safe: Judge, holdback: nat, b: Buffer, token: string): (Buffer, seq<string>) {
    if b.blocked || token == "" then (b, [])
    else
      var pending, text := b.pending + [token], b.text + token;
      if !safe(text) then (Buffer(pending, text, true), [])
      else if |pending| <= holdback then (Buffer(pending, text, false), [])
      else (Buffer(pending[|pending| - holdback..], text, false), pending[..|pending| - holdback])
  }

  function Flush(safe: Judge, b: Buffer): (Buffer, seq<string>) {
    if b.blocked then (b, [])
    else if !safe(b.text) then (b.(blocked := true), [])
    else (b.(pending := []), b.pending)
  }

  /** A run of pushes from the empty buffer: the buffer it ends with and everything it let out. */
  function Feed(safe: Judge, holdback: nat, tokens: seq<string>): (Buffer, seq<string>) {
    if tokens == [] then (EMPTY, [])
    else
      var n := |tokens| - 1;
      var (b, out) := Feed(safe, holdback, tokens[..n]);
      var (b', more) := Push(safe, holdback, b, tokens[n]);
      (b', out + more)
  }

  class StreamingOutputBuffer {
    const safeguard: Option<(string, string) -> bool>
    const userText: string
    const holdbackTokens: nat
    var pendingTokens: seq<string>
    var fullText: string
    var blocked: bool

    ghost function State(): Buffer
      reads this
    {
      Buffer(pendingTokens, fullText, blocked)
    }

    /** The judgement of the configured safeguard; everything is safe without one. */
    function Safe(): Judge {
      if safeguard.None? then (text: string) => true
      else (text: string) => safeguard.value(userText, text)
    }

    constructor (safeguard: Option<(string, string) -> bool>, userText: string, holdback: int)
      ensures State() == EMPTY
      ensures this.safeguard == safeguard && this.userText == userText
      ensures holdbackTokens == if holdback < 0 then 0 else holdback
    {
      this.safeguard := safeguard;
      this.userText := userText;
      holdbackTokens := if holdback < 0 then 0 else holdback;
      pendingTokens := [];
      fullText := "";
      blocked := false;
    }

    method IsSafe(text: string) returns (allowed: bool)
      ensures allowed == Safe()(text)
    {
      if safeguard.None? {
        return true;
      }
      return safeguard.value(userText, text);
    }

    method PushToken(token: string) returns (out: seq<string>)
      modifies this
      ensures (State(), out) == Push(Safe(), holdbackTokens, old(State()), token)
    {
      if blocked || token == "" {
        return [];
      }
      fullText := fullText + token;
      pendingTokens := pendingTokens + [token];
      var allowed := IsSafe(fullText);
      if !allowed {
        blocked := true;
        return [];
      }
      var emitCount := |pendingTokens| - holdbackTokens;
      if emitCount <= 0 {
        return [];
      }
      out := pendingTokens[..emitCount];
      pendingTokens := pendingTokens[emitCount..];
    }

    method FlushTokens() returns (out: seq<string>)
      modifies this
      ensures (State(), out) == Flush(Safe(), old(State()))
    {
      if blocked {
        return [];
      }
      var allowed := IsSafe(fullText);
      if !allowed {
        blocked := true;
        return [];
      }
      if pendingTokens == [] {
        return [];
      }
      out := pendingTokens;
      pendingTokens := [];
    }
  }

  // ---------- what a run of pushes amounts to ----------

  function NonEmpty(tokens: seq<string>): seq<string> {
    if tokens == [] then []
    else
      var n := |tokens| - 1;
      NonEmpty(tokens[..n]) + if tokens[n] == "" then [] else [tokens[n]]
  }

  function Join(tokens: seq<string>): string {
    if tokens == [] then "" else Join(tokens[..|tokens| - 1]) + tokens[|tokens| - 1]
  }

  /** How many tokens come before the first one that makes the text unsafe. */
  function SafeCount(safe: Judge, tokens: seq<string>): (k: nat)
    ensures k <= |tokens|
  {
    if tokens == [] then 0
    else
      var n := |tokens| - 1;
      var k := SafeCount(safe, tokens[..n]);
      if k == n && safe(Join(tokens)) then n + 1 else k
  }

  lemma {:induction false} SafeCountAt(safe: Judge, tokens: seq<string>, j: nat)
    requires 1 <= j <= |tokens|
    ensures j <= SafeCount(safe, tokens) ==> safe(Join(tokens[..j]))
    ensures j == SafeCount(safe, tokens) + 1 ==> !safe(Join(tokens[..j]))
  {
    var n := |tokens| - 1;
    if j == |tokens| {
      assert tokens[..j] == tokens;
    } else {
      SafeCountAt(safe, tokens[..n], j);
      assert tokens[..n][..j] == tokens[..j];
    }
  }

  /** The tokens that reach the buffer: the first unsafe one is the last. */
  function Reached(safe: Judge, tokens: seq<string>): seq<string> {
    var k := SafeCount(safe, tokens);
    if k < |tokens| then tokens[..k + 1] else tokens
  }

  /** How many tokens are out. */
  function Emitted(safe: Judge, holdback: nat, tokens: seq<string>): (e: nat)
    ensures e <= |tokens|
  {
    var k := SafeCount(safe, tokens);
    if k <= holdback then 0 else k - holdback
  }

  ghost predicate Shape(safe: Judge, holdback: nat, tokens: seq<string>, b: Buffer, out: seq<string>) {
    && (b.blocked <==> SafeCount(safe, tokens) < |tokens|)
    && b.text == Join(Reached(safe, tokens))
    && out + b.pending == Reached(safe, tokens)
    && |out| == Emitted(safe, holdback, tokens)
  }

  lemma CountGrows(safe: Judge, tokens: seq<string>, token: string)
    ensures var more := tokens + [token];
            && Join(more) == Join(tokens) + token
            && SafeCount(safe, more) ==
                 if SafeCount(safe, tokens) == |tokens| && safe(Join(more)) then |more| else SafeCount(safe, tokens)
  {
    assert (tokens + [token])[..|tokens|] == tokens;
  }

  lemma PrefixOfConcat(a: seq<string>, b: seq<string>, n: nat)
    requires n <= |a|
    ensures (a + b)[..n] == a[..n]
  {
  }

  lemma ReachedWhenSafe(safe: Judge, tokens: seq<string>)
    requires SafeCount(safe, tokens) + 1 >= |tokens|
    ensures Reached(safe, tokens) == tokens
  {
    assert tokens[..|tokens|] == tokens;
  }

  lemma ReachedGrows(safe: Judge, tokens: seq<string>, token: string)
    ensures var more := tokens + [token];
            && (SafeCount(safe, tokens) == |tokens| ==> Reached(safe, tokens) == tokens && Reached(safe, more) == more)
            && (SafeCount(safe, tokens) < |tokens| ==> Reached(safe, more) == Reached(safe, tokens))
  {
    CountGrows(safe, tokens, token);
    var k := SafeCount(safe, tokens);
    if k < |tokens| {
      PrefixOfConcat(tokens, [token], k + 1);
    } else {
      ReachedWhenSafe(safe, tokens);
      ReachedWhenSafe(safe, tokens + [token]);
    }
  }

  lemma MovePending(out: seq<string>, pending: seq<string>, token: string, m: nat)
    requires m <= |pending| + 1
    ensures var p := pending + [token]; (out + p[..m]) + p[m..] == (out + pending) + [token]
  {
  }

  /** The token stays in the buffer: it makes the text unsafe, or the hold-back is not full. */
  lemma HoldKeepsShape(safe: Judge, holdback: nat, tokens: seq<string>, b: Buffer, out: seq<string>, token: string)
    requires Shape(safe, holdback, tokens, b, out) && !b.blocked
    requires !safe(b.text + token) || |b.pending| + 1 <= holdback
    ensures Shape(safe, holdback, tokens + [token], Buffer(b.pending + [token], b.text + token, !safe(b.text + token)), out)
  {
    CountGrows(safe, tokens, token);
    ReachedGrows(safe, tokens, token);
    MovePending(out, b.pending, token, 0);
    var pending := b.pending + [token];
    assert out + pending[..0] == out && pending[0..] == pending;
  }

  /** The token is safe and the buffer lets out all but the hold-back. */
  lemma EmitKeepsShape(safe: Judge, holdback: nat, tokens: seq<string>, b: Buffer, out: seq<string>, token: string, m: nat)
    requires Shape(safe, holdback, tokens, b, out) && !b.blocked && safe(b.text + token)
    requires m + holdback == |b.pending| + 1
    ensures var p := b.pending + [token];
            Shape(safe, holdback, tokens + [token], Buffer(p[m..], b.text + token, false), out + p[..m])
  {
    CountGrows(safe, tokens, token);
    ReachedGrows(safe, tokens, token);
    MovePending(out, b.pending, token, m);
  }

  lemma PushKeepsShape(safe: Judge, holdback: nat, tokens: seq<string>, b: Buffer, out: seq<string>, token: string)
    requires Shape(safe, holdback, tokens, b, out) && token != ""
    ensures var (b', more) := Push(safe, holdback, b, token);
            Shape(safe, holdback, tokens + [token], b', out + more)
  {
    assert out + [] == out;
    if b.blocked {
      CountGrows(safe, tokens, token);
      ReachedGrows(safe, tokens, token);
    } else if !safe(b.text + token) || |b.pending| + 1 <= holdback {
      HoldKeepsShape(safe, holdback, tokens, b, out, token);
    } else {
      EmitKeepsShape(safe, holdback, tokens, b, out, token, |b.pending| + 1 - holdback);
    }
  }

  /** After any pushes: the tokens that came out, followed by those held back, are the non-empty tokens
      pushed, up to and including the first that made the text unsafe; and the number that came out is
      exactly the hold-back behind the number judged safe. */
  lemma {:induction false} FeedShape(safe: Judge, holdback: nat, tokens: seq<string>)
    ensures var (b, out) := Feed(safe, holdback, tokens);
            Shape(safe, holdback, NonEmpty(tokens), b, out)
  {
    if tokens != [] {
      var n := |tokens| - 1;
      FeedShape(safe, holdback, tokens[..n]);
      var (b, out) := Feed(safe, holdback, tokens[..n]);
      if tokens[n] != "" {
        PushKeepsShape(safe, holdback, NonEmpty(tokens[..n]), b, out, tokens[n]);
      } else {
        assert NonEmpty(tokens) == NonEmpty(tokens[..n]);
        assert out + [] == out;
      }
    }
  }

  /** Every prefix that came out is followed, at least the hold-back further on, by a text judged safe. */
  lemma EmittedBehindSafeText(safe: Judge, holdback: nat, tokens: seq<string>, i: nat)
    requires i < |Feed(safe, holdback, tokens).1|
    ensures var all := NonEmpty(tokens);
            && i + 1 + holdback <= |all|
            && Feed(safe, holdback, tokens).1[..i + 1] == all[..i + 1]
            && forall j :: 1 <= j <= i + 1 + holdback ==> safe(Join(all[..j]))
  {
    FeedShape(safe, holdback, tokens);
    var (b, out) := Feed(safe, holdback, tokens);
    var all := NonEmpty(tokens);
    var k := SafeCount(safe, all);
    assert i + 1 + holdback <= k;
    PrefixOfConcat(out, b.pending, i + 1);
    forall j | 1 <= j <= i + 1 + holdback
      ensures safe(Join(all[..j]))
    {
      SafeCountAt(safe, all, j);
    }
    if k < |all| {
      PrefixOfConcat(all[..k + 1], all[k + 1..], i + 1);
      assert all[..k + 1] + all[k + 1..] == all;
    }
  }

  /** Nothing comes out after a block, and the buffer no longer changes. */
  lemma {:induction false} BlockedIsFinal(safe: Judge, holdback: nat, tokens: seq<string>, more: seq<string>)
    requires Feed(safe, holdback, tokens).0.blocked
    ensures Feed(safe, holdback, tokens + more) == Feed(safe, holdback, tokens)
  {
    if more == [] {
      assert tokens + more == tokens;
    } else {
      var n := |more| - 1;
      BlockedIsFinal(safe, holdback, tokens, more[..n]);
      assert (tokens + more)[..|tokens| + n] == tokens + more[..n];
      var out := Feed(safe, holdback, tokens).1;
      assert out + [] == out;
    }
  }

  /** A flush after any pushes completes the stream exactly, or adds nothing to a blocked one. It blocks
      where the pushes had not exactly when no text was pushed and the empty text is unsafe. */
  lemma FlushCompletes(safe: Judge, holdback: nat, tokens: seq<string>)
    ensures var (b, out) := Feed(safe, holdback, tokens);
            var (b', last) := Flush(safe, b);
            && (!b'.blocked ==> out + last == NonEmpty(tokens) && b'.pending == [])
            && (b'.blocked ==> last == [])
            && (b'.blocked && !b.blocked <==> NonEmpty(tokens) == [] && !safe(""))
  {
    FeedShape(safe, holdback, tokens);
    var (b, out) := Feed(safe, holdback, tokens);
    var all := NonEmpty(tokens);
    if !b.blocked && all != [] {
      SafeCountAt(safe, all, |all|);
      assert all[..|all|] == all;
    }
  }
}
