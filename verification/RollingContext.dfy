/** The generation loop of kronos_vendor/kronos.py: two fixed-size buffers that are filled and then rolled
    must feed the network the same windows as slicing the whole history would. One row of the batch is
    modelled; rows do not interact. */
module RollingContext {

  function Min(a: int, b: int): int {
    if a <= b then a else b
  }

  function Max(a: int, b: int): int {
    if a >= b then a else b
  }

  /** The network and the sampler. Both choices may depend on the whole window, its stamps and the step
      (which stands for the randomness of the draw); the second also on the first token drawn. */
  datatype Network<!T, !S> = Network(
    samplePre: (seq<T>, seq<T>, seq<S>, nat) -> T,
    samplePost: (seq<T>, seq<T>, seq<S>, nat, T) -> T)

  /** The coarse and the fine token of every position. */
  datatype Tokens<T> = Tokens(pre: seq<T>, post: seq<T>)

  /** The last `maxContext` elements, or all of them. */
  function LastOf<T>(s: seq<T>, maxContext: nat): (w: seq<T>)
    ensures |w| == Min(|s|, maxContext)
    ensures forall k :: 0 <= k < |w| ==> w[k] == s[|s| - |w| + k]
  {
    s[|s| - Min(|s|, maxContext)..]
  }

  /** The prompt followed by what has been generated. */
  function Joined<T>(prompt: Tokens<T>, g: Tokens<T>): Tokens<T> {
    Tokens(prompt.pre + g.pre, prompt.post + g.post)
  }

  /** One draw of the reference: feed the last `maxContext` tokens of the whole history and the stamps of
      the same absolute positions. */
  ghost function Draw<T, S>(net: Network<T, S>, history: Tokens<T>, stamps: seq<S>, maxContext: nat, step: nat): (T, T)
    requires |history.pre| <= |stamps|
  {
    var pre, post := LastOf(history.pre, maxContext), LastOf(history.post, maxContext);
    var window := LastOf(stamps[..|history.pre|], maxContext);
    var a := net.samplePre(pre, post, window, step);
    (a, net.samplePost(pre, post, window, step, a))
  }

  /** The reference loop: keep everything, draw, append. */
  ghost function Generated<T, S>(net: Network<T, S>, prompt: Tokens<T>, stamps: seq<S>, maxContext: nat, n: nat): (g: Tokens<T>)
    requires |prompt.pre| == |prompt.post| && |prompt.pre| + n <= |stamps| + 1
    ensures |g.pre| == n && |g.post| == n
  {
    if n == 0 then Tokens([], [])
    else
      var g := Generated(net, prompt, stamps, maxContext, n - 1);
      var (a, b) := Draw(net, Joined(prompt, g), stamps, maxContext, n - 1);
      Tokens(g.pre + [a], g.post + [b])
  }

  /** The elements at the absolute positions `end - min(end, maxContext)` to `end`. */
  function Before<T>(s: seq<T>, end: nat, maxContext: nat): seq<T>
    requires end <= |s|
  {
    var n := Min(end, maxContext);
    seq(n, k requires 0 <= k < n => s[end - n + k])
  }

  /** Token `i` was drawn from what precedes it: the coarse token from the windows of both kinds of tokens and of the
      stamps that end where it goes, the fine one from the same windows and the coarse token. */
  ghost predicate DrawnAt<T(!new), S(!new)>(net: Network<T, S>, full: Tokens<T>, stamps: seq<S>, start: nat,
                                            maxContext: nat, i: nat)
    requires start + i < |full.pre| == |full.post| && start + i <= |stamps|
  {
    var end := start + i;
    var pre, post := Before(full.pre, end, maxContext), Before(full.post, end, maxContext);
    var window := Before(stamps, end, maxContext);
    && full.pre[end] == net.samplePre(pre, post, window, i)
    && full.post[end] == net.samplePost(pre, post, window, i, full.pre[end])
  }

  lemma BeforeIsLast<T>(s: seq<T>, end: nat, maxContext: nat)
    requires end <= |s|
    ensures Before(s, end, maxContext) == LastOf(s[..end], maxContext)
  {
  }

  lemma {:induction false} GeneratedPrefix<T, S>(net: Network<T, S>, prompt: Tokens<T>, stamps: seq<S>, maxContext: nat,
                                                 n: nat, i: nat)
    requires |prompt.pre| == |prompt.post| && |prompt.pre| + n <= |stamps| + 1 && i <= n
    ensures Generated(net, prompt, stamps, maxContext, n).pre[..i] == Generated(net, prompt, stamps, maxContext, i).pre
    ensures Generated(net, prompt, stamps, maxContext, n).post[..i] == Generated(net, prompt, stamps, maxContext, i).post
    decreases n
  {
    if i < n { GeneratedPrefix(net, prompt, stamps, maxContext, n - 1, i); }
  }

  lemma {:induction false} GeneratedAt<T, S>(net: Network<T, S>, prompt: Tokens<T>, stamps: seq<S>, maxContext: nat,
                                             n: nat, i: nat)
    requires |prompt.pre| == |prompt.post| && |prompt.pre| + n <= |stamps| + 1 && i < n
    ensures var g := Generated(net, prompt, stamps, maxContext, n);
            (g.pre[i], g.post[i]) ==
            Draw(net, Joined(prompt, Generated(net, prompt, stamps, maxContext, i)), stamps, maxContext, i)
  {
    var g, next := Generated(net, prompt, stamps, maxContext, n), Generated(net, prompt, stamps, maxContext, i + 1);
    GeneratedPrefix(net, prompt, stamps, maxContext, n, i + 1);
    assert g.pre[i] == g.pre[..i + 1][i] == next.pre[i];
    assert g.post[i] == g.post[..i + 1][i] == next.post[i];
  }

  lemma JoinedPrefix<T>(prompt: Tokens<T>, g: Tokens<T>, past: Tokens<T>, i: nat)
    requires i < |g.pre| == |g.post| && |prompt.pre| == |prompt.post|
    requires g.pre[..i] == past.pre && g.post[..i] == past.post
    ensures var full, end := Joined(prompt, g), |prompt.pre| + i;
            && Tokens(full.pre[..end], full.post[..end]) == Joined(prompt, past)
            && full.pre[end] == g.pre[i] && full.post[end] == g.post[i]
  {
  }

  /** In what the reference generates, every token is drawn from what precedes it, the prompt included: the windows are
      given index by index, and a stamp sits where the token with the same absolute index sits. */
  lemma {:induction false} EveryTokenIsDrawn<T(!new), S(!new)>(net: Network<T, S>, prompt: Tokens<T>, stamps: seq<S>,
                                                               maxContext: nat, n: nat, i: nat)
    requires |prompt.pre| == |prompt.post| && |prompt.pre| + n <= |stamps| + 1 && i < n
    ensures DrawnAt(net, Joined(prompt, Generated(net, prompt, stamps, maxContext, n)), stamps, |prompt.pre|, maxContext, i)
  {
    var g, past := Generated(net, prompt, stamps, maxContext, n), Generated(net, prompt, stamps, maxContext, i);
    var full, end := Joined(prompt, g), |prompt.pre| + i;
    GeneratedPrefix(net, prompt, stamps, maxContext, n, i);
    JoinedPrefix(prompt, g, past, i);
    GeneratedAt(net, prompt, stamps, maxContext, n, i);
    BeforeIsLast(full.pre, end, maxContext);
    BeforeIsLast(full.post, end, maxContext);
    BeforeIsLast(stamps, end, maxContext);
  }

  /** The buffer holds the last tokens of the history, from its left end. */
  ghost predicate Holds<T>(buffer: seq<T>, history: seq<T>) {
    |buffer| >= 1 && buffer[..Min(|history|, |buffer|)] == LastOf(history, |buffer|)
  }

  lemma HoldsAfterFill<T>(buffer: seq<T>, history: seq<T>, t: T)
    requires Holds(buffer, history) && |history| < |buffer|
    ensures Holds(buffer[|history| := t], history + [t])
  {
    var b := buffer[|history| := t];
    assert b[..|history|] == buffer[..|history|] == history;
    assert b[..|history| + 1] == history + [t];
  }

  lemma HoldsAfterRoll<T>(buffer: seq<T>, history: seq<T>, t: T)
    requires Holds(buffer, history) && |history| >= |buffer|
    ensures Holds(buffer[1..] + [t], history + [t])
  {
    var n := |buffer|;
    assert buffer[..n] == buffer;
    var b := buffer[1..] + [t];
    assert b[..n] == b;
    assert LastOf(history + [t], n) == LastOf(history, n)[1..] + [t];
  }

  /** torch.roll by -1 copied back into the buffer, then the last slot overwritten. */
  method RollLeft<T>(buffer: array<T>, t: T)
    requires buffer.Length >= 1
    modifies buffer
    ensures buffer[..] == old(buffer[..])[1..] + [t]
  {
    var n := buffer.Length;
    var first := buffer[0];
    var i := 0;
    while i < n - 1
      invariant 0 <= i <= n - 1
      invariant forall k :: 0 <= k < i ==> buffer[k] == old(buffer[k + 1])
      invariant forall k :: i <= k < n ==> buffer[k] == old(buffer[k])
    {
      buffer[i] := buffer[i + 1];
      i := i + 1;
    }
    buffer[n - 1] := first;
    buffer[n - 1] := t;
  }

  /** Writes a drawn token into a buffer that so far holds the last tokens of `history`. */
  method PushToken<T>(buffer: array<T>, ghost history: seq<T>, currentSeqLen: nat, t: T)
    requires Holds(buffer[..], history) && |history| == currentSeqLen
    modifies buffer
    ensures Holds(buffer[..], history + [t])
  {
    if currentSeqLen < buffer.Length {
      HoldsAfterFill(buffer[..], history, t);
      buffer[currentSeqLen] := t;
    } else {
      HoldsAfterRoll(buffer[..], history, t);
      RollLeft(buffer, t);
    }
  }

  /** Zeros, then the end of the prompt from the left. */
  method InitBuffer<T>(prompt: seq<T>, maxContext: nat, zero: T) returns (buffer: array<T>)
    requires maxContext >= 1
    ensures fresh(buffer) && buffer.Length == maxContext && Holds(buffer[..], prompt)
  {
    buffer := new T[maxContext](_ => zero);
    var bufferLen := Min(|prompt|, maxContext);
    var start := Max(0, |prompt| - maxContext);
    var i := 0;
    while i < bufferLen
      invariant 0 <= i <= bufferLen
      invariant forall k :: 0 <= k < i ==> buffer[k] == prompt[start + k]
    {
      buffer[i] := prompt[start + i];
      i := i + 1;
    }
    assert buffer[..bufferLen] == LastOf(prompt, maxContext);
  }

  /** The window handed to the network: the filled part of the buffer, or all of it. */
  method ReadWindow<T>(buffer: array<T>, ghost history: seq<T>, currentSeqLen: nat) returns (window: seq<T>)
    requires Holds(buffer[..], history) && |history| == currentSeqLen
    ensures window == LastOf(history, buffer.Length)
  {
    var windowLen := Min(currentSeqLen, buffer.Length);
    assert buffer[..][..windowLen] == buffer[..windowLen];
    if currentSeqLen <= buffer.Length {
      window := buffer[..windowLen];
    } else {
      window := buffer[..];
    }
  }

  /** The body of the loop: read both windows, draw twice, write both tokens. */
  method GenerateStep<T, S>(net: Network<T, S>, preBuffer: array<T>, postBuffer: array<T>, ghost history: Tokens<T>,
                            fullStamp: seq<S>, currentSeqLen: nat, step: nat)
    returns (a: T, b: T)
    requires preBuffer != postBuffer && preBuffer.Length == postBuffer.Length
    requires Holds(preBuffer[..], history.pre) && Holds(postBuffer[..], history.post)
    requires |history.pre| == |history.post| == currentSeqLen <= |fullStamp|
    modifies preBuffer, postBuffer
    ensures (a, b) == Draw(net, history, fullStamp, preBuffer.Length, step)
    ensures Holds(preBuffer[..], history.pre + [a]) && Holds(postBuffer[..], history.post + [b])
  {
    var maxContext := preBuffer.Length;
    var inPre := ReadWindow(preBuffer, history.pre, currentSeqLen);
    var inPost := ReadWindow(postBuffer, history.post, currentSeqLen);
    var contextStart := Max(0, currentSeqLen - maxContext);
    var stamp := fullStamp[contextStart..currentSeqLen];
    StampWindow(fullStamp, currentSeqLen, maxContext);
    a := net.samplePre(inPre, inPost, stamp, step);
    b := net.samplePost(inPre, inPost, stamp, step, a);
    PushToken(preBuffer, history.pre, currentSeqLen, a);
    PushToken(postBuffer, history.post, currentSeqLen, b);
  }

  lemma GeneratedStep<T, S>(net: Network<T, S>, prompt: Tokens<T>, stamps: seq<S>, maxContext: nat, i: nat, g: Tokens<T>,
                            a: T, b: T)
    requires |prompt.pre| == |prompt.post| && |prompt.pre| + i + 1 <= |stamps| + 1
    requires g == Generated(net, prompt, stamps, maxContext, i)
    requires (a, b) == Draw(net, Joined(prompt, g), stamps, maxContext, i)
    ensures Tokens(g.pre + [a], g.post + [b]) == Generated(net, prompt, stamps, maxContext, i + 1)
    ensures Joined(prompt, Tokens(g.pre + [a], g.post + [b])) ==
            Tokens(Joined(prompt, g).pre + [a], Joined(prompt, g).post + [b])
  {
    assert prompt.pre + (g.pre + [a]) == prompt.pre + g.pre + [a];
    assert prompt.post + (g.post + [b]) == prompt.post + g.post + [b];
  }

  /** The loop over `predLen` steps, from freshly filled buffers. */
  method GenerateTokens<T, S>(net: Network<T, S>, prompt: Tokens<T>, fullStamp: seq<S>, preBuffer: array<T>,
                              postBuffer: array<T>, predLen: nat)
    returns (generated: Tokens<T>)
    requires |prompt.pre| == |prompt.post| && |prompt.pre| + predLen <= |fullStamp| + 1
    requires preBuffer != postBuffer && preBuffer.Length == postBuffer.Length
    requires Holds(preBuffer[..], prompt.pre) && Holds(postBuffer[..], prompt.post)
    modifies preBuffer, postBuffer
    ensures generated == Generated(net, prompt, fullStamp, preBuffer.Length, predLen)
  {
    generated := Tokens([], []);
    ghost var history := Joined(prompt, generated);
    assert history == prompt;
    var i := 0;
    while i < predLen
      invariant 0 <= i <= predLen
      invariant generated == Generated(net, prompt, fullStamp, preBuffer.Length, i)
      invariant history == Joined(prompt, generated)
      invariant |history.pre| == |history.post| == |prompt.pre| + i
      invariant Holds(preBuffer[..], history.pre) && Holds(postBuffer[..], history.post)
    {
      var a, b := GenerateStep(net, preBuffer, postBuffer, history, fullStamp, |prompt.pre| + i, i);
      GeneratedStep(net, prompt, fullStamp, preBuffer.Length, i, generated, a, b);
      history := Tokens(history.pre + [a], history.post + [b]);
      generated := Tokens(generated.pre + [a], generated.post + [b]);
      i := i + 1;
    }
  }

  /** For every prompt, horizon, context size, network and sampler, the buffered loop draws exactly the
      tokens of the reference, and decodes the end of the full sequence. */
  method AutoRegressiveInference<T(!new), S(!new)>(net: Network<T, S>, prompt: Tokens<T>, xStamp: seq<S>, yStamp: seq<S>,
                                       maxContext: nat, predLen: nat, zero: T)
    returns (generated: Tokens<T>, decoded: Tokens<T>)
    requires |prompt.pre| == |prompt.post| == |xStamp| && |prompt.pre| >= 1
    requires maxContext >= 1 && predLen <= |yStamp| + 1
    ensures generated == Generated(net, prompt, xStamp + yStamp, maxContext, predLen)
    ensures forall i: nat :: i < predLen ==>
      DrawnAt(net, Joined(prompt, generated), xStamp + yStamp, |prompt.pre|, maxContext, i)
    ensures decoded == Tokens(LastOf(prompt.pre + generated.pre, maxContext),
                              LastOf(prompt.post + generated.post, maxContext))
  {
    var preBuffer := InitBuffer(prompt.pre, maxContext, zero);
    var postBuffer := InitBuffer(prompt.post, maxContext, zero);
    generated := GenerateTokens(net, prompt, xStamp + yStamp, preBuffer, postBuffer, predLen);
    decoded := DecoderInput(prompt, generated, maxContext);
    forall i: nat | i < predLen
      ensures DrawnAt(net, Joined(prompt, generated), xStamp + yStamp, |prompt.pre|, maxContext, i)
    {
      EveryTokenIsDrawn(net, prompt, xStamp + yStamp, maxContext, predLen, i);
    }
  }

  /** Concatenation of prompt and draws, sliced at the end. */
  method DecoderInput<T>(prompt: Tokens<T>, generated: Tokens<T>, maxContext: nat) returns (decoded: Tokens<T>)
    requires |prompt.pre| == |prompt.post| && |generated.pre| == |generated.post|
    ensures decoded == Tokens(LastOf(prompt.pre + generated.pre, maxContext),
                              LastOf(prompt.post + generated.post, maxContext))
  {
    var fullPre, fullPost := prompt.pre + generated.pre, prompt.post + generated.post;
    var total := |prompt.pre| + |generated.pre|;
    var start := Max(0, total - maxContext);
    FinalSlice(fullPre, maxContext);
    FinalSlice(fullPost, maxContext);
    decoded := Tokens(fullPre[start..total], fullPost[start..total]);
  }

  lemma FinalSlice<T>(s: seq<T>, maxContext: nat)
    ensures s[Max(0, |s| - maxContext)..|s|] == LastOf(s, maxContext)
  {
  }

  /** Every position of the stamp window carries the stamp of the same absolute index as the token at that
      position of the token window. */
  lemma StampWindow<S>(stamps: seq<S>, len: nat, maxContext: nat)
    requires len <= |stamps|
    ensures stamps[Max(0, len - maxContext)..len] == LastOf(stamps[..len], maxContext)
    ensures var w := LastOf(stamps[..len], maxContext);
            forall k :: 0 <= k < |w| ==> w[k] == stamps[len - |w| + k]
  {
  }

  // ----- How many rows a forecast has -----

  /** Python's `rows[-predLen:]`: minus zero is zero, and too large a count takes everything. */
  function TakeLast<R>(rows: seq<R>, predLen: nat): seq<R> {
    if predLen == 0 || predLen > |rows| then rows else rows[|rows| - predLen..]
  }

  /** Given one decoded row per token of the final window: the forecast has exactly `predLen` rows if and
      only if the horizon is at least one and fits into the context, and then row `k` is the one decoded
      at the position of the `k`-th generated token. */
  lemma ForecastRows<T, R>(prompt: seq<T>, generated: seq<T>, maxContext: nat, rows: seq<R>)
    requires |prompt| >= 1 && maxContext >= 1 && |rows| == |LastOf(prompt + generated, maxContext)|
    ensures |TakeLast(rows, |generated|)| == |generated| <==> 1 <= |generated| <= maxContext
    ensures 1 <= |generated| <= maxContext ==>
      forall k :: 0 <= k < |generated| ==>
        && TakeLast(rows, |generated|)[k] == rows[|rows| - |generated| + k]
        && LastOf(prompt + generated, maxContext)[|rows| - |generated| + k] == generated[k]
  {
  }
}
