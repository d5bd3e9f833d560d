/** The prefix-reuse state machine: one model with one KV cache, the conversations that
    keep token history over it, and the decode sessions that extend it. */
module ConversationCache {
  import opened Wrappers

  type Token = int
  type Logits = seq<real>

  datatype Error =
    | EncodeFailed
    | PromptTooLong
    | EmptyPrompt
    | NoCachedLogits
    | PositionOverflow
    | ForwardFailed

  /** What the k-th Forward does. A failing Forward may leave anything in the cache. */
  datatype Fate = Succeeds | Fails(leftover: seq<Token>)

  /** The model behind the engine. `l` is uninterpreted: the logits of a model whose cache
      was filled with exactly these tokens, in this order, since the last reset. */
  class Model {
    const l: seq<Token> -> Logits
    const fates: nat -> Fate
    var calls: nat
    var kv: seq<Token>

    // History, not in the program: has every Forward so far started at the length of the cache?
    var aligned: bool
    // History, not in the program: has a replay (LoadKVCache or rollback) failed?
    var replayFailed: bool

    constructor (l: seq<Token> -> Logits, fates: nat -> Fate)
      ensures this.l == l && this.fates == fates
      ensures calls == 0 && kv == [] && aligned && !replayFailed
    {
      this.l, this.fates := l, fates;
      calls, kv, aligned, replayFailed := 0, [], true, false;
    }

    method ResetCache()
      modifies this`kv
      ensures kv == []
    {
      kv := [];
    }

    method Forward(tokens: seq<Token>, startPos: nat) returns (r: Result<Logits, Error>)
      modifies this`kv, this`calls, this`aligned
      ensures calls == old(calls) + 1
      ensures aligned == (old(aligned) && startPos == |old(kv)|)
      ensures r == if fates(old(calls)).Succeeds? then Ok(l(old(kv) + tokens)) else Err(ForwardFailed)
      ensures kv == if fates(old(calls)).Succeeds? then old(kv) + tokens else fates(old(calls)).leftover
    {
      aligned := aligned && startPos == |kv|;
      var fate := fates(calls);
      calls := calls + 1;
      match fate {
        case Succeeds =>
          kv := kv + tokens;
          r := Ok(l(kv));
        case Fails(leftover) =>
          kv := leftover;
          r := Err(ForwardFailed);
      }
    }
  }

  /** Did every Forward with number in from..to succeed? */
  ghost predicate NoFailure(fates: nat -> Fate, from: nat, to: nat) {
    forall k: nat :: from <= k < to ==> fates(k).Succeeds?
  }

  /** What a request asks for, apart from its prompt. `pick` is the sampler with its
      penalties: it sees the logits, the prompt and what was generated, and a negative
      answer means "none". `accept` is the OnToken callback, `stops` the stop sequences. */
  datatype Params = Params(
    maxTokens: int,
    pick: (Logits, seq<Token>, seq<Token>) -> int,
    accept: seq<Token> -> bool,
    stops: seq<Token> -> bool)

  /** Tokenizer and engine facts that are fixed for a run (contextLength <= 0: unlimited). */
  datatype Limits = Limits(contextLength: int, eos: int)

  datatype StopReason = Stop | Length

  datatype Outcome = Finished(generated: seq<Token>, reason: StopReason) | Failed(error: Error)

  // ---------------------------------------------------------------------------------
  // Reference: the request alone on an empty cache, with no Forward failing.
  // ---------------------------------------------------------------------------------

  function Budget(p: Params): nat {
    if p.maxTokens <= 0 then 128 else p.maxTokens
  }

  /** What a step sees: the logits it was given at first, then those of the whole cache. */
  function Seen(l: seq<Token> -> Logits, first: Logits, base: seq<Token>, generated: seq<Token>): Logits {
    if generated == [] then first else l(base + generated)
  }

  /** Decoding over a cache that held `base` when it began. */
  function Decode(l: seq<Token> -> Logits, limits: Limits, p: Params, first: Logits, base: seq<Token>, prompt: seq<Token>, generated: seq<Token>, steps: nat): Outcome
    decreases steps
  {
    if steps == 0 then Finished(generated, Length) else
    var next := p.pick(Seen(l, first, base, generated), prompt, generated);
    if next < 0 || (limits.eos >= 0 && next == limits.eos) then Finished(generated, Stop) else
    if limits.contextLength > 0 && |prompt| + |generated| >= limits.contextLength then Failed(PositionOverflow) else
    var longer := generated + [next];
    if !p.accept(longer) || p.stops(longer) then Finished(longer, Stop) else
    Decode(l, limits, p, first, base, prompt, longer, steps - 1)
  }

  /** The whole request on an empty cache. */
  function FreshRun(l: seq<Token> -> Logits, limits: Limits, p: Params, encoded: Result<seq<Token>, Error>): Outcome {
    match encoded
    case Err(e) => Failed(e)
    case Ok(prompt) =>
      if limits.contextLength > 0 && |prompt| > limits.contextLength then Failed(PromptTooLong) else
      if prompt == [] then Failed(EmptyPrompt) else
      Decode(l, limits, p, l(prompt), prompt, prompt, [], Budget(p))
  }

  // ---------------------------------------------------------------------------------
  // What an answer is, without following the loop
  // ---------------------------------------------------------------------------------

  /** Every token is the sampler's choice for the logits of everything before it, and a position of its own. */
  ghost predicate Picked(l: seq<Token> -> Logits, limits: Limits, p: Params, first: Logits, base: seq<Token>, prompt: seq<Token>, g: seq<Token>) {
    forall i :: 0 <= i < |g| ==>
      && g[i] == p.pick(if i == 0 then first else l(base + g[..i]), prompt, g[..i])
      && g[i] >= 0 && g[i] != limits.eos
      && (limits.contextLength > 0 ==> |prompt| + i < limits.contextLength)
  }

  /** Callback and stop sequences let everything up to here pass. */
  ghost predicate WentOn(p: Params, g: seq<Token>, n: nat)
    requires n <= |g|
  {
    forall i :: 0 < i <= n ==> p.accept(g[..i]) && !p.stops(g[..i])
  }

  /** The sampler's choice behind g. */
  function Next(l: seq<Token> -> Logits, p: Params, first: Logits, base: seq<Token>, prompt: seq<Token>, g: seq<Token>): int {
    p.pick(if |g| == 0 then first else l(base + g), prompt, g)
  }

  /** g is a finished answer. "Length": all went on to the number of tokens asked for, 128 if none was. "Stop": before that the
      next choice was none or the end token, or the last token was refused or completed a stop sequence. */
  ghost predicate Answered(l: seq<Token> -> Logits, limits: Limits, p: Params, first: Logits, base: seq<Token>, prompt: seq<Token>,
                           g: seq<Token>, reason: StopReason) {
    var most := if p.maxTokens <= 0 then 128 else p.maxTokens;
    && Picked(l, limits, p, first, base, prompt, g)
    && match reason
       case Length => |g| == most && WentOn(p, g, |g|)
       case Stop =>
         || (|g| < most && WentOn(p, g, |g|) && (var next := Next(l, p, first, base, prompt, g); next < 0 || next == limits.eos))
         || (0 < |g| <= most && WentOn(p, g, |g| - 1) && (!p.accept(g) || p.stops(g)))
  }

  /** g is as far as the context reaches, and the sampler chose one more. */
  ghost predicate Overflowed(l: seq<Token> -> Logits, limits: Limits, p: Params, first: Logits, base: seq<Token>, prompt: seq<Token>, g: seq<Token>) {
    && Picked(l, limits, p, first, base, prompt, g) && WentOn(p, g, |g|)
    && |g| < (if p.maxTokens <= 0 then 128 else p.maxTokens)
    && limits.contextLength > 0 && |prompt| + |g| >= limits.contextLength
    && (var next := Next(l, p, first, base, prompt, g); next >= 0 && next != limits.eos)
  }

  lemma PickedMore(l: seq<Token> -> Logits, limits: Limits, p: Params, first: Logits, base: seq<Token>, prompt: seq<Token>, g: seq<Token>)
    requires Picked(l, limits, p, first, base, prompt, g) && WentOn(p, g, |g|)
    requires limits.contextLength > 0 ==> |prompt| + |g| < limits.contextLength
    ensures var next := Next(l, p, first, base, prompt, g);
      next >= 0 && next != limits.eos ==>
        && Picked(l, limits, p, first, base, prompt, g + [next]) && WentOn(p, g + [next], |g|)
        && (p.accept(g + [next]) && !p.stops(g + [next]) ==> WentOn(p, g + [next], |g| + 1))
  {
    var longer := g + [Next(l, p, first, base, prompt, g)];
    assert forall i :: 0 <= i <= |g| ==> longer[..i] == g[..i];
    assert g[..|g|] == g && longer[..|longer|] == longer;
  }

  /** From any point the loop ends in an answer or beyond the context. */
  lemma {:induction false} DecodeAnswers(l: seq<Token> -> Logits, limits: Limits, p: Params, first: Logits, base: seq<Token>, prompt: seq<Token>,
                                         g: seq<Token>, steps: nat)
    requires Picked(l, limits, p, first, base, prompt, g) && WentOn(p, g, |g|) && |g| + steps == Budget(p)
    ensures match Decode(l, limits, p, first, base, prompt, g, steps)
            case Finished(answer, reason) => Answered(l, limits, p, first, base, prompt, answer, reason)
            case Failed(e) => e == PositionOverflow && exists h :: Overflowed(l, limits, p, first, base, prompt, h)
    decreases steps
  {
    hide Picked, WentOn;
    var next := Next(l, p, first, base, prompt, g);
    var longer := g + [next];
    if steps > 0 && next >= 0 && next != limits.eos {
      if limits.contextLength > 0 && |prompt| + |g| >= limits.contextLength {
        assert Overflowed(l, limits, p, first, base, prompt, g);
        return;
      }
      PickedMore(l, limits, p, first, base, prompt, g);
      if p.accept(longer) && !p.stops(longer) {
        DecodeAnswers(l, limits, p, first, base, prompt, longer, steps - 1);
      }
    }
  }

  /** And it can end nowhere else. */
  lemma {:induction false} AnswerDecoded(l: seq<Token> -> Logits, limits: Limits, p: Params, first: Logits, base: seq<Token>, prompt: seq<Token>,
                                         g: seq<Token>, reason: StopReason, n: nat)
    requires n <= |g| && Answered(l, limits, p, first, base, prompt, g, reason) && WentOn(p, g, n)
    ensures Decode(l, limits, p, first, base, prompt, g[..n], Budget(p) - n) == Finished(g, reason)
    decreases |g| - n
  {
    assert g[..|g|] == g;
    if n < |g| {
      assert g[..n + 1] == g[..n] + [g[n]];
      if WentOn(p, g, n + 1) { AnswerDecoded(l, limits, p, first, base, prompt, g, reason, n + 1); }
    }
  }

  lemma {:induction false} OverflowDecoded(l: seq<Token> -> Logits, limits: Limits, p: Params, first: Logits, base: seq<Token>, prompt: seq<Token>,
                                           g: seq<Token>, n: nat)
    requires n <= |g| && Overflowed(l, limits, p, first, base, prompt, g)
    ensures Decode(l, limits, p, first, base, prompt, g[..n], Budget(p) - n) == Failed(PositionOverflow)
    decreases |g| - n
  {
    assert g[..|g|] == g;
    if n < |g| {
      assert g[..n + 1] == g[..n] + [g[n]];
      OverflowDecoded(l, limits, p, first, base, prompt, g, n + 1);
    }
  }

  /** The loop gives that answer and no other. */
  lemma DecodeIs(l: seq<Token> -> Logits, limits: Limits, p: Params, first: Logits, base: seq<Token>, prompt: seq<Token>, g: seq<Token>, reason: StopReason)
    ensures Decode(l, limits, p, first, base, prompt, [], Budget(p)) == Finished(g, reason) <==> Answered(l, limits, p, first, base, prompt, g, reason)
    ensures Decode(l, limits, p, first, base, prompt, [], Budget(p)) == Failed(PositionOverflow) <==>
      exists h :: Overflowed(l, limits, p, first, base, prompt, h)
    ensures Decode(l, limits, p, first, base, prompt, [], Budget(p)).Failed? ==>
      Decode(l, limits, p, first, base, prompt, [], Budget(p)) == Failed(PositionOverflow)
  {
    hide Decode, Picked;
    NothingPicked(l, limits, p, first, base, prompt);
    DecodeAnswers(l, limits, p, first, base, prompt, [], Budget(p));
    if Answered(l, limits, p, first, base, prompt, g, reason) {
      AnswerDecoded(l, limits, p, first, base, prompt, g, reason, 0);
    }
    if h :| Overflowed(l, limits, p, first, base, prompt, h) {
      OverflowDecoded(l, limits, p, first, base, prompt, h, 0);
    }
  }

  lemma NothingPicked(l: seq<Token> -> Logits, limits: Limits, p: Params, first: Logits, base: seq<Token>, prompt: seq<Token>)
    ensures Picked(l, limits, p, first, base, prompt, [])
  {
  }

  /** What a request alone is answered: all of FreshRun, said without it. */
  ghost predicate Deserved(l: seq<Token> -> Logits, limits: Limits, p: Params, encoded: Result<seq<Token>, Error>, out: Outcome) {
    match encoded
    case Err(e) => out == Failed(e)
    case Ok(prompt) =>
      if limits.contextLength > 0 && |prompt| > limits.contextLength then out == Failed(PromptTooLong)
      else if |prompt| == 0 then out == Failed(EmptyPrompt)
      else match out
        case Finished(g, reason) => Answered(l, limits, p, l(prompt), prompt, prompt, g, reason)
        case Failed(e) => e == PositionOverflow && exists h :: Overflowed(l, limits, p, l(prompt), prompt, prompt, h)
  }

  lemma FreshRunIs(l: seq<Token> -> Logits, limits: Limits, p: Params, encoded: Result<seq<Token>, Error>, out: Outcome)
    ensures out == FreshRun(l, limits, p, encoded) <==> Deserved(l, limits, p, encoded, out)
  {
    hide Decode, Answered, Overflowed;
    if encoded.Ok? {
      var prompt := encoded.value;
      forall g, reason
        ensures Decode(l, limits, p, l(prompt), prompt, prompt, [], Budget(p)) == Finished(g, reason) <==>
          Answered(l, limits, p, l(prompt), prompt, prompt, g, reason)
      {
        DecodeIs(l, limits, p, l(prompt), prompt, prompt, g, reason);
      }
      DecodeIs(l, limits, p, l(prompt), prompt, prompt, [], Stop);
    }
  }

  /** The outcome depends on the model only through the logits of what the cache held and its extensions:
      no other prompt that was ever run can matter. */
  lemma {:induction false} DecodeLocal(l: seq<Token> -> Logits, l': seq<Token> -> Logits, limits: Limits, p: Params, first: Logits, base: seq<Token>, prompt: seq<Token>, generated: seq<Token>, steps: nat)
    requires forall s :: base <= s ==> l(s) == l'(s)
    ensures Decode(l, limits, p, first, base, prompt, generated, steps) == Decode(l', limits, p, first, base, prompt, generated, steps)
    decreases steps
  {
    if steps > 0 {
      assert base <= base + generated;
      var next := p.pick(Seen(l, first, base, generated), prompt, generated);
      if next >= 0 {
        DecodeLocal(l, l', limits, p, first, base, prompt, generated + [next], steps - 1);
      }
    }
  }

  /** A finished request kept to its token budget and to the context length, and it says "length"
      only if it used the whole budget. */
  lemma {:induction false} DecodeBounds(l: seq<Token> -> Logits, limits: Limits, p: Params, first: Logits, base: seq<Token>, prompt: seq<Token>, generated: seq<Token>, steps: nat)
    requires limits.contextLength > 0 ==> |prompt| + |generated| <= limits.contextLength
    ensures var out := Decode(l, limits, p, first, base, prompt, generated, steps);
      if out.Finished? then
        && generated <= out.generated && |out.generated| <= |generated| + steps
        && (limits.contextLength > 0 ==> |prompt| + |out.generated| <= limits.contextLength)
        && (out.reason == Length ==> |out.generated| == |generated| + steps)
      else
        out.error == PositionOverflow && limits.contextLength > 0 && |prompt| + |generated| + steps > limits.contextLength
    decreases steps
  {
    if steps > 0 {
      var next := p.pick(Seen(l, first, base, generated), prompt, generated);
      if next >= 0 && !(limits.contextLength > 0 && |prompt| + |generated| >= limits.contextLength) {
        DecodeBounds(l, limits, p, first, base, prompt, generated + [next], steps - 1);
      }
    }
  }

  /** The cache was invisible to this request: its outcome is the one it deserves alone, unless one
      of the Forwards it issued failed, or the model has no logits at all for the prompt. */
  ghost predicate Transparent(l: seq<Token> -> Logits, limits: Limits, p: Params, encoded: Result<seq<Token>, Error>, out: Outcome, noFailure: bool) {
    || Deserved(l, limits, p, encoded, out)
    || (out == Failed(ForwardFailed) && !noFailure)
    || (out == Failed(NoCachedLogits) && encoded.Ok? && l(encoded.value) == [])
  }

  /** Step-by-step generation after prefill. */
  class GenerationSession {
    const model: Model
    const limits: Limits
    const promptTokens: seq<Token>
    // What the cache held when decoding began, and the logits given then: those of the prompt, if the cache was the
    // conversation's.
    ghost const base: seq<Token>
    ghost const first: Logits
    var generated: seq<Token>
    var logits: Logits
    var stopReason: StopReason

    constructor (model: Model, limits: Limits, promptTokens: seq<Token>, logits: Logits)
      ensures this.model == model && this.limits == limits && this.promptTokens == promptTokens
      ensures generated == [] && first == logits && base == model.kv && InStep()
    {
      this.model, this.limits, this.promptTokens := model, limits, promptTokens;
      base, first := model.kv, logits;
      generated, this.logits, stopReason := [], logits, Stop;
    }

    /** The cache holds what it began with followed by everything generated. */
    ghost predicate InStep()
      reads this, model
    {
      model.kv == base + generated && logits == Seen(model.l, first, base, generated)
    }

    /** One decode step; a negative token means end of sequence. */
    method DecodeStepWith(p: Params) returns (r: Result<int, Error>)
      requires InStep()
      modifies this, model`kv, model`calls, model`aligned
      ensures model.aligned == (old(model.aligned) && (model.calls > old(model.calls) ==> |base| == |promptTokens|))
      ensures stopReason == old(stopReason)
      ensures var next := p.pick(Seen(model.l, first, base, old(generated)), promptTokens, old(generated));
        if next < 0 || (limits.eos >= 0 && next == limits.eos) then
          r == Ok(-1) && InStep() && generated == old(generated) && model.calls == old(model.calls)
        else if limits.contextLength > 0 && |promptTokens| + |old(generated)| >= limits.contextLength then
          r == Err(PositionOverflow) && model.calls == old(model.calls)
        else
          && model.calls == old(model.calls) + 1
          && if model.fates(old(model.calls)).Succeeds?
             then r == Ok(next) && next >= 0 && InStep() && generated == old(generated) + [next]
             else r == Err(ForwardFailed)
    {
      var next := p.pick(logits, promptTokens, generated);
      if next < 0 { return Ok(-1); }
      if limits.eos >= 0 && next == limits.eos { return Ok(-1); }
      generated := generated + [next];
      var startPos := |promptTokens| + |generated| - 1;
      if limits.contextLength > 0 && startPos >= limits.contextLength { return Err(PositionOverflow); }
      assert base + generated == model.kv + [next];
      var out := model.Forward([next], startPos);
      match out {
        case Err(e) => return Err(e);
        case Ok(ls) => logits := ls;
      }
      return Ok(next);
    }

    /** Up to `maxTokens` decode steps, one Forward for every token. */
    method GenerateSteps(p: Params) returns (r: Result<(), Error>)
      requires InStep() && generated == []
      modifies this, model`kv, model`calls, model`aligned
      ensures |base| == |promptTokens| ==> model.aligned == old(model.aligned)
      ensures old(model.calls) <= model.calls <= old(model.calls) + Budget(p)
      ensures r.Ok? ==> model.calls == old(model.calls) + |generated|
      ensures r.Ok? ==> InStep() && Finished(generated, stopReason) == Decode(model.l, limits, p, first, base, promptTokens, [], Budget(p))
      ensures r.Ok? ==> Answered(model.l, limits, p, first, base, promptTokens, generated, stopReason)
      ensures r.Err? ==>
        || Failed(r.error) == Decode(model.l, limits, p, first, base, promptTokens, [], Budget(p))
        || (r.error == ForwardFailed && !NoFailure(model.fates, old(model.calls), model.calls))
    {
      hide Answered;
      stopReason := Stop;
      var max := Budget(p);
      forall g, reason
        ensures Finished(g, reason) == Decode(model.l, limits, p, first, base, promptTokens, [], max) ==>
          Answered(model.l, limits, p, first, base, promptTokens, g, reason)
      {
        DecodeIs(model.l, limits, p, first, base, promptTokens, g, reason);
      }
      for i := 0 to max
        invariant InStep() && stopReason == Stop && |generated| == i
        invariant |base| == |promptTokens| ==> model.aligned == old(model.aligned)
        invariant model.calls == old(model.calls) + i
        invariant Decode(model.l, limits, p, first, base, promptTokens, [], max) == Decode(model.l, limits, p, first, base, promptTokens, generated, max - i)
      {
        var id := DecodeStepWith(p);
        match id {
          case Err(e) => return Err(e);
          case Ok(token) =>
            if token < 0 { return Ok(()); }
            if !p.accept(generated) { return Ok(()); }
            if p.stops(generated) { return Ok(()); }
        }
      }
      stopReason := Length;
      return Ok(());
    }
  }

  // ---------------------------------------------------------------------------------
  // Conversations
  // ---------------------------------------------------------------------------------

  /** What a conversation holds after its prompt replaced `tokens` and the generation was then
      rolled back to the old count: Go reslices the backing array, so cells behind a shorter
      prompt come back. */
  function RolledBack(tokens: seq<Token>, prompt: seq<Token>): seq<Token> {
    if |prompt| >= |tokens| then prompt[..|tokens|] else prompt + tokens[|prompt|..]
  }

  function Min(a: nat, b: nat): nat { if a < b then a else b }

  /** A rollback after a failed generation restores the tokens from before the call exactly
      when prompt and tokens agree as far as both go; otherwise only their number. */
  lemma RolledBackRestores(tokens: seq<Token>, prompt: seq<Token>)
    ensures |RolledBack(tokens, prompt)| == |tokens|
    ensures RolledBack(tokens, prompt) == tokens <==>
            prompt[..Min(|prompt|, |tokens|)] == tokens[..Min(|prompt|, |tokens|)]
  {
    var n := Min(|prompt|, |tokens|);
    assert RolledBack(tokens, prompt)[..n] == prompt[..n];
    assert tokens == tokens[..n] + tokens[n..];
    assert RolledBack(tokens, prompt) == prompt[..n] + tokens[n..];
  }

  /** Reslicing an array whose first cells are the prompt and whose cells behind it still hold the
      old tokens. */
  lemma ResliceRollsBack(tokens: seq<Token>, prompt: seq<Token>, cells: seq<Token>)
    requires |tokens| <= |cells| && prompt <= cells
    requires |prompt| < |tokens| ==> cells[|prompt|..|tokens|] == tokens[|prompt|..]
    ensures cells[..|tokens|] == RolledBack(tokens, prompt)
  {
    if |prompt| < |tokens| {
      assert cells[..|tokens|] == cells[..|prompt|] + cells[|prompt|..|tokens|];
    }
  }

  /** A conversation that reuses the KV cache. The Go slice `tokens` is the backing array `buf`
      with its first `len` cells; nil logits are []. */
  class Conversation {
    const model: Model
    const limits: Limits
    var buf: array<Token>
    var len: nat
    var lastLogits: Logits

    ghost predicate Valid()
      reads this
    {
      len <= buf.Length
    }

    ghost function Tokens(): seq<Token>
      requires Valid()
      reads this, buf
    {
      buf[..len]
    }

    /** The model's cache holds this conversation, and the kept logits are the cache's. */
    ghost predicate Coherent()
      reads this, buf, model
    {
      && Valid()
      && model.kv == Tokens()
      && lastLogits == if Tokens() == [] then [] else model.l(Tokens())
    }

    constructor (model: Model, limits: Limits)
      ensures Valid() && fresh(buf) && this.model == model && this.limits == limits
      ensures Tokens() == [] && lastLogits == []
    {
      this.model, this.limits := model, limits;
      buf := new Token[0];
      len, lastLogits := 0, [];
    }

    /** Go's append to `tokens`: in place while the capacity lasts, else into a fresh array. */
    method Append(more: seq<Token>)
      requires Valid()
      modifies this`buf, this`len, buf
      ensures Valid() && Tokens() == old(Tokens()) + more
      ensures buf == old(buf) || (fresh(buf) && buf.Length >= len > old(buf.Length))
      ensures forall i :: len <= i < old(buf.Length) ==> i < buf.Length && buf[i] == old(buf[i])
    {
      var n := len + |more|;
      if n > buf.Length {
        var grown: nat :| grown >= n;
        var bigger := new Token[grown](i requires 0 <= i reads this, buf => if i < len <= buf.Length then buf[i] else 0);
        assert bigger[..len] == buf[..len];
        buf := bigger;
      }
      label before:
      forall i | 0 <= i < |more| { buf[len + i] := more[i]; }
      assert buf[..n] == old@before(buf[..len]) + more;
      len := n;
    }

    method StoreLogits(logits: Logits)
      modifies this`lastLogits
      ensures lastLogits == logits
    {
      lastLogits := if |logits| == 0 then [] else logits;
    }

    /** Clears history and cache; the backing array stays. */
    method Reset()
      requires Valid()
      modifies this`len, this`lastLogits, model`kv
      ensures Coherent() && Tokens() == []
    {
      len, lastLogits := 0, [];
      model.ResetCache();
    }

    /** Resets the cache and replays the tokens of this conversation into it. */
    method LoadKVCache() returns (r: Result<(), Error>)
      requires Valid()
      modifies this`lastLogits, model
      ensures model.calls == old(model.calls) + if Tokens() == [] then 0 else 1
      ensures Tokens() == old(Tokens())
      ensures model.aligned == old(model.aligned)
      ensures r.Ok? ==> Coherent() && model.replayFailed == old(model.replayFailed)
      ensures r.Err? ==> r.error == ForwardFailed && model.replayFailed && !NoFailure(model.fates, old(model.calls), model.calls)
      ensures r.Err? <==> Tokens() != [] && model.fates(old(model.calls)).Fails?
      ensures r.Err? ==> lastLogits == [] && model.fates(old(model.calls)) == Fails(model.kv)
    {
      model.ResetCache();
      lastLogits := [];
      if len == 0 { return Ok(()); }
      var saved := buf[..len];
      var out := model.Forward(saved, 0);
      assert [] + saved == saved;
      match out {
        case Err(e) =>
          model.replayFailed := true;
          return Err(e);
        case Ok(logits) =>
          StoreLogits(logits);
          return Ok(());
      }
    }

    /** Replays the first `tokenLen` cells of the backing array. A failing replay leaves no tokens over
        whatever the cache then holds. */
    method Rollback(tokenLen: nat)
      requires Valid() && tokenLen <= buf.Length
      modifies this, model
      ensures Valid() && (buf == old(buf) || fresh(buf))
      ensures model.calls == old(model.calls) + if tokenLen == 0 then 0 else 1
      ensures model.aligned == old(model.aligned)
      ensures old(model.replayFailed) ==> model.replayFailed
      ensures !model.replayFailed ==> Coherent() && Tokens() == old(buf[..tokenLen])
      ensures Coherent() <==> tokenLen == 0 || model.fates(old(model.calls)) in {Succeeds, Fails([])}
      ensures tokenLen > 0 && model.fates(old(model.calls)).Fails? ==>
        && model.replayFailed && Tokens() == [] && lastLogits == []
        && model.fates(old(model.calls)) == Fails(model.kv)
    {
      var saved := buf[..tokenLen];
      model.ResetCache();
      len, lastLogits := 0, [];
      if |saved| == 0 { return; }
      var out := model.Forward(saved, 0);
      assert [] + saved == saved;
      match out {
        case Err(_) =>
          model.replayFailed := true;
        case Ok(logits) =>
          var kept: nat :| kept >= |saved|;
          buf := new Token[kept](i requires 0 <= i => if i < |saved| then saved[i] else 0);
          len := |saved|;
          assert buf[..len] == saved;
          StoreLogits(logits);
      }
    }

    /** Element-wise comparison of the first `cached` tokens, as the source's loop does it. */
    method PrefixEqual(prompt: seq<Token>, cached: nat) returns (equal: bool)
      requires Valid()
      ensures equal == (cached <= len && cached <= |prompt| && buf[..cached] == prompt[..cached])
    {
      if cached > len || cached > |prompt| { return false; }
      for i := 0 to cached
        invariant buf[..i] == prompt[..i]
      {
        if buf[i] != prompt[i] {
          assert buf[..cached][i] != prompt[..cached][i];
          return false;
        }
      }
      return true;
    }

    /** Keeps the cached tokens when they are a prefix of the prompt, else resets. */
    method KeepPrefix(prompt: seq<Token>) returns (cached: nat)
      requires Valid()
      modifies this`len, this`lastLogits, model`kv
      ensures Valid() && cached == len <= |prompt| && Tokens() == prompt[..cached]
      ensures if old(Tokens()) <= prompt then model.kv == old(model.kv) && lastLogits == old(lastLogits) else model.kv == []
      ensures cached == if old(Tokens()) <= prompt then old(len) else 0
      ensures old(Coherent()) ==> Coherent()
    {
      cached := len;
      if cached > 0 {
        var same := PrefixEqual(prompt, cached);
        if cached > |prompt| || !same {
          Reset();
          cached := 0;
        }
      }
    }

    /** Runs what is new of the prompt over the cache; when the Forward fails the kept tokens are replayed. */
    method Prefill(newTokens: seq<Token>) returns (r: Result<Logits, Error>)
      requires Valid() && newTokens != []
      modifies this, buf, model
      ensures Valid() && (buf == old(buf) || fresh(buf))
      ensures old(model.calls) < model.calls && (old(model.replayFailed) ==> model.replayFailed)
      ensures model.aligned == (old(model.aligned) && old(len) == |old(model.kv)|)
      ensures r.Ok? <==> model.fates(old(model.calls)).Succeeds?
      ensures r.Ok? ==> model.calls == old(model.calls) + 1 && model.replayFailed == old(model.replayFailed)
      ensures r.Ok? ==> model.kv == old(model.kv) + newTokens && r.value == model.l(model.kv) == lastLogits
      ensures r.Ok? ==> Tokens() == old(Tokens()) + newTokens
      ensures r.Ok? ==> buf.Length >= old(buf.Length) && forall i :: len <= i < old(buf.Length) ==> buf[i] == old(buf[i])
      ensures r.Err? ==> r.error == ForwardFailed
      ensures r.Err? && !model.replayFailed ==> Coherent() && Tokens() == old(Tokens())
    {
      var prevLen := len;
      var out := model.Forward(newTokens, prevLen);
      match out {
        case Err(e) =>
          Rollback(prevLen);
          return Err(e);
        case Ok(logits) =>
          Append(newTokens);
          StoreLogits(logits);
          return Ok(logits);
      }
    }

    /** The prompt as a request sees it before any cache matters. */
    predicate Accepts(encoded: Result<seq<Token>, Error>) {
      encoded.Ok? && !(limits.contextLength > 0 && |encoded.value| > limits.contextLength)
    }

    /** Incremental prefill. From a coherent conversation, success means that cache and logits are
        those of the full prompt, however much of it was reused. Over any other cache the new tokens of an extended
        history join whatever is there. */
    method StartGeneration(encoded: Result<seq<Token>, Error>) returns (r: Result<GenerationSession, Error>)
      requires Valid()
      modifies this, buf, model
      ensures Valid() && (buf == old(buf) || fresh(buf))
      ensures model.calls >= old(model.calls)
      ensures old(model.replayFailed) ==> model.replayFailed
      ensures old(Coherent()) ==> model.aligned == old(model.aligned)
      ensures r.Ok? ==> fresh(r.value) && r.value.model == model && r.value.limits == limits
      ensures r.Ok? ==> model.replayFailed == old(model.replayFailed)
      ensures r.Ok? ==> Accepts(encoded) && encoded.value != [] && Tokens() == encoded.value
      ensures r.Ok? ==> r.value.promptTokens == encoded.value && r.value.generated == []
      ensures r.Ok? ==> model.calls == old(model.calls) + if old(Tokens()) == encoded.value then 0 else 1
      ensures r.Ok? ==> |old(Tokens())| <= buf.Length && buf[..|old(Tokens())|] == RolledBack(old(Tokens()), encoded.value)
      // Over any cache.
      ensures Accepts(encoded) && old(Tokens()) < encoded.value ==> (r.Ok? <==> model.fates(old(model.calls)).Succeeds?)
      ensures r.Ok? ==> r.value.InStep()
      ensures r.Ok? && old(Tokens()) < encoded.value ==>
        r.value.base == old(model.kv) + encoded.value[|old(Tokens())|..] && r.value.first == model.l(r.value.base)
      ensures r.Err? && r.error == ForwardFailed && encoded != Err(ForwardFailed) ==> model.fates(old(model.calls)).Fails? && model.calls > old(model.calls)
      // The error is the reference error, or a Forward failed, or the model has no logits to reuse.
      ensures old(Coherent()) && r.Err? ==>
        || (r.error == ForwardFailed && !NoFailure(model.fates, old(model.calls), model.calls))
        || (r.error == NoCachedLogits && encoded.Ok? && model.l(encoded.value) == [])
        || (forall p :: FreshRun(model.l, limits, p, encoded) == Failed(r.error))
      ensures old(Coherent()) && r.Ok? ==> Coherent() && r.value.base == encoded.value && r.value.first == model.l(encoded.value)
      ensures old(Coherent()) && r.Err? && !model.replayFailed ==>
        && Coherent()
        && (Tokens() == old(Tokens()) || (encoded.Ok? && !(old(Tokens()) <= encoded.value) && Tokens() == []))
    {
      if encoded.Err? { return Err(encoded.error); }
      var prompt := encoded.value;
      if limits.contextLength > 0 && |prompt| > limits.contextLength { return Err(PromptTooLong); }

      var cached := KeepPrefix(prompt);
      var newTokens := prompt[cached..];
      assert prompt[..cached] + newTokens == prompt;
      var logits;
      if |newTokens| > 0 {
        var out := Prefill(newTokens);
        if out.Err? { return Err(out.error); }
        logits := out.value;
      } else if cached == 0 {
        return Err(EmptyPrompt);
      } else {
        if |lastLogits| == 0 { return Err(NoCachedLogits); }
        logits := lastLogits;
      }
      assert buf[..len] == prompt;
      ResliceRollsBack(old(buf[..len]), prompt, buf[..]);
      var sess := new GenerationSession(model, limits, prompt, logits);
      r := Ok(sess);
    }

    /** Appends what was generated to the history. */
    method Commit(sess: GenerationSession)
      requires Valid()
      modifies this, buf
      ensures Valid() && (buf == old(buf) || fresh(buf))
      ensures Tokens() == old(Tokens()) + sess.generated && lastLogits == sess.logits
    {
      Append(sess.generated);
      StoreLogits(sess.logits);
    }

    /** The whole request on this conversation: what every handler does inside its critical section
        once the cache is loaded. Over the conversation's own cache it is transparent; over any other one an extended history
        is answered as if that cache were the prompt. */
    method Generate(encoded: Result<seq<Token>, Error>, p: Params) returns (out: Outcome)
      requires Valid()
      modifies this, buf, model
      ensures Valid() && (buf == old(buf) || fresh(buf))
      ensures model.calls >= old(model.calls)
      ensures old(model.replayFailed) ==> model.replayFailed
      ensures out.Finished? ==> Accepts(encoded) && Tokens() == encoded.value + out.generated
      // One Forward for what is new of the prompt, and one for every generated token.
      ensures out.Finished? ==>
        model.calls == old(model.calls) + |out.generated| + if old(Tokens()) == encoded.value then 0 else 1
      ensures old(Coherent()) ==> model.aligned == old(model.aligned)
      ensures old(Coherent()) ==>
        Transparent(model.l, limits, p, encoded, out, NoFailure(model.fates, old(model.calls), model.calls))
      ensures old(Coherent()) && !model.replayFailed ==> Coherent()
      // Over any cache.
      ensures Accepts(encoded) && old(Tokens()) < encoded.value && NoFailure(model.fates, old(model.calls), old(model.calls) + 1 + Budget(p)) ==>
        var base := old(model.kv) + encoded.value[|old(Tokens())|..];
        out == Decode(model.l, limits, p, model.l(base), base, encoded.value, [], Budget(p))
      // A failed request leaves the history alone; only after a prompt that did not extend it can
      // the history be empty or the mixture that Go's reslice gives.
      ensures old(Coherent()) && out.Failed? && !model.replayFailed ==>
        || Tokens() == old(Tokens())
        || (encoded.Ok? && !(old(Tokens()) <= encoded.value)
            && (Tokens() == [] || Tokens() == RolledBack(old(Tokens()), encoded.value)))
    {
      hide Deserved;
      forall answer ensures answer == FreshRun(model.l, limits, p, encoded) ==> Deserved(model.l, limits, p, encoded, answer) {
        FreshRunIs(model.l, limits, p, encoded, answer);
      }
      var snap := len;
      var started := StartGeneration(encoded);
      if started.Err? { return Failed(started.error); }
      var sess := started.value;
      var steps := sess.GenerateSteps(p);
      if steps.Err? {
        Rollback(snap);
        return Failed(steps.error);
      }
      Commit(sess);
      out := Finished(sess.generated, sess.stopReason);
    }
  }
}
