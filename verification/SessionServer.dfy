/** Many sessions, completions and embeddings over the one KV cache of a model. */
module SessionServer {
  import opened Wrappers
  import opened ConversationCache

  class Server {
    const model: Model
    const limits: Limits
    var sessions: map<string, Conversation>
    // The conversation whose tokens match the model's cache; null if stale or empty.
    var kvConv: Conversation?
    // Every conversation handed out so far.
    ghost var known: set<Conversation>

    ghost predicate Valid()
      reads this, known
    {
      && sessions.Values <= known
      && (kvConv != null ==> kvConv in known)
      && (forall c <- known :: c.Valid() && c.model == model && c.limits == limits)
      && (forall c <- known, d <- known :: c != d ==> c.buf != d.buf)
      && (forall s <- sessions, t <- sessions :: s != t ==> sessions[s] != sessions[t])
    }

    /** Whoever owns the cache owns exactly what is in it. */
    ghost predicate CacheOwned()
      requires Valid()
      reads this, known, (set c <- known :: c.buf), model
    {
      kvConv != null ==> kvConv.Coherent()
    }

    constructor (model: Model, limits: Limits)
      ensures Valid() && this.model == model && this.limits == limits
      ensures known == {} && sessions == map[] && kvConv == null
    {
      this.model, this.limits := model, limits;
      sessions, kvConv, known := map[], null, {};
    }

    /** The conversation of a session, or a fresh one. An empty id is a one-shot request. `context`: the engine gave a
        context for a new conversation; without one a new id is refused and a known one served. */
    method ConversationForSession(id: string, context: bool) returns (conv: Conversation?)
      requires Valid()
      modifies this`sessions, this`known
      ensures Valid()
      ensures conv == null <==> !context && !(id != "" && id in old(sessions))
      ensures conv == null ==> known == old(known) && sessions == old(sessions)
      ensures conv != null ==> known == old(known) + {conv}
      ensures conv != null ==> sessions == if id == "" then old(sessions) else old(sessions)[id := conv]
      ensures conv != null ==>
        if id != "" && id in old(sessions) then conv == old(sessions)[id]
        else fresh(conv) && fresh(conv.buf) && conv.Tokens() == []
      ensures old(CacheOwned()) ==> CacheOwned()
    {
      if id != "" && id in sessions {
        return sessions[id];
      }
      if !context { return null; }
      var made := new Conversation(model, limits);
      conv := made;
      known := known + {made};
      if id != "" {
        sessions := sessions[id := made];
      }
    }

    /** Loads the cache for `conv` unless it is loaded already. When the replay fails, the old owner
        stays: ownership survives exactly if there was none, or if the failing Forward happened to
        leave the old owner's tokens. */
    method EnsureKV(conv: Conversation) returns (r: Result<(), Error>)
      requires Valid() && conv in known
      modifies this`kvConv, conv`lastLogits, model
      ensures Valid()
      ensures model.aligned == old(model.aligned)
      ensures model.calls == old(model.calls) + if old(kvConv) == conv || conv.Tokens() == [] then 0 else 1
      ensures conv.Tokens() == old(conv.Tokens())
      ensures r.Ok? ==> model.kv == if old(kvConv) == conv then old(model.kv) else conv.Tokens()
      ensures r.Ok? ==> kvConv == conv && model.replayFailed == old(model.replayFailed)
      ensures r.Ok? && (old(kvConv) == conv ==> old(conv.Coherent())) ==> conv.Coherent()
      ensures r.Err? <==> old(kvConv) != conv && conv.Tokens() != [] && model.fates(old(model.calls)).Fails?
      ensures r.Err? ==> r.error == ForwardFailed && model.replayFailed && kvConv == old(kvConv)
      ensures r.Err? ==> model.fates(old(model.calls)) == Fails(model.kv)
      ensures r.Err? ==> !NoFailure(model.fates, old(model.calls), model.calls)
      ensures old(CacheOwned()) ==> (CacheOwned() <==>
        r.Ok? || old(kvConv) == null || model.fates(old(model.calls)) == Fails(old(kvConv.Tokens())))
    {
      if kvConv == conv { return Ok(()); }
      var loaded := conv.LoadKVCache();
      if loaded.Err? { return Err(loaded.error); }
      kvConv := conv;
      return Ok(());
    }

    /** The critical section of a chat or completion request. While the cache is owned it is transparent. */
    method Infer(conv: Conversation, encoded: Result<seq<Token>, Error>, p: Params) returns (out: Outcome)
      requires Valid() && conv in known
      modifies this`kvConv, conv, conv.buf, model
      ensures Valid()
      ensures model.calls >= old(model.calls)
      ensures conv.buf == old(conv.buf) || fresh(conv.buf)
      ensures old(model.replayFailed) ==> model.replayFailed
      ensures old(CacheOwned()) ==> model.aligned == old(model.aligned)
      ensures old(CacheOwned()) && !model.replayFailed ==> CacheOwned() && kvConv == conv
      ensures old(CacheOwned()) ==>
        Transparent(model.l, limits, p, encoded, out, NoFailure(model.fates, old(model.calls), model.calls))
      ensures out.Finished? ==> encoded.Ok? && conv.Tokens() == encoded.value + out.generated && kvConv == conv
      // One Forward for a replay, one for what is new of the prompt, one for every generated token.
      ensures out.Finished? ==>
        var replay := if old(kvConv) == conv || old(conv.Tokens()) == [] then 0 else 1;
        model.calls == old(model.calls) + replay + |out.generated| + if old(conv.Tokens()) == encoded.value then 0 else 1
      ensures forall c <- known :: c != conv ==> c.Tokens() == old(c.Tokens())
      // The answer over whatever is in the cache, where nothing had to be replayed.
      ensures
        && (old(kvConv) == conv || old(conv.Tokens()) == []) && conv.Accepts(encoded) && old(conv.Tokens()) < encoded.value
        && NoFailure(model.fates, old(model.calls), old(model.calls) + 1 + Budget(p))
        ==>
        var base := (if old(kvConv) == conv then old(model.kv) else []) + encoded.value[|old(conv.Tokens())|..];
        out == Decode(model.l, limits, p, model.l(base), base, encoded.value, [], Budget(p))
      // A failed replay answers with its error and leaves the owner it found over what the Forward left.
      ensures old(kvConv) != conv && old(conv.Tokens()) != [] && model.fates(old(model.calls)).Fails? ==>
        && out == Failed(ForwardFailed) && kvConv == old(kvConv) && conv.Tokens() == old(conv.Tokens())
        && model.calls == old(model.calls) + 1 && model.fates(old(model.calls)) == Fails(model.kv)
    {
      var loaded := EnsureKV(conv);
      if loaded.Err? { return Failed(loaded.error); }
      out := conv.Generate(encoded, p);
    }

    /** The critical section of an embeddings request: Embed clears the cache and leaves its own
        rows, whatever they are, one input after the other. */
    method Embed(leftovers: seq<seq<Token>>)
      requires Valid()
      modifies this`kvConv, model`kv
      ensures Valid() && CacheOwned() && kvConv == null
      ensures forall c <- known :: c.Tokens() == old(c.Tokens())
    {
      kvConv := null;
      for i := 0 to |leftovers|
        invariant kvConv == null
      {
        model.kv := leftovers[i];
      }
    }
  }

  /** What clients do, in any interleaving. A lookup happens outside the critical section, so its
      conversation may be used by a later Infer after any number of other steps. */
  datatype Event =
    | Lookup(id: string, context: bool)
    | Infer(handle: nat, encoded: Result<seq<Token>, Error>, p: Params)
    | Embed(leftovers: seq<seq<Token>>)

  /** An answer, with the numbers of the Forwards that were issued for it. */
  datatype Output = NoOutput | Handle | Answer(out: Outcome, from: nat, to: nat)

  ghost predicate Faithful(l: seq<Token> -> Logits, fates: nat -> Fate, limits: Limits, event: Event, output: Output) {
    output.Answer? ==>
      && event.Infer?
      && Transparent(l, limits, event.p, event.encoded, output.out, NoFailure(fates, output.from, output.to))
  }

  /** One event. Conversations and their buffers only ever grow by fresh objects. */
  method Step(s: Server, handles: seq<Conversation>, event: Event) returns (longer: seq<Conversation>, output: Output)
    requires s.Valid() && s.CacheOwned() && forall c <- handles :: c in s.known
    modifies s`sessions, s`known, s`kvConv, s.model, s.known, set c <- s.known :: c.buf
    ensures s.Valid() && forall c <- longer :: c in s.known
    ensures s.model.aligned == old(s.model.aligned)
    ensures forall c <- s.known :: if c in old(s.known) then fresh(c.buf) || c.buf == old(c.buf) else fresh(c) && fresh(c.buf)
    ensures old(s.model.replayFailed) ==> s.model.replayFailed
    ensures !s.model.replayFailed ==> s.CacheOwned()
    ensures |longer| == |handles| + if output.Handle? then 1 else 0
    ensures event.Lookup? && event.context ==> output.Handle?
    ensures event.Infer? && event.handle < |handles| ==> output.Answer?
    ensures Faithful(s.model.l, s.model.fates, s.limits, event, output)
  {
    longer, output := handles, NoOutput;
    match event {
      case Lookup(id, context) =>
        var conv := s.ConversationForSession(id, context);
        if conv != null { longer, output := longer + [conv], Handle; }
      case Infer(handle, encoded, p) =>
        if handle < |handles| {
          var conv := handles[handle];
          assert conv in handles;
          var from := s.model.calls;
          var out := s.Infer(conv, encoded, p);
          output := Answer(out, from, s.model.calls);
        }
      case Embed(leftovers) =>
        s.Embed(leftovers);
    }
  }

  /** Conversations handed out so far. */
  function Handles(outputs: seq<Output>): nat {
    if outputs == [] then 0 else Handles(outputs[..|outputs| - 1]) + if outputs[|outputs| - 1].Handle? then 1 else 0
  }

  /** Serves events until they end or a replay fails. Every answer given on the way, the one of the
      failing step included, is the answer the request would have had alone on an empty cache. */
  method Serve(s: Server, events: seq<Event>) returns (outputs: seq<Output>)
    requires s.Valid() && s.known == {} && s.kvConv == null
    requires s.model.aligned && !s.model.replayFailed
    modifies s, s.model
    ensures s.Valid() && s.model.aligned && |outputs| <= |events|
    ensures !s.model.replayFailed ==> |outputs| == |events| && s.CacheOwned()
    ensures forall i :: 0 <= i < |outputs| ==> Faithful(s.model.l, s.model.fates, s.limits, events[i], outputs[i])
    ensures forall i :: 0 <= i < |outputs| && events[i].Lookup? && events[i].context ==> outputs[i].Handle?
    ensures forall i :: 0 <= i < |outputs| && events[i].Infer? && events[i].handle < Handles(outputs[..i]) ==> outputs[i].Answer?
  {
    outputs := [];
    var handles: seq<Conversation> := [];
    while |outputs| < |events| && !s.model.replayFailed
      invariant |outputs| <= |events| && |handles| == Handles(outputs)
      invariant s.Valid() && s.model.aligned
      invariant forall c <- s.known :: fresh(c) && fresh(c.buf)
      invariant !s.model.replayFailed ==> s.CacheOwned()
      invariant forall c <- handles :: c in s.known
      invariant forall i :: 0 <= i < |outputs| ==> Faithful(s.model.l, s.model.fates, s.limits, events[i], outputs[i])
      invariant forall i :: 0 <= i < |outputs| && events[i].Lookup? && events[i].context ==> outputs[i].Handle?
      invariant forall i :: 0 <= i < |outputs| && events[i].Infer? && events[i].handle < Handles(outputs[..i]) ==> outputs[i].Answer?
    {
      ghost var was := outputs;
      var output;
      handles, output := Step(s, handles, events[|outputs|]);
      outputs := outputs + [output];
      assert outputs[..|was|] == was;
      assert forall i :: 0 <= i < |was| ==> outputs[..i] == was[..i];
    }
  }

  // ---------------------------------------------------------------------------------
  // A failed replay
  // ---------------------------------------------------------------------------------

  /** A model with one telling cache, and a fifth Forward that fails and leaves token 9. */
  function TellingLogits(kv: seq<Token>): Logits { if kv == [9, 3] then [1.0] else [0.0] }

  function FifthFails(call: nat): Fate { if call == 4 then Fails([9]) else Succeeds }

  /** One token a request; the token tells which logits were seen. */
  const ASK: Params := Params(1, (ls, prompt, generated) => if ls == [1.0] then 8 else 7, generated => true, generated => false)

  lemma Told(base: seq<Token>, prompt: seq<Token>)
    ensures Decode(TellingLogits, Limits(0, -1), ASK, TellingLogits(base), base, prompt, [], Budget(ASK))
      == Finished([if base == [9, 3] then 8 else 7], Length)
  {
  }

  /** The first request of a session, while Forwards succeed. */
  method FirstAsk(s: Server, conv: Conversation, token: Token)
    requires s.Valid() && conv in s.known && conv.Tokens() == [] && s.kvConv != conv
    requires s.model.l == TellingLogits && s.model.fates == FifthFails && s.limits == Limits(0, -1) && s.model.calls <= 2
    modifies s`kvConv, conv, conv.buf, s.model
    ensures s.Valid() && s.kvConv == conv && conv.Tokens() == [token, 7] && s.model.calls == old(s.model.calls) + 2
    ensures conv.buf == old(conv.buf) || fresh(conv.buf)
    ensures forall c <- s.known :: c != conv ==> c.Tokens() == old(c.Tokens())
  {
    hide Decode, Transparent, TellingLogits, Server.CacheOwned, FreshRun;
    Told([token], [token]);
    assert [] + [token][0..] == [token];
    var _ := s.Infer(conv, Ok([token]), ASK);
  }

  /** Two sessions. The replay for the first one fails and leaves the cache to neither, but the second one is still taken for
      its owner; when it goes on, with no Forward of its own failing, the answer is wrong. */
  method MisledByFailedReplay() returns (answer: Outcome)
    ensures answer == Finished([8], Length)
    ensures FreshRun(TellingLogits, Limits(0, -1), ASK, Ok([2, 7, 3])) == Finished([7], Length)
  {
    hide Decode, Transparent, TellingLogits, Server.CacheOwned;
    var model := new Model(TellingLogits, FifthFails);
    var s := new Server(model, Limits(0, -1));
    var a := s.ConversationForSession("a", true);
    var b := s.ConversationForSession("b", true);
    FirstAsk(s, a, 1);
    FirstAsk(s, b, 2);
    var refused := s.Infer(a, Ok([1, 7, 3]), ASK);
    assert refused == Failed(ForwardFailed) && s.kvConv == b && model.kv == [9];
    answer := GoesOn(s, b);
    Told([2, 7, 3], [2, 7, 3]);
  }

  method GoesOn(s: Server, b: Conversation) returns (answer: Outcome)
    requires s.Valid() && b in s.known && s.kvConv == b && b.Tokens() == [2, 7] && s.model.kv == [9] && s.model.calls == 5
    requires s.model.l == TellingLogits && s.model.fates == FifthFails && s.limits == Limits(0, -1)
    modifies s`kvConv, b, b.buf, s.model
    ensures answer == Finished([8], Length)
  {
    hide Decode, Transparent, TellingLogits, Server.CacheOwned, FreshRun;
    assert [9] + [2, 7, 3][2..] == [9, 3];
    Told([9, 3], [2, 7, 3]);
    answer := s.Infer(b, Ok([2, 7, 3]), ASK);
  }
}
