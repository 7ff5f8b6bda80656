/**
  The completion slot of the inference sidecar (backend/inference/ragp-slot.cpp): chunked
  prompt decode, greedy generation, and the brace-balance early stop.

  llama.cpp is an oracle. `Model` gives tokenisation, the pieces, and the greedily sampled
  next token as a function of everything decoded so far; a random sampler is any other such
  function. Whether one decode call succeeds is chosen freely; `faults` counts those that did
  not.
 */
module RagpSlot {
  import opened Common

  type Token = int

  /** The next token behind any tokens. */
  type Sampler = seq<Token> -> Token

  const BATCH_TOKENS: nat := 1024

  datatype Model = Model(
    tokenize: string -> seq<Token>,
    isEog: Token -> bool,
    piece: Token -> string,
    sample: Sampler)

  /** The model as it is sampled at a temperature: by `draw`, or greedily at none. */
  function Sampling(model: Model, temperature: real, draw: Sampler): Model {
    if temperature > 0.0 then model.(sample := draw) else model
  }

  /** One position of a decoded batch. */
  datatype Entry = Entry(token: Token, pos: nat, logits: bool)

  function Clamp(v: int, lo: int, hi: int): (r: int)
    requires lo <= hi
    ensures lo <= r <= hi && (lo <= v <= hi ==> r == v)
  {
    if v < lo then lo else if v > hi then hi else v
  }

  /** What decoding a prompt must feed the model: every token at its own position, logits
      asked for at the last one only. */
  function PromptEntries(tokens: seq<Token>): seq<Entry> {
    seq(|tokens|, i requires 0 <= i < |tokens| => Entry(tokens[i], i, i == |tokens| - 1))
  }

  /** Generated tokens fed back behind a prompt of `base` tokens. */
  function FedBack(base: nat, sampled: seq<Token>): (r: seq<Entry>)
    ensures |r| == |sampled|
  {
    if sampled == [] then [] else
    FedBack(base, sampled[..|sampled| - 1]) + [Entry(sampled[|sampled| - 1], base + |sampled| - 1, true)]
  }

  function Tokens(entries: seq<Entry>): seq<Token> {
    seq(|entries|, i requires 0 <= i < |entries| => entries[i].token)
  }

  /** A prompt and what was generated behind it. */
  function Fed(tokens: seq<Token>, sampled: seq<Token>): (r: seq<Entry>)
    ensures |r| == |tokens| + |sampled|
  {
    PromptEntries(tokens) + FedBack(|tokens|, sampled)
  }

  lemma {:induction false} FedBackAt(base: nat, sampled: seq<Token>, k: nat)
    requires k < |sampled|
    ensures FedBack(base, sampled)[k] == Entry(sampled[k], base + k, true)
  {
    if k < |sampled| - 1 {
      FedBackAt(base, sampled[..|sampled| - 1], k);
    }
  }

  lemma TokensFed(tokens: seq<Token>, sampled: seq<Token>)
    ensures Tokens(Fed(tokens, sampled)) == tokens + sampled
  {
    forall k | 0 <= k < |sampled| ensures FedBack(|tokens|, sampled)[k].token == sampled[k] {
      FedBackAt(|tokens|, sampled, k);
    }
  }

  lemma FedBackSnoc(base: nat, sampled: seq<Token>, t: Token)
    ensures FedBack(base, sampled + [t]) == FedBack(base, sampled) + [Entry(t, base + |sampled|, true)]
  {
    assert (sampled + [t])[..|sampled|] == sampled;
  }

  /** Every position once, in order, from 0. */
  predicate InOrder(entries: seq<Entry>) {
    forall i | 0 <= i < |entries| :: entries[i].pos == i
  }

  /** The model is fed positions 0, 1, 2, ... and asked for logits first at the last token
      of the prompt. */
  lemma FedInOrder(tokens: seq<Token>, sampled: seq<Token>)
    ensures InOrder(Fed(tokens, sampled))
    ensures forall i | 0 <= i < |tokens| + |sampled| :: Fed(tokens, sampled)[i].logits <==> i >= |tokens| - 1
  {
    forall i | |tokens| <= i < |tokens| + |sampled|
      ensures Fed(tokens, sampled)[i] == Entry(sampled[i - |tokens|], i, true)
    {
      FedBackAt(|tokens|, sampled, i - |tokens|);
    }
  }

  lemma FedSnoc(tokens: seq<Token>, sampled: seq<Token>, t: Token)
    ensures Fed(tokens, sampled + [t]) == Fed(tokens, sampled) + [Entry(t, |tokens| + |sampled|, true)]
  {
    assert (sampled + [t])[..|sampled|] == sampled;
    var before, fed, e := PromptEntries(tokens), FedBack(|tokens|, sampled), [Entry(t, |tokens| + |sampled|, true)];
    assert before + (fed + e) == (before + fed) + e;
  }

  /** The text of a list of tokens. */
  function Text(model: Model, tokens: seq<Token>): string {
    if tokens == [] then "" else Text(model, tokens[..|tokens| - 1]) + model.piece(tokens[|tokens| - 1])
  }

  /** The pieces one after the other, and nothing else. */
  lemma {:induction false} TextAppend(model: Model, a: seq<Token>, b: seq<Token>)
    ensures Text(model, a + b) == Text(model, a) + Text(model, b)
  {
    if b == [] {
      assert a + b == a;
    } else {
      var init, last := b[..|b| - 1], b[|b| - 1];
      TextAppend(model, a, init);
      assert (a + b)[..|a + b| - 1] == a + init;
      ConcatAssoc(Text(model, a), Text(model, init), model.piece(last));
    }
  }

  /** A brace was opened and as many were closed. */
  predicate JsonClosed(s: string) {
    multiset(s)['{'] > 0 && multiset(s)['{'] == multiset(s)['}']
  }

  /** A greedy generation under way: each token is the model's choice after the ones
      before, none ends generation, and no shorter run of pieces was closed JSON. */
  ghost predicate GreedyPrefix(model: Model, tokens: seq<Token>, jsonStop: bool, sampled: seq<Token>) {
    sampled == [] ||
    var before, last := sampled[..|sampled| - 1], sampled[|sampled| - 1];
    && GreedyPrefix(model, tokens, jsonStop, before)
    && last == model.sample(tokens + before) && !model.isEog(last)
    && (jsonStop ==> !JsonClosed(Text(model, before)))
  }

  /** Said of every step at once. */
  lemma {:induction false} GreedyPrefixAt(model: Model, tokens: seq<Token>, jsonStop: bool, sampled: seq<Token>, k: nat)
    requires GreedyPrefix(model, tokens, jsonStop, sampled) && k < |sampled|
    ensures sampled[k] == model.sample(tokens + sampled[..k]) && !model.isEog(sampled[k])
    ensures var text := multiset(Text(model, sampled[..k]));
            jsonStop ==> text['{'] == 0 || text['{'] != text['}']
  {
    if k < |sampled| - 1 {
      var before := sampled[..|sampled| - 1];
      GreedyPrefixAt(model, tokens, jsonStop, before, k);
      assert before[..k] == sampled[..k];
    }
  }

  /** A greedy generation that ended, and why: the cap, an end-of-generation token, or the
      first piece boundary at which the JSON is closed. */
  ghost predicate GreedyRun(model: Model, tokens: seq<Token>, cap: int, jsonStop: bool, sampled: seq<Token>) {
    && |sampled| <= cap
    && GreedyPrefix(model, tokens, jsonStop, sampled)
    && (|sampled| == cap
        || model.isEog(model.sample(tokens + sampled))
        || (jsonStop && JsonClosed(Text(model, sampled))))
  }

  /** What such a run comes to: never longer than the cap, and shorter only because the model
      chose to end, or because braces were opened and all of them closed. */
  lemma GreedyRunEnds(model: Model, tokens: seq<Token>, cap: int, jsonStop: bool, sampled: seq<Token>)
    requires GreedyRun(model, tokens, cap, jsonStop, sampled)
    ensures |sampled| <= cap
    ensures var text := multiset(Text(model, sampled));
            |sampled| < cap && !model.isEog(model.sample(tokens + sampled)) ==>
              jsonStop && text['{'] > 0 && text['{'] == text['}']
    ensures Tokens(Decoded(model, tokens, jsonStop, sampled)) == tokens + sampled
            || Tokens(Decoded(model, tokens, jsonStop, sampled)) + [sampled[|sampled| - 1]] == tokens + sampled
  {
    TokensFed(tokens, sampled);
    if jsonStop && JsonClosed(Text(model, sampled)) {
      TokensFed(tokens, sampled[..|sampled| - 1]);
      assert sampled[..|sampled| - 1] + [sampled[|sampled| - 1]] == sampled;
    }
  }

  lemma GreedyStep(model: Model, tokens: seq<Token>, jsonStop: bool, sampled: seq<Token>, t: Token)
    requires GreedyPrefix(model, tokens, jsonStop, sampled)
    requires t == model.sample(tokens + sampled) && !model.isEog(t)
    requires jsonStop ==> !JsonClosed(Text(model, sampled))
    ensures GreedyPrefix(model, tokens, jsonStop, sampled + [t])
  {
    assert (sampled + [t])[..|sampled|] == sampled;
  }

  /** Everything fed to the model by such a run: the token that closed the JSON is not. */
  ghost function Decoded(model: Model, tokens: seq<Token>, jsonStop: bool, sampled: seq<Token>): seq<Entry> {
    Fed(tokens, if jsonStop && JsonClosed(Text(model, sampled)) then sampled[..|sampled| - 1] else sampled)
  }

  lemma TextSnoc(model: Model, tokens: seq<Token>, t: Token)
    ensures Text(model, tokens + [t]) == Text(model, tokens) + model.piece(t)
  {
    assert (tokens + [t])[..|tokens|] == tokens;
  }

  /** The brace count of one piece, carried across pieces. */
  method ScanBraces(piece: string, depth: int, seen: bool) returns (braceDepth: int, seenOpenBrace: bool)
    ensures braceDepth == depth + multiset(piece)['{'] - multiset(piece)['}']
    ensures seenOpenBrace <==> seen || multiset(piece)['{'] > 0
  {
    braceDepth, seenOpenBrace := depth, seen;
    for i := 0 to |piece|
      invariant braceDepth == depth + multiset(piece[..i])['{'] - multiset(piece[..i])['}']
      invariant seenOpenBrace <==> seen || multiset(piece[..i])['{'] > 0
    {
      assert piece[..i + 1] == piece[..i] + [piece[i]];
      if piece[i] == '{' {
        braceDepth := braceDepth + 1;
        seenOpenBrace := true;
      } else if piece[i] == '}' {
        braceDepth := braceDepth - 1;
      }
    }
    assert piece[..|piece|] == piece;
  }

  /** The brace counters agree with the text they have seen. */
  predicate Tracks(depth: int, seen: bool, text: string) {
    depth + multiset(text)['}'] == multiset(text)['{'] && (seen <==> multiset(text)['{'] > 0)
  }

  /** Appends one piece to the text; `closed` asks generation to stop. */
  method AppendPiece(text: string, piece: string, jsonStop: bool, depth: int, seen: bool)
    returns (longer: string, braceDepth: int, seenOpenBrace: bool, closed: bool)
    requires jsonStop ==> Tracks(depth, seen, text) && !JsonClosed(text)
    ensures longer == text + piece
    ensures jsonStop ==> Tracks(braceDepth, seenOpenBrace, longer)
    ensures closed <==> jsonStop && JsonClosed(longer)
    ensures closed <==> jsonStop && multiset(longer)['{'] > 0 && multiset(longer)['{'] == multiset(longer)['}']
  {
    longer, braceDepth, seenOpenBrace, closed := text, depth, seen, false;
    if piece != "" {
      longer := longer + piece;
      if jsonStop {
        braceDepth, seenOpenBrace := ScanBraces(piece, depth, seen);
        closed := seenOpenBrace && braceDepth == 0;
      }
    } else {
      assert text + piece == text;
    }
  }

  class RagpSlot {
    var model: Model
    var loaded: bool
    var nCtx: nat
    var kv: seq<Entry>   // the cache: every entry decoded since it was cleared
    ghost var faults: nat   // decode calls that failed

    constructor (model: Model)
      ensures !loaded && kv == []
    {
      this.model := model;
      loaded, nCtx, kv, faults := false, 0, [], 0;
    }

    /** Loads a model with a clamped context window; failure leaves the slot unloaded,
        except that a missing file leaves it as it was. `works`: the model and its context can
        be made. */
    method Load(fileExists: bool, works: bool, model: Model, wanted: int) returns (ok: bool)
      modifies this
      ensures ok <==> fileExists && works
      ensures ok ==> loaded && this.model == model && 512 <= nCtx <= 131072
      ensures ok && 512 <= wanted <= 131072 ==> nCtx == wanted
      ensures !ok && fileExists ==> !loaded
      ensures !fileExists ==> !ok && loaded == old(loaded) && nCtx == old(nCtx) && this.model == old(this.model)
    {
      if !fileExists {
        return false;
      }
      loaded := false;
      ok := works;
      if ok {
        this.model, loaded, nCtx, kv := model, true, Clamp(wanted, 512, 131072), [];
      }
    }

    method Unload()
      modifies this
      ensures !loaded
    {
      loaded := false;
    }

    method ClearMemory()
      modifies this`kv
      ensures kv == []
    {
      kv := [];
    }

    /** llama_decode: takes 1 to 1024 tokens at the positions right behind the cache. */
    method Decode(batch: seq<Entry>) returns (ok: bool)
      requires 1 <= |batch| <= BATCH_TOKENS
      requires forall i | 0 <= i < |batch| :: batch[i].pos == |kv| + i
      modifies this`kv, this`faults
      ensures kv == if ok then old(kv) + batch else old(kv)
      ensures faults == if ok then old(faults) else old(faults) + 1
    {
      ok := *;
      if ok {
        kv := kv + batch;
      } else {
        faults := faults + 1;
      }
    }

    /** Chunked prompt decode. On failure a proper prefix was decoded. */
    method DecodePrompt(tokens: seq<Token>) returns (ok: bool)
      requires kv == []
      modifies this`kv, this`faults
      ensures ok <==> faults == old(faults)
      ensures ok ==> kv == PromptEntries(tokens)
      ensures !ok ==> kv < PromptEntries(tokens)
      ensures InOrder(kv)
    {
      var batch := new Entry[BATCH_TOKENS](_ => Entry(0, 0, false));
      var processed := 0;
      while processed < |tokens|
        invariant 0 <= processed <= |tokens| && faults == old(faults)
        invariant kv == PromptEntries(tokens)[..processed]
        modifies this`kv, this`faults, batch
      {
        var chunkSize := if BATCH_TOKENS < |tokens| - processed then BATCH_TOKENS else |tokens| - processed;
        var isLastChunk := processed + chunkSize >= |tokens|;
        for i := 0 to chunkSize
          invariant forall j | 0 <= j < i :: batch[j] == Entry(tokens[processed + j], processed + j, false)
          modifies batch
        {
          batch[i] := Entry(tokens[processed + i], processed + i, false);
        }
        if isLastChunk {
          batch[chunkSize - 1] := batch[chunkSize - 1].(logits := true);
        }
        ghost var part := PromptEntries(tokens)[processed..processed + chunkSize];
        forall j | 0 <= j < chunkSize ensures batch[j] == part[j] {
          assert part[j] == PromptEntries(tokens)[processed + j];
        }
        assert batch[..chunkSize] == part;
        ok := Decode(batch[..chunkSize]);
        if !ok {
          return false;
        }
        processed := processed + chunkSize;
      }
      ok := true;
    }

    /** The generation loop, on a decoded prompt. */
    method Generate(tokens: seq<Token>, genCap: nat, jsonStop: bool)
      returns (ok: bool, text: string, ghost sampled: seq<Token>)
      requires kv == PromptEntries(tokens)
      modifies this`kv, this`faults
      ensures ok <==> faults == old(faults)
      ensures InOrder(kv) && |kv| <= |tokens| + genCap
      ensures ok ==> text == Text(model, sampled) && GreedyRun(model, tokens, genCap, jsonStop, sampled)
      ensures ok ==> kv == Decoded(model, tokens, jsonStop, sampled)
    {
      text, sampled := "", [];
      var braceDepth, seenOpenBrace := 0, false;
      assert Tracks(0, false, "") && !JsonClosed("");
      hide Tracks, JsonClosed, InOrder;
      var gen := 0;
      while gen < genCap
        invariant 0 <= gen <= genCap && gen == |sampled| && faults == old(faults)
        invariant text == Text(model, sampled) && GreedyPrefix(model, tokens, jsonStop, sampled)
        invariant jsonStop ==> Tracks(braceDepth, seenOpenBrace, text) && !JsonClosed(text)
        invariant kv == Fed(tokens, sampled)
        modifies this`kv, this`faults
      {
        TokensFed(tokens, sampled);
        var newToken := model.sample(Tokens(kv));
        if model.isEog(newToken) {
          break;
        }
        GreedyStep(model, tokens, jsonStop, sampled, newToken);
        TextSnoc(model, sampled, newToken);
        ghost var fed := sampled;
        sampled := sampled + [newToken];
        var closed;
        text, braceDepth, seenOpenBrace, closed :=
          AppendPiece(text, model.piece(newToken), jsonStop, braceDepth, seenOpenBrace);
        if closed {
          FedInOrder(tokens, fed);
          assert sampled[..|sampled| - 1] == fed;
          return true, text, sampled;
        }
        ok := Decode([Entry(newToken, |tokens| + gen, true)]);
        if !ok {
          FedInOrder(tokens, fed);
          return false, text, sampled;
        }
        FedSnoc(tokens, fed, newToken);
        gen := gen + 1;
      }
      FedInOrder(tokens, sampled);
      ok := true;
    }

    /** One greedy completion. `sampled` are the tokens whose pieces make up the text. It comes
        off unless the slot is not loaded, the prompt gives no token or does not fit, or a
        decode call fails. */
    method CompletePrompt(prompt: string, maxTokens: int, jsonStop: bool)
      returns (ok: bool, text: string, ghost sampled: seq<Token>)
      modifies this`kv, this`faults
      ensures var n := |model.tokenize(prompt)|;
              ok <==> loaded && 0 < n && n + Clamp(maxTokens, 1, 1024) <= nCtx && faults == old(faults)
      ensures ok ==> loaded && text == Text(model, sampled)
      ensures ok ==> GreedyRun(model, model.tokenize(prompt), Clamp(maxTokens, 1, 1024), jsonStop, sampled)
      ensures ok ==> kv == Decoded(model, model.tokenize(prompt), jsonStop, sampled)
      ensures loaded ==> InOrder(kv) && |kv| <= nCtx
      ensures loaded && |model.tokenize(prompt)| + Clamp(maxTokens, 1, 1024) > nCtx ==> !ok && kv == []
    {
      text, sampled := "", [];
      if !loaded {
        return false, text, sampled;
      }
      var genCap := Clamp(maxTokens, 1, 1024);
      ClearMemory();
      var tokens := model.tokenize(prompt);
      if |tokens| <= 0 {
        return false, text, sampled;
      }
      if |tokens| + genCap > nCtx {
        return false, text, sampled;
      }
      ok := DecodePrompt(tokens);
      if !ok {
        return false, text, sampled;
      }
      ok, text, sampled := Generate(tokens, genCap, jsonStop);
    }
  }
}
