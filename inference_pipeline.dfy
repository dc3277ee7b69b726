/**
 * The inference pipeline (`InferencePipeline`): a loader and a model built
 * from it, the character tokenizer, and the two generation loops.
 *
 * A C++ `char` is taken to be a signed byte, so the prompt is a sequence of
 * values in `-128 .. 127`. The sampler behind `generate_next_token` is the
 * `sample` parameter of the model's next-token function; the `k`-th call of
 * one generation uses its draw number `k`.
 */
module Pipeline {
  import opened Wrappers
  import opened Tensors
  import opened WeightStore
  import opened Model
  import opened Block

  /** A C++ `char`: a signed byte. */
  type SChar = x: int | -128 <= x < 128

  /** The id after which both loops stop. */
  const EndOfSequence := 2

  /** `detokenize` keeps only ids below this bound. */
  const ByteBound := 256

  /** `static_cast<char>` of an `int`: reduction modulo 256 into the signed range. */
  function ToChar(t: int): (c: SChar)
    ensures -128 <= t < 128 ==> c == t
    ensures (c - t) % 256 == 0
  {
    (t + 128) % 256 - 128
  }

  /** The ids `tokenize` produces: each character as an `int`, in order. */
  function TokenIds(text: seq<SChar>): (ids: seq<int>)
    ensures |ids| == |text|
  {
    seq(|text|, i requires 0 <= i < |text| => text[i] as int)
  }

  /** The text `detokenize` appends for one id. */
  function Emit(t: int): seq<SChar>
  {
    if t < ByteBound then [ToChar(t)] else []
  }

  /** The text `detokenize` builds: the ids from first to last, each appending its character. */
  function Text(ids: seq<int>): seq<SChar>
  {
    if ids == [] then [] else Text(ids[..|ids| - 1]) + Emit(ids[|ids| - 1])
  }

  /** The ids below 256, in their order. */
  function Kept(ids: seq<int>): (kept: seq<int>)
    ensures forall t :: t in kept ==> t in ids && t < ByteBound
  {
    if ids == [] then []
    else
      var last := ids[|ids| - 1];
      Kept(ids[..|ids| - 1]) + (if last < ByteBound then [last] else [])
  }

  /** Each id turned into its character. */
  function Chars(ids: seq<int>): (text: seq<SChar>)
    ensures |text| == |ids|
  {
    seq(|ids|, k requires 0 <= k < |ids| => ToChar(ids[k]))
  }

  lemma CharsAppend(a: seq<int>, b: seq<int>)
    ensures Chars(a + b) == Chars(a) + Chars(b)
  {
  }

  /** Detokenizing a concatenation concatenates the texts. */
  lemma {:induction false} TextAppend(a: seq<int>, b: seq<int>)
    ensures Text(a + b) == Text(a) + Text(b)
    decreases |b|
  {
    if b == [] {
      assert a + b == a;
    } else {
      var c, t := b[..|b| - 1], b[|b| - 1];
      TextAppend(a, c);
      assert (a + b)[..|a + b| - 1] == a + c && (a + b)[|a + b| - 1] == t;
      assert Text(a + b) == Text(a + c) + Emit(t);
    }
  }

  /**
   * `detokenize` drops every id of 256 or more and turns each of the others,
   * in order, into its character.
   */
  lemma {:induction false} TextKeepsSmallIds(ids: seq<int>)
    ensures Text(ids) == Chars(Kept(ids))
  {
    if ids != [] {
      var front, last := ids[..|ids| - 1], ids[|ids| - 1];
      TextKeepsSmallIds(front);
      CharsAppend(Kept(front), if last < ByteBound then [last] else []);
    }
  }

  /** Turning a text into ids and back gives the text. */
  lemma {:induction false} TextOfTokenIds(text: seq<SChar>)
    ensures Text(TokenIds(text)) == text
  {
    if text != [] {
      var front := text[..|text| - 1];
      TextOfTokenIds(front);
      assert TokenIds(text)[..|text| - 1] == TokenIds(front);
    }
  }

  /** `tokenize`: one id per character, pushed in order. */
  method Tokenize(text: seq<SChar>) returns (ids: seq<int>)
    ensures ids == TokenIds(text)
  {
    ids := [];
    for i := 0 to |text|
      invariant ids == TokenIds(text[..i])
    {
      assert TokenIds(text[..i + 1]) == TokenIds(text[..i]) + [text[i] as int];
      ids := ids + [text[i] as int];
    }
    assert text[..|text|] == text;
  }

  /** `detokenize`: the characters of the ids below 256, appended in order. */
  method Detokenize(ids: seq<int>) returns (text: seq<SChar>)
    ensures text == Text(ids)
  {
    text := [];
    for i := 0 to |ids|
      invariant text == Text(ids[..i])
    {
      assert ids[..i + 1][..i] == ids[..i];
      if ids[i] < ByteBound {
        text := text + [ToChar(ids[i])];
      }
    }
    assert ids[..|ids|] == ids;
  }

  /** The texts handed to the callback, one per id, concatenated. */
  function Concat(pieces: seq<seq<SChar>>): seq<SChar>
  {
    if pieces == [] then [] else Concat(pieces[..|pieces| - 1]) + pieces[|pieces| - 1]
  }

  /** What `generate_stream` passes to the callback for each produced id: `detokenize({id})`. */
  function Pieces(ids: seq<int>): (pieces: seq<seq<SChar>>)
    ensures |pieces| == |ids|
  {
    seq(|ids|, k requires 0 <= k < |ids| => Text([ids[k]]))
  }

  /** The callback texts, put together, are the detokenized produced ids. */
  lemma {:induction false} PiecesMakeText(ids: seq<int>)
    ensures Concat(Pieces(ids)) == Text(ids)
  {
    if ids != [] {
      var front := ids[..|ids| - 1];
      PiecesMakeText(front);
      assert Pieces(ids)[..|ids| - 1] == Pieces(front);
      TextAppend(front, [ids[|ids| - 1]]);
      assert front + [ids[|ids| - 1]] == ids;
    }
  }

  /** One more produced id adds one callback text. */
  lemma PiecesAppend(out: seq<int>, from: nat, t: int)
    requires from <= |out|
    ensures Pieces((out + [t])[from..]) == Pieces(out[from..]) + [Text([t])]
  {
    assert (out + [t])[from..] == out[from..] + [t];
  }

  /** What each step feeds the model: `generate` the whole sequence, `generate_stream` its last id. */
  datatype Feed = WholeSequence | LastId

  function ModelInput(feed: Feed, ids: seq<int>): seq<int>
    requires feed == LastId ==> |ids| > 0
  {
    if feed == WholeSequence then ids else [ids[|ids| - 1]]
  }

  /** A next-token function: the draw number and the model's input to the id or the error raised. */
  type NextToken = (nat, seq<int>) -> Result<int, TensorError>

  /**
   * The generation loop from the sequence `ids`, with `steps` model calls
   * left and the next draw numbered `draw`: each call's id is appended, a
   * call that raises ends the loop with its error, and the end-of-sequence
   * id ends it after being appended. The result is the sequence reached
   * and how the loop ended.
   */
  function Run(next: NextToken, feed: Feed, ids: seq<int>, steps: nat, draw: nat): (r: (seq<int>, Outcome<TensorError>))
    requires feed == LastId && steps > 0 ==> |ids| > 0
    ensures |ids| <= |r.0|
    decreases steps
  {
    if steps == 0 then (ids, Pass)
    else
      match next(draw, ModelInput(feed, ids))
      case Failure(e) => (ids, Fail(e))
      case Success(t) =>
        if t == EndOfSequence then (ids + [t], Pass)
        else Run(next, feed, ids + [t], steps - 1, draw + 1)
  }

  /** The loop never changes the ids it starts from and makes at most `steps` model calls. */
  lemma {:induction false} RunKeepsPrefix(next: NextToken, feed: Feed, ids: seq<int>, steps: nat, draw: nat)
    requires feed == LastId && steps > 0 ==> |ids| > 0
    ensures var out := Run(next, feed, ids, steps, draw).0;
      |ids| <= |out| <= |ids| + steps && out[..|ids|] == ids
    decreases steps
  {
    if steps > 0 {
      var t := next(draw, ModelInput(feed, ids));
      if t.Success? && t.value != EndOfSequence {
        var longer := ids + [t.value];
        RunKeepsPrefix(next, feed, longer, steps - 1, draw + 1);
        var out := Run(next, feed, ids, steps, draw).0;
        assert out[..|longer|][..|ids|] == out[..|ids|];
      }
    }
  }

  /**
   * The loop stops right after the end-of-sequence id: no id it appends
   * before the last one is that id, and when it ends without error before
   * using all its calls, it has appended an id and the last is that id.
   */
  lemma {:induction false} RunStopsAtEndOfSequence(next: NextToken, feed: Feed, ids: seq<int>, steps: nat, draw: nat)
    requires feed == LastId && steps > 0 ==> |ids| > 0
    ensures var (out, outcome) := Run(next, feed, ids, steps, draw);
      && (forall k :: |ids| <= k < |out| - 1 ==> out[k] != EndOfSequence)
      && (outcome.Pass? && |out| < |ids| + steps ==> |out| > |ids| && out[|out| - 1] == EndOfSequence)
    decreases steps
  {
    if steps > 0 {
      var t := next(draw, ModelInput(feed, ids));
      if t.Success? && t.value != EndOfSequence {
        var longer := ids + [t.value];
        RunStopsAtEndOfSequence(next, feed, longer, steps - 1, draw + 1);
        RunKeepsPrefix(next, feed, longer, steps - 1, draw + 1);
        var out := Run(next, feed, ids, steps, draw).0;
        assert out[|ids|] == longer[|ids|];
      }
    }
  }

  /** `generate`'s text starts with the prompt, followed by the text of the ids the loop appended. */
  lemma GenerateEchoesPrompt(next: NextToken, prompt: seq<SChar>, steps: nat)
    ensures var out := Run(next, WholeSequence, TokenIds(prompt), steps, 0).0;
      Text(out) == prompt + Text(out[|prompt|..])
  {
    var ids := TokenIds(prompt);
    var out := Run(next, WholeSequence, ids, steps, 0).0;
    RunKeepsPrefix(next, WholeSequence, ids, steps, 0);
    assert out == ids + out[|ids|..];
    TextAppend(ids, out[|ids|..]);
    TextOfTokenIds(prompt);
  }

  /** Without any step, `generate` returns the detokenized prompt ids, which is the prompt. */
  lemma GenerateWithoutStepsIsPrompt(next: NextToken, prompt: seq<SChar>, maxLength: int)
    requires maxLength <= 0
    ensures var (out, outcome) := Run(next, WholeSequence, TokenIds(prompt), Max(0, maxLength), 0);
      outcome == Pass && out == TokenIds(prompt) && Text(out) == prompt
  {
    TextOfTokenIds(prompt);
  }

  class InferencePipeline {
    const be: Backend
    const loader: ModelLoader
    const model: TransformerModel

    ghost predicate Valid()
    {
      model.Valid()
    }

    /**
     * The model holds the loader's cached weights; a norm bias the checkpoint
     * lacks keeps the constructor's zeros.
     */
    ghost predicate WeightsLoaded()
      reads model, model.Layers(), model.Attentions(), model.FeedForwards(), loader
    {
      && model.config.hiddenSize >= 0
      && model.WeightsFrom(loader.cache, DefaultNorms(model.config.hiddenSize), Zeros([model.config.hiddenSize]))
    }

    /** The C++ member initialisers: the loader and a model over its configuration. */
    constructor (be: Backend, loader: ModelLoader, model: TransformerModel)
      ensures this.be == be && this.loader == loader && this.model == model
    {
      this.be := be;
      this.loader := loader;
      this.model := model;
    }

    /**
     * The C++ constructor: open the loader (which fails on a missing model
     * directory or `config.json`), build the model over its configuration,
     * and load the model's weights, any missing required weight failing it.
     */
    static method Open(be: Backend, modelPath: string, options: QuantizationOptions, storage: Storage)
      returns (r: Result<InferencePipeline, LoadError>)
      ensures modelPath !in storage.paths ==> r == Failure(ModelPathMissing(modelPath))
      ensures modelPath in storage.paths && ConfigPath(modelPath) !in storage.paths ==>
        r == Failure(ConfigMissing(ConfigPath(modelPath)))
      ensures modelPath in storage.paths && ConfigPath(modelPath) in storage.paths ==>
        var required := ModelRequiredNames(DefaultConfig().numHiddenLayers);
        && (Available(map[], storage, modelPath, required) ==> r.Success?)
        && (r.Failure? ==> ReportsMissing(map[], storage, modelPath, required, r.error))
      ensures r.Success? ==> fresh(r.value) && fresh(r.value.loader) && fresh(r.value.model) && r.value.Valid()
      ensures r.Success? ==> r.value.model.config == DefaultConfig() && r.value.loader.storage == storage
      ensures r.Success? ==> |r.value.model.layers| == DefaultConfig().numHiddenLayers
      ensures r.Success? ==> r.value.WeightsLoaded()
    {
      var created := ModelLoader.Open(modelPath, options, storage);
      if created.Failure? {
        return Failure(created.error);
      }
      var loader := created.value;
      var model := new TransformerModel(loader.config);
      var pipeline := new InferencePipeline(be, loader, model);
      ghost var before, bias0 := model.LayerNorms(), model.finalLnBias;
      assert bias0 == Zeros([model.config.hiddenSize]);
      assert forall k :: 0 <= k < |before| ==> before[k] == DefaultNorms(model.config.hiddenSize);
      var loaded := model.LoadWeights(loader);
      if loaded.Fail? {
        return Failure(loaded.error);
      }
      model.LoadedWeightsFrom(loader.cache, before, DefaultNorms(model.config.hiddenSize), bias0);
      assert pipeline.WeightsLoaded();
      return Success(pipeline);
    }

    /** `next` is the model's `generate_next_token` with these sampling settings. */
    ghost predicate IsNextToken(next: NextToken, temperature: real, topK: int, sample: (nat, seq<real>) -> int)
      reads model`tokenEmbedding, model`lmHeadWeight, model`finalLnWeight, model`finalLnBias
      reads model.Layers()`norms, model.Attentions()`weights, model.FeedForwards()`weights
    {
      forall k, x {:trigger model.NextTokenSpec(be, x, temperature, topK, sample, k)} ::
        next(k, x) == model.NextTokenSpec(be, x, temperature, topK, sample, k)
    }

    /**
     * The model's next-token function in the current state, frozen as a
     * value: the `next` that the generation loops take.
     */
    ghost method BindNextToken(temperature: real, topK: int, sample: (nat, seq<real>) -> int) returns (next: NextToken)
      ensures IsNextToken(next, temperature, topK, sample)
    {
      var bound := imap q: (nat, seq<int>) | true :: model.NextTokenSpec(be, q.1, temperature, topK, sample, q.0);
      next := (k, x) => if (k, x) in bound then bound[(k, x)] else Failure(ShapeMismatch("unreachable"));
    }

    /** The weights `IsNextToken` reads are as they were in the earlier state. */
    twostate predicate WeightsKept()
      reads model, model.Layers(), model.Attentions(), model.FeedForwards()
    {
      && unchanged(model`tokenEmbedding, model`lmHeadWeight, model`finalLnWeight, model`finalLnBias)
      && unchanged(model.Layers()`norms, model.Attentions()`weights, model.FeedForwards()`weights)
    }

    /**
     * A next-token function stays bound to the model across any change that
     * leaves its weights alone; the function and its sampling settings come
     * as one tuple.
     */
    twostate lemma NextTokenStillBound(bound: (NextToken, real, int, (nat, seq<real>) -> int))
      requires old(IsNextToken(bound.0, bound.1, bound.2, bound.3))
      requires WeightsKept()
      ensures IsNextToken(bound.0, bound.1, bound.2, bound.3)
    {
      var (next, temperature, topK, sample) := bound;
      forall k: nat, x: seq<int> ensures next(k, x) == model.NextTokenSpec(be, x, temperature, topK, sample, k) {
        assert old(model.NextTokenSpec(be, x, temperature, topK, sample, k)) == model.NextTokenSpec(be, x, temperature, topK, sample, k);
      }
    }

    /** One call of `generate_next_token`, read back as an id. */
    method NextId(input: seq<int>, draw: nat, temperature: real, topK: int, sample: (nat, seq<real>) -> int,
                  ghost next: NextToken) returns (r: Result<int, TensorError>)
      requires IsNextToken(next, temperature, topK, sample)
      ensures IsNextToken(next, temperature, topK, sample)
      ensures r == next(draw, input)
    {
      r := model.NextTokenSpec(be, input, temperature, topK, sample, draw);
    }

    /** The loop of `generate`, from the prompt's ids. */
    method GenerateLoop(ids: seq<int>, maxLength: int, temperature: real, topK: int,
                        sample: (nat, seq<real>) -> int, ghost next: NextToken) returns (out: seq<int>, outcome: Outcome<TensorError>)
      requires IsNextToken(next, temperature, topK, sample)
      ensures (out, outcome) == Run(next, WholeSequence, ids, Max(0, maxLength), 0)
    {
      ghost var steps := Max(0, maxLength);
      ghost var oracle := next;
      out := ids;
      var i := 0;
      while i < maxLength
        invariant 0 <= i <= steps
        invariant IsNextToken(next, temperature, topK, sample)
        invariant Run(oracle, WholeSequence, ids, steps, 0) == Run(oracle, WholeSequence, out, steps - i, i)
      {
        var t := NextId(out, i, temperature, topK, sample, next);
        if t.Failure? {
          return out, Fail(t.error);
        }
        out := out + [t.value];
        if t.value == EndOfSequence {
          break;
        }
        i := i + 1;
      }
      return out, Pass;
    }

    /** The loop of `generate_stream`: one id fed per call, each produced id's text handed to the callback. */
    method StreamLoop(ids: seq<int>, maxLength: int, temperature: real, topK: int,
                      sample: (nat, seq<real>) -> int, ghost next: NextToken)
      returns (calls: seq<seq<SChar>>, out: seq<int>, outcome: Outcome<TensorError>)
      requires |ids| > 0 || maxLength <= 0
      requires IsNextToken(next, temperature, topK, sample)
      ensures (out, outcome) == Run(next, LastId, ids, Max(0, maxLength), 0)
      ensures |ids| <= |out| && calls == Pieces(out[|ids|..])
    {
      ghost var steps := Max(0, maxLength);
      ghost var oracle := next;
      out := ids;
      calls := [];
      var i := 0;
      while i < maxLength
        invariant 0 <= i <= steps
        invariant |ids| <= |out| && calls == Pieces(out[|ids|..])
        invariant IsNextToken(next, temperature, topK, sample)
        invariant Run(oracle, LastId, ids, steps, 0) == Run(oracle, LastId, out, steps - i, i)
      {
        var t := NextId([out[|out| - 1]], i, temperature, topK, sample, next);
        if t.Failure? {
          return calls, out, Fail(t.error);
        }
        PiecesAppend(out, |ids|, t.value);
        out := out + [t.value];
        var piece := Detokenize([t.value]);
        NextTokenStillBound((next, temperature, topK, sample));
        calls := calls + [piece];
        if t.value == EndOfSequence {
          break;
        }
        i := i + 1;
      }
      return calls, out, Pass;
    }

    /**
     * `generate`: the prompt's ids, the caches cleared, then up to
     * `maxLength` calls of the model on the whole sequence so far; the
     * detokenized sequence, prompt included, or the first error raised.
     */
    method Generate(prompt: seq<SChar>, maxLength: int, temperature: real, topK: int,
                    sample: (nat, seq<real>) -> int, ghost next: NextToken) returns (r: Result<seq<SChar>, TensorError>)
      requires Valid() && IsNextToken(next, temperature, topK, sample)
      modifies model.Attentions()`cache
      ensures var (cleared, caches) := ClearAll(be, old(model.Caches()));
        && model.Caches() == caches
        && (cleared.Fail? ==> r == Failure(cleared.error))
        && (cleared.Pass? ==>
              var (out, outcome) := Run(next, WholeSequence, TokenIds(prompt), Max(0, maxLength), 0);
              r == if outcome.Fail? then Failure(outcome.error) else Success(Text(out)))
    {
      var ids := Tokenize(prompt);
      var cleared := model.ClearKVCache(be);
      NextTokenStillBound((next, temperature, topK, sample));
      if cleared.Fail? {
        return Failure(cleared.error);
      }
      var out, outcome := GenerateLoop(ids, maxLength, temperature, topK, sample, next);
      if outcome.Fail? {
        return Failure(outcome.error);
      }
      var text := Detokenize(out);
      return Success(text);
    }

    /**
     * `generate_stream`: as `generate`, but each call is fed only the last
     * id so far, and the text of each produced id goes to the callback
     * (returned here as the sequence of callback arguments) before the
     * end-of-sequence test. An empty prompt with a positive `maxLength` is
     * outside the C++ contract (it reads the last element of an empty vector).
     */
    method GenerateStream(prompt: seq<SChar>, maxLength: int, temperature: real, topK: int,
                          sample: (nat, seq<real>) -> int, ghost next: NextToken)
      returns (calls: seq<seq<SChar>>, r: Outcome<TensorError>)
      requires Valid() && IsNextToken(next, temperature, topK, sample)
      requires |prompt| > 0 || maxLength <= 0
      modifies model.Attentions()`cache
      ensures var (cleared, caches) := ClearAll(be, old(model.Caches()));
        && model.Caches() == caches
        && (cleared.Fail? ==> calls == [] && r == cleared)
        && (cleared.Pass? ==>
              var ids := TokenIds(prompt);
              var (out, outcome) := Run(next, LastId, ids, Max(0, maxLength), 0);
              calls == Pieces(out[|ids|..]) && r == outcome)
    {
      var ids := Tokenize(prompt);
      var cleared := model.ClearKVCache(be);
      NextTokenStillBound((next, temperature, topK, sample));
      if cleared.Fail? {
        return [], cleared;
      }
      var out;
      calls, out, r := StreamLoop(ids, maxLength, temperature, topK, sample, next);
    }
  }
}
