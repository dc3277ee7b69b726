/**
 * The decoder-only model (`TransformerModel`): token embedding, a stack of
 * layers applied in index order, a final layer norm and a projection onto
 * the vocabulary through the transposed LM-head matrix; next-token
 * selection from the last position's logits; and clearing of every
 * layer's key/value cache.
 */
module Model {
  import opened Wrappers
  import opened Tensors
  import opened WeightStore
  import opened AttentionLayer
  import opened FeedForwardLayer
  import opened Block
  import opened Sampling

  /** The checkpoint prefix of layer `i`. */
  function LayerPrefix(i: nat): string
  {
    "transformer.layers." + DecimalString(i)
  }

  /** `name` lies under `prefix`: it starts with the prefix followed by a dot. */
  predicate Under(name: string, prefix: string)
  {
    |prefix| < |name| && name[..|prefix|] == prefix && name[|prefix|] == '.'
  }

  lemma UnderAppend(prefix: string, s: string)
    requires |s| > 0 && s[0] == '.'
    ensures Under(prefix + s, prefix)
  {
    assert (prefix + s)[..|prefix|] == prefix;
  }

  lemma UnderExtend(name: string, prefix: string, s: string)
    requires Under(name, prefix)
    ensures Under(name + s, prefix)
  {
    assert (name + s)[..|prefix|] == name[..|prefix|];
  }

  /** A name lies under at most one layer: layer prefixes are dot-terminated decimal numbers. */
  lemma UnderOneLayer(name: string, i: nat, k: nat)
    requires Under(name, LayerPrefix(i)) && Under(name, LayerPrefix(k))
    ensures i == k
  {
    var a, b := LayerPrefix(i), LayerPrefix(k);
    var p := "transformer.layers.";
    assert |p| == 19;
    assert a == b;
    assert DecimalString(i) == a[19..] == b[19..] == DecimalString(k);
    DecimalStringInjective(i, k);
  }

  /** Every name a layer loads lies under its prefix. */
  lemma BlockNamesUnder(prefix: string)
    ensures forall x :: x in BlockWeightNames(prefix) ==> Under(x, prefix)
  {
    var a, m := prefix + ".attention", prefix + ".mlp";
    UnderAppend(prefix, ".attention");
    UnderAppend(prefix, ".mlp");
    forall s | s in [".wq.weight", ".wk.weight", ".wv.weight", ".wo.weight"]
      ensures Under(a + s, prefix)
    {
      UnderExtend(a, prefix, s);
    }
    forall s | s in [".gate_proj.weight", ".up_proj.weight", ".down_proj.weight"]
      ensures Under(m + s, prefix)
    {
      UnderExtend(m, prefix, s);
    }
    UnderAppend(prefix, ".attention_norm.weight");
    UnderAppend(prefix, ".attention_norm.bias");
    UnderAppend(prefix, ".mlp_norm.weight");
    UnderAppend(prefix, ".mlp_norm.bias");
  }

  /** The embedding and head names lie under no layer. */
  lemma TopLevelNamesUnderNoLayer(k: nat)
    ensures forall x :: x in [EmbeddingName, LmHeadName, FinalNormWeightName, FinalNormBiasName] ==>
      !Under(x, LayerPrefix(k))
  {
    var p := LayerPrefix(k);
    assert p[13] == 'a';

  }

  /** The names the preloader warms for layer `i` are the attention names the model asks for under that layer. */
  lemma PreloadedNamesAreLayerNames(i: nat)
    ensures LayerPreloadNames(i) == AttentionWeightNames(LayerPrefix(i) + ".attention")
  {
    var p := LayerPrefix(i);
    assert p + ".attention.wq.weight" == p + ".attention" + ".wq.weight";
    assert p + ".attention.wk.weight" == p + ".attention" + ".wk.weight";
    assert p + ".attention.wv.weight" == p + ".attention" + ".wv.weight";
    assert p + ".attention.wo.weight" == p + ".attention" + ".wo.weight";
  }

  /** The names the first `n` layers require: their absence raises. */
  function LayersRequiredNames(n: nat): seq<string>
  {
    if n == 0 then [] else LayersRequiredNames(n - 1) + BlockRequiredNames(LayerPrefix(n - 1))
  }

  lemma {:induction false} LayersRequiredContains(k: nat, n: nat)
    requires k < n
    ensures forall x :: x in BlockRequiredNames(LayerPrefix(k)) ==> x in LayersRequiredNames(n)
  {
    if k < n - 1 {
      LayersRequiredContains(k, n - 1);
    }
  }

  const EmbeddingName := "embedding.weight"
  const LmHeadName := "lm_head.weight"
  const FinalNormWeightName := "transformer.ln_f.weight"
  const FinalNormBiasName := "transformer.ln_f.bias"

  /** The names the head part of `loadWeights` looks up, in order. */
  const HeadNames := [LmHeadName, FinalNormWeightName, FinalNormBiasName]

  /** The names whose absence makes `loadWeights` raise. */
  function ModelRequiredNames(n: nat): seq<string>
  {
    [EmbeddingName] + LayersRequiredNames(n) + [LmHeadName, FinalNormWeightName]
  }

  /**
   * `take(logits, {s - 1}, 1)` squeezed on axis 1, for logits of shape
   * `[1, s, vocab]`: the last position's row. Any other batch size makes the
   * single sampled id unreadable, and an empty sequence has no last position.
   */
  function LastPositionLogits(logits: Tensor): (r: Result<seq<real>, TensorError>)
    ensures r.Success? <==> |logits.shape| == 3 && logits.shape[0] == 1 && logits.shape[1] > 0
    ensures r.Success? ==> |r.value| == logits.shape[2]
    ensures r.Success? ==> (forall j :: 0 <= j < |r.value| ==>
      (logits.shape[1] - 1) * logits.shape[2] + j < |logits.data| &&
      r.value[j] == logits.data[(logits.shape[1] - 1) * logits.shape[2] + j])
  {
    if |logits.shape| == 3 && logits.shape[0] == 1 && logits.shape[1] > 0 then
      var s, v := logits.shape[1], logits.shape[2];
      LastRowBounds(logits, s, v);
      var start := (s - 1) * v;
      Success(logits.data[start .. start + v])
    else
      Failure(ShapeMismatch("take"))
  }

  lemma LastRowBounds(logits: Tensor, s: nat, v: nat)
    requires logits.shape == [1, s, v] && s > 0
    ensures (s - 1) * v + v == |logits.data|
  {
    Size3(1, s, v);
    assert s * v == (s - 1) * v + v;
  }

  /** Projection onto the vocabulary through the transposed LM-head matrix. */
  function ProjectToVocabulary(be: Backend, hidden: Tensor, lmHead: Tensor): Result<Tensor, TensorError>
  {
    var head :- Transpose2(lmHead);
    MatMul(be, hidden, head)
  }

  /**
   * The projection of `[b, s, hidden]` states succeeds exactly when the
   * LM-head matrix is two-dimensional with `hidden` columns, giving
   * `[b, s, rows]`: the matrix is read as `vocab x hidden`.
   */
  lemma ProjectionShape(be: Backend, hidden: Tensor, lmHead: Tensor)
    requires |hidden.shape| == 3
    ensures ProjectToVocabulary(be, hidden, lmHead).Success? <==> |lmHead.shape| == 2 && lmHead.shape[1] == hidden.shape[2]
    ensures ProjectToVocabulary(be, hidden, lmHead).Success? ==>
      ProjectToVocabulary(be, hidden, lmHead).value.shape == [hidden.shape[0], hidden.shape[1], lmHead.shape[0]]
  {
  }

  /**
   * The LM head the constructor makes, `hidden x vocab`, fits the projection
   * of `[b, s, hidden]` states only when the vocabulary size equals the
   * hidden size: a model that is run without loading weights fails there.
   */
  lemma DefaultLmHeadFitsOnlySquare(be: Backend, hidden: Tensor, hiddenSize: nat, vocabSize: nat)
    requires |hidden.shape| == 3 && hidden.shape[2] == hiddenSize
    ensures ProjectToVocabulary(be, hidden, Zeros([hiddenSize, vocabSize])).Success? <==> vocabSize == hiddenSize
  {
    ProjectionShape(be, hidden, Zeros([hiddenSize, vocabSize]));
  }

  /**
   * `clearKVCache` over the layers' caches in order: each is updated with a
   * pair of default arrays, and the first update that raises ends the loop,
   * leaving the later caches as they were.
   */
  function ClearAll(be: Backend, caches: seq<KVCache>): (r: (Outcome<TensorError>, seq<KVCache>))
    ensures |r.1| == |caches|
  {
    if caches == [] then (Pass, [])
    else
      var (first, c) := UpdatedCache(be, caches[0], EmptyArray, EmptyArray);
      if first.Fail? then (first, [c] + caches[1..])
      else
        var (rest, cs) := ClearAll(be, caches[1..]);
        (rest, [c] + cs)
  }

  predicate AllEmpty(caches: seq<KVCache>)
  {
    forall i :: 0 <= i < |caches| ==> Size(caches[i].keys.shape) == 0
  }

  /** When every cache is empty, clearing succeeds and leaves every cache as a fresh layer's. */
  lemma {:induction false} ClearAllOnEmptyResets(be: Backend, caches: seq<KVCache>)
    requires AllEmpty(caches)
    ensures ClearAll(be, caches).0 == Pass
    ensures forall i :: 0 <= i < |caches| ==> ClearAll(be, caches).1[i] == EmptyCache
  {
    if caches != [] {
      EmptyUpdateResets(be, caches[0]);
      ClearAllOnEmptyResets(be, caches[1..]);
      var cs := ClearAll(be, caches[1..]).1;
      assert ClearAll(be, caches).1 == [EmptyCache] + cs;
    }
  }

  /**
   * When some cache holds keys, clearing raises, and the first such cache is
   * left as it was: clearing resets nothing that was filled.
   */
  lemma {:induction false} ClearAllOnFilledFails(be: Backend, caches: seq<KVCache>, j: nat)
    requires j < |caches| && Size(caches[j].keys.shape) > 0 && AllEmpty(caches[..j])
    ensures ClearAll(be, caches).0.Fail?
    ensures ClearAll(be, caches).1[j] == caches[j]
  {
    if j == 0 {
      EmptyUpdateOnFilledFails(be, caches[0]);
      assert ClearAll(be, caches).1 == [caches[0]] + caches[1..];
    } else {
      assert Size(caches[0].keys.shape) == 0 by {
        assert caches[..j][0] == caches[0];
      }
      EmptyUpdateResets(be, caches[0]);
      assert caches[1..][..j - 1] == caches[..j][1..];
      ClearAllOnFilledFails(be, caches[1..], j - 1);
    }
  }

  /** Every cache of `initial` below `|cleared|` updated with default arrays without error, into `cleared`. */
  predicate ClearedPrefix(be: Backend, initial: seq<KVCache>, cleared: seq<KVCache>)
  {
    |cleared| <= |initial| &&
    forall k {:trigger UpdatedCache(be, initial[k], EmptyArray, EmptyArray)} :: 0 <= k < |cleared| ==>
      UpdatedCache(be, initial[k], EmptyArray, EmptyArray) == (Pass, cleared[k])
  }

  /** When every update succeeds, clearing passes and yields the updated caches. */
  lemma {:induction false} ClearAllPasses(be: Backend, initial: seq<KVCache>, cleared: seq<KVCache>)
    requires ClearedPrefix(be, initial, cleared) && |cleared| == |initial|
    ensures ClearAll(be, initial) == (Pass, cleared)
  {
    if initial != [] {
      assert ClearedPrefix(be, initial[1..], cleared[1..]) by {
        forall k | 0 <= k < |cleared| - 1
          ensures UpdatedCache(be, initial[1..][k], EmptyArray, EmptyArray) == (Pass, cleared[1..][k])
        {
          assert initial[1..][k] == initial[k + 1] && cleared[1..][k] == cleared[k + 1];
        }
      }
      ClearAllPasses(be, initial[1..], cleared[1..]);
      assert cleared == [cleared[0]] + cleared[1..];
    }
  }

  /**
   * When the updates before position `|cleared|` succeed and the one there
   * fails, clearing raises that error, with the caches before it updated, the
   * failing one as its update left it and the rest untouched.
   */
  lemma {:induction false} ClearAllStopsAt(be: Backend, initial: seq<KVCache>, cleared: seq<KVCache>, e: TensorError, c: KVCache)
    requires ClearedPrefix(be, initial, cleared) && |cleared| < |initial|
    requires UpdatedCache(be, initial[|cleared|], EmptyArray, EmptyArray) == (Fail(e), c)
    ensures ClearAll(be, initial) == (Fail(e), cleared + [c] + initial[|cleared| + 1..])
  {
    if cleared == [] {
      assert cleared + [c] + initial[1..] == [c] + initial[1..];
    } else {
      assert ClearedPrefix(be, initial[1..], cleared[1..]) by {
        forall k | 0 <= k < |cleared| - 1
          ensures UpdatedCache(be, initial[1..][k], EmptyArray, EmptyArray) == (Pass, cleared[1..][k])
        {
          assert initial[1..][k] == initial[k + 1] && cleared[1..][k] == cleared[k + 1];
        }
      }
      assert initial[1..][|cleared| - 1] == initial[|cleared|];
      ClearAllStopsAt(be, initial[1..], cleared[1..], e, c);
      assert initial[1..][|cleared[1..]| + 1..] == initial[|cleared| + 1..];
      var tail := cleared[1..] + [c] + initial[|cleared| + 1..];
      assert ClearAll(be, initial) == (Fail(e), [cleared[0]] + tail);
      assert [cleared[0]] + tail == cleared + [c] + initial[|cleared| + 1..];
    }
  }

  /** Replacing the first element after a prefix. */
  lemma ReplaceAfter(a: seq<KVCache>, b: seq<KVCache>, c: KVCache)
    requires |b| > 0
    ensures (a + b)[|a| := c] == a + [c] + b[1..]
  {
  }

  lemma ExtendsTrans(c0: map<string, Tensor>, c1: map<string, Tensor>, c2: map<string, Tensor>)
    requires Extends(c0, c1) && Extends(c1, c2)
    ensures Extends(c0, c2)
  {
  }

  /** The input is empty or the head count divides the hidden size. */
  predicate HeadsFit(shape: Shape, hiddenSize: int, numHeads: int)
    requires |shape| >= 2 && numHeads != 0
  {
    shape[0] * shape[1] == 0 || hiddenSize % numHeads == 0
  }

  class TransformerModel {
    const config: ModelConfig
    const layers: seq<TransformerBlock>
    var tokenEmbedding: Tensor
    var lmHeadWeight: Tensor
    var finalLnWeight: Tensor
    var finalLnBias: Tensor

    ghost function Layers(): set<TransformerBlock>
    {
      set i | 0 <= i < |layers| :: layers[i]
    }

    ghost function Attentions(): set<AttentionImpl>
    {
      set i | 0 <= i < |layers| :: layers[i].attention
    }

    ghost function FeedForwards(): set<FeedForwardImpl>
    {
      set i | 0 <= i < |layers| :: layers[i].feedForward
    }

    /** One layer per configured layer, each owning its own attention and feed-forward objects. */
    ghost predicate Valid()
    {
      |layers| == Max(0, config.numHiddenLayers) &&
      forall i, j :: 0 <= i < j < |layers| ==>
        layers[i] != layers[j] && layers[i].attention != layers[j].attention &&
        layers[i].feedForward != layers[j].feedForward
    }

    /** The layers' key/value caches, in layer order. */
    ghost function Caches(): (cs: seq<KVCache>)
      reads Attentions()
      ensures |cs| == |layers|
    {
      seq(|layers|, i requires 0 <= i < |layers| reads Attentions() => layers[i].attention.cache)
    }

    constructor (config: ModelConfig)
      requires config.vocabSize >= 0 && config.hiddenSize >= 0 && config.intermediateSize >= 0
      requires config.numAttentionHeads != 0 && config.numHiddenLayers >= 0
      ensures this.config == config && Valid()
      ensures forall i :: 0 <= i < |layers| ==>
        fresh(layers[i]) && fresh(layers[i].attention) && fresh(layers[i].feedForward)
      ensures forall i :: 0 <= i < |layers| ==> layers[i].Initial(
        config.hiddenSize, config.intermediateSize, config.numAttentionHeads, config.layerNormEpsilon, 0.0)
      ensures tokenEmbedding == Zeros([config.vocabSize, config.hiddenSize])
      ensures lmHeadWeight == Zeros([config.hiddenSize, config.vocabSize])
      ensures finalLnWeight == Ones([config.hiddenSize]) && finalLnBias == Zeros([config.hiddenSize])
    {
      this.config := config;
      tokenEmbedding := Zeros([config.vocabSize, config.hiddenSize]);
      var blocks: seq<TransformerBlock> := [];
      var i := 0;
      while i < config.numHiddenLayers
        invariant 0 <= i <= Max(0, config.numHiddenLayers) && |blocks| == i
        invariant forall k :: 0 <= k < i ==>
          fresh(blocks[k]) && fresh(blocks[k].attention) && fresh(blocks[k].feedForward)
        invariant forall k :: 0 <= k < i ==> blocks[k].Initial(
          config.hiddenSize, config.intermediateSize, config.numAttentionHeads, config.layerNormEpsilon, 0.0)
        invariant forall k, m :: 0 <= k < m < i ==>
          blocks[k] != blocks[m] && blocks[k].attention != blocks[m].attention &&
          blocks[k].feedForward != blocks[m].feedForward
      {
        var block := new TransformerBlock(
          config.hiddenSize, config.intermediateSize, config.numAttentionHeads, config.layerNormEpsilon, 0.0);
        blocks := blocks + [block];
        i := i + 1;
      }
      layers := blocks;
      lmHeadWeight := Zeros([config.hiddenSize, config.vocabSize]);
      finalLnWeight := Ones([config.hiddenSize]);
      finalLnBias := Zeros([config.hiddenSize]);
    }

    /** Layers `0 .. n - 1` each hold the weights of their prefix in `cache`. */
    ghost predicate LayersLoadedFrom(cache: map<string, Tensor>, n: nat)
      reads Layers()`norms, Attentions()`weights, FeedForwards()`weights
      requires n <= |layers|
    {
      forall k :: 0 <= k < n ==> layers[k].LoadedFrom(cache, LayerPrefix(k))
    }

    /** The norms of every layer, in layer order. */
    ghost function LayerNorms(): (ns: seq<NormParams>)
      reads Layers()`norms
      ensures |ns| == |layers| && forall k :: 0 <= k < |layers| ==> ns[k] == layers[k].norms
    {
      NormsUpTo(|layers|)
    }

    ghost function NormsUpTo(n: nat): (ns: seq<NormParams>)
      reads Layers()`norms
      requires n <= |layers|
      ensures |ns| == n && forall k :: 0 <= k < n ==> ns[k] == layers[k].norms
    {
      if n == 0 then []
      else
        assert layers[n - 1] in Layers();
        NormsUpTo(n - 1) + [layers[n - 1].norms]
    }

    /**
     * Layers `0 .. n - 1` each have the norm biases of their prefix in
     * `cache`, and those of `before` where a bias name is not cached.
     */
    ghost predicate LayerBiasesFrom(cache: map<string, Tensor>, n: nat, before: seq<NormParams>)
      reads Layers()`norms
      requires n <= |layers| && |before| == |layers|
    {
      forall k :: 0 <= k < n ==> layers[k].BiasesFrom(cache, LayerPrefix(k), before[k])
    }

    /** Layers `n ..` still have the norms of `before`. */
    ghost predicate NormsFrom(n: nat, before: seq<NormParams>)
      reads Layers()`norms
      requires n <= |layers| && |before| == |layers|
    {
      forall k :: n <= k < |layers| ==> layers[k].norms == before[k]
    }

    /**
     * The layer loop after `i` layers, started from the cache `c0` and the
     * norms `before`: the cache extends `c0`, each of those layers holds its
     * weights and biases from it, and the later layers still have their norms.
     */
    ghost predicate LayersLoaded(c0: map<string, Tensor>, cache: map<string, Tensor>, st: Storage, mp: string,
                                 i: nat, before: seq<NormParams>)
      reads Layers()`norms, Attentions()`weights, FeedForwards()`weights
      requires i <= |layers| && |before| == |layers|
    {
      && Extends(c0, cache)
      && LayersLoadedFrom(cache, i)
      && LayerBiasesFrom(cache, i, before)
      && NormsFrom(i, before)
    }

    /**
     * One iteration of the layer loop: layer `i` loads under its prefix, its
     * biases fall back to `before[i]`, and the layers before it keep what
     * they loaded.
     */
    method LoadLayer(loader: ModelLoader, layer: TransformerBlock, i: nat,
                     ghost c0: map<string, Tensor>, ghost before: seq<NormParams>)
      returns (r: Outcome<LoadError>)
      requires Valid() && i < |layers| && layer == layers[i] && |before| == |layers|
      requires LayersLoaded(c0, loader.cache, loader.storage, loader.modelPath, i, before)
      modifies layer`norms, layer.attention`weights, layer.feedForward`weights, loader`cache
      ensures Extends(old(loader.cache), loader.cache)
      ensures r.Fail? ==> ReportsMissing(old(loader.cache), loader.storage, loader.modelPath,
        BlockRequiredNames(LayerPrefix(i)), r.error)
      ensures r.Pass? ==> LayersLoaded(c0, loader.cache, loader.storage, loader.modelPath, i + 1, before)
    {
      r := layer.LoadWeights(loader, LayerPrefix(i));
      if r.Pass? {
        forall k | 0 <= k < i
          ensures layers[k].LoadedFrom(loader.cache, LayerPrefix(k))
          ensures layers[k].BiasesFrom(loader.cache, LayerPrefix(k), before[k])
        {
          layers[k].LoadedFromExtends(old(loader.cache), loader.cache, LayerPrefix(k));
          LaterLayerKeepsBiases(layers[k], old(loader.cache), loader.storage, loader.modelPath, i, k, before[k]);
        }
        ExtendsTrans(c0, old(loader.cache), loader.cache);
      }
    }

    /** The layer loop of `loadWeights`: layer `i` under `transformer.layers.<i>`, stopping at the first that raises. */
    method LoadLayers(loader: ModelLoader, ghost before: seq<NormParams>) returns (r: Outcome<LoadError>)
      requires Valid() && |before| == |layers|
      requires forall k :: 0 <= k < |layers| ==> layers[k].norms == before[k]
      modifies Layers()`norms, Attentions()`weights, FeedForwards()`weights, loader`cache
      ensures Extends(old(loader.cache), loader.cache)
      ensures r.Fail? ==>
        ReportsMissing(old(loader.cache), loader.storage, loader.modelPath, LayersRequiredNames(|layers|), r.error)
      ensures r.Pass? ==> LayersLoadedFrom(loader.cache, |layers|)
      ensures r.Pass? ==> LayerBiasesFrom(loader.cache, |layers|, before)
    {
      ghost var c0 := loader.cache;
      ghost var mp, st := loader.modelPath, loader.storage;
      // `num_hidden_layers` iterations, which is the number of layers.
      var i := 0;
      while i != |layers|
        invariant 0 <= i <= |layers|
        invariant LayersLoaded(c0, loader.cache, st, mp, i, before)
      {
        ghost var cache := loader.cache;
        var layer := layers[i];
        assert layer in Layers() && layer.attention in Attentions() && layer.feedForward in FeedForwards();
        var step := LoadLayer(loader, layer, i, c0, before);
        if step.Fail? {
          LayerFailureReported(c0, cache, st, mp, i, |layers|, step.error);
          return step;
        }
        i := i + 1;
      }
      return Pass;
    }

    /** Loading layer `i` adds no name of another layer `k`, so layer `k`'s biases are unaffected. */
    static lemma LaterLayerKeepsBiases(layer: TransformerBlock, c: map<string, Tensor>, st: Storage, mp: string,
                                       i: nat, k: nat, before: NormParams)
      requires k != i && layer.BiasesFrom(c, LayerPrefix(k), before)
      ensures layer.BiasesFrom(Preload(c, st, mp, BlockWeightNames(LayerPrefix(i))), LayerPrefix(k), before)
    {
      var names := BlockWeightNames(LayerPrefix(i));
      BlockNamesUnder(LayerPrefix(i));
      forall x | x in names
        ensures !Under(x, LayerPrefix(k))
      {
        if Under(x, LayerPrefix(k)) {
          UnderOneLayer(x, i, k);
        }
      }
      PreloadKeepsBiases(layer, c, st, mp, names, k, before);
    }

    /** Preloading names that lie under no layer `k` leaves layer `k`'s biases as they were. */
    static lemma PreloadKeepsBiases(layer: TransformerBlock, c: map<string, Tensor>, st: Storage, mp: string,
                                    names: seq<string>, k: nat, before: NormParams)
      requires layer.BiasesFrom(c, LayerPrefix(k), before)
      requires forall x :: x in names ==> !Under(x, LayerPrefix(k))
      ensures layer.BiasesFrom(Preload(c, st, mp, names), LayerPrefix(k), before)
    {
      var p := LayerPrefix(k);
      PreloadCachesAvailable(c, st, mp, names);
      UnderAppend(p, ".attention_norm.bias");
      UnderAppend(p, ".mlp_norm.bias");
      layer.BiasesFromExtends(c, Preload(c, st, mp, names), p, before);
    }

    /** Adding top-level names to the cache leaves every layer's biases as they were. */
    static lemma TopLevelKeepsBiases(layer: TransformerBlock, c: map<string, Tensor>, c': map<string, Tensor>,
                                     k: nat, before: NormParams)
      requires layer.BiasesFrom(c, LayerPrefix(k), before) && Extends(c, c')
      requires forall n :: n in c' ==> n in c || n in [EmbeddingName, LmHeadName, FinalNormWeightName, FinalNormBiasName]
      ensures layer.BiasesFrom(c', LayerPrefix(k), before)
    {
      var p := LayerPrefix(k);
      TopLevelNamesUnderNoLayer(k);
      UnderAppend(p, ".attention_norm.bias");
      UnderAppend(p, ".mlp_norm.bias");
      layer.BiasesFromExtends(c, c', p, before);
    }

    /** A layer that raises reports a name the layers require that is neither cached nor on disk. */
    static lemma LayerFailureReported(c0: map<string, Tensor>, before: map<string, Tensor>, st: Storage, mp: string,
                                      i: nat, n: nat, error: LoadError)
      requires i < n && Extends(c0, before)
      requires ReportsMissing(before, st, mp, BlockRequiredNames(LayerPrefix(i)), error)
      ensures ReportsMissing(c0, st, mp, LayersRequiredNames(n), error)
    {
      LayersRequiredContains(i, n);
      ReportsMissingWeaken(c0, before, st, mp, BlockRequiredNames(LayerPrefix(i)), LayersRequiredNames(n), error);
    }

    /**
     * The head part of `loadWeights`: the LM head and the final norm's weight
     * must be found, the final norm's bias keeps its previous value when it
     * is not. Each field is assigned as soon as its tensor is loaded.
     */
    method LoadHead(loader: ModelLoader, ghost before: seq<NormParams>) returns (r: Outcome<LoadError>)
      requires |before| == |layers|
      requires forall k :: 0 <= k < |layers| ==> layers[k].LoadedFrom(loader.cache, LayerPrefix(k))
      requires forall k :: 0 <= k < |layers| ==> layers[k].BiasesFrom(loader.cache, LayerPrefix(k), before[k])
      modifies this`lmHeadWeight, this`finalLnWeight, this`finalLnBias, loader`cache
      ensures Extends(old(loader.cache), loader.cache)
      ensures r.Fail? ==>
        ReportsMissing(old(loader.cache), loader.storage, loader.modelPath, [LmHeadName, FinalNormWeightName], r.error)
      ensures Available(old(loader.cache), loader.storage, loader.modelPath, [LmHeadName, FinalNormWeightName]) ==> r.Pass?
      ensures r.Pass? ==> LmHeadName in loader.cache && lmHeadWeight == loader.cache[LmHeadName]
      ensures r.Pass? ==> FinalNormWeightName in loader.cache && finalLnWeight == loader.cache[FinalNormWeightName]
      ensures r.Pass? ==> (finalLnBias ==
        if FinalNormBiasName in loader.cache then loader.cache[FinalNormBiasName] else old(finalLnBias))
      ensures r.Pass? ==> forall k :: 0 <= k < |layers| ==> layers[k].LoadedFrom(loader.cache, LayerPrefix(k))
      ensures r.Pass? ==> forall k :: 0 <= k < |layers| ==> layers[k].BiasesFrom(loader.cache, LayerPrefix(k), before[k])
    {
      ghost var c0 := loader.cache;
      HeadLoads(c0, loader.storage, loader.modelPath);
      var head := loader.LoadWeight(LmHeadName);
      if head.Failure? {
        return Fail(head.error);
      }
      lmHeadWeight := head.value;
      var norm := TransformerBlock.LoadNormPair(loader, FinalNormWeightName, FinalNormBiasName, finalLnBias);
      if norm.Failure? {
        return Fail(norm.error);
      }
      finalLnWeight, finalLnBias := norm.value.0, norm.value.1;
      forall k | 0 <= k < |layers|
        ensures layers[k].LoadedFrom(loader.cache, LayerPrefix(k))
        ensures layers[k].BiasesFrom(loader.cache, LayerPrefix(k), before[k])
      {
        layers[k].LoadedFromExtends(c0, loader.cache, LayerPrefix(k));
        TopLevelKeepsBiases(layers[k], c0, loader.cache, k, before[k]);
      }
      return Pass;
    }

    /**
     * The three lookups of the head, on values: the first two report their
     * own name when they fail, and after all three the first two tensors
     * found are still cached.
     */
    static lemma HeadLoads(c0: map<string, Tensor>, st: Storage, mp: string)
      ensures var l1 := Lookup(c0, st, mp, LmHeadName);
        var l2 := Lookup(l1.1, st, mp, FinalNormWeightName);
        var l3 := Lookup(l2.1, st, mp, FinalNormBiasName);
        && (l1.0.Failure? ==> ReportsMissing(c0, st, mp, [LmHeadName, FinalNormWeightName], l1.0.error))
        && (l1.0.Success? && l2.0.Failure? ==>
             Extends(c0, l2.1) && ReportsMissing(c0, st, mp, [LmHeadName, FinalNormWeightName], l2.0.error))
        && (l1.0.Success? && l2.0.Success? ==>
             && Extends(c0, l3.1)
             && (forall n :: n in l3.1 ==> n in c0 || n in HeadNames)
             && LmHeadName in l3.1 && l3.1[LmHeadName] == l1.0.value
             && FinalNormWeightName in l3.1 && l3.1[FinalNormWeightName] == l2.0.value)
    {
      var l1 := Lookup(c0, st, mp, LmHeadName);
      var l2 := Lookup(l1.1, st, mp, FinalNormWeightName);
      if l1.0.Success? && l2.0.Failure? {
        assert FinalNormWeightName in [LmHeadName, FinalNormWeightName];
      }
    }

    /**
     * `loadWeights`: the embedding, every layer, the LM head and the final
     * norm's weight must be found; the final norm's bias keeps its previous
     * value when it is not.
     */
    method LoadWeights(loader: ModelLoader) returns (r: Outcome<LoadError>)
      requires Valid()
      modifies this`tokenEmbedding, this`lmHeadWeight, this`finalLnWeight, this`finalLnBias
      modifies Layers()`norms, Attentions()`weights, FeedForwards()`weights, loader`cache
      ensures Extends(old(loader.cache), loader.cache)
      ensures r.Fail? ==>
        ReportsMissing(old(loader.cache), loader.storage, loader.modelPath, ModelRequiredNames(|layers|), r.error)
      ensures Available(old(loader.cache), loader.storage, loader.modelPath, ModelRequiredNames(|layers|)) ==> r.Pass?
      ensures r.Pass? ==> LayersLoadedFrom(loader.cache, |layers|)
      ensures r.Pass? ==> LayerBiasesFrom(loader.cache, |layers|, old(LayerNorms()))
      ensures r.Pass? ==> EmbeddingName in loader.cache && tokenEmbedding == loader.cache[EmbeddingName]
      ensures r.Pass? ==> LmHeadName in loader.cache && lmHeadWeight == loader.cache[LmHeadName]
      ensures r.Pass? ==> FinalNormWeightName in loader.cache && finalLnWeight == loader.cache[FinalNormWeightName]
      ensures r.Pass? ==> (finalLnBias ==
        if FinalNormBiasName in loader.cache then loader.cache[FinalNormBiasName] else old(finalLnBias))
    {
      ghost var c0 := loader.cache;
      ghost var mp, st := loader.modelPath, loader.storage;
      ghost var required := ModelRequiredNames(|layers|);
      ghost var before := LayerNorms();
      var embedding := loader.LoadWeight(EmbeddingName);
      if embedding.Failure? {
        assert EmbeddingName in required;
        return Fail(embedding.error);
      }
      tokenEmbedding := embedding.value;
      ghost var c1 := loader.cache;
      var stack := LoadLayers(loader, before);
      if stack.Fail? {
        ReportsMissingWeaken(c0, c1, st, mp, LayersRequiredNames(|layers|), required, stack.error);
        return stack;
      }
      ghost var c2 := loader.cache;
      r := LoadHead(loader, before);
      if r.Fail? {
        ExtendsTrans(c0, c1, c2);
        ReportsMissingWeaken(c0, c2, st, mp, [LmHeadName, FinalNormWeightName], required, r.error);
        return r;
      }
      ExtendsTrans(c1, c2, loader.cache);
      ExtendsTrans(c0, c1, loader.cache);
    }

    /**
     * Every weight of the model is its cache entry, each norm bias the cache
     * entry when the checkpoint has one and otherwise the value `norms0` (for
     * the layers) or `bias0` (for the final norm).
     */
    ghost predicate WeightsFrom(cache: map<string, Tensor>, norms0: NormParams, bias0: Tensor)
      reads this`tokenEmbedding, this`lmHeadWeight, this`finalLnWeight, this`finalLnBias, Layers()`norms, Attentions()`weights, FeedForwards()`weights
    {
      && LayersLoadedFrom(cache, |layers|)
      && (forall k :: 0 <= k < |layers| ==> layers[k].BiasesFrom(cache, LayerPrefix(k), norms0))
      && EmbeddingName in cache && tokenEmbedding == cache[EmbeddingName]
      && LmHeadName in cache && lmHeadWeight == cache[LmHeadName]
      && FinalNormWeightName in cache && finalLnWeight == cache[FinalNormWeightName]
      && finalLnBias == (if FinalNormBiasName in cache then cache[FinalNormBiasName] else bias0)
    }

    /**
     * A successful `loadWeights` on a model whose layers all start from the
     * norms `norms0` and whose final bias starts as `bias0` leaves every
     * weight as `WeightsFrom` says.
     */
    lemma LoadedWeightsFrom(cache: map<string, Tensor>, before: seq<NormParams>, norms0: NormParams, bias0: Tensor)
      requires |before| == |layers| && forall k :: 0 <= k < |layers| ==> before[k] == norms0
      requires LayersLoadedFrom(cache, |layers|) && LayerBiasesFrom(cache, |layers|, before)
      requires EmbeddingName in cache && tokenEmbedding == cache[EmbeddingName]
      requires LmHeadName in cache && lmHeadWeight == cache[LmHeadName]
      requires FinalNormWeightName in cache && finalLnWeight == cache[FinalNormWeightName]
      requires finalLnBias == (if FinalNormBiasName in cache then cache[FinalNormBiasName] else bias0)
      ensures WeightsFrom(cache, norms0, bias0)
    {
      forall k | 0 <= k < |layers|
        ensures layers[k].BiasesFrom(cache, LayerPrefix(k), norms0)
      {
        assert layers[k].BiasesFrom(cache, LayerPrefix(k), before[k]);
      }
    }

    /** Cache entries only gain company, so loaded layers stay loaded. */
    lemma LayersLoadedFromExtends(c1: map<string, Tensor>, c2: map<string, Tensor>, n: nat)
      requires n <= |layers| && LayersLoadedFrom(c1, n) && Extends(c1, c2)
      ensures LayersLoadedFrom(c2, n)
    {
      forall k | 0 <= k < n
        ensures layers[k].LoadedFrom(c2, LayerPrefix(k))
      {
        layers[k].LoadedFromExtends(c1, c2, LayerPrefix(k));
      }
    }

    /** The output of the first `n` layers applied in index order, each to the previous one's output. */
    function Stack(be: Backend, x: Tensor, mask: Tensor, n: nat): Result<Tensor, TensorError>
      reads Layers()`norms, Attentions()`weights, FeedForwards()`weights
      requires n <= |layers|
    {
      if n == 0 then Success(x)
      else
        var h :- Stack(be, x, mask, n - 1);
        layers[n - 1].Forward(be, h, mask)
    }

    /** The model function: embed, the whole stack, final norm, vocabulary projection. */
    function ForwardSpec(be: Backend, inputIds: seq<int>, mask: Tensor): Result<Tensor, TensorError>
      reads this`tokenEmbedding, this`lmHeadWeight, this`finalLnWeight, this`finalLnBias
      reads Layers()`norms, Attentions()`weights, FeedForwards()`weights
    {
      var embedded :- Embed(be, tokenEmbedding, inputIds);
      var hidden :- Stack(be, embedded, mask, |layers|);
      var normed :- LayerNorm(be, hidden, finalLnWeight, finalLnBias, config.layerNormEpsilon);
      ProjectToVocabulary(be, normed, lmHeadWeight)
    }

    /** `forward` for ids of shape `[1, n]`: the loop over the layers computes the model function. */
    method Forward(be: Backend, inputIds: seq<int>, mask: Tensor) returns (r: Result<Tensor, TensorError>)
      ensures r == ForwardSpec(be, inputIds, mask)
    {
      var embedded := Embed(be, tokenEmbedding, inputIds);
      if embedded.Failure? {
        return Failure(embedded.error);
      }
      var hidden := embedded.value;
      var i := 0;
      while i != |layers|
        invariant 0 <= i <= |layers|
        invariant Stack(be, embedded.value, mask, i) == Success(hidden)
      {
        var next := layers[i].Forward(be, hidden, mask);
        if next.Failure? {
          assert Stack(be, embedded.value, mask, i + 1) == next;
          StackFailurePersists(be, embedded.value, mask, i + 1, next.error);
          return Failure(next.error);
        }
        hidden := next.value;
        i := i + 1;
      }
      var normed := LayerNorm(be, hidden, finalLnWeight, finalLnBias, config.layerNormEpsilon);
      if normed.Failure? {
        return Failure(normed.error);
      }
      var head := Transpose2(lmHeadWeight);
      if head.Failure? {
        return Failure(head.error);
      }
      r := MatMul(be, normed.value, head.value);
    }

    /** Once the stack has raised, the next layer does not run and the error stays. */
    lemma StackStepFails(be: Backend, x: Tensor, mask: Tensor, n: nat, e: TensorError)
      requires n < |layers| && Stack(be, x, mask, n) == Failure(e)
      ensures Stack(be, x, mask, n + 1) == Failure(e)
    {
    }

    /** A layer that raises ends the forward pass with its error: no later layer runs. */
    lemma {:induction false} StackFailurePersists(be: Backend, x: Tensor, mask: Tensor, n: nat, e: TensorError)
      requires n <= |layers| && Stack(be, x, mask, n) == Failure(e)
      ensures Stack(be, x, mask, |layers|) == Failure(e)
      decreases |layers| - n
    {
      if n < |layers| {
        StackStepFails(be, x, mask, n, e);
        StackFailurePersists(be, x, mask, n + 1, e);
      }
    }

    /** Every layer well shaped for the configured sizes. */
    ghost predicate LayersWellShaped()
      reads Layers()`norms, Attentions()`weights, FeedForwards()`weights
    {
      forall k :: 0 <= k < |layers| ==>
        layers[k].WellShaped() && layers[k].hiddenSize == config.hiddenSize &&
        layers[k].attention.numHeads == config.numAttentionHeads
    }

    /**
     * Well-shaped layers keep `[b, s, hidden]` through the whole stack when
     * the input is empty or the head count divides the hidden size.
     */
    lemma {:induction false} StackShape(be: Backend, x: Tensor, mask: Tensor, n: nat)
      requires n <= |layers| && LayersWellShaped() && config.numAttentionHeads > 0
      requires |x.shape| == 3 && x.shape[2] == config.hiddenSize
      requires HeadsFit(x.shape, config.hiddenSize, config.numAttentionHeads)
      ensures Stack(be, x, mask, n).Success? && Stack(be, x, mask, n).value.shape == x.shape
    {
      if n > 0 {
        var m: nat := n - 1;
        StackShape(be, x, mask, m);
        StackStep(be, x, mask, m);
      }
    }

    /** One more well-shaped layer keeps the shape. */
    lemma StackStep(be: Backend, x: Tensor, mask: Tensor, i: nat)
      requires i < |layers| && config.numAttentionHeads > 0
      requires layers[i].WellShaped() && layers[i].hiddenSize == config.hiddenSize
      requires layers[i].attention.numHeads == config.numAttentionHeads
      requires |x.shape| == 3 && x.shape[2] == config.hiddenSize
      requires HeadsFit(x.shape, config.hiddenSize, config.numAttentionHeads)
      requires Stack(be, x, mask, i).Success? && Stack(be, x, mask, i).value.shape == x.shape
      ensures Stack(be, x, mask, i + 1).Success? && Stack(be, x, mask, i + 1).value.shape == x.shape
    {
      var h := Stack(be, x, mask, i).value;
      assert HeadsFit(h.shape, layers[i].hiddenSize, layers[i].attention.numHeads);
      layers[i].ForwardShape(be, h, mask);
    }

    /**
     * With weights of the checkpoint's shapes (embedding and LM head both
     * `vocab x hidden`), ids of length `n` give logits of shape
     * `[1, n, vocab]` when the input is empty or the heads divide the
     * hidden size.
     */
    lemma LogitsShape(be: Backend, inputIds: seq<int>, mask: Tensor)
      requires LayersWellShaped() && config.numAttentionHeads > 0 && config.hiddenSize >= 0
      requires tokenEmbedding.shape == lmHeadWeight.shape == [config.vocabSize, config.hiddenSize]
      requires finalLnWeight.shape == finalLnBias.shape == [config.hiddenSize]
      requires |inputIds| == 0 || config.hiddenSize % config.numAttentionHeads == 0
      ensures ForwardSpec(be, inputIds, mask).Success?
      ensures ForwardSpec(be, inputIds, mask).value.shape == [1, |inputIds|, config.vocabSize]
    {
      var embedded := Embed(be, tokenEmbedding, inputIds).value;
      assert HeadsFit(embedded.shape, config.hiddenSize, config.numAttentionHeads) by {
        assert embedded.shape == [1, |inputIds|, config.hiddenSize];
      }
      StackShape(be, embedded, mask, |layers|);
      var hidden := Stack(be, embedded, mask, |layers|).value;
      var normed := LayerNorm(be, hidden, finalLnWeight, finalLnBias, config.layerNormEpsilon);
      assert normed.Success? && normed.value.shape == hidden.shape;
      ProjectionShape(be, normed.value, lmHeadWeight);
    }

    /**
     * The next-token function: the last position's logits, divided by a
     * positive temperature, top-k masked, then one draw of `sample` (the
     * softmax and categorical draw, numbered `draw`).
     */
    function NextTokenSpec(be: Backend, inputIds: seq<int>, temperature: real, topK: int,
                           sample: (nat, seq<real>) -> int, draw: nat): Result<int, TensorError>
      reads this`tokenEmbedding, this`lmHeadWeight, this`finalLnWeight, this`finalLnBias
      reads Layers()`norms, Attentions()`weights, FeedForwards()`weights
    {
      var logits :- ForwardSpec(be, inputIds, EmptyArray);
      var last :- LastPositionLogits(logits);
      var masked :- TopKMask(ApplyTemperature(last, temperature), topK);
      Success(sample(draw, masked))
    }

    /** `generate_next_token`: the forward pass without a mask, then the next-token function. */
    method GenerateNextToken(be: Backend, inputIds: seq<int>, temperature: real, topK: int,
                             sample: (nat, seq<real>) -> int, draw: nat) returns (r: Result<int, TensorError>)
      ensures r == NextTokenSpec(be, inputIds, temperature, topK, sample, draw)
    {
      var logits := Forward(be, inputIds, EmptyArray);
      if logits.Failure? {
        return Failure(logits.error);
      }
      var last := LastPositionLogits(logits.value);
      if last.Failure? {
        return Failure(last.error);
      }
      var scaled := last.value;
      if temperature > 0.0 {
        scaled := seq(|scaled|, i requires 0 <= i < |scaled| => scaled[i] / temperature);
      }
      var masked := TopKMask(scaled, topK);
      if masked.Failure? {
        return Failure(masked.error);
      }
      return Success(sample(draw, masked.value));
    }

    /**
     * A well-shaped model with a non-empty prompt reaches the draw exactly
     * when `top_k` is at most the vocabulary size.
     */
    lemma NextTokenFailsOnlyOnLargeTopK(be: Backend, inputIds: seq<int>, temperature: real, topK: int,
                                        sample: (nat, seq<real>) -> int, draw: nat)
      requires LayersWellShaped() && config.numAttentionHeads > 0 && config.hiddenSize >= 0
      requires tokenEmbedding.shape == lmHeadWeight.shape == [config.vocabSize, config.hiddenSize]
      requires finalLnWeight.shape == finalLnBias.shape == [config.hiddenSize]
      requires config.hiddenSize % config.numAttentionHeads == 0 && |inputIds| > 0
      ensures NextTokenSpec(be, inputIds, temperature, topK, sample, draw).Success? <==> topK <= config.vocabSize
    {
      LogitsShape(be, inputIds, EmptyArray);
    }

    /** One pass of `clearKVCache`'s loop: layer `i`'s cache updated with default arrays, the others kept. */
    method ClearLayer(be: Backend, i: nat) returns (step: Outcome<TensorError>)
      requires Valid() && i < |layers|
      modifies layers[i].attention`cache
      ensures (step, layers[i].attention.cache) == UpdatedCache(be, old(Caches())[i], EmptyArray, EmptyArray)
      ensures Caches() == old(Caches())[i := layers[i].attention.cache]
    {
      step := layers[i].UpdateKVCache(be, EmptyArray, EmptyArray);
    }

    /** `clearKVCache`: every layer's cache updated with a pair of default arrays, in order. */
    method ClearKVCache(be: Backend) returns (r: Outcome<TensorError>)
      requires Valid()
      modifies Attentions()`cache
      ensures (r, Caches()) == ClearAll(be, old(Caches()))
    {
      ghost var initial := Caches();
      ghost var cleared: seq<KVCache> := [];
      var i := 0;
      while i != |layers|
        invariant 0 <= i <= |layers| && |cleared| == i && ClearedPrefix(be, initial, cleared)
        invariant Caches() == cleared + initial[i..]
      {
        assert layers[i].attention in Attentions();
        var step := ClearLayer(be, i);
        ghost var c := layers[i].attention.cache;
        ReplaceAfter(cleared, initial[i..], c);
        assert initial[i..][0] == initial[i] && initial[i..][1..] == initial[i + 1..];
        if step.Fail? {
          ClearAllStopsAt(be, initial, cleared, step.error, c);
          return step;
        }
        cleared := cleared + [c];
        i := i + 1;
      }
      ClearAllPasses(be, initial, cleared);
      assert Caches() == cleared + [] == cleared;
      return Pass;
    }
  }
}
