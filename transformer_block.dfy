/**
 * One pre-norm decoder layer (`TransformerBlock`): layer norm, attention and
 * a residual add, then layer norm, the feed-forward sublayer and a second
 * residual add. The layer owns its attention and feed-forward objects.
 */
module Block {
  import opened Wrappers
  import opened Tensors
  import opened WeightStore
  import opened AttentionLayer
  import opened FeedForwardLayer

  /** Weight and bias of the two layer norms. */
  datatype NormParams = NormParams(attentionWeight: Tensor, attentionBias: Tensor, ffnWeight: Tensor, ffnBias: Tensor)

  /** Unit weights and zero biases of the hidden width. */
  function DefaultNorms(hiddenSize: nat): NormParams
  {
    NormParams(Ones([hiddenSize]), Zeros([hiddenSize]), Ones([hiddenSize]), Zeros([hiddenSize]))
  }

  function AttentionNormWeight(prefix: string): string { prefix + ".attention_norm.weight" }
  function AttentionNormBias(prefix: string): string { prefix + ".attention_norm.bias" }
  function FfnNormWeight(prefix: string): string { prefix + ".mlp_norm.weight" }
  function FfnNormBias(prefix: string): string { prefix + ".mlp_norm.bias" }

  /** The names whose absence makes `loadWeights` raise. */
  function BlockRequiredNames(prefix: string): seq<string>
  {
    AttentionWeightNames(prefix + ".attention") + FeedForwardWeightNames(prefix + ".mlp") +
    [AttentionNormWeight(prefix), FfnNormWeight(prefix)]
  }

  /** Every name `loadWeights` asks for, in order, when it completes. */
  function BlockWeightNames(prefix: string): (names: seq<string>)
    ensures |names| == 11
  {
    AttentionWeightNames(prefix + ".attention") + FeedForwardWeightNames(prefix + ".mlp") +
    [AttentionNormWeight(prefix), AttentionNormBias(prefix), FfnNormWeight(prefix), FfnNormBias(prefix)]
  }

  class TransformerBlock {
    const hiddenSize: int
    const layerNormEpsilon: real
    const attention: AttentionImpl
    const feedForward: FeedForwardImpl
    var norms: NormParams

    constructor (hiddenSize: int, intermediateSize: int, numAttentionHeads: int, layerNormEpsilon: real, dropoutProb: real)
      requires hiddenSize >= 0 && intermediateSize >= 0 && numAttentionHeads != 0
      ensures fresh(attention) && fresh(feedForward)
      ensures Initial(hiddenSize, intermediateSize, numAttentionHeads, layerNormEpsilon, dropoutProb)
    {
      this.hiddenSize := hiddenSize;
      this.layerNormEpsilon := layerNormEpsilon;
      attention := new AttentionImpl(hiddenSize, numAttentionHeads, dropoutProb);
      feedForward := new FeedForwardImpl(hiddenSize, intermediateSize, dropoutProb);
      norms := DefaultNorms(hiddenSize);
    }

    /** The state the constructor leaves: sizes as given, default weights and norms, an empty cache. */
    ghost predicate Initial(hiddenSize: int, intermediateSize: int, numAttentionHeads: int, layerNormEpsilon: real,
                            dropoutProb: real)
      reads this`norms, attention`weights, attention`cache, feedForward`weights
      requires hiddenSize >= 0 && intermediateSize >= 0 && numAttentionHeads != 0
    {
      && this.hiddenSize == hiddenSize && this.layerNormEpsilon == layerNormEpsilon
      && attention.hiddenSize == hiddenSize && attention.numHeads == numAttentionHeads
      && attention.headDim == TruncDiv(hiddenSize, numAttentionHeads) && attention.dropoutProb == dropoutProb
      && attention.weights == DefaultAttentionWeights(hiddenSize) && attention.cache == EmptyCache
      && feedForward.hiddenSize == hiddenSize && feedForward.intermediateSize == intermediateSize
      && feedForward.dropoutProb == dropoutProb
      && feedForward.weights == DefaultFeedForwardWeights(hiddenSize, intermediateSize)
      && norms == DefaultNorms(hiddenSize)
    }

    /** All weights of the layer are the cached tensors of the names under `prefix`. */
    ghost predicate LoadedFrom(cache: map<string, Tensor>, prefix: string)
      reads this`norms, attention`weights, feedForward`weights
    {
      attention.LoadedFrom(cache, prefix + ".attention") &&
      feedForward.LoadedFrom(cache, prefix + ".mlp") &&
      AttentionNormWeight(prefix) in cache && norms.attentionWeight == cache[AttentionNormWeight(prefix)] &&
      FfnNormWeight(prefix) in cache && norms.ffnWeight == cache[FfnNormWeight(prefix)]
    }

    lemma LoadedFromExtends(c1: map<string, Tensor>, c2: map<string, Tensor>, prefix: string)
      requires LoadedFrom(c1, prefix) && Extends(c1, c2)
      ensures LoadedFrom(c2, prefix)
    {
      attention.LoadedFromExtends(c1, c2, prefix + ".attention");
      feedForward.LoadedFromExtends(c1, c2, prefix + ".mlp");
    }

    /** Each norm bias is its cache entry when its name is cached, and the bias of `before` when it is not. */
    ghost predicate BiasesFrom(cache: map<string, Tensor>, prefix: string, before: NormParams)
      reads this`norms
    {
      && norms.attentionBias ==
        (if AttentionNormBias(prefix) in cache then cache[AttentionNormBias(prefix)] else before.attentionBias)
      && norms.ffnBias == (if FfnNormBias(prefix) in cache then cache[FfnNormBias(prefix)] else before.ffnBias)
    }

    /** A cache that gains entries, but not the two bias names, leaves the biases as they were. */
    lemma BiasesFromExtends(c1: map<string, Tensor>, c2: map<string, Tensor>, prefix: string, before: NormParams)
      requires BiasesFrom(c1, prefix, before) && Extends(c1, c2)
      requires AttentionNormBias(prefix) in c2 ==> AttentionNormBias(prefix) in c1
      requires FfnNormBias(prefix) in c2 ==> FfnNormBias(prefix) in c1
      ensures BiasesFrom(c2, prefix, before)
    {
    }

    /**
     * `loadWeights`: attention under `.attention`, feed-forward under
     * `.mlp`, then each norm's weight, which must be found, and its bias,
     * which keeps its previous value when it is not.
     */
    method LoadWeights(loader: ModelLoader, prefix: string) returns (r: Outcome<LoadError>)
      modifies this`norms, attention`weights, feedForward`weights, loader`cache
      ensures Extends(old(loader.cache), loader.cache)
      ensures r.Fail? ==>
        ReportsMissing(old(loader.cache), loader.storage, loader.modelPath, BlockRequiredNames(prefix), r.error)
      ensures Available(old(loader.cache), loader.storage, loader.modelPath, BlockRequiredNames(prefix)) ==> r.Pass?
      ensures r.Pass? ==>
        loader.cache == Preload(old(loader.cache), loader.storage, loader.modelPath, BlockWeightNames(prefix))
      ensures r.Pass? ==> LoadedFrom(loader.cache, prefix)
      ensures r.Pass? ==> BiasesFrom(loader.cache, prefix, old(norms))
    {
      ghost var c0 := loader.cache;
      ghost var mp, st := loader.modelPath, loader.storage;
      ghost var required := BlockRequiredNames(prefix);
      var a := attention.LoadWeights(loader, prefix + ".attention");
      if a.Fail? {
        assert ReportsMissing(c0, st, mp, required, a.error) by {
          ReportsMissingWeaken(c0, c0, st, mp, AttentionWeightNames(prefix + ".attention"), required, a.error);
        }
        return a;
      }
      ghost var c1 := loader.cache;
      var f := feedForward.LoadWeights(loader, prefix + ".mlp");
      if f.Fail? {
        assert ReportsMissing(c0, st, mp, required, f.error) by {
          ReportsMissingWeaken(c0, c1, st, mp, FeedForwardWeightNames(prefix + ".mlp"), required, f.error);
        }
        return f;
      }
      ghost var c2 := loader.cache;
      r := LoadNorms(loader, prefix);
      if r.Fail? {
        assert ReportsMissing(c0, st, mp, required, r.error) by {
          ReportsMissingWeaken(c0, c2, st, mp, [AttentionNormWeight(prefix), FfnNormWeight(prefix)], required, r.error);
        }
        return r;
      }
      assert loader.cache == Preload(c0, st, mp, BlockWeightNames(prefix)) by {
        PreloadAppend(c0, st, mp, AttentionWeightNames(prefix + ".attention"), FeedForwardWeightNames(prefix + ".mlp"));
        PreloadAppend(c0, st, mp, AttentionWeightNames(prefix + ".attention") + FeedForwardWeightNames(prefix + ".mlp"),
          [AttentionNormWeight(prefix), AttentionNormBias(prefix), FfnNormWeight(prefix), FfnNormBias(prefix)]);
      }
      assert attention.LoadedFrom(loader.cache, prefix + ".attention") by {
        attention.LoadedFromExtends(c1, loader.cache, prefix + ".attention");
      }
      assert feedForward.LoadedFrom(loader.cache, prefix + ".mlp") by {
        feedForward.LoadedFromExtends(c2, loader.cache, prefix + ".mlp");
      }
    }

    /** The layer-norm part of `loadWeights`: each weight must be found, each bias is optional. */
    method LoadNorms(loader: ModelLoader, prefix: string) returns (r: Outcome<LoadError>)
      modifies this`norms, loader`cache
      ensures Extends(old(loader.cache), loader.cache)
      ensures r.Fail? ==> ReportsMissing(old(loader.cache), loader.storage, loader.modelPath,
        [AttentionNormWeight(prefix), FfnNormWeight(prefix)], r.error)
      ensures r.Pass? ==> loader.cache == Preload(old(loader.cache), loader.storage, loader.modelPath,
        [AttentionNormWeight(prefix), AttentionNormBias(prefix), FfnNormWeight(prefix), FfnNormBias(prefix)])
      ensures r.Pass? ==> AttentionNormWeight(prefix) in loader.cache && FfnNormWeight(prefix) in loader.cache
      ensures r.Pass? ==> norms.attentionWeight == loader.cache[AttentionNormWeight(prefix)]
      ensures r.Pass? ==> norms.ffnWeight == loader.cache[FfnNormWeight(prefix)]
      ensures r.Pass? ==> BiasesFrom(loader.cache, prefix, old(norms))
    {
      ghost var c0 := loader.cache;
      var attn := LoadNormPair(loader, AttentionNormWeight(prefix), AttentionNormBias(prefix), norms.attentionBias);
      if attn.Failure? {
        assert AttentionNormWeight(prefix) in [AttentionNormWeight(prefix), FfnNormWeight(prefix)];
        return Fail(attn.error);
      }
      norms := norms.(attentionWeight := attn.value.0, attentionBias := attn.value.1);
      ghost var c2 := loader.cache;
      var ffn := LoadNormPair(loader, FfnNormWeight(prefix), FfnNormBias(prefix), norms.ffnBias);
      if ffn.Failure? {
        assert FfnNormWeight(prefix) in [AttentionNormWeight(prefix), FfnNormWeight(prefix)];
        assert Extends(c0, c2);
        return Fail(ffn.error);
      }
      norms := norms.(ffnWeight := ffn.value.0, ffnBias := ffn.value.1);
      NormLoads(c0, loader.storage, loader.modelPath, prefix);
      return Pass;
    }

    /**
     * One norm's weight, which must be found, then its bias, which falls back
     * to `bias` when it is not.
     */
    static method LoadNormPair(loader: ModelLoader, weightName: string, biasName: string, bias: Tensor)
      returns (r: Result<(Tensor, Tensor), LoadError>)
      modifies loader`cache
      ensures var l1 := Lookup(old(loader.cache), loader.storage, loader.modelPath, weightName);
        var l2 := Lookup(l1.1, loader.storage, loader.modelPath, biasName);
        if l1.0.Failure? then
          r == Failure(l1.0.error) && loader.cache == old(loader.cache)
        else
          r == Success((l1.0.value, if l2.0.Success? then l2.0.value else bias)) && loader.cache == l2.1
    {
      var w := loader.LoadWeight(weightName);
      if w.Failure? {
        return Failure(w.error);
      }
      var b := loader.LoadWeight(biasName);
      if b.Success? {
        return Success((w.value, b.value));
      }
      return Success((w.value, bias));
    }

    /**
     * The four norm lookups, failures skipped, are a preload of the four norm
     * names; each found tensor stays cached, and a bias is cached at the end
     * exactly when its own lookup found it.
     */
    static lemma NormLoads(c0: map<string, Tensor>, st: Storage, mp: string, prefix: string)
      requires Lookup(c0, st, mp, AttentionNormWeight(prefix)).0.Success?
      requires Lookup(Lookup(Lookup(c0, st, mp, AttentionNormWeight(prefix)).1, st, mp, AttentionNormBias(prefix)).1,
        st, mp, FfnNormWeight(prefix)).0.Success?
      ensures var l1 := Lookup(c0, st, mp, AttentionNormWeight(prefix));
        var l2 := Lookup(l1.1, st, mp, AttentionNormBias(prefix));
        var l3 := Lookup(l2.1, st, mp, FfnNormWeight(prefix));
        var l4 := Lookup(l3.1, st, mp, FfnNormBias(prefix));
        && Extends(c0, l4.1)
        && l4.1 == Preload(c0, st, mp,
          [AttentionNormWeight(prefix), AttentionNormBias(prefix), FfnNormWeight(prefix), FfnNormBias(prefix)])
        && AttentionNormWeight(prefix) in l4.1 && l4.1[AttentionNormWeight(prefix)] == l1.0.value
        && FfnNormWeight(prefix) in l4.1 && l4.1[FfnNormWeight(prefix)] == l3.0.value
        && (AttentionNormBias(prefix) in l4.1 <==> l2.0.Success?)
        && (l2.0.Success? ==> l4.1[AttentionNormBias(prefix)] == l2.0.value)
        && (FfnNormBias(prefix) in l4.1 <==> l4.0.Success?)
        && (l4.0.Success? ==> l4.1[FfnNormBias(prefix)] == l4.0.value)
    {
      var names := [AttentionNormWeight(prefix), AttentionNormBias(prefix), FfnNormWeight(prefix), FfnNormBias(prefix)];
      var l1 := Lookup(c0, st, mp, names[0]);
      var l2 := Lookup(l1.1, st, mp, names[1]);
      var l3 := Lookup(l2.1, st, mp, names[2]);
      var l4 := Lookup(l3.1, st, mp, names[3]);
      assert |names[1]| != |names[2]| && |names[1]| != |names[3]|;
      assert Preload(l4.1, st, mp, names[4..]) == l4.1;
      assert Preload(l3.1, st, mp, names[3..]) == Preload(l4.1, st, mp, names[4..]);
      assert Preload(l2.1, st, mp, names[2..]) == Preload(l3.1, st, mp, names[3..]);
      assert Preload(l1.1, st, mp, names[1..]) == Preload(l2.1, st, mp, names[2..]);
      assert Preload(c0, st, mp, names) == Preload(l1.1, st, mp, names[1..]);
    }

    /**
     * `forward`: `h = x + attention(norm1(x))`, then `h + ffn(norm2(h))`; the
     * residual stream carries the un-normalised input.
     */
    function Forward(be: Backend, hiddenStates: Tensor, mask: Tensor): (r: Result<Tensor, TensorError>)
      reads this`norms, attention`weights, feedForward`weights
    {
      var normInput :- LayerNorm(be, hiddenStates, norms.attentionWeight, norms.attentionBias, layerNormEpsilon);
      var attnOutput :- attention.Forward(be, normInput, mask, EmptyCache);
      var residual :- Add(hiddenStates, attnOutput);
      var ffnNormInput :- LayerNorm(be, residual, norms.ffnWeight, norms.ffnBias, layerNormEpsilon);
      var ffnOutput :- feedForward.Forward(be, ffnNormInput);
      Add(residual, ffnOutput)
    }

    /** The layer's shapes as its constructor makes them and a well-formed checkpoint keeps them. */
    ghost predicate WellShaped()
      reads this`norms, attention`weights, feedForward`weights
    {
      hiddenSize >= 0 && feedForward.intermediateSize >= 0 && attention.numHeads > 0 &&
      attention.hiddenSize == hiddenSize && feedForward.hiddenSize == hiddenSize &&
      attention.headDim == TruncDiv(hiddenSize, attention.numHeads) &&
      attention.weights.query.shape == attention.weights.key.shape == attention.weights.value.shape ==
        attention.weights.output.shape == [hiddenSize, hiddenSize] &&
      feedForward.weights.gate.shape == feedForward.weights.up.shape == [hiddenSize, feedForward.intermediateSize] &&
      feedForward.weights.down.shape == [feedForward.intermediateSize, hiddenSize] &&
      norms.attentionWeight.shape == norms.attentionBias.shape == norms.ffnWeight.shape == norms.ffnBias.shape ==
        [hiddenSize]
    }

    /**
     * A well-shaped layer maps `[b, s, hidden]` to `[b, s, hidden]`, and
     * fails exactly when the input is non-empty and the head count does not
     * divide the hidden size.
     */
    lemma ForwardShape(be: Backend, x: Tensor, mask: Tensor)
      requires WellShaped()
      requires |x.shape| == 3 && x.shape[2] == hiddenSize
      ensures Forward(be, x, mask).Success? <==> x.shape[0] * x.shape[1] == 0 || hiddenSize % attention.numHeads == 0
      ensures Forward(be, x, mask).Success? ==> Forward(be, x, mask).value.shape == x.shape
    {
      var normInput := LayerNorm(be, x, norms.attentionWeight, norms.attentionBias, layerNormEpsilon);
      assert normInput.Success? && normInput.value.shape == x.shape;
      attention.ForwardShape(be, normInput.value, mask, EmptyCache);
      var attnOutput := attention.Forward(be, normInput.value, mask, EmptyCache);
      if attnOutput.Success? {
        var residual := Add(x, attnOutput.value);
        assert residual.Success? && residual.value.shape == x.shape;
        var ffnNormInput := LayerNorm(be, residual.value, norms.ffnWeight, norms.ffnBias, layerNormEpsilon);
        assert ffnNormInput.Success? && ffnNormInput.value.shape == x.shape;
        feedForward.ForwardShape(be, ffnNormInput.value);
      }
    }

    /**
     * When every projection yields zeros and the feed-forward sublayer does
     * no dropout, a well-shaped layer returns its input unchanged: both
     * residual adds take the un-normalised input, not the normalised one.
     */
    lemma ResidualCarriesInput(be: Backend, x: Tensor, mask: Tensor)
      requires WellShaped()
      requires |x.shape| == 3 && x.shape[2] == hiddenSize
      requires forall a: Tensor, b: Tensor, k: nat :: be.matmul(a, b, k) == 0.0
      requires feedForward.dropoutProb <= 0.0
      ensures Forward(be, x, mask).Success? ==> Forward(be, x, mask).value == x
    {
      var normInput := LayerNorm(be, x, norms.attentionWeight, norms.attentionBias, layerNormEpsilon);
      assert normInput.Success? && normInput.value.shape == x.shape;
      attention.ForwardShape(be, normInput.value, mask, EmptyCache);
      var attnOutput := attention.Forward(be, normInput.value, mask, EmptyCache);
      if attnOutput.Success? {
        AddZeros(x, attnOutput.value);
        var residual := Add(x, attnOutput.value).value;
        var ffnNormInput := LayerNorm(be, residual, norms.ffnWeight, norms.ffnBias, layerNormEpsilon);
        assert ffnNormInput.Success? && ffnNormInput.value.shape == x.shape;
        feedForward.ForwardShape(be, ffnNormInput.value);
        var ffnOutput := feedForward.Forward(be, ffnNormInput.value);
        AddZeros(residual, ffnOutput.value);
      }
    }

    /** `getKVCache`: the attention sublayer's pair. */
    function GetKVCache(): (c: KVCache)
      reads attention`cache
      ensures c == attention.cache
    {
      attention.GetKVCache()
    }

    /** `updateKVCache`: forwarded to the attention sublayer. */
    method UpdateKVCache(be: Backend, key: Tensor, value: Tensor) returns (r: Outcome<TensorError>)
      modifies attention`cache
      ensures (r, attention.cache) == UpdatedCache(be, old(attention.cache), key, value)
    {
      r := attention.UpdateKVCache(be, key, value);
    }
  }

  /** Adding an all-zero array of the same shape returns the left operand. */
  lemma AddZeros(x: Tensor, z: Tensor)
    requires z.shape == x.shape
    requires forall k :: 0 <= k < |z.data| ==> z.data[k] == 0.0
    ensures Add(x, z) == Success(x)
  {
    var r := Add(x, z);
    assert r.value.data == x.data;
  }
}
