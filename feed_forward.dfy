/**
 * The gated feed-forward sublayer (`FeedForward`): the GELU of a gate
 * projection multiplies an up projection, a down projection returns to the
 * hidden width, and dropout follows only for a positive probability.
 */
module FeedForwardLayer {
  import opened Wrappers
  import opened Tensors
  import opened WeightStore

  datatype FeedForwardWeights = FeedForwardWeights(gate: Tensor, up: Tensor, down: Tensor)

  /** The checkpoint names `loadWeights` asks for under `prefix`, in order. */
  function FeedForwardWeightNames(prefix: string): (names: seq<string>)
    ensures |names| == 3
  {
    [prefix + ".gate_proj.weight", prefix + ".up_proj.weight", prefix + ".down_proj.weight"]
  }

  /** Zero `hidden x intermediate` gate and up matrices and a zero `intermediate x hidden` down matrix. */
  function DefaultFeedForwardWeights(hiddenSize: nat, intermediateSize: nat): FeedForwardWeights
  {
    FeedForwardWeights(
      Zeros([hiddenSize, intermediateSize]), Zeros([hiddenSize, intermediateSize]), Zeros([intermediateSize, hiddenSize]))
  }

  class FeedForwardImpl {
    const hiddenSize: int
    const intermediateSize: int
    const dropoutProb: real
    var weights: FeedForwardWeights

    constructor (hiddenSize: int, intermediateSize: int, dropoutProb: real)
      requires hiddenSize >= 0 && intermediateSize >= 0
      ensures this.hiddenSize == hiddenSize && this.intermediateSize == intermediateSize
      ensures this.dropoutProb == dropoutProb
      ensures weights == DefaultFeedForwardWeights(hiddenSize, intermediateSize)
    {
      this.hiddenSize := hiddenSize;
      this.intermediateSize := intermediateSize;
      this.dropoutProb := dropoutProb;
      weights := DefaultFeedForwardWeights(hiddenSize, intermediateSize);
    }

    /** `loadWeights`: the three projections under `prefix`, each of which must be found. */
    method LoadWeights(loader: ModelLoader, prefix: string) returns (r: Outcome<LoadError>)
      modifies this`weights, loader`cache
      ensures Extends(old(loader.cache), loader.cache)
      ensures r.Fail? ==>
        ReportsMissing(old(loader.cache), loader.storage, loader.modelPath, FeedForwardWeightNames(prefix), r.error)
      ensures Available(old(loader.cache), loader.storage, loader.modelPath, FeedForwardWeightNames(prefix)) ==> r.Pass?
      ensures r.Pass? ==>
        loader.cache == Preload(old(loader.cache), loader.storage, loader.modelPath, FeedForwardWeightNames(prefix))
      ensures r.Pass? ==> LoadedFrom(loader.cache, prefix)
    {
      var names := FeedForwardWeightNames(prefix);
      var loaded := loader.LoadRequired(names);
      if loaded.Failure? {
        return Fail(loaded.error);
      }
      weights := FeedForwardWeights(loaded.value[0], loaded.value[1], loaded.value[2]);
      return Pass;
    }

    /** The projections are the cached tensors of the names under `prefix`. */
    ghost predicate LoadedFrom(cache: map<string, Tensor>, prefix: string)
      reads this`weights
    {
      var names := FeedForwardWeightNames(prefix);
      (forall i :: 0 <= i < 3 ==> names[i] in cache) &&
      weights == FeedForwardWeights(cache[names[0]], cache[names[1]], cache[names[2]])
    }

    /** Loaded weights stay loaded when the cache only gains entries. */
    lemma LoadedFromExtends(c1: map<string, Tensor>, c2: map<string, Tensor>, prefix: string)
      requires LoadedFrom(c1, prefix) && Extends(c1, c2)
      ensures LoadedFrom(c2, prefix)
    {
      var names := FeedForwardWeightNames(prefix);
      assert forall i :: 0 <= i < 3 ==> c2[names[i]] == c1[names[i]];
    }

    /** `forward`: `down(gelu(x gate) * (x up))`, then dropout when the probability is positive. */
    function Forward(be: Backend, hiddenStates: Tensor): (r: Result<Tensor, TensorError>)
      reads this`weights
      ensures r.Success? ==> |hiddenStates.shape| >= 1
      ensures r.Success? && |weights.gate.shape| == |weights.up.shape| == |weights.down.shape| == 2 ==>
        r.value.shape == hiddenStates.shape[..|hiddenStates.shape| - 1] + [weights.down.shape[1]]
    {
      var gate :- MatMul(be, hiddenStates, weights.gate);
      var activated := Gelu(be, gate);
      var up :- MatMul(be, hiddenStates, weights.up);
      var intermediate :- Multiply(activated, up);
      var output :- MatMul(be, intermediate, weights.down);
      assert |weights.gate.shape| == |weights.up.shape| == 2 ==>
        intermediate.shape == hiddenStates.shape[..|hiddenStates.shape| - 1] + [Last(intermediate.shape)] by {
        if |weights.gate.shape| == |weights.up.shape| == 2 {
          BroadcastKeepsLeading(hiddenStates.shape[..|hiddenStates.shape| - 1], Last(gate.shape), Last(up.shape));
          assert gate.shape == hiddenStates.shape[..|hiddenStates.shape| - 1] + [Last(gate.shape)];
          assert up.shape == hiddenStates.shape[..|hiddenStates.shape| - 1] + [Last(up.shape)];
        }
      }
      if dropoutProb > 0.0 then Success(Dropout(be, output, dropoutProb)) else Success(output)
    }

    /**
     * With weights of the constructor's shapes, an input whose last axis is
     * the hidden width comes out with its shape unchanged.
     */
    lemma ForwardShape(be: Backend, x: Tensor)
      requires hiddenSize >= 0 && intermediateSize >= 0
      requires weights.gate.shape == weights.up.shape == [hiddenSize, intermediateSize]
      requires weights.down.shape == [intermediateSize, hiddenSize]
      requires |x.shape| >= 1 && Last(x.shape) == hiddenSize
      ensures Forward(be, x).Success? && Forward(be, x).value.shape == x.shape
    {
      var n := |x.shape|;
      var gate := MatMul(be, x, weights.gate);
      assert gate.Success? && gate.value.shape == x.shape[..n - 1] + [intermediateSize];
      var up := MatMul(be, x, weights.up);
      assert up.Success? && up.value.shape == gate.value.shape;
      assert Multiply(Gelu(be, gate.value), up.value).Success?;
      assert x.shape == x.shape[..n - 1] + [hiddenSize];
    }

    /**
     * Without a positive dropout probability the output does not depend on
     * the dropout kernel: two backends that agree on the matrix product and
     * on GELU give the same result.
     */
    lemma NoDropoutWithoutProbability(be1: Backend, be2: Backend, x: Tensor)
      requires dropoutProb <= 0.0
      requires be1.matmul == be2.matmul && be1.gelu == be2.gelu
      ensures Forward(be1, x) == Forward(be2, x)
    {
      MatMulSameKernel(be1, be2, x, weights.gate);
      MatMulSameKernel(be1, be2, x, weights.up);
      var g, u := MatMul(be1, x, weights.gate), MatMul(be1, x, weights.up);
      if g.Success? && u.Success? {
        assert Gelu(be1, g.value) == Gelu(be2, g.value);
        var m := Multiply(Gelu(be1, g.value), u.value);
        if m.Success? {
          MatMulSameKernel(be1, be2, m.value, weights.down);
        }
      }
    }
  }
}
