/**
 * Multi-head self-attention (`AttentionImplementation`): four square
 * projections loaded from the checkpoint, a forward pass that splits the
 * hidden dimension into heads around the library's scaled dot-product
 * attention, and a key/value cache that the forward pass never consults.
 */
module AttentionLayer {
  import opened Wrappers
  import opened Tensors
  import opened WeightStore

  /** C++ division of `int64` values: the quotient rounds toward zero. */
  function TruncDiv(a: int, b: int): int
    requires b != 0
  {
    if a >= 0 && b > 0 then a / b
    else if a < 0 && b < 0 then (-a) / (-b)
    else if a < 0 then -((-a) / b)
    else -(a / (-b))
  }

  /** With a positive divisor the head count splits the hidden size exactly when it divides it. */
  lemma HeadSplit(hiddenSize: nat, numHeads: int)
    requires numHeads > 0
    ensures TruncDiv(hiddenSize, numHeads) == hiddenSize / numHeads >= 0
    ensures numHeads * TruncDiv(hiddenSize, numHeads) == hiddenSize <==> hiddenSize % numHeads == 0
  {
    Divides(hiddenSize, numHeads);
  }

  lemma Divides(a: nat, b: int)
    requires b > 0
    ensures b * (a / b) == a <==> a % b == 0
  {
    var q, m := a / b, a % b;
    assert a == q * b + m && 0 <= m < b;
    assert b * q == q * b;
  }

  lemma MulCancel(x: int, y: int, z: int)
    requires x > 0 && x * y == x * z
    ensures y == z
  {
    assert x * (y - z) == x * y - x * z;
  }

  /** Splitting `[b, s, h]` into `[b, s, heads, d]` keeps the element count exactly when `h == heads * d` or the batch is empty. */
  lemma SplitKeepsSize(b: nat, s: nat, h: nat, heads: nat, d: nat)
    ensures Size([b, s, h]) == Size([b, s, heads, d]) <==> b * s == 0 || h == heads * d
  {
    Size3(b, s, h);
    Size4(b, s, heads, d);
    MulAssoc(b, s, h);
    MulAssoc(b, s, heads * d);
    if b * s != 0 && b * s * h == b * s * (heads * d) {
      MulCancel(b * s, h, heads * d);
    }
  }

  /** The key and value caches, each an array whose axis 1 is the sequence position. */
  datatype KVCache = KVCache(keys: Tensor, values: Tensor)

  /** The cache of a fresh layer, and the pair of default arrays `{}`. */
  const EmptyCache: KVCache := KVCache(EmptyArray, EmptyArray)

  /**
   * `updateKVCache`: a cache whose key array holds no element takes the new
   * pair as it is; otherwise each array is concatenated along axis 1, the
   * keys first, so a failing value concatenation leaves the keys extended.
   */
  function UpdatedCache(be: Backend, c: KVCache, key: Tensor, value: Tensor): (r: (Outcome<TensorError>, KVCache))
    ensures Size(c.keys.shape) == 0 ==> r == (Pass, KVCache(key, value))
    ensures Size(c.keys.shape) > 0 && r.0.Pass? ==>
      |c.keys.shape| >= 2 && |key.shape| >= 2 && |c.values.shape| >= 2 && |value.shape| >= 2 &&
      r.1.keys.shape == [c.keys.shape[0], c.keys.shape[1] + key.shape[1]] + c.keys.shape[2..] &&
      r.1.values.shape == [c.values.shape[0], c.values.shape[1] + value.shape[1]] + c.values.shape[2..]
    ensures Size(c.keys.shape) > 0 && r.0.Fail? ==> r.1.values == c.values
    ensures Size(c.keys.shape) > 0 && Concat1(be, c.keys, key).Failure? ==> r.0.Fail? && r.1 == c
    ensures Size(c.keys.shape) > 0 && Concat1(be, c.keys, key).Success? && r.0.Fail? ==>
      r.1 == KVCache(Concat1(be, c.keys, key).value, c.values)
  {
    if Size(c.keys.shape) == 0 then
      (Pass, KVCache(key, value))
    else
      match Concat1(be, c.keys, key)
      case Failure(e) => (Fail(e), c)
      case Success(keys) =>
        match Concat1(be, c.values, value)
        case Failure(e) => (Fail(e), c.(keys := keys))
        case Success(values) => (Pass, KVCache(keys, values))
  }

  /** Updating an empty cache with default arrays leaves it empty: the update resets it. */
  lemma EmptyUpdateResets(be: Backend, c: KVCache)
    requires Size(c.keys.shape) == 0
    ensures UpdatedCache(be, c, EmptyArray, EmptyArray) == (Pass, EmptyCache)
  {
  }

  /**
   * Updating a cache that holds keys with default arrays raises and changes
   * nothing: a default array is one-dimensional and cannot be joined along
   * axis 1, so such an update is no reset.
   */
  lemma EmptyUpdateOnFilledFails(be: Backend, c: KVCache)
    requires Size(c.keys.shape) > 0
    ensures UpdatedCache(be, c, EmptyArray, EmptyArray) == (Fail(ShapeMismatch("concatenate")), c)
  {
  }

  /** Consecutive updates of a filled cache add up along the sequence axis. */
  lemma UpdatesAccumulate(be: Backend, c: KVCache, k1: Tensor, v1: Tensor, k2: Tensor, v2: Tensor)
    requires Size(c.keys.shape) > 0
    requires UpdatedCache(be, c, k1, v1).0.Pass?
    requires UpdatedCache(be, UpdatedCache(be, c, k1, v1).1, k2, v2).0.Pass?
    ensures var r := UpdatedCache(be, UpdatedCache(be, c, k1, v1).1, k2, v2).1;
      |r.keys.shape| == |c.keys.shape| && r.keys.shape[1] == c.keys.shape[1] + k1.shape[1] + k2.shape[1]
  {
    var c1 := UpdatedCache(be, c, k1, v1).1;
    assert |c1.keys.shape| >= 2;
    assert Size(c1.keys.shape) > 0 by {
      SizeGrows(c.keys.shape, c1.keys.shape);
    }
  }

  /** A shape that agrees with another off axis 1 and is at least as long on it has at least as many elements. */
  lemma SizeGrows(a: Shape, b: Shape)
    requires |a| >= 2 && |b| == |a| && b[0] == a[0] && b[2..] == a[2..] && b[1] >= a[1]
    ensures Size(a) > 0 ==> Size(b) > 0
  {
    assert a[1..][1..] == a[2..] && b[1..][1..] == b[2..];
    assert Size(a) == a[0] * (a[1] * Size(a[2..]));
    assert Size(b) == b[0] * (b[1] * Size(b[2..]));
  }

  /** The four projections: query, key, value and output. */
  datatype AttentionWeights = AttentionWeights(query: Tensor, key: Tensor, value: Tensor, output: Tensor)

  /** The checkpoint names `loadWeights` asks for under `prefix`, in order. */
  function AttentionWeightNames(prefix: string): (names: seq<string>)
    ensures |names| == 4
  {
    [prefix + ".wq.weight", prefix + ".wk.weight", prefix + ".wv.weight", prefix + ".wo.weight"]
  }

  /** The weights every projection starts with: zero `hidden x hidden` matrices. */
  function DefaultAttentionWeights(hiddenSize: nat): AttentionWeights
  {
    var z := Zeros([hiddenSize, hiddenSize]);
    AttentionWeights(z, z, z, z)
  }

  class AttentionImpl {
    const hiddenSize: int
    const numHeads: int
    const headDim: int
    const dropoutProb: real
    var weights: AttentionWeights
    var cache: KVCache

    /** Zero projections, an empty cache and a head width rounded toward zero; nothing checks that the heads divide the hidden size. */
    constructor (hiddenSize: int, numHeads: int, dropoutProb: real)
      requires hiddenSize >= 0 && numHeads != 0
      ensures this.hiddenSize == hiddenSize && this.numHeads == numHeads && this.dropoutProb == dropoutProb
      ensures headDim == TruncDiv(hiddenSize, numHeads)
      ensures weights == DefaultAttentionWeights(hiddenSize)
      ensures cache == EmptyCache
    {
      this.hiddenSize := hiddenSize;
      this.numHeads := numHeads;
      this.headDim := TruncDiv(hiddenSize, numHeads);
      this.dropoutProb := dropoutProb;
      weights := DefaultAttentionWeights(hiddenSize);
      cache := EmptyCache;
    }

    /** `loadWeights`: the four projections under `prefix`, each of which must be found. */
    method LoadWeights(loader: ModelLoader, prefix: string) returns (r: Outcome<LoadError>)
      modifies this`weights, loader`cache
      ensures Extends(old(loader.cache), loader.cache)
      ensures r.Fail? ==>
        ReportsMissing(old(loader.cache), loader.storage, loader.modelPath, AttentionWeightNames(prefix), r.error)
      ensures Available(old(loader.cache), loader.storage, loader.modelPath, AttentionWeightNames(prefix)) ==> r.Pass?
      ensures r.Pass? ==>
        loader.cache == Preload(old(loader.cache), loader.storage, loader.modelPath, AttentionWeightNames(prefix))
      ensures r.Pass? ==> LoadedFrom(loader.cache, prefix)
    {
      var names := AttentionWeightNames(prefix);
      var loaded := loader.LoadRequired(names);
      if loaded.Failure? {
        return Fail(loaded.error);
      }
      weights := AttentionWeights(loaded.value[0], loaded.value[1], loaded.value[2], loaded.value[3]);
      return Pass;
    }

    /** The projections are the cached tensors of the names under `prefix`. */
    ghost predicate LoadedFrom(cache: map<string, Tensor>, prefix: string)
      reads this`weights
    {
      var names := AttentionWeightNames(prefix);
      (forall i :: 0 <= i < 4 ==> names[i] in cache) &&
      weights == AttentionWeights(cache[names[0]], cache[names[1]], cache[names[2]], cache[names[3]])
    }

    /** Loaded weights stay loaded when the cache only gains entries. */
    lemma LoadedFromExtends(c1: map<string, Tensor>, c2: map<string, Tensor>, prefix: string)
      requires LoadedFrom(c1, prefix) && Extends(c1, c2)
      ensures LoadedFrom(c2, prefix)
    {
      var names := AttentionWeightNames(prefix);
      assert forall i :: 0 <= i < 4 ==> c2[names[i]] == c1[names[i]];
    }

    /**
     * `forward`: project, split into heads, attend, merge the heads and
     * project back. The cache argument is accepted and ignored; an input of
     * rank below two has no batch and sequence dimensions to read.
     */
    function Forward(be: Backend, hiddenStates: Tensor, mask: Tensor, kvCache: KVCache): (r: Result<Tensor, TensorError>)
      reads this`weights
      ensures r.Success? ==> |hiddenStates.shape| >= 2 && hiddenSize >= 0
      ensures r.Success? ==>
        MatMulShape([hiddenStates.shape[0], hiddenStates.shape[1], hiddenSize], weights.output.shape) == Some(r.value.shape)
      ensures r.Success? && |weights.output.shape| == 2 ==>
        r.value.shape == [hiddenStates.shape[0], hiddenStates.shape[1], weights.output.shape[1]]
    {
      if |hiddenStates.shape| < 2 then Failure(ShapeMismatch("shape"))
      else
        var batch, seqLength := hiddenStates.shape[0], hiddenStates.shape[1];
        var query :- MatMul(be, hiddenStates, weights.query);
        var key :- MatMul(be, hiddenStates, weights.key);
        var value :- MatMul(be, hiddenStates, weights.value);
        var q :- Reshape(query, [batch, seqLength, numHeads, headDim]);
        var k :- Reshape(key, [batch, seqLength, numHeads, headDim]);
        var v :- Reshape(value, [batch, seqLength, numHeads, headDim]);
        var attended :- ScaledDotProductAttention(be, q, k, v, mask, dropoutProb);
        var merged :- Reshape(attended, [batch, seqLength, hiddenSize]);
        var out := MatMul(be, merged, weights.output);
        assert out.Success? ==> merged.shape == [batch, seqLength, hiddenSize];
        out
    }

    /** The key/value cache passed to `forward` has no effect on its result. */
    lemma ForwardIgnoresCache(be: Backend, x: Tensor, mask: Tensor, c1: KVCache, c2: KVCache)
      ensures Forward(be, x, mask, c1) == Forward(be, x, mask, c2)
    {
    }

    /**
     * With square projections and an input of shape `[b, s, hidden]`, the
     * forward pass succeeds exactly when the input is empty or the head count
     * divides the hidden size, and then keeps the input's shape.
     */
    lemma ForwardShape(be: Backend, x: Tensor, mask: Tensor, kvCache: KVCache)
      requires hiddenSize >= 0 && numHeads > 0 && headDim == TruncDiv(hiddenSize, numHeads)
      requires weights.query.shape == weights.key.shape == weights.value.shape == weights.output.shape ==
        [hiddenSize, hiddenSize]
      requires |x.shape| == 3 && x.shape[2] == hiddenSize
      ensures Forward(be, x, mask, kvCache).Success? <==> x.shape[0] * x.shape[1] == 0 || hiddenSize % numHeads == 0
      ensures Forward(be, x, mask, kvCache).Success? ==> Forward(be, x, mask, kvCache).value.shape == x.shape
    {
      var b, s := x.shape[0], x.shape[1];
      HeadSplit(hiddenSize, numHeads);
      SplitKeepsSize(b, s, hiddenSize, numHeads, headDim);
      var query := MatMul(be, x, weights.query);
      assert query.Success? && query.value.shape == [b, s, hiddenSize];
      assert ToShape([b, s, numHeads, headDim]).Some?;
      assert ToShape([b, s, hiddenSize]).Some?;
    }

    /** `getKVCache`: the current pair. */
    function GetKVCache(): (c: KVCache)
      reads this`cache
      ensures c == cache
    {
      cache
    }

    /** `updateKVCache`: the cache after the update, even when the update raises part way. */
    method UpdateKVCache(be: Backend, key: Tensor, value: Tensor) returns (r: Outcome<TensorError>)
      modifies this`cache
      ensures (r, cache) == UpdatedCache(be, old(cache), key, value)
    {
      if Size(cache.keys.shape) == 0 {
        cache := KVCache(key, value);
        return Pass;
      }
      var keys := Concat1(be, cache.keys, key);
      if keys.Failure? {
        return Fail(keys.error);
      }
      cache := cache.(keys := keys.value);
      var values := Concat1(be, cache.values, value);
      if values.Failure? {
        return Fail(values.error);
      }
      cache := cache.(values := values.value);
      return Pass;
    }
  }
}
