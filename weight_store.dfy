/**
 * The weight store: a `ModelLoader` that resolves a weight name to a tensor,
 * reading `<model>/weights/<name>.safetensors` the first time and answering
 * from its name-to-tensor cache afterwards.
 *
 * The file system is a read-only `Storage`: the set of paths that exist and
 * the tensor that a weight file holds under its own name.
 */
module WeightStore {
  import opened Wrappers
  import opened Tensors

  datatype QuantizationMode = NoQuantization | Int4 | Int8

  datatype QuantizationOptions = QuantizationOptions(mode: QuantizationMode, useZeroPoint: bool, perChannel: bool)

  const DefaultQuantizationOptions := QuantizationOptions(NoQuantization, true, true)

  datatype ModelConfig = ModelConfig(
    vocabSize: int,
    hiddenSize: int,
    intermediateSize: int,
    numHiddenLayers: int,
    numAttentionHeads: int,
    maxPositionEmbeddings: int,
    layerNormEpsilon: real,
    modelType: string)

  /** The configuration before `loadConfig` has run (uninitialised in C++; zeros here). */
  const UnsetConfig := ModelConfig(0, 0, 0, 0, 0, 0, 0.0, "")

  /** The fixed configuration that `loadConfig` installs; its heads divide the hidden size. */
  function DefaultConfig(): (c: ModelConfig)
    ensures c.numAttentionHeads > 0 && c.hiddenSize % c.numAttentionHeads == 0
    ensures c.hiddenSize / c.numAttentionHeads == 128
  {
    ModelConfig(32000, 4096, 11008, 32, 32, 4096, 0.00001, "llama")
  }

  /** The file system as the loader sees it. */
  datatype Storage = Storage(paths: set<string>, contents: string -> Tensor)

  datatype LoadError =
    | ModelPathMissing(path: string)
    | ConfigMissing(path: string)
    | WeightNotFound(path: string)

  function ConfigPath(modelPath: string): string { modelPath + "/config.json" }

  function WeightPath(modelPath: string, name: string): string
  {
    modelPath + "/weights/" + name + ".safetensors"
  }

  /** Decimal digits of a non-negative integer (`std::to_string`). */
  function DecimalString(n: nat): (s: string)
    ensures |s| > 0
    ensures forall k :: 0 <= k < |s| ==> '0' <= s[k] <= '9'
  {
    if n < 10 then ["0123456789"[n]] else DecimalString(n / 10) + ["0123456789"[n % 10]]
  }

  /** Different integers have different decimal strings. */
  lemma {:induction false} DecimalStringInjective(a: nat, b: nat)
    requires DecimalString(a) == DecimalString(b)
    ensures a == b
    decreases a
  {
    var s := DecimalString(a);
    if a >= 10 && b >= 10 {
      assert DecimalString(a / 10) == s[..|s| - 1] == DecimalString(b / 10);
      DecimalStringInjective(a / 10, b / 10);
      DigitInjective(a % 10, b % 10);
    } else if a < 10 && b < 10 {
      DigitInjective(a, b);
    }
  }

  lemma DigitInjective(a: nat, b: nat)
    requires a < 10 && b < 10 && "0123456789"[a] == "0123456789"[b]
    ensures a == b
  {
  }

  /**
   * One lazy lookup: the result of `loadWeight(name)` and the cache after it.
   * A cached name is answered from the cache; otherwise the weight file must
   * exist, and its tensor is added to the cache and returned.
   */
  function Lookup(cache: map<string, Tensor>, storage: Storage, modelPath: string, name: string)
    : (r: (Result<Tensor, LoadError>, map<string, Tensor>))
    ensures r.0.Failure? <==> name !in cache && WeightPath(modelPath, name) !in storage.paths
    ensures r.0.Failure? ==> r.0.error == WeightNotFound(WeightPath(modelPath, name)) && r.1 == cache
    ensures r.0.Success? ==> name in r.1 && r.0.value == r.1[name]
    ensures r.1.Keys == if r.0.Success? then cache.Keys + {name} else cache.Keys
    ensures forall n :: n in cache ==> n in r.1 && r.1[n] == cache[n]
    ensures name !in cache && r.0.Success? ==> r.0.value == storage.contents(WeightPath(modelPath, name))
  {
    if name in cache then
      (Success(cache[name]), cache)
    else
      var path := WeightPath(modelPath, name);
      if path !in storage.paths then (Failure(WeightNotFound(path)), cache)
      else
        var weight := storage.contents(path);
        (Success(weight), cache[name := weight])
  }

  /** A cache hit gives the same answer whatever the storage holds. */
  lemma CacheHitIgnoresStorage(cache: map<string, Tensor>, s1: Storage, s2: Storage, modelPath: string, name: string)
    requires name in cache
    ensures Lookup(cache, s1, modelPath, name) == Lookup(cache, s2, modelPath, name) == (Success(cache[name]), cache)
  {
  }

  /** The cache after looking up each name in turn, failures skipped (`preloadCommonWeights`). */
  function Preload(cache: map<string, Tensor>, storage: Storage, modelPath: string, names: seq<string>)
    : map<string, Tensor>
    decreases |names|
  {
    if names == [] then cache
    else Preload(Lookup(cache, storage, modelPath, names[0]).1, storage, modelPath, names[1..])
  }

  /**
   * A failing name does not stop the batch: afterwards exactly the names that
   * were cached or whose file exists have been added, and no earlier entry changed.
   */
  lemma {:induction false} PreloadCachesAvailable(cache: map<string, Tensor>, storage: Storage, modelPath: string, names: seq<string>)
    ensures var c := Preload(cache, storage, modelPath, names);
      && (forall n :: n in cache ==> n in c && c[n] == cache[n])
      && (forall n :: n in names ==> (n in c <==> n in cache || WeightPath(modelPath, n) in storage.paths))
      && (forall n :: n in c ==> n in cache || n in names)
    decreases |names|
  {
    if names != [] {
      var next := Lookup(cache, storage, modelPath, names[0]).1;
      PreloadCachesAvailable(next, storage, modelPath, names[1..]);
      var c := Preload(cache, storage, modelPath, names);
      assert c == Preload(next, storage, modelPath, names[1..]);
      forall n | n in names
        ensures n in c <==> n in cache || WeightPath(modelPath, n) in storage.paths
      {
        if n != names[0] {
          assert n in names[1..];
        }
      }
    }
  }

  /** Every name is cached already or has its weight file. */
  predicate Available(cache: map<string, Tensor>, storage: Storage, modelPath: string, names: seq<string>)
  {
    forall n :: n in names ==> n in cache || WeightPath(modelPath, n) in storage.paths
  }

  /** `error` reports a name of `names` that is neither cached nor backed by a file. */
  predicate ReportsMissing(cache: map<string, Tensor>, storage: Storage, modelPath: string, names: seq<string>, error: LoadError)
  {
    exists n :: n in names && n !in cache && WeightPath(modelPath, n) !in storage.paths &&
      error == WeightNotFound(WeightPath(modelPath, n))
  }

  /** Every entry of `small` is in `large` with the same tensor. */
  predicate Extends(small: map<string, Tensor>, large: map<string, Tensor>)
  {
    forall n :: n in small ==> n in large && large[n] == small[n]
  }

  /** A name reported missing against a larger cache, from a sub-list, is missing against the smaller cache too. */
  lemma ReportsMissingWeaken(c0: map<string, Tensor>, c1: map<string, Tensor>, storage: Storage, modelPath: string,
                             sub: seq<string>, names: seq<string>, error: LoadError)
    requires Extends(c0, c1) && (forall n :: n in sub ==> n in names)
    requires ReportsMissing(c1, storage, modelPath, sub, error)
    ensures ReportsMissing(c0, storage, modelPath, names, error)
  {
    var n :| n in sub && n !in c1 && WeightPath(modelPath, n) !in storage.paths &&
      error == WeightNotFound(WeightPath(modelPath, n));
    assert n in names && n !in c0;
  }

  /** Preloading a concatenation is preloading the first part, then the second. */
  lemma {:induction false} PreloadAppend(cache: map<string, Tensor>, storage: Storage, modelPath: string, a: seq<string>, b: seq<string>)
    ensures Preload(cache, storage, modelPath, a + b) == Preload(Preload(cache, storage, modelPath, a), storage, modelPath, b)
    decreases |a|
  {
    if a == [] {
      assert a + b == b;
    } else {
      assert (a + b)[0] == a[0] && (a + b)[1..] == a[1..] + b;
      PreloadAppend(Lookup(cache, storage, modelPath, a[0]).1, storage, modelPath, a[1..], b);
    }
  }

  /** The four attention projection names of layer `i` that are preloaded. */
  function LayerPreloadNames(i: nat): seq<string>
  {
    ["transformer.layers." + DecimalString(i) + ".attention.wq.weight",
     "transformer.layers." + DecimalString(i) + ".attention.wk.weight",
     "transformer.layers." + DecimalString(i) + ".attention.wv.weight",
     "transformer.layers." + DecimalString(i) + ".attention.wo.weight"]
  }

  /** The attention names of layers `0 .. count-1`, in layer order. */
  function LayersPreloadNames(count: nat): seq<string>
  {
    if count == 0 then [] else LayersPreloadNames(count - 1) + LayerPreloadNames(count - 1)
  }

  function Min(a: int, b: int): int { if a <= b then a else b }

  function Max(a: int, b: int): int { if a >= b then a else b }

  /** The names `preloadCommonWeights` attempts, in order. */
  function CommonWeightNames(numHiddenLayers: int): seq<string>
  {
    ["embedding.weight", "lm_head.weight"] + LayersPreloadNames(Max(0, Min(2, numHiddenLayers)))
  }

  lemma {:induction false} LayersPreloadNamesLength(count: nat)
    ensures |LayersPreloadNames(count)| == 4 * count
  {
    if count > 0 {
      LayersPreloadNamesLength(count - 1);
    }
  }

  /** Two fixed names, then four per layer for at most the first two layers. */
  lemma CommonWeightNamesShape(numHiddenLayers: int)
    ensures var names := CommonWeightNames(numHiddenLayers);
      && |names| == 2 + 4 * Max(0, Min(2, numHiddenLayers))
      && names[0] == "embedding.weight" && names[1] == "lm_head.weight"
  {
    LayersPreloadNamesLength(Max(0, Min(2, numHiddenLayers)));
  }

  class ModelLoader {
    const modelPath: string
    const options: QuantizationOptions
    const storage: Storage
    var config: ModelConfig
    var cache: map<string, Tensor>

    /** The member initialisers of the C++ constructor; `Open` adds its checks. */
    constructor (modelPath: string, options: QuantizationOptions, storage: Storage)
      ensures this.modelPath == modelPath && this.options == options && this.storage == storage
      ensures config == UnsetConfig && cache == map[]
    {
      this.modelPath := modelPath;
      this.options := options;
      this.storage := storage;
      config := UnsetConfig;
      cache := map[];
    }

    /**
     * The C++ constructor: fails when the model directory or its
     * `config.json` is missing, otherwise yields a loader with the fixed
     * configuration and an empty cache.
     */
    static method Open(modelPath: string, options: QuantizationOptions, storage: Storage)
      returns (r: Result<ModelLoader, LoadError>)
      ensures r.Success? <==> modelPath in storage.paths && ConfigPath(modelPath) in storage.paths
      ensures r.Failure? ==>
        r.error == (if modelPath !in storage.paths then ModelPathMissing(modelPath) else ConfigMissing(ConfigPath(modelPath)))
      ensures r.Success? ==> fresh(r.value)
      ensures r.Success? ==> r.value.modelPath == modelPath && r.value.options == options && r.value.storage == storage
      ensures r.Success? ==> r.value.config == DefaultConfig() && r.value.cache == map[]
    {
      if modelPath !in storage.paths {
        return Failure(ModelPathMissing(modelPath));
      }
      var loader := new ModelLoader(modelPath, options, storage);
      var loaded := loader.LoadConfig();
      if loaded.Fail? {
        return Failure(loaded.error);
      }
      return Success(loader);
    }

    /** `loadConfig`: requires `config.json` to exist, then installs the fixed defaults. */
    method LoadConfig() returns (r: Outcome<LoadError>)
      modifies this`config
      ensures r.Pass? <==> ConfigPath(modelPath) in storage.paths
      ensures r.Pass? ==> config == DefaultConfig()
      ensures r.Fail? ==> r.error == ConfigMissing(ConfigPath(modelPath)) && config == old(config)
    {
      var configPath := modelPath + "/config.json";
      if configPath !in storage.paths {
        return Fail(ConfigMissing(configPath));
      }
      config := ModelConfig(32000, 4096, 11008, 32, 32, 4096, 0.00001, "llama");
      return Pass;
    }

    /**
     * `loadWeight(name)`. Both quantisation branches cache the loaded tensor
     * as it is, so the mode does not appear in the contract.
     */
    method LoadWeight(name: string) returns (r: Result<Tensor, LoadError>)
      modifies this`cache
      ensures (r, cache) == Lookup(old(cache), storage, modelPath, name)
    {
      if name in cache {
        return Success(cache[name]);
      }
      var weightPath := modelPath + "/weights/" + name + ".safetensors";
      if weightPath !in storage.paths {
        return Failure(WeightNotFound(weightPath));
      }
      var weight := storage.contents(weightPath);
      if options.mode == Int4 {
        cache := cache[name := weight];
      } else {
        cache := cache[name := weight];
      }
      return Success(cache[name]);
    }

    /** The first half of `preloadCommonWeights`: the list of names, built layer by layer. */
    static method BuildCommonWeightNames(numHiddenLayers: int) returns (names: seq<string>)
      ensures names == CommonWeightNames(numHiddenLayers)
    {
      names := ["embedding.weight", "lm_head.weight"];
      var layerCount := if 2 <= numHiddenLayers then 2 else numHiddenLayers;
      var i := 0;
      while i < layerCount
        invariant 0 <= i <= Max(0, layerCount)
        invariant names == ["embedding.weight", "lm_head.weight"] + LayersPreloadNames(i)
      {
        names := names + ["transformer.layers." + DecimalString(i) + ".attention.wq.weight"];
        names := names + ["transformer.layers." + DecimalString(i) + ".attention.wk.weight"];
        names := names + ["transformer.layers." + DecimalString(i) + ".attention.wv.weight"];
        names := names + ["transformer.layers." + DecimalString(i) + ".attention.wo.weight"];
        i := i + 1;
      }
    }

    /** `preloadCommonWeights`: attempts every common name in order and ignores the failures. */
    method PreloadCommonWeights()
      modifies this`cache
      ensures cache == Preload(old(cache), storage, modelPath, CommonWeightNames(config.numHiddenLayers))
    {
      var names := BuildCommonWeightNames(config.numHiddenLayers);
      AttemptAll(names);
    }

    /** The second half of `preloadCommonWeights`: `loadWeight` on each name, failures ignored. */
    method AttemptAll(names: seq<string>)
      modifies this`cache
      ensures cache == Preload(old(cache), storage, modelPath, names)
    {
      var j := 0;
      while j < |names|
        invariant 0 <= j <= |names|
        invariant Preload(cache, storage, modelPath, names[j..]) == Preload(old(cache), storage, modelPath, names)
      {
        var _ := LoadWeight(names[j]);
        assert names[j..][0] == names[j] && names[j..][1..] == names[j + 1..];
        j := j + 1;
      }
      assert names[j..] == [];
    }

    /**
     * A run of `loadWeight` calls on required names, as the components'
     * `loadWeights` do: it stops at the first name that raises.
     */
    method LoadRequired(names: seq<string>) returns (r: Result<seq<Tensor>, LoadError>)
      modifies this`cache
      ensures Extends(old(cache), cache)
      ensures r.Failure? ==> ReportsMissing(old(cache), storage, modelPath, names, r.error)
      ensures Available(old(cache), storage, modelPath, names) ==> r.Success?
      ensures r.Success? ==> cache == Preload(old(cache), storage, modelPath, names)
      ensures r.Success? ==> |r.value| == |names|
      ensures r.Success? ==> forall i :: 0 <= i < |names| ==> names[i] in cache && r.value[i] == cache[names[i]]
    {
      var loaded: seq<Tensor> := [];
      var j := 0;
      while j < |names|
        invariant 0 <= j <= |names| && |loaded| == j
        invariant Extends(old(cache), cache)
        invariant Preload(cache, storage, modelPath, names[j..]) == Preload(old(cache), storage, modelPath, names)
        invariant forall i :: 0 <= i < j ==> names[i] in cache && loaded[i] == cache[names[i]]
      {
        var w := LoadWeight(names[j]);
        assert names[j..][0] == names[j] && names[j..][1..] == names[j + 1..];
        if w.Failure? {
          assert names[j] in names;
          return Failure(w.error);
        }
        loaded := loaded + [w.value];
        j := j + 1;
      }
      assert names[j..] == [];
      return Success(loaded);
    }

    /** `clearWeightCache`: afterwards the cache is empty, so later loads read storage again. */
    method ClearWeightCache()
      modifies this`cache
      ensures cache == map[]
    {
      cache := map[];
    }
  }
}
