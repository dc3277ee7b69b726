# MLX_transformer core in Dafny

This project models the discrete skeleton of MLX_transformer, a decoder-only
transformer for inference on top of MLX. Floating-point tensor maths stays
abstract. Each tensor is a shape together with a flat row-major payload of
reals. The library kernels (matrix product, layer norm, GELU,
scaled dot-product attention, dropout, embedding lookup, concatenation) are
fields of a `Backend` value. Each kernel fixes the output shape or raises,
and gives the output elements through an uninterpreted function. Reshape,
transpose and the elementwise `add`, `multiply` and `subtract` are exact; the
elementwise ones broadcast numpy-style, as MLX does. On top of that, the project models and proves the following parts:

- `ModelLoader` (module `WeightStore`): a lazily filled name-to-tensor cache
  over a read-only `Storage`, which holds the set of existing paths and what
  each weight file contains. It covers configuration defaults, the
  common-weight preload and clearing the cache.
- `AttentionImplementation` (module `AttentionLayer`):
  - the head split by C++ integer division;
  - the four projection names;
  - a forward pass that ignores the cache;
  - the empty-or-append key/value cache.
- `FeedForward` (module `FeedForwardLayer`): the gated projection, with
  dropout only for a positive probability.
- `TransformerBlock` (module `Block`): pre-norm residual layers, required
  norm weights, optional norm biases and cache delegation.
- `TransformerModel` (module `Model`):
  - the layer stack applied in index order;
  - the weight-name schema;
  - the LM-head transpose;
  - next-token selection;
  - `clearKVCache`.
- Temperature scaling and top-k masking (module `Sampling`). The sort is
  stable and descending, and the mask replaces every other logit with
  `-1e10`.
- The quantizer placeholder (module `Quantization`).
- `InferencePipeline` (module `Pipeline`):
  - the character tokenizer;
  - `generate`, which feeds the whole growing sequence at each step;
  - `generate_stream`, which feeds the last id and hands each produced
    id's text to the callback.

C++ exceptions are modelled as `Result` and `Outcome` values (`wrappers.dfy`).
Classes whose fields the C++ updates in place are Dafny classes, and their
methods are proved against specification functions:

- `ModelLoader.LoadWeight` against `Lookup`;
- `ClearKVCache` against `ClearAll`;
- `Forward` against `ForwardSpec`;
- `GenerateNextToken` against `NextTokenSpec`;
- the generation loops against `Run`.

The generation loops take a ghost `next` function, which `IsNextToken` binds
to the model's own next-token function; `BindNextToken` builds one. The sampler (softmax and the
categorical draw) is a parameter `sample`, which receives the draw number.

## Model

| member | source | states |
|---|---|---|
| WeightStore.DefaultConfig | model_loader.cpp:92-99 | The configuration `loadConfig` installs has a positive head count that divides the hidden size, with heads 128 wide. |
| WeightStore.DecimalString | transformer_model.cpp:39 | `std::to_string` of a layer index is a non-empty string of decimal digits. |
| WeightStore.Lookup | model_loader.cpp:26-56 | `loadWeight` fails exactly when the name is not cached and `<model>/weights/<name>.safetensors` is absent. The error names that path and the cache is unchanged. On success the result is the cache entry for the name, only the name is added, every earlier entry keeps its tensor, and a miss returns what storage holds. |
| WeightStore.CacheHitIgnoresStorage | model_loader.cpp:27-30 | A cached name gets the cached tensor and an unchanged cache, whatever the storage holds. |
| WeightStore.PreloadCachesAvailable | model_loader.cpp:71-77 | A failing name does not stop the batch. Afterwards a listed name is cached exactly when it was cached before or its file exists, no earlier entry changes, and nothing unlisted is added. |
| WeightStore.PreloadAppend | model_loader.cpp:71-77 | Preloading `a + b` is preloading `a`, then `b`. |
| WeightStore.ReportsMissingWeaken | model_loader.cpp:34-36 | An error that reports a name of a sub-list as missing against a larger cache also reports a name of the whole list as missing against the smaller cache. |
| WeightStore.LayersPreloadNamesLength | model_loader.cpp:64-69 | Each preloaded layer contributes four names. |
| WeightStore.CommonWeightNamesShape | model_loader.cpp:58-69 | `preloadCommonWeights` attempts `2 + 4 * min(2, layers)` names (just 2 for a negative layer count), beginning with `embedding.weight` and `lm_head.weight`. |
| WeightStore.ModelLoader.constructor | model_loader.cpp:11-12 | The member initialisers: path, options and storage as given, and an empty cache. |
| WeightStore.ModelLoader.Open | model_loader.cpp:11-20 | Construction succeeds exactly when the model path and its `config.json` both exist. The error names the first missing one, checking the model path first. On success the configuration holds the fixed defaults and the cache is empty. |
| WeightStore.ModelLoader.LoadConfig | model_loader.cpp:84-102 | Succeeds exactly when `config.json` exists, and then installs the fixed defaults. A failure leaves the configuration unchanged and names the path. |
| WeightStore.ModelLoader.LoadWeight | model_loader.cpp:26-56 | The result and the new cache are `Lookup`'s: both quantisation branches cache the loaded tensor as it is. |
| WeightStore.ModelLoader.BuildCommonWeightNames | model_loader.cpp:59-69 | The loop builds exactly the common name list: two fixed names, then the four attention names of each of the first `min(2, layers)` layers. |
| WeightStore.ModelLoader.PreloadCommonWeights | model_loader.cpp:58-78 | The new cache is the preload of the common names from the old cache, failures skipped. |
| WeightStore.ModelLoader.AttemptAll | model_loader.cpp:71-77 | The try/catch loop leaves the cache that `Preload` describes. |
| WeightStore.ModelLoader.LoadRequired | attention.cpp:27-32 | The components' runs of required loads stop at the first name that raises. An error reports a listed name that is missing. If every name is available the run succeeds. On success the i-th tensor is the cache entry of the i-th name and the cache is their preload. The cache only ever gains entries. |
| WeightStore.ModelLoader.ClearWeightCache | model_loader.cpp:80-82 | Afterwards the cache is empty. |
| Tensors.Elementwise | quantizer.cpp:13-16 | `multiply`, `subtract` and `add` succeed exactly when the shapes broadcast numpy-style: aligned from the last axis, each pair of sizes equal or one of them 1. The result has the broadcast shape, and each element combines the operand elements that the broadcast index picks. For equal shapes, a one-element operand or a last-axis operand, the result keeps the first operand's shape and pairs element `k` with element `k` modulo the second operand's size. |
| Tensors.BroadcastKeepsLeading | feed_forward.cpp:27-31 | The product of gate and up, shaped `p + [x]` and `p + [y]`, keeps `p` as its leading axes whenever they broadcast. |
| Tensors.MatMul | attention.cpp:43-45 | `matmul` succeeds exactly when MLX's shape rule gives a shape, and the result has that shape. With a matrix on the right it succeeds exactly when the inner dimensions agree, and `[..., m, k] x [k, n]` gives `[..., m, n]`. |
| Tensors.MatMulByMatrix | feed_forward.cpp:27-34 | A matrix on the right adds no batch axes: the product succeeds exactly when the left operand has an axis whose last size is the matrix's row count, and it replaces that last axis by the column count. |
| Tensors.MatMulByVector | attention.cpp:59 | A vector on the right is read as a column and its axis dropped again: `[..., k] x [k]` gives `[...]`. |
| Tensors.MatMulStackedWeight | attention.cpp:43 | A weight stored as `[1, h, n]` broadcasts over the batch axis: `[1, s, h]` states give `[1, s, n]`, and a stacked weight whose inner size is not `h` is refused. |
| Tensors.Embed | transformer_model.cpp:59 | `take(table, ids, 0)` succeeds exactly when the table has an axis, giving `[1, n]` followed by the table's other axes; a `[vocab, hidden]` table gives `[1, n, hidden]`. |
| Tensors.EmbedAnyRank | transformer_model.cpp:59 | A one-dimensional table embeds to `[1, n]` and a three-dimensional one to `[1, n, a, b]`. |
| Quantization.QuantizeInt4 | quantizer.cpp:22-51 | The weights come back unchanged. The scales are all ones, one per element of the last axis per channel and a single one otherwise. With a zero point, the zero points are zeros shaped like the scales. Without one they are empty. |
| Quantization.DequantizeInt4 | quantizer.cpp:6-20 | Succeeds exactly when the weights and scales broadcast numpy-style and, for non-empty zero points, that product broadcasts with them; the result has the broadcast shape. The zero points are subtracted only when they are non-empty. When the scales and zero points are equal-shaped, single-element or last-axis, each element is `w * scale`, minus its zero point. |
| Quantization.SingleWeightMeetsChannelScales | quantizer.cpp:13 | A one-element weight times four per-channel scales broadcasts to four elements, so the product takes the larger shape. |
| Quantization.DequantizeQuantizeRoundTrip | quantizer.cpp:6-51 | Over the reals, dequantising the placeholder quantisation gives back the weights for every flag combination. |
| Quantization.ScalarRoundTripGainsAxis | quantizer.cpp:6-51 | A zero-dimensional weight quantised per tensor comes back with the same data but shape `[1]`, because broadcasting adds an axis. |
| AttentionLayer.HeadSplit | attention.cpp:15 | For a positive head count, `head_dim` is the floor quotient, and `heads * head_dim == hidden` exactly when the heads divide the hidden size. |
| AttentionLayer.SplitKeepsSize | attention.cpp:48-50 | Reshaping `[b, s, h]` to `[b, s, heads, d]` keeps the element count exactly when the input is empty or `h == heads * d`. |
| AttentionLayer.UpdatedCache | attention.cpp:70-78 | When the key cache has no elements, the pair becomes the new key and value, whatever the value cache holds. Otherwise each array grows along axis 1 by the new array's length there. A failing key concatenation raises and leaves the cache as it was. A failing value concatenation raises after the keys were extended, so the keys are the concatenation and the values are as they were. |
| AttentionLayer.EmptyUpdateResets | attention.cpp:71-73 | Updating an empty cache with default arrays leaves the empty cache. |
| AttentionLayer.EmptyUpdateOnFilledFails | attention.cpp:74-76 | Updating a filled cache with default arrays raises and changes nothing, so such an update never resets. |
| AttentionLayer.UpdatesAccumulate | attention.cpp:74-77 | Two successful updates of a filled cache lengthen it by both keys' sequence lengths. |
| AttentionLayer.AttentionWeightNames | attention.cpp:27-32 | The four projection names under a prefix. |
| AttentionLayer.AttentionImpl.constructor | attention.cpp:9-25 | Zero `hidden x hidden` projections and an empty cache. `head_dim` is the quotient rounded toward zero, with no divisibility check. |
| AttentionLayer.AttentionImpl.LoadWeights | attention.cpp:27-32 | The four names must all be found, and a failure reports a missing one. If all are available, loading succeeds with the projections equal to their cache entries and the cache equal to their preload. |
| AttentionLayer.AttentionImpl.Forward | attention.cpp:34-62 | A result has the `matmul` shape of the merged heads `[batch, seq, hidden]` and the output projection. For a projection matrix that is `[batch, seq, out]`, taken from the input's first two axes and the projection's width. The model returns a failure for an input of rank below two. |
| AttentionLayer.AttentionImpl.ForwardIgnoresCache | attention.cpp:34-62 | The cache argument has no effect on the result. |
| AttentionLayer.AttentionImpl.ForwardShape | attention.cpp:39-59 | With square projections, a `[b, s, hidden]` input succeeds exactly when it is empty or the heads divide the hidden size, and it keeps its shape. |
| AttentionLayer.AttentionImpl.GetKVCache | attention.cpp:64-68 | Returns the current pair. As a function it cannot change anything. |
| AttentionLayer.AttentionImpl.UpdateKVCache | attention.cpp:70-78 | The outcome and the new cache are `UpdatedCache` of the old one, including the partial update when the value concatenation raises. |
| FeedForwardLayer.FeedForwardWeightNames | feed_forward.cpp:19-23 | The three projection names under a prefix. |
| FeedForwardLayer.FeedForwardImpl.constructor | feed_forward.cpp:8-17 | Gate and up are zero `hidden x intermediate` matrices and down is a zero `intermediate x hidden` matrix. |
| FeedForwardLayer.FeedForwardImpl.LoadWeights | feed_forward.cpp:19-23 | The three names must all be found, and a failure reports a missing one. On success the projections are their cache entries and the cache is their preload. |
| FeedForwardLayer.FeedForwardImpl.Forward | feed_forward.cpp:25-42 | A result needs an input with an axis. When the three projections are matrices, the result keeps every axis of the input but the last, which becomes the down projection's width. |
| FeedForwardLayer.FeedForwardImpl.ForwardShape | feed_forward.cpp:14-34 | With the constructor's shapes, `[..., hidden]` maps to the same shape without error. |
| FeedForwardLayer.FeedForwardImpl.NoDropoutWithoutProbability | feed_forward.cpp:37-39 | Without a positive dropout probability the result does not depend on the dropout kernel. |
| Block.BlockWeightNames | transformer_block.cpp:31-53 | The eleven names of one layer, in load order. |
| Block.TransformerBlock.constructor | transformer_block.cpp:7-29 | Fresh attention and feed-forward objects built with the layer's sizes. Norm weights are ones and biases are zeros, each of the hidden width. The cache is empty. |
| Block.TransformerBlock.LoadWeights | transformer_block.cpp:31-53 | Loads attention under `.attention`, feed-forward under `.mlp` and the two norm weights, all required. A failure reports a missing required name. If all of them are available, loading succeeds. On success the cache is the preload of the layer's eleven names, every required weight is its cache entry, and each norm bias is its cache entry when cached and keeps its previous value otherwise. |
| Block.TransformerBlock.LoadNorms | transformer_block.cpp:39-52 | Each norm weight must be found. Each bias falls back to its previous value. On success the cache is the preload of the four norm names. |
| Block.TransformerBlock.LoadNormPair | transformer_block.cpp:39-45 | A failing weight lookup raises with the cache unchanged. Otherwise the bias is the looked-up one when found, else the fallback. |
| Block.TransformerBlock.NormLoads | transformer_block.cpp:39-52 | The four norm lookups, failures skipped, are a preload of the four names. A bias is cached at the end exactly when its own lookup found it. |
| Block.TransformerBlock.ForwardShape | transformer_block.cpp:55-74 | A well-shaped layer maps `[b, s, hidden]` to the same shape. It fails exactly when the input is non-empty and the heads do not divide the hidden size. |
| Block.TransformerBlock.ResidualCarriesInput | transformer_block.cpp:60-71 | For a well-shaped layer with a `[b, s, hidden]` input, when every projection yields zeros and there is no dropout, the layer returns its input. Both residual adds take the un-normalised stream. |
| Block.TransformerBlock.GetKVCache | transformer_block.cpp:76-78 | The attention sublayer's pair. |
| Block.TransformerBlock.UpdateKVCache | transformer_block.cpp:80-82 | The attention sublayer's cache after `UpdatedCache`. |
| Model.PreloadedNamesAreLayerNames | model_loader.cpp:65-68 | The loader preloads, for layer `i`, exactly the four attention names that layer `i` of the model asks for. |
| Model.LayersRequiredContains | transformer_model.cpp:38-40 | Every required name of layer `k < n` is among the required names of the first `n` layers. |
| Model.LastPositionLogits | transformer_model.cpp:85-90 | For `[1, s, vocab]` logits with `s > 0`, the result is the last position's row, element by element. Any other shape raises. |
| Model.ProjectionShape | transformer_model.cpp:71 | Projecting `[b, s, h]` states through the transposed LM head succeeds exactly when the head is two-dimensional with `h` columns, giving `[b, s, rows]`. |
| Model.DefaultLmHeadFitsOnlySquare | transformer_model.cpp:26-71 | The constructor's `hidden x vocab` LM head fits the projection only when the vocabulary size equals the hidden size. |
| Model.ClearAll | transformer_model.cpp:125-129 | Clearing keeps one cache per layer. |
| Model.ClearAllOnEmptyResets | transformer_model.cpp:125-129 | If every cache is empty, clearing succeeds and every cache is the empty one. |
| Model.ClearAllOnFilledFails | transformer_model.cpp:125-129 | If some cache holds keys, clearing raises and the first filled cache is left as it was, so `clearKVCache` resets nothing that was filled. |
| Model.ClearAllPasses | transformer_model.cpp:125-129 | When every per-layer update succeeds, clearing passes with exactly the updated caches. |
| Model.ClearAllStopsAt | transformer_model.cpp:125-129 | The first failing update ends clearing with its error. The caches before it are updated, the failing one is as its update left it, and the rest are untouched. |
| Model.TransformerModel.constructor | transformer_model.cpp:9-31 | Exactly `num_hidden_layers` fresh, distinct layers, each in its constructor state. The embedding is zero `vocab x hidden`, the LM head zero `hidden x vocab`, the final norm weight ones and its bias zeros. |
| Model.TransformerModel.LoadLayer | transformer_model.cpp:38-40 | Loading layer `i` under `transformer.layers.<i>` keeps layers `0..i-1` loaded with their biases, and, on success, adds layer `i` with its weights and its biases (each the cache entry when cached, else its value before the loop). Later layers keep their norms. |
| Model.TransformerModel.LoadLayers | transformer_model.cpp:38-40 | Every layer ends loaded under its own prefix, and each norm bias of each layer is its cache entry when cached and its value before the loop otherwise; or the error reports a missing required layer name. |
| Model.TransformerModel.LoadHead | transformer_model.cpp:42-51 | The LM head and the final norm weight are required. The final norm bias is the cached tensor when found and keeps its previous value otherwise. Every layer's weights and norm biases keep their relation to the cache. |
| Model.TransformerModel.LoadWeights | transformer_model.cpp:33-52 | A failure reports a missing required model name. If every required name is available, loading succeeds. On success the embedding, every layer weight, the LM head and the final norm weight are their cache entries. Every norm bias, per layer and final, is its cache entry when cached and its previous value otherwise. |
| Model.TransformerModel.LoadedWeightsFrom | transformer_model.cpp:33-52 | When every layer started from the same norms and loading succeeded, each weight is its cache entry and each bias is its cache entry or that starting value. |
| Model.TransformerModel.LaterLayerKeepsBiases | transformer_model.cpp:38-40 | Loading layer `i` adds no name under another layer's prefix, so that layer's biases keep their relation to the cache. |
| Model.TransformerModel.TopLevelKeepsBiases | transformer_model.cpp:35-48 | Adding the embedding, LM head and final norm names adds no layer's bias name, so each layer's biases keep their relation to the cache. |
| Model.UnderOneLayer | transformer_model.cpp:39 | A name lies under at most one `transformer.layers.<i>` prefix. |
| WeightStore.DecimalStringInjective | transformer_model.cpp:39 | Different layer indices give different `std::to_string` texts. |
| Model.TransformerModel.Forward | transformer_model.cpp:54-74 | The loop computes `ForwardSpec`: embed, then layers `0..n-1` in index order, each on the previous output, then the final norm and the vocabulary projection. The first error raised is returned. |
| Model.TransformerModel.StackFailurePersists | transformer_model.cpp:62-64 | Once a layer raises, the whole stack ends with that error. |
| Model.TransformerModel.StackShape | transformer_model.cpp:62-64 | Well-shaped layers keep `[b, s, hidden]` through the stack when the input is empty or the heads divide the hidden size. |
| Model.TransformerModel.LogitsShape | transformer_model.cpp:54-74 | With checkpoint shapes, `n` ids give logits `[1, n, vocab]` whenever the input is empty or the heads divide the hidden size. |
| Model.TransformerModel.GenerateNextToken | transformer_model.cpp:76-123 | The method computes `NextTokenSpec`: forward without a mask, the last position's row, division by a positive temperature, the top-k mask, then one draw. |
| Model.TransformerModel.NextTokenFailsOnlyOnLargeTopK | transformer_model.cpp:76-114 | A well-shaped model with a non-empty input reaches the draw exactly when `top_k` is at most the vocabulary size. |
| Model.TransformerModel.ClearLayer | transformer_model.cpp:126-128 | One loop pass updates layer `i`'s cache as `UpdatedCache` does, with default arrays, and leaves the other caches alone. |
| Model.TransformerModel.ClearKVCache | transformer_model.cpp:125-129 | The outcome and all caches afterwards are `ClearAll` of the caches before. |
| Sampling.ApplyTemperature | transformer_model.cpp:93-95 | The length is kept, and a temperature of at most zero passes the logits through. |
| Sampling.TemperatureKeepsOrder | transformer_model.cpp:93-95 | A positive temperature keeps the order of every pair of logits. |
| Sampling.ArgSortDescIsSortedPermutation | transformer_model.cpp:100 | `argsort` yields each position exactly once, in descending logit order, with ties in index order. |
| Sampling.KeptPositions | transformer_model.cpp:100-101 | The slice keeps `k` valid positions. |
| Sampling.TopKMask | transformer_model.cpp:97-114 | `top_k <= 0` leaves the logits as they are. `top_k` above the vocabulary size raises. Otherwise the row keeps its length. |
| Sampling.TopKKeepsHighest | transformer_model.cpp:98-114 | For `0 < k <= vocab`, exactly `k` distinct positions keep their logit and all others become `-1e10`. No kept logit is below a masked one. |
| Sampling.TemperatureKeepsTopK | transformer_model.cpp:93-101 | A positive temperature never changes which positions top-k keeps. |
| Pipeline.ToChar | inference_pipeline.cpp:109 | `static_cast<char>` is the identity on the signed-char range and otherwise agrees with the id modulo 256. |
| Pipeline.TokenIds | inference_pipeline.cpp:95-102 | One id per character. |
| Pipeline.Kept | inference_pipeline.cpp:107-108 | Only ids below 256, taken from the input. |
| Pipeline.TextAppend | inference_pipeline.cpp:104-113 | Detokenizing a concatenation concatenates the texts. |
| Pipeline.TextKeepsSmallIds | inference_pipeline.cpp:104-113 | `detokenize` drops every id of 256 or more and turns the others, in order, into characters. |
| Pipeline.TextOfTokenIds | inference_pipeline.cpp:95-113 | `detokenize(tokenize(s)) == s` for every string. |
| Pipeline.Tokenize | inference_pipeline.cpp:95-102 | The loop builds exactly `TokenIds`. |
| Pipeline.Detokenize | inference_pipeline.cpp:104-113 | The loop builds exactly `Text`. |
| Pipeline.Pieces | inference_pipeline.cpp:85-86 | One callback text per produced id. |
| Pipeline.PiecesMakeText | inference_pipeline.cpp:85-86 | The callback texts, concatenated, are the detokenized produced ids. |
| Pipeline.Run | inference_pipeline.cpp:34-50 | The generation loop never shortens its sequence. |
| Pipeline.RunKeepsPrefix | inference_pipeline.cpp:32-50 | The output starts with the ids the loop began from and has at most `steps` more, one per model call. |
| Pipeline.RunStopsAtEndOfSequence | inference_pipeline.cpp:47-49 | No appended id before the last is 2. A loop that ends without error before using its calls has appended an id, and the last one is 2. |
| Pipeline.GenerateEchoesPrompt | inference_pipeline.cpp:26-53 | `generate`'s text is the prompt followed by the text of the appended ids. |
| Pipeline.GenerateWithoutStepsIsPrompt | inference_pipeline.cpp:34-53 | With `max_length <= 0` no call is made and the text is the prompt. |
| Pipeline.InferencePipeline.constructor | inference_pipeline.cpp:8-10 | The member initialisers: the backend, loader and model as given. |
| Pipeline.InferencePipeline.Open | inference_pipeline.cpp:8-17 | Construction raises for a missing model path, then for a missing `config.json`. Otherwise it succeeds when every required weight is available, and any failure reports a missing required weight. The model is built over the loader's default configuration with one layer per configured layer. On success every weight of the model is the loader's cache entry for its name, and each norm bias is its cache entry when cached and the constructor's zeros otherwise. |
| Pipeline.InferencePipeline.BindNextToken | transformer_model.cpp:76-123 | In any state the model's next-token function can be frozen into the `next` value that the generation loops require. |
| Pipeline.InferencePipeline.NextId | inference_pipeline.cpp:40-43 | One next-token step, evaluated as `NextTokenSpec` (which `GenerateNextToken` computes), equals the bound function `next` at this draw. |
| Pipeline.InferencePipeline.GenerateLoop | inference_pipeline.cpp:34-50 | The loop of `generate` computes `Run` on the whole sequence for `max(0, max_length)` steps. |
| Pipeline.InferencePipeline.StreamLoop | inference_pipeline.cpp:72-92 | The loop of `generate_stream` computes `Run` on the last id. It calls back once per produced id, in order, with `detokenize({id})`. |
| Pipeline.InferencePipeline.Generate | inference_pipeline.cpp:19-54 | The caches are cleared once before any model call. A failing clear is returned. Otherwise the result is the detokenized final sequence, or the first error raised in the loop. |
| Pipeline.InferencePipeline.GenerateStream | inference_pipeline.cpp:56-93 | The caches are cleared once before any model call, and a failing clear makes no callback. Otherwise the callbacks are the texts of the produced ids, in order, and the outcome is the loop's. |

## Left out

- I/O is abstract. `std::filesystem::exists`, `load_safetensors` and the memory mapping at model_loader.cpp:39 become the `Storage` value: its path set and, for each weight file, the tensor stored under its own name. memory_mapped_file.cpp is not part of this model.
- main.cpp and the `extern "C"` API (inference_pipeline.cpp:116-163) are left out: they are argument parsing, printing and manual memory ownership.
- Floating-point maths is out of scope. Matrix product, layer norm, GELU, attention, softmax and dropout are uninterpreted kernels with exact shape rules. The matrix product follows MLX's rule: a vector operand is read as a row or a column, and batch axes broadcast. Float32 rounding and `scale_` (attention.cpp:17) are not modelled.
- Sampling is not random here. The categorical draw and the softmax before it are the function parameter `sample`, which takes a draw number. Dropout is a deterministic backend function. Nothing is proved about which index `sample` picks.
- Pipeline.InferencePipeline.Generate: `next` is a ghost function that `IsNextToken` ties to the model's next-token function. The loops evaluate that function, `NextTokenSpec`, through `NextId`; `GenerateNextToken` is proved to compute the same function, but the loops do not call the method itself.
- Pipeline.InferencePipeline.GenerateStream: requires a non-empty prompt when `max_length > 0`. The C++ reads the last element of an empty vector there, which is undefined behaviour. The callback is modelled as the returned sequence of its arguments.
- Pipeline.ToChar: a C++ `char` is taken to be a signed byte.
- Quantization.QuantizeInt4: per channel it requires a weight of rank at least one. The C++ reads `shape[-1]` otherwise, which is undefined behaviour.
- Model.TransformerModel.constructor, Block.TransformerBlock.constructor, AttentionLayer.AttentionImpl.constructor, FeedForwardLayer.FeedForwardImpl.constructor: these require non-negative sizes (MLX raises on negative ones), and all but the feed-forward constructor a non-zero head count (the C++ divides by it). The model constructor also requires a non-negative layer count, since `reserve` raises `std::length_error` for a negative one (transformer_model.cpp:16).
- AttentionLayer.AttentionImpl.Forward: for an input of rank below two the C++ reads `shape()[0]` and `shape()[1]` out of range (attention.cpp:39-40), which is undefined behaviour. The model returns a failure there.
- FeedForwardLayer.FeedForwardImpl.Forward: the result shape is stated only when the three projections are matrices. For stacked or vector projections the shape follows `MatMulShape` and broadcasting, but no clause states it.
- The C++ default arguments are not modelled as defaults: every Dafny member takes all its arguments. The defaults are `max_length = 100`, `temperature = 0.7` and `top_k = 50` (inference_pipeline.h:19-21 and 27-29), `temperature = 1.0` and `top_k = 0` of `generate_next_token` (transformer_model.h:25-26), and the empty mask of `forward` (transformer_model.h:20). `GenerateNextToken` passes that empty mask explicitly, as `forward(input_ids)` at transformer_model.cpp:82 receives it.
- AttentionLayer.AttentionImpl.LoadWeights: after a failure the contract says nothing about the projections. The C++ keeps the ones assigned before the failing name.
- FeedForwardLayer.FeedForwardImpl.LoadWeights: after a failure the contract says nothing about the projections. The C++ keeps the ones assigned before the failing name.
- Block.TransformerBlock.LoadWeights: after a failure the contract says nothing about the layer's weights, for the same reason.
- Model.TransformerModel.LoadWeights: after a failure the contract says nothing about the weights. On success it states every weight and bias in terms of the final cache and that the cache only grew, but not the exact final cache.
- Model.TransformerModel.LoadLayers: states the layers' weights and biases and that the cache only grew, but not the exact cache after the loop.
- Model.LastPositionLogits: `squeeze(take(logits, {s - 1}, 1), 1)` leaves a `[1, vocab]` array. The model keeps its single row as a one-dimensional sequence of `vocab` logits.
- The MLX library is assumed to behave as follows:
  - `argsort` is stable and descending;
  - on the `[1, vocab]` array of the last position, `argsort`, `slice`, `scatter`, `where` and `softmax` act along the vocabulary axis as on the one row;
  - `slice` then `scatter` with more than the vocabulary size of updates raises;
  - a default `array()` is a one-dimensional array with no elements, so concatenating it with a cache of rank two or more raises;
  - `scaled_dot_product_attention` accepts any mask, including the default empty array that `forward` passes when no mask is given: only query, key and value constrain its shape;
  - `take` along axis 0 accepts a table of any rank of at least one and does not raise for an id outside the table.
- Exceptions are modelled as `Result`/`Outcome` values, and the exception texts are modelled as `LoadError` values that carry the path.
- Integer widths are not modelled. Ids, sizes and `item<int>` are unbounded integers, and no overflow is modelled.
- The `config()` accessor (model_loader.cpp:22-24) only returns the field and has no member of its own.
- Behaviour of the code worth noting:
  - `clearKVCache` does not reset a filled cache. It updates each cache with default arrays, which is shown by `Model.ClearAllOnFilledFails`.
  - No construction-time check tests whether the heads divide the hidden size. A non-divisible layer fails in `forward` at the reshape.
  - A missing optional bias keeps its previous value, not a fresh zero tensor.
  - The tokenizer is the character cast, not an external tokenizer.
  - `generate_next_token` passes the `softmax` probabilities to `random::categorical` (transformer_model.cpp:117-120), which reads its argument as unnormalised logits. So a masked position keeps weight `exp(0)` beside the kept ones, and top-k barely narrows the draw. The model leaves the draw to `sample`, so this does not show in any contract.
