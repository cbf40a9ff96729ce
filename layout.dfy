/** What the converter reads for one layer and how it lays it out before
    stacking: which checkpoint tensors are joined along which axis, which are
    transposed, how the projections are split into heads, and when the query
    and key kernels take the rotary permutation.  The same rules serve the
    sharded PyTorch checkpoint and the single HuggingFace collection; they
    differ only where the model-family rules say so. */
module Layout {
  import opened Results
  import opened Tensors
  import opened Namespace
  import opened NameMapping
  import opened ModelParams
  import opened Shards
  import opened Checkpoint
  import opened Heads

  // ---------------------------------------------------------------------
  // Model-family rules per path

  /** The PyTorch path and the HuggingFace path apply the rotary permutation
      under different prefix rules. */
  predicate Permutes<T>(src: Source<T>, modelSize: string)
  {
    if src.Sharded? then PytorchPermutes(modelSize) else HfPermutes(modelSize)
  }

  /** The stride through the shards for the key and value kernels. */
  function KvStride<T>(src: Source<T>, modelSize: string): (s: nat)
    ensures s == 1 || s == 2
    ensures s == 2 <==> src.Sharded? && modelSize == "llama3.1-405b"
  {
    if src.Sharded? then KvStep(modelSize) else 1
  }

  // ---------------------------------------------------------------------
  // Projection sizes

  /** The width `heads * head_dim` of the query projection. */
  function QueryWidth(c: ModelConfig): nat
  {
    c.numHeads * c.headDim
  }

  // ---------------------------------------------------------------------
  // The kernels of one layer

  /** The attention kernels of layer `l` in the order query, key, value, out.
      Query, key and value are read joined on the output axis (key and value
      through every `KvStride`-th shard), transposed and reshaped to
      `[heads * head_dim, heads, head_dim]` (`kv_heads` for key and value);
      query and key then take the rotary permutation when the family rule
      says so.  Out is read joined on its input axis, not transposed, and
      reshaped to `[heads * head_dim, heads, head_dim]`. */
  function AttentionLayer<T>(src: Source<T>, c: ModelConfig, modelSize: string, l: nat): (r: Result<seq<Tensor<T>>>)
    ensures r.Ok? ==> AttentionShaped(c, r.value)
  {
    AttentionKernels(src, c, Permutes(src, modelSize), KvStride(src, modelSize),
      MetaName(Attn(Q), l, -1), MetaName(Attn(K), l, -1), MetaName(Attn(V), l, -1), MetaName(Attn(O), l, -1))
  }

  /** Four well-formed kernels with the shapes the model row fixes:
      query and out `[heads * head_dim, heads, head_dim]`, key and value
      `[heads * head_dim, kv_heads, head_dim]`. */
  predicate AttentionShaped<T>(c: ModelConfig, ks: seq<Tensor<T>>)
  {
    && |ks| == 4
    && Valid(ks[0]) && Valid(ks[1]) && Valid(ks[2]) && Valid(ks[3])
    && ks[0].shape == [QueryWidth(c), c.numHeads, c.headDim]
    && ks[1].shape == [QueryWidth(c), c.numKvHeads, c.headDim]
    && ks[2].shape == [QueryWidth(c), c.numKvHeads, c.headDim]
    && ks[3].shape == [QueryWidth(c), c.numHeads, c.headDim]
  }

  /** The attention kernels read under the given names. */
  function AttentionKernels<T>(src: Source<T>, c: ModelConfig, permute: bool, step: nat,
                               qKey: string, kKey: string, vKey: string, oKey: string): (r: Result<seq<Tensor<T>>>)
    requires step > 0
    ensures r.Ok? ==> AttentionShaped(c, r.value)
  {
    var qkv :- ReadQkv(src, c, step, qKey, kKey, vKey);
    var wo :- Read(src, oKey, 1, 1);
    var o :- Reshape(wo, [QueryWidth(c), c.numHeads, c.headDim]);
    Ok([RopeIf(qkv[0], permute), RopeIf(qkv[1], permute), qkv[2], o])
  }

  /** `wq`, `wk` and `wv` read (key and value through every `step`-th shard),
      then split into heads. */
  function ReadQkv<T>(src: Source<T>, c: ModelConfig, step: nat, qKey: string, kKey: string, vKey: string)
    : (r: Result<seq<Tensor<T>>>)
    requires step > 0
    ensures r.Ok? ==> |r.value| == 3 && Valid(r.value[0]) && Valid(r.value[1]) && Valid(r.value[2])
    ensures r.Ok? ==> && r.value[0].shape == [QueryWidth(c), c.numHeads, c.headDim]
                      && r.value[1].shape == [QueryWidth(c), c.numKvHeads, c.headDim]
                      && r.value[2].shape == [QueryWidth(c), c.numKvHeads, c.headDim]
  {
    var wq :- Read(src, qKey, 0, 1);
    var wk :- Read(src, kKey, 0, step);
    var wv :- Read(src, vKey, 0, step);
    SplitQkv(c, wq, wk, wv)
  }

  /** The query, key and value projections split into heads, in that order. */
  function SplitQkv<T>(c: ModelConfig, wq: Tensor<T>, wk: Tensor<T>, wv: Tensor<T>): (r: Result<seq<Tensor<T>>>)
    requires Valid(wq) && Valid(wk) && Valid(wv)
    ensures r.Ok? ==> |r.value| == 3 && Valid(r.value[0]) && Valid(r.value[1]) && Valid(r.value[2])
    ensures r.Ok? ==> && r.value[0].shape == [QueryWidth(c), c.numHeads, c.headDim]
                      && r.value[1].shape == [QueryWidth(c), c.numKvHeads, c.headDim]
                      && r.value[2].shape == [QueryWidth(c), c.numKvHeads, c.headDim]
  {
    var q :- SplitHeads(wq, QueryWidth(c), c.numHeads, c.headDim);
    var k :- SplitHeads(wk, QueryWidth(c), c.numKvHeads, c.headDim);
    var v :- SplitHeads(wv, QueryWidth(c), c.numKvHeads, c.headDim);
    Ok([q, k, v])
  }

  /** The two norm scales of layer `l`, read from the first shard:
      the attention norm, then the feed-forward norm. */
  function NormLayer<T>(src: Source<T>, l: nat): (r: Result<seq<Tensor<T>>>)
    ensures r.Ok? <==> ReadFirst(src, MetaName(AttentionNorm, l, -1)).Ok? && ReadFirst(src, MetaName(FfnNorm, l, -1)).Ok?
    ensures r.Ok? ==> r.value == [ReadFirst(src, MetaName(AttentionNorm, l, -1)).value, ReadFirst(src, MetaName(FfnNorm, l, -1)).value]
  {
    var pre :- ReadFirst(src, MetaName(AttentionNorm, l, -1));
    var post :- ReadFirst(src, MetaName(FfnNorm, l, -1));
    Ok([pre, post])
  }

  /** The joining axis of a feed-forward matrix: `w1` and `w3` are joined on
      their output axis, `w2` on its input axis. */
  function FfnAxis(w: Ffn): nat
  {
    if w == W2 then 1 else 0
  }

  /** A feed-forward matrix (or the router gate, joined like `w1`) read and transposed. */
  function FfnKernel<T>(src: Source<T>, key: string, w: Ffn): (r: Result<Tensor<T>>)
    ensures r.Ok? <==> Read(src, key, FfnAxis(w), 1).Ok?
    ensures r.Ok? ==> Valid(r.value) && |r.value.shape| == |Read(src, key, FfnAxis(w), 1).value.shape|
  {
    var t :- Read(src, key, FfnAxis(w), 1);
    Ok(TransposeAll(t))
  }

  /** A transposed matrix holds the checkpoint's entry `[y, x]` at `[x, y]`. */
  lemma FfnKernelAt<T>(src: Source<T>, key: string, w: Ffn, x: nat, y: nat)
    requires Read(src, key, FfnAxis(w), 1).Ok?
    requires |Read(src, key, FfnAxis(w), 1).value.shape| == 2
    requires y < Read(src, key, FfnAxis(w), 1).value.shape[0] && x < Read(src, key, FfnAxis(w), 1).value.shape[1]
    ensures var t := Read(src, key, FfnAxis(w), 1).value;
      && FfnKernel(src, key, w).value.shape == [t.shape[1], t.shape[0]]
      && At(FfnKernel(src, key, w).value, [x, y]) == At(t, [y, x])
  {
    TransposeAllMatrix(Read(src, key, FfnAxis(w), 1).value, x, y);
  }

  /** The dense feed-forward kernels of layer `l`: `wi_0` from `w1`, `wi_1`
      from `w3`, `wo` from `w2`. */
  function DenseLayer<T>(src: Source<T>, l: nat): (r: Result<seq<Tensor<T>>>)
    ensures r.Ok? <==> forall w: Ffn :: FfnKernel(src, MetaName(Dense(w), l, -1), w).Ok?
    ensures r.Ok? ==> r.value == [FfnKernel(src, MetaName(Dense(W1), l, -1), W1).value,
                                  FfnKernel(src, MetaName(Dense(W3), l, -1), W3).value,
                                  FfnKernel(src, MetaName(Dense(W2), l, -1), W2).value]
  {
    var wi0 :- FfnKernel(src, MetaName(Dense(W1), l, -1), W1);
    var wi1 :- FfnKernel(src, MetaName(Dense(W3), l, -1), W3);
    var wo :- FfnKernel(src, MetaName(Dense(W2), l, -1), W2);
    Ok([wi0, wi1, wo])
  }

  /** The router gate of layer `l`, joined on its output axis and transposed. */
  function GateLayer<T>(src: Source<T>, l: nat): (r: Result<seq<Tensor<T>>>)
    ensures r.Ok? <==> FfnKernel(src, MetaName(Gate, l, -1), W1).Ok?
    ensures r.Ok? ==> r.value == [FfnKernel(src, MetaName(Gate, l, -1), W1).value]
  {
    var gate :- FfnKernel(src, MetaName(Gate, l, -1), W1);
    Ok([gate])
  }

  /** The kernels of expert `k` of layer `l`, in the order `wi_0`, `wi_1`, `wo`. */
  function ExpertLayer<T>(src: Source<T>, l: nat, k: nat): (r: Result<seq<Tensor<T>>>)
    ensures r.Ok? <==> forall w: Ffn :: FfnKernel(src, MetaName(Expert(w), l, k), w).Ok?
    ensures r.Ok? ==> r.value == [FfnKernel(src, MetaName(Expert(W1), l, k), W1).value,
                                  FfnKernel(src, MetaName(Expert(W3), l, k), W3).value,
                                  FfnKernel(src, MetaName(Expert(W2), l, k), W2).value]
  {
    var wi0 :- FfnKernel(src, MetaName(Expert(W1), l, k), W1);
    var wi1 :- FfnKernel(src, MetaName(Expert(W3), l, k), W3);
    var wo :- FfnKernel(src, MetaName(Expert(W2), l, k), W2);
    Ok([wi0, wi1, wo])
  }

  // ---------------------------------------------------------------------
  // What a layer's attention kernels are made of

  /** The kernels of a successful read are the split (and, for query and
      key, permuted) projections read under the four names. */
  lemma AttentionKernelsParts<T>(src: Source<T>, c: ModelConfig, permute: bool, step: nat,
                                 qKey: string, kKey: string, vKey: string, oKey: string,
                                 ks: seq<Tensor<T>>, wq: Tensor<T>, wk: Tensor<T>, wv: Tensor<T>, wo: Tensor<T>)
    requires step > 0 && AttentionKernels(src, c, permute, step, qKey, kKey, vKey, oKey) == Ok(ks)
    requires Read(src, qKey, 0, 1) == Ok(wq) && Read(src, kKey, 0, step) == Ok(wk)
    requires Read(src, vKey, 0, step) == Ok(wv) && Read(src, oKey, 1, 1) == Ok(wo)
    ensures SplitHeads(wq, QueryWidth(c), c.numHeads, c.headDim).Ok?
    ensures SplitHeads(wk, QueryWidth(c), c.numKvHeads, c.headDim).Ok?
    ensures SplitHeads(wv, QueryWidth(c), c.numKvHeads, c.headDim).Ok?
    ensures Reshape(wo, [QueryWidth(c), c.numHeads, c.headDim]).Ok?
    ensures ks == [
      RopeIf(SplitHeads(wq, QueryWidth(c), c.numHeads, c.headDim).value, permute),
      RopeIf(SplitHeads(wk, QueryWidth(c), c.numKvHeads, c.headDim).value, permute),
      SplitHeads(wv, QueryWidth(c), c.numKvHeads, c.headDim).value,
      Reshape(wo, [QueryWidth(c), c.numHeads, c.headDim]).value]
  {
    assert ReadQkv(src, c, step, qKey, kKey, vKey) == SplitQkv(c, wq, wk, wv);
  }

  /** A successful layer read all four projections. */
  lemma AttentionKernelsReads<T>(src: Source<T>, c: ModelConfig, permute: bool, step: nat,
                                 qKey: string, kKey: string, vKey: string, oKey: string)
    requires step > 0 && AttentionKernels(src, c, permute, step, qKey, kKey, vKey, oKey).Ok?
    ensures Read(src, qKey, 0, 1).Ok? && Read(src, kKey, 0, step).Ok?
    ensures Read(src, vKey, 0, step).Ok? && Read(src, oKey, 1, 1).Ok?
  {
  }

  /** Query element `[e, h, k]` of a layer is the checkpoint's `wq` entry at
      column `e` and row `h * head_dim + k'`, `k'` being `k` or its rotary source. */
  lemma QueryKernelAt<T>(src: Source<T>, c: ModelConfig, permute: bool, step: nat,
                         qKey: string, kKey: string, vKey: string, oKey: string,
                         ks: seq<Tensor<T>>, wq: Tensor<T>, e: nat, h: nat, k: nat)
    requires step > 0 && AttentionKernels(src, c, permute, step, qKey, kKey, vKey, oKey) == Ok(ks)
    requires Read(src, qKey, 0, 1) == Ok(wq) && wq.shape == [c.numHeads * c.headDim, QueryWidth(c)]
    requires e < QueryWidth(c) && h < c.numHeads && k < c.headDim
    ensures Row(h, c.headDim, RopeIndex(permute, c.headDim, k)) < c.numHeads * c.headDim
    ensures InBounds(wq.shape, [Row(h, c.headDim, RopeIndex(permute, c.headDim, k)), e])
    ensures At(ks[0], [e, h, k]) == At(wq, [Row(h, c.headDim, RopeIndex(permute, c.headDim, k)), e])
  {
    AttentionKernelsReads(src, c, permute, step, qKey, kKey, vKey, oKey);
    AttentionKernelsParts(src, c, permute, step, qKey, kKey, vKey, oKey, ks, wq,
      Read(src, kKey, 0, step).value, Read(src, vKey, 0, step).value, Read(src, oKey, 1, 1).value);
    ProjectionAt(wq, QueryWidth(c), c.numHeads, c.headDim, permute, e, h, k);
  }

  /** Key element `[e, h, k]` of a layer is the `wk` entry (read through every
      `step`-th shard) at column `e` and row `h * head_dim + k'`. */
  lemma KeyKernelAt<T>(src: Source<T>, c: ModelConfig, permute: bool, step: nat,
                       qKey: string, kKey: string, vKey: string, oKey: string,
                       ks: seq<Tensor<T>>, wk: Tensor<T>, e: nat, h: nat, k: nat)
    requires step > 0 && AttentionKernels(src, c, permute, step, qKey, kKey, vKey, oKey) == Ok(ks)
    requires Read(src, kKey, 0, step) == Ok(wk) && wk.shape == [c.numKvHeads * c.headDim, QueryWidth(c)]
    requires e < QueryWidth(c) && h < c.numKvHeads && k < c.headDim
    ensures Row(h, c.headDim, RopeIndex(permute, c.headDim, k)) < c.numKvHeads * c.headDim
    ensures InBounds(wk.shape, [Row(h, c.headDim, RopeIndex(permute, c.headDim, k)), e])
    ensures At(ks[1], [e, h, k]) == At(wk, [Row(h, c.headDim, RopeIndex(permute, c.headDim, k)), e])
  {
    AttentionKernelsReads(src, c, permute, step, qKey, kKey, vKey, oKey);
    AttentionKernelsParts(src, c, permute, step, qKey, kKey, vKey, oKey, ks, Read(src, qKey, 0, 1).value,
      wk, Read(src, vKey, 0, step).value, Read(src, oKey, 1, 1).value);
    ProjectionAt(wk, QueryWidth(c), c.numKvHeads, c.headDim, permute, e, h, k);
  }

  /** Value element `[e, h, k]` of a layer is the `wv` entry at column `e` and
      row `h * head_dim + k`: the value kernel is never permuted. */
  lemma ValueKernelAt<T>(src: Source<T>, c: ModelConfig, permute: bool, step: nat,
                         qKey: string, kKey: string, vKey: string, oKey: string,
                         ks: seq<Tensor<T>>, wv: Tensor<T>, e: nat, h: nat, k: nat)
    requires step > 0 && AttentionKernels(src, c, permute, step, qKey, kKey, vKey, oKey) == Ok(ks)
    requires Read(src, vKey, 0, step) == Ok(wv) && wv.shape == [c.numKvHeads * c.headDim, QueryWidth(c)]
    requires e < QueryWidth(c) && h < c.numKvHeads && k < c.headDim
    ensures Row(h, c.headDim, k) < c.numKvHeads * c.headDim
    ensures InBounds(wv.shape, [Row(h, c.headDim, k), e])
    ensures At(ks[2], [e, h, k]) == At(wv, [Row(h, c.headDim, k), e])
  {
    AttentionKernelsReads(src, c, permute, step, qKey, kKey, vKey, oKey);
    AttentionKernelsParts(src, c, permute, step, qKey, kKey, vKey, oKey, ks, Read(src, qKey, 0, 1).value,
      Read(src, kKey, 0, step).value, wv, Read(src, oKey, 1, 1).value);
    SplitHeadsAt(wv, QueryWidth(c), c.numKvHeads, c.headDim, e, h, k);
  }

  /** Out element `[e, h, k]` of a layer is the `wo` entry (joined on its
      input axis, not transposed) at row `e` and column `h * head_dim + k`. */
  lemma OutKernelAt<T>(src: Source<T>, c: ModelConfig, permute: bool, step: nat,
                       qKey: string, kKey: string, vKey: string, oKey: string,
                       ks: seq<Tensor<T>>, wo: Tensor<T>, e: nat, h: nat, k: nat)
    requires step > 0 && AttentionKernels(src, c, permute, step, qKey, kKey, vKey, oKey) == Ok(ks)
    requires Read(src, oKey, 1, 1) == Ok(wo) && wo.shape == [QueryWidth(c), c.numHeads * c.headDim]
    requires e < QueryWidth(c) && h < c.numHeads && k < c.headDim
    ensures Row(h, c.headDim, k) < c.numHeads * c.headDim
    ensures InBounds(wo.shape, [e, Row(h, c.headDim, k)])
    ensures At(ks[3], [e, h, k]) == At(wo, [e, Row(h, c.headDim, k)])
  {
    AttentionKernelsReads(src, c, permute, step, qKey, kKey, vKey, oKey);
    AttentionKernelsParts(src, c, permute, step, qKey, kKey, vKey, oKey, ks, Read(src, qKey, 0, 1).value,
      Read(src, kKey, 0, step).value, Read(src, vKey, 0, step).value, wo);
    OutHeadsAt(wo, QueryWidth(c), c.numHeads, c.headDim, e, h, k);
  }
}
