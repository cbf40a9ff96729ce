/** The tree of arrays the converter hands to MaxText, and the last step that
    builds it: the per-layer stacks are given their final axis order, the
    query kernel is scaled, the logits kernel is transposed and cut to the
    vocabulary, and the token embedding is cut to the vocabulary for all but
    the Llama 3 sizes. */
module JaxWeights {
  import opened Results
  import opened Tensors
  import opened ModelParams
  import opened NameMapping
  import opened Checkpoint
  import opened Heads
  import opened Layout
  import opened Stacking
  import opened Experts
  import opened FinalAxes

  /** `decoder.layers.self_attention`: one kernel per projection. */
  datatype Attention<T> = Attention(query: Tensor<T>, key: Tensor<T>, value: Tensor<T>, out: Tensor<T>)

  /** `decoder.layers.mlp` for dense models, `decoder.layers.MoeBlock_0` for
      mixture-of-experts models. */
  datatype Mlp<T> =
    | DenseMlp(wi0: Tensor<T>, wi1: Tensor<T>, wo: Tensor<T>)
    | MoeMlp(gate: Tensor<T>, wi0: Tensor<T>, wi1: Tensor<T>, wo: Tensor<T>)

  /** The whole tree: `decoder.decoder_norm.scale`, `decoder.logits_dense.kernel`,
      `token_embedder.embedding` and the stacked layer weights. */
  datatype Weights<T> = Weights(
    decoderNorm: Tensor<T>,
    logits: Tensor<T>,
    embedding: Tensor<T>,
    attention: Attention<T>,
    preNorm: Tensor<T>,
    postNorm: Tensor<T>,
    mlp: Mlp<T>)

  // ---------------------------------------------------------------------
  // The per-layer functions the stacking loops run

  function AttentionOf<T>(src: Source<T>, c: ModelConfig, modelSize: string): nat -> Result<seq<Tensor<T>>>
  {
    (l: nat) => AttentionLayer(src, c, modelSize, l)
  }

  function NormOf<T>(src: Source<T>): nat -> Result<seq<Tensor<T>>>
  {
    (l: nat) => NormLayer(src, l)
  }

  function DenseOf<T>(src: Source<T>): nat -> Result<seq<Tensor<T>>>
  {
    (l: nat) => DenseLayer(src, l)
  }

  function GateOf<T>(src: Source<T>): nat -> Result<seq<Tensor<T>>>
  {
    (l: nat) => GateLayer(src, l)
  }

  function ExpertOf<T>(src: Source<T>): (nat, nat) -> Result<seq<Tensor<T>>>
  {
    (l: nat, k: nat) => ExpertLayer(src, l, k)
  }

  // ---------------------------------------------------------------------
  // Self-attention

  /** The stacked attention kernels (layer first) put in their final axis
      order: query, key and value become `[embed, layer, heads, head_dim]`,
      out becomes `[heads, layer, head_dim, embed]`; the query is then scaled
      element by element. */
  function AttentionFinal<T>(s: seq<Tensor<T>>, scale: T -> T): (r: Result<Attention<T>>)
    requires |s| == 4 && forall m :: 0 <= m < 4 ==> Valid(s[m])
    ensures r.Ok? <==> |s[0].shape| == 4 && |s[1].shape| == 4 && |s[2].shape| == 4 && |s[3].shape| == 4
    ensures r.Ok? ==> && Valid(r.value.query) && r.value.query.shape == PermShape(s[0].shape, QkvAxes)
                      && Valid(r.value.key) && r.value.key.shape == PermShape(s[1].shape, QkvAxes)
                      && Valid(r.value.value) && r.value.value.shape == PermShape(s[2].shape, QkvAxes)
                      && Valid(r.value.out) && r.value.out.shape == PermShape(s[3].shape, OutAxes)
  {
    FinalAxesArePerms();
    var q :- TransposeAxes(s[0], QkvAxes);
    var k :- TransposeAxes(s[1], QkvAxes);
    var v :- TransposeAxes(s[2], QkvAxes);
    var o :- TransposeAxes(s[3], OutAxes);
    Ok(Attention(MapElements(scale, q), k, v, o))
  }

  /** Element `[e, l, h, k]` of the final query, key and value kernels is
      element `[l, e, h, k]` of the stack (the query scaled); element
      `[h, l, k, e]` of the final out kernel is element `[l, e, h, k]`. */
  lemma AttentionFinalAt<T>(s: seq<Tensor<T>>, scale: T -> T, a: Attention<T>, m: nat, l: nat, e: nat, h: nat, k: nat)
    requires |s| == 4 && forall i :: 0 <= i < 4 ==> Valid(s[i])
    requires AttentionFinal(s, scale) == Ok(a) && m < 4
    requires InBounds(s[m].shape, [l, e, h, k])
    ensures m == 0 ==> InBounds(a.query.shape, [e, l, h, k]) && At(a.query, [e, l, h, k]) == scale(At(s[0], [l, e, h, k]))
    ensures m == 1 ==> InBounds(a.key.shape, [e, l, h, k]) && At(a.key, [e, l, h, k]) == At(s[1], [l, e, h, k])
    ensures m == 2 ==> InBounds(a.value.shape, [e, l, h, k]) && At(a.value, [e, l, h, k]) == At(s[2], [l, e, h, k])
    ensures m == 3 ==> InBounds(a.out.shape, [h, l, k, e]) && At(a.out, [h, l, k, e]) == At(s[3], [l, e, h, k])
  {
    FinalAxesArePerms();
    if m < 3 {
      QkvTransposeAt(s[m], l, e, h, k);
    } else {
      OutTransposeAt(s[3], l, e, h, k);
    }
  }

  /** The self-attention loop over all layers and the final reordering.  With
      no layers the accumulators stay `None` and the transpose raises. */
  function AttentionStacks<T>(src: Source<T>, c: ModelConfig, modelSize: string, scale: T -> T): (r: Result<Attention<T>>)
    ensures r.Ok? ==> c.numLayers > 0 && StacksShaped(c, c.numLayers, r.value)
  {
    var st :- Stacked(AttentionOf(src, c, modelSize), c.numLayers);
    if st.None? then Err(ShapeMismatch)
    else
      AttentionStackShapes(src, c, modelSize, st.value);
      AttentionFinalShapes(c, c.numLayers, st.value, scale);
      AttentionFinal(st.value, scale)
  }

  /** The final kernels are well formed: query, key and value
      `[heads * head_dim, layers, heads, head_dim]` (`kv_heads` for key and
      value), out `[heads, layers, head_dim, heads * head_dim]`. */
  predicate StacksShaped<T>(c: ModelConfig, n: nat, a: Attention<T>)
  {
    && Valid(a.query) && a.query.shape == [QueryWidth(c), n, c.numHeads, c.headDim]
    && Valid(a.key) && a.key.shape == [QueryWidth(c), n, c.numKvHeads, c.headDim]
    && Valid(a.value) && a.value.shape == [QueryWidth(c), n, c.numKvHeads, c.headDim]
    && Valid(a.out) && a.out.shape == [c.numHeads, n, c.headDim, QueryWidth(c)]
  }

  /** The stacks carry the layer axis in front of the model row's kernel shapes. */
  predicate StacksOfShape<T>(c: ModelConfig, n: nat, s: seq<Tensor<T>>)
  {
    && |s| == 4 && Valid(s[0]) && Valid(s[1]) && Valid(s[2]) && Valid(s[3])
    && s[0].shape == [n, QueryWidth(c), c.numHeads, c.headDim]
    && s[1].shape == [n, QueryWidth(c), c.numKvHeads, c.headDim]
    && s[2].shape == [n, QueryWidth(c), c.numKvHeads, c.headDim]
    && s[3].shape == [n, QueryWidth(c), c.numHeads, c.headDim]
  }

  lemma AttentionStackShapes<T>(src: Source<T>, c: ModelConfig, modelSize: string, s: seq<Tensor<T>>)
    requires Stacked(AttentionOf(src, c, modelSize), c.numLayers) == Ok(Some(s))
    ensures StacksOfShape(c, c.numLayers, s)
  {
    var f := AttentionOf(src, c, modelSize);
    StackedShapes(f, c.numLayers);
    assert f(0) == AttentionLayer(src, c, modelSize, 0);
    LeadingAxis(c, c.numLayers, s, f(0).value);
  }

  lemma LeadingAxis<T>(c: ModelConfig, n: nat, s: seq<Tensor<T>>, k0: seq<Tensor<T>>)
    requires AttentionShaped(c, k0) && |s| == 4
    requires forall m :: 0 <= m < 4 ==> Valid(s[m]) && s[m].shape == [n] + k0[m].shape
    ensures StacksOfShape(c, n, s)
  {
    assert s[0].shape == [n] + k0[0].shape;
    assert s[1].shape == [n] + k0[1].shape;
    assert s[2].shape == [n] + k0[2].shape;
    assert s[3].shape == [n] + k0[3].shape;
  }

  lemma AttentionFinalShapes<T>(c: ModelConfig, n: nat, s: seq<Tensor<T>>, scale: T -> T)
    requires StacksOfShape(c, n, s)
    ensures AttentionFinal(s, scale).Ok? && StacksShaped(c, n, AttentionFinal(s, scale).value)
  {
    QkvShape(s[0].shape);
    QkvShape(s[1].shape);
    QkvShape(s[2].shape);
    OutShape(s[3].shape);
  }

  lemma QkvShape(sh: Shape)
    requires |sh| == 4
    ensures IsPerm(QkvAxes, |sh|) && PermShape(sh, QkvAxes) == [sh[1], sh[0], sh[2], sh[3]]
  {
    FinalAxesArePerms();
  }

  lemma OutShape(sh: Shape)
    requires |sh| == 4
    ensures IsPerm(OutAxes, |sh|) && PermShape(sh, OutAxes) == [sh[2], sh[0], sh[3], sh[1]]
  {
    FinalAxesArePerms();
  }

  /** Every layer's kernels, once read, have the shapes the model row fixes,
      so successful layers always fit the slots of layer 0. */
  lemma AttentionLayersFit<T>(src: Source<T>, c: ModelConfig, modelSize: string, n: nat)
    requires forall l: nat :: l < n ==> AttentionLayer(src, c, modelSize, l).Ok?
    ensures AllFit(AttentionOf(src, c, modelSize), n)
  {
    var f := AttentionOf(src, c, modelSize);
    forall l: nat | l < n ensures f(l).Ok? && Fits(f(l).value, f(0).value) {
      assert f(l) == AttentionLayer(src, c, modelSize, l);
      assert f(0) == AttentionLayer(src, c, modelSize, 0);
      SameShapesFit(c, f(l).value, f(0).value);
    }
  }

  /** Two layers' kernels with the shapes of the model row fit each other. */
  lemma SameShapesFit<T>(c: ModelConfig, a: seq<Tensor<T>>, b: seq<Tensor<T>>)
    requires AttentionShaped(c, a) && AttentionShaped(c, b)
    ensures Fits(a, b)
  {
    forall m | 0 <= m < 4 ensures a[m].shape == b[m].shape {
      if m == 0 {} else if m == 1 {} else if m == 2 {} else {}
    }
  }

  /** The attention stack succeeds exactly when there is a layer and every
      layer's kernels are read and split: the shapes are fixed by the model
      row, so the layers always fit each other's slots. */
  lemma AttentionStacksOk<T>(src: Source<T>, c: ModelConfig, modelSize: string, scale: T -> T)
    ensures AttentionStacks(src, c, modelSize, scale).Ok? <==>
      c.numLayers > 0 && forall l: nat :: l < c.numLayers ==> AttentionLayer(src, c, modelSize, l).Ok?
  {
    if c.numLayers > 0 && forall l: nat :: l < c.numLayers ==> AttentionLayer(src, c, modelSize, l).Ok? {
      AttentionStacksOkIf(src, c, modelSize, scale);
    }
    if AttentionStacks(src, c, modelSize, scale).Ok? {
      AttentionStacksOkOnlyIf(src, c, modelSize, scale);
    }
  }

  lemma AttentionStacksOkIf<T>(src: Source<T>, c: ModelConfig, modelSize: string, scale: T -> T)
    requires c.numLayers > 0 && forall l: nat :: l < c.numLayers ==> AttentionLayer(src, c, modelSize, l).Ok?
    ensures AttentionStacks(src, c, modelSize, scale).Ok?
  {
    var f := AttentionOf(src, c, modelSize);
    AttentionLayersFit(src, c, modelSize, c.numLayers);
    StackedOk(f, c.numLayers);
    var s := Stacked(f, c.numLayers).value.value;
    AttentionStackShapes(src, c, modelSize, s);
    AttentionFinalShapes(c, c.numLayers, s, scale);
  }

  lemma AttentionStacksOkOnlyIf<T>(src: Source<T>, c: ModelConfig, modelSize: string, scale: T -> T)
    requires AttentionStacks(src, c, modelSize, scale).Ok?
    ensures forall l: nat :: l < c.numLayers ==> AttentionLayer(src, c, modelSize, l).Ok?
  {
    var f := AttentionOf(src, c, modelSize);
    StackedOk(f, c.numLayers);
    LayersOkOfFit(src, c, modelSize, c.numLayers);
  }

  lemma LayersOkOfFit<T>(src: Source<T>, c: ModelConfig, modelSize: string, n: nat)
    requires AllFit(AttentionOf(src, c, modelSize), n)
    ensures forall l: nat :: l < n ==> AttentionLayer(src, c, modelSize, l).Ok?
  {
    var f := AttentionOf(src, c, modelSize);
    forall l: nat | l < n ensures AttentionLayer(src, c, modelSize, l).Ok? {
      assert f(l) == AttentionLayer(src, c, modelSize, l);
    }
  }

  /** Where the stacked attention kernels come from: slot `l` of each stack is
      layer `l`'s kernel, and the final kernels are reordered from the stacks. */
  lemma AttentionStacksParts<T>(src: Source<T>, c: ModelConfig, modelSize: string, scale: T -> T,
                                a: Attention<T>, s: seq<Tensor<T>>)
    requires AttentionStacks(src, c, modelSize, scale) == Ok(a)
    requires Stacked(AttentionOf(src, c, modelSize), c.numLayers) == Ok(Some(s))
    ensures |s| == 4 && (forall m :: 0 <= m < 4 ==> Valid(s[m])) && AttentionFinal(s, scale) == Ok(a)
  {
    StackedShapes(AttentionOf(src, c, modelSize), c.numLayers);
  }

  /** Slot `l` of stack `m` holds kernel `m` of layer `l`. */
  lemma AttentionSlotAt<T>(src: Source<T>, c: ModelConfig, modelSize: string, s: seq<Tensor<T>>,
                           l: nat, ks: seq<Tensor<T>>, m: nat, e: nat, h: nat, k: nat)
    requires Stacked(AttentionOf(src, c, modelSize), c.numLayers) == Ok(Some(s))
    requires l < c.numLayers && AttentionLayer(src, c, modelSize, l) == Ok(ks)
    requires m < 4 && InBounds(ks[m].shape, [e, h, k])
    ensures m < |s| && Valid(s[m]) && |ks| == 4 && Valid(ks[m])
    ensures InBounds(s[m].shape, [l, e, h, k]) && At(s[m], [l, e, h, k]) == At(ks[m], [e, h, k])
  {
    var f := AttentionOf(src, c, modelSize);
    assert f(l) == AttentionLayer(src, c, modelSize, l);
    StackedSlotAt(f, c.numLayers, s, l, ks, m, [e, h, k]);
    ConsIndex(l, e, h, k);
  }

  lemma ConsIndex(l: nat, e: nat, h: nat, k: nat)
    ensures [l] + [e, h, k] == [l, e, h, k]
  {
  }

  /** Slot `l` of each final attention kernel holds layer `l`'s kernel:
      query, key and value element `[e, l, h, k]` is the layer's `[e, h, k]`
      (the query scaled), out element `[h, l, k, e]` is the layer's `[e, h, k]`. */
  lemma AttentionAt<T>(src: Source<T>, c: ModelConfig, modelSize: string, scale: T -> T,
                       a: Attention<T>, l: nat, ks: seq<Tensor<T>>, m: nat, e: nat, h: nat, k: nat)
    requires AttentionStacks(src, c, modelSize, scale) == Ok(a)
    requires l < c.numLayers && AttentionLayer(src, c, modelSize, l) == Ok(ks)
    requires m < 4 && InBounds(ks[m].shape, [e, h, k])
    ensures m == 0 ==> InBounds(a.query.shape, [e, l, h, k]) && At(a.query, [e, l, h, k]) == scale(At(ks[0], [e, h, k]))
    ensures m == 1 ==> InBounds(a.key.shape, [e, l, h, k]) && At(a.key, [e, l, h, k]) == At(ks[1], [e, h, k])
    ensures m == 2 ==> InBounds(a.value.shape, [e, l, h, k]) && At(a.value, [e, l, h, k]) == At(ks[2], [e, h, k])
    ensures m == 3 ==> InBounds(a.out.shape, [h, l, k, e]) && At(a.out, [h, l, k, e]) == At(ks[3], [e, h, k])
  {
    var f := AttentionOf(src, c, modelSize);
    StackedOk(f, c.numLayers);
    var s := Stacked(f, c.numLayers).value.value;
    AttentionStacksParts(src, c, modelSize, scale, a, s);
    AttentionSlotAt(src, c, modelSize, s, l, ks, m, e, h, k);
    AttentionFinalAt(s, scale, a, m, l, e, h, k);
  }

  // ---------------------------------------------------------------------
  // From the checkpoint to the final attention kernels

  lemma WithinHeads(x: nat, y: nat, z: nat, p: nat, q: nat, r: nat)
    requires x < p && y < q && z < r
    ensures InBounds([p, q, r], [x, y, z])
  {
  }

  /** Query element `[e, l, h, k]` is the scaled checkpoint entry of layer
      `l`'s `wq` at column `e` and row `h * head_dim + k'`, where `k'` is `k`
      or, under the permutation, its rotary source. */
  lemma QueryFromCheckpoint<T>(src: Source<T>, c: ModelConfig, modelSize: string, scale: T -> T,
                               a: Attention<T>, l: nat, ks: seq<Tensor<T>>, wq: Tensor<T>, e: nat, h: nat, k: nat)
    requires AttentionStacks(src, c, modelSize, scale) == Ok(a)
    requires l < c.numLayers && AttentionLayer(src, c, modelSize, l) == Ok(ks)
    requires Read(src, MetaName(Attn(Q), l, -1), 0, 1) == Ok(wq) && wq.shape == [c.numHeads * c.headDim, QueryWidth(c)]
    requires e < QueryWidth(c) && h < c.numHeads && k < c.headDim
    ensures Row(h, c.headDim, RopeIndex(Permutes(src, modelSize), c.headDim, k)) < c.numHeads * c.headDim
    ensures Valid(a.query) && InBounds(a.query.shape, [e, l, h, k])
    ensures Valid(wq) && InBounds(wq.shape, [Row(h, c.headDim, RopeIndex(Permutes(src, modelSize), c.headDim, k)), e])
    ensures At(a.query, [e, l, h, k])
      == scale(At(wq, [Row(h, c.headDim, RopeIndex(Permutes(src, modelSize), c.headDim, k)), e]))
  {
    QueryKernelAt(src, c, Permutes(src, modelSize), KvStride(src, modelSize), MetaName(Attn(Q), l, -1),
      MetaName(Attn(K), l, -1), MetaName(Attn(V), l, -1), MetaName(Attn(O), l, -1), ks, wq, e, h, k);
    WithinHeads(e, h, k, QueryWidth(c), c.numHeads, c.headDim);
    AttentionAt(src, c, modelSize, scale, a, l, ks, 0, e, h, k);
  }

  /** Key element `[e, l, h, k]` is the checkpoint entry of layer `l`'s `wk`
      (through every `KvStride`-th shard) at column `e` and row
      `h * head_dim + k'`, with `k'` as for the query. */
  lemma KeyFromCheckpoint<T>(src: Source<T>, c: ModelConfig, modelSize: string, scale: T -> T,
                             a: Attention<T>, l: nat, ks: seq<Tensor<T>>, wk: Tensor<T>, e: nat, h: nat, k: nat)
    requires AttentionStacks(src, c, modelSize, scale) == Ok(a)
    requires l < c.numLayers && AttentionLayer(src, c, modelSize, l) == Ok(ks)
    requires Read(src, MetaName(Attn(K), l, -1), 0, KvStride(src, modelSize)) == Ok(wk)
    requires wk.shape == [c.numKvHeads * c.headDim, QueryWidth(c)]
    requires e < QueryWidth(c) && h < c.numKvHeads && k < c.headDim
    ensures Row(h, c.headDim, RopeIndex(Permutes(src, modelSize), c.headDim, k)) < c.numKvHeads * c.headDim
    ensures Valid(a.key) && InBounds(a.key.shape, [e, l, h, k])
    ensures Valid(wk) && InBounds(wk.shape, [Row(h, c.headDim, RopeIndex(Permutes(src, modelSize), c.headDim, k)), e])
    ensures At(a.key, [e, l, h, k])
      == At(wk, [Row(h, c.headDim, RopeIndex(Permutes(src, modelSize), c.headDim, k)), e])
  {
    KeyKernelAt(src, c, Permutes(src, modelSize), KvStride(src, modelSize), MetaName(Attn(Q), l, -1),
      MetaName(Attn(K), l, -1), MetaName(Attn(V), l, -1), MetaName(Attn(O), l, -1), ks, wk, e, h, k);
    WithinHeads(e, h, k, QueryWidth(c), c.numKvHeads, c.headDim);
    AttentionAt(src, c, modelSize, scale, a, l, ks, 1, e, h, k);
  }

  /** Value element `[e, l, h, k]` is the checkpoint entry of layer `l`'s
      `wv` at column `e` and row `h * head_dim + k`. */
  lemma ValueFromCheckpoint<T>(src: Source<T>, c: ModelConfig, modelSize: string, scale: T -> T,
                               a: Attention<T>, l: nat, ks: seq<Tensor<T>>, wv: Tensor<T>, e: nat, h: nat, k: nat)
    requires AttentionStacks(src, c, modelSize, scale) == Ok(a)
    requires l < c.numLayers && AttentionLayer(src, c, modelSize, l) == Ok(ks)
    requires Read(src, MetaName(Attn(V), l, -1), 0, KvStride(src, modelSize)) == Ok(wv)
    requires wv.shape == [c.numKvHeads * c.headDim, QueryWidth(c)]
    requires e < QueryWidth(c) && h < c.numKvHeads && k < c.headDim
    ensures Row(h, c.headDim, k) < c.numKvHeads * c.headDim
    ensures Valid(a.value) && InBounds(a.value.shape, [e, l, h, k])
    ensures Valid(wv) && InBounds(wv.shape, [Row(h, c.headDim, k), e])
    ensures At(a.value, [e, l, h, k]) == At(wv, [Row(h, c.headDim, k), e])
  {
    ValueKernelAt(src, c, Permutes(src, modelSize), KvStride(src, modelSize), MetaName(Attn(Q), l, -1),
      MetaName(Attn(K), l, -1), MetaName(Attn(V), l, -1), MetaName(Attn(O), l, -1), ks, wv, e, h, k);
    WithinHeads(e, h, k, QueryWidth(c), c.numKvHeads, c.headDim);
    AttentionAt(src, c, modelSize, scale, a, l, ks, 2, e, h, k);
  }

  /** Out element `[h, l, k, e]` is the checkpoint entry of layer `l`'s `wo`
      at row `e` and column `h * head_dim + k`. */
  lemma OutFromCheckpoint<T>(src: Source<T>, c: ModelConfig, modelSize: string, scale: T -> T,
                             a: Attention<T>, l: nat, ks: seq<Tensor<T>>, wo: Tensor<T>, e: nat, h: nat, k: nat)
    requires AttentionStacks(src, c, modelSize, scale) == Ok(a)
    requires l < c.numLayers && AttentionLayer(src, c, modelSize, l) == Ok(ks)
    requires Read(src, MetaName(Attn(O), l, -1), 1, 1) == Ok(wo) && wo.shape == [QueryWidth(c), c.numHeads * c.headDim]
    requires e < QueryWidth(c) && h < c.numHeads && k < c.headDim
    ensures Row(h, c.headDim, k) < c.numHeads * c.headDim
    ensures Valid(a.out) && InBounds(a.out.shape, [h, l, k, e])
    ensures Valid(wo) && InBounds(wo.shape, [e, Row(h, c.headDim, k)])
    ensures At(a.out, [h, l, k, e]) == At(wo, [e, Row(h, c.headDim, k)])
  {
    OutKernelAt(src, c, Permutes(src, modelSize), KvStride(src, modelSize), MetaName(Attn(Q), l, -1),
      MetaName(Attn(K), l, -1), MetaName(Attn(V), l, -1), MetaName(Attn(O), l, -1), ks, wo, e, h, k);
    WithinHeads(e, h, k, QueryWidth(c), c.numHeads, c.headDim);
    AttentionAt(src, c, modelSize, scale, a, l, ks, 3, e, h, k);
  }

  // ---------------------------------------------------------------------
  // Layer norms

  /** The two stacked norm scales with the layer axis moved last. */
  function NormFinal<T>(s: seq<Tensor<T>>): (r: Result<(Tensor<T>, Tensor<T>)>)
    requires |s| == 2 && Valid(s[0]) && Valid(s[1])
    ensures r.Ok? <==> |s[0].shape| == 2 && |s[1].shape| == 2
    ensures r.Ok? ==> && Valid(r.value.0) && r.value.0.shape == [s[0].shape[1], s[0].shape[0]]
                      && Valid(r.value.1) && r.value.1.shape == [s[1].shape[1], s[1].shape[0]]
  {
    FinalAxesArePerms();
    var pre :- TransposeAxes(s[0], NormAxes);
    var post :- TransposeAxes(s[1], NormAxes);
    assert PermShape(s[0].shape, NormAxes) == [s[0].shape[1], s[0].shape[0]];
    assert PermShape(s[1].shape, NormAxes) == [s[1].shape[1], s[1].shape[0]];
    Ok((pre, post))
  }

  /** `pre_self_attention_layer_norm` and `post_self_attention_layer_norm`:
      the norms of every layer stacked, then transposed to `[embed, layer]`. */
  function NormStacks<T>(src: Source<T>, n: nat): (r: Result<(Tensor<T>, Tensor<T>)>)
    ensures r.Ok? ==> n > 0 && Valid(r.value.0) && Valid(r.value.1)
  {
    var st :- Stacked(NormOf(src), n);
    if st.None? then Err(ShapeMismatch)
    else
      StackedShapes(NormOf(src), n);
      assert NormOf(src)(0) == NormLayer(src, 0);
      NormFinal(st.value)
  }

  lemma NormStacksParts<T>(src: Source<T>, n: nat, s: seq<Tensor<T>>)
    requires Stacked(NormOf(src), n) == Ok(Some(s))
    ensures |s| == 2 && Valid(s[0]) && Valid(s[1])
    ensures NormStacks(src, n) == NormFinal(s)
  {
    StackedShapes(NormOf(src), n);
    assert NormOf(src)(0) == NormLayer(src, 0);
  }

  lemma NormSlotAt<T>(src: Source<T>, n: nat, s: seq<Tensor<T>>, l: nat, g: seq<Tensor<T>>, m: nat, i: nat)
    requires Stacked(NormOf(src), n) == Ok(Some(s)) && l < n && NormLayer(src, l) == Ok(g)
    requires m < 2 && |g| == 2 && |g[m].shape| == 1 && i < g[m].shape[0]
    ensures m < |s| && Valid(s[m]) && InBounds(s[m].shape, [l, i]) && At(s[m], [l, i]) == At(g[m], [i])
  {
    assert NormOf(src)(l) == NormLayer(src, l);
    StackedVectorAt(NormOf(src), n, s, l, g, m, i);
  }

  /** Element `[i, l]` of the final norm scales is element `i` of layer
      `l`'s attention norm (`pre`) and feed-forward norm (`post`). */
  lemma NormAt<T>(src: Source<T>, n: nat, pre: Tensor<T>, post: Tensor<T>, l: nat, x: Tensor<T>, y: Tensor<T>, i: nat, j: nat)
    requires NormStacks(src, n) == Ok((pre, post)) && l < n
    requires ReadFirst(src, MetaName(AttentionNorm, l, -1)) == Ok(x) && ReadFirst(src, MetaName(FfnNorm, l, -1)) == Ok(y)
    requires |x.shape| == 1 && i < x.shape[0] && |y.shape| == 1 && j < y.shape[0]
    ensures InBounds(pre.shape, [i, l]) && At(pre, [i, l]) == At(x, [i])
    ensures InBounds(post.shape, [j, l]) && At(post, [j, l]) == At(y, [j])
  {
    StackedOk(NormOf(src), n);
    var s := Stacked(NormOf(src), n).value.value;
    NormStacksParts(src, n, s);
    NormSlotAt(src, n, s, l, [x, y], 0, i);
    NormSlotAt(src, n, s, l, [x, y], 1, j);
    SwapAt2(s[0], l, i);
    SwapAt2(s[1], l, j);
  }


  // ---------------------------------------------------------------------
  // Feed-forward kernels

  /** The dense kernels with the layer axis moved second. */
  function DenseFinal<T>(s: seq<Tensor<T>>): (r: Result<Mlp<T>>)
    requires |s| == 3 && Valid(s[0]) && Valid(s[1]) && Valid(s[2])
    ensures r.Ok? <==> |s[0].shape| == 3 && |s[1].shape| == 3 && |s[2].shape| == 3
    ensures r.Ok? ==> && r.value.DenseMlp?
                      && Valid(r.value.wi0) && r.value.wi0.shape == PermShape(s[0].shape, MlpAxes)
                      && Valid(r.value.wi1) && r.value.wi1.shape == PermShape(s[1].shape, MlpAxes)
                      && Valid(r.value.wo) && r.value.wo.shape == PermShape(s[2].shape, MlpAxes)
  {
    FinalAxesArePerms();
    var wi0 :- TransposeAxes(s[0], MlpAxes);
    var wi1 :- TransposeAxes(s[1], MlpAxes);
    var wo :- TransposeAxes(s[2], MlpAxes);
    Ok(DenseMlp(wi0, wi1, wo))
  }

  /** `mlp` of a dense model: `wi_0`, `wi_1` and `wo` of every layer stacked,
      then the layer axis moved second. */
  function DenseStacks<T>(src: Source<T>, n: nat): (r: Result<Mlp<T>>)
    ensures r.Ok? ==> n > 0 && r.value.DenseMlp?
  {
    var st :- Stacked(DenseOf(src), n);
    if st.None? then Err(ShapeMismatch)
    else
      StackedShapes(DenseOf(src), n);
      assert DenseOf(src)(0) == DenseLayer(src, 0);
      DenseFinal(st.value)
  }

  lemma DenseStacksParts<T>(src: Source<T>, n: nat, s: seq<Tensor<T>>)
    requires Stacked(DenseOf(src), n) == Ok(Some(s))
    ensures |s| == 3 && Valid(s[0]) && Valid(s[1]) && Valid(s[2])
    ensures DenseStacks(src, n) == DenseFinal(s)
  {
    StackedShapes(DenseOf(src), n);
    assert DenseOf(src)(0) == DenseLayer(src, 0);
  }

  /** The feed-forward matrix behind kernel `m` of a layer: `w1`, `w3`, `w2`. */
  function DenseSource(m: nat): Ffn
  {
    if m == 0 then W1 else if m == 1 then W3 else W2
  }

  /** Kernel `m` of a feed-forward block, in the order `wi_0`, `wi_1`, `wo`. */
  function MlpKernel<T>(w: Mlp<T>, m: nat): Tensor<T>
  {
    if m == 0 then w.wi0 else if m == 1 then w.wi1 else w.wo
  }

  lemma DenseFinalFields<T>(s: seq<Tensor<T>>, w: Mlp<T>)
    requires |s| == 3 && Valid(s[0]) && Valid(s[1]) && Valid(s[2]) && DenseFinal(s) == Ok(w)
    ensures IsPerm(MlpAxes, |s[0].shape|) && IsPerm(MlpAxes, |s[1].shape|) && IsPerm(MlpAxes, |s[2].shape|)
    ensures w.wi0 == Transpose(s[0], MlpAxes) && w.wi1 == Transpose(s[1], MlpAxes) && w.wo == Transpose(s[2], MlpAxes)
  {
    FinalAxesArePerms();
  }

  /** Slot `l` of each dense kernel holds layer `l`'s kernel: element
      `[i, l, j]` is the layer's `[i, j]`. */
  lemma DenseAt<T>(src: Source<T>, n: nat, w: Mlp<T>, l: nat, g: seq<Tensor<T>>, m: nat, i: nat, j: nat)
    requires DenseStacks(src, n) == Ok(w) && l < n && DenseLayer(src, l) == Ok(g)
    requires m < 3 && |g[m].shape| == 2 && i < g[m].shape[0] && j < g[m].shape[1]
    ensures Valid(MlpKernel(w, m)) && InBounds(MlpKernel(w, m).shape, [i, l, j])
    ensures At(MlpKernel(w, m), [i, l, j]) == At(g[m], [i, j])
  {
    var f := DenseOf(src);
    StackedOk(f, n);
    var s := Stacked(f, n).value.value;
    DenseStacksParts(src, n, s);
    assert f(l) == DenseLayer(src, l);
    StackedMatrixAt(f, n, s, l, g, m, i, j);
    DenseFinalFields(s, w);
    if m == 0 {
      SwapAt3(s[0], l, i, j);
    } else if m == 1 {
      SwapAt3(s[1], l, i, j);
    } else {
      SwapAt3(s[2], l, i, j);
    }
  }

  /** A finished dense stack read every layer. */
  lemma DenseLayersOk<T>(src: Source<T>, n: nat, w: Mlp<T>, l: nat)
    requires DenseStacks(src, n) == Ok(w) && l < n
    ensures DenseLayer(src, l).Ok?
  {
    var f := DenseOf(src);
    StackedOk(f, n);
    assert f(l) == DenseLayer(src, l);
  }

  /** Dense element `[x, l, y]` of `wi_0`, `wi_1` and `wo` is entry `[y, x]` of
      layer `l`'s `w1`, `w3` and `w2` joined across the shards (on the output
      axis, and on the input axis for `w2`). */
  lemma DenseFromCheckpoint<T>(src: Source<T>, n: nat, w: Mlp<T>, l: nat, m: nat, t: Tensor<T>, x: nat, y: nat)
    requires DenseStacks(src, n) == Ok(w) && l < n && m < 3
    requires Read(src, MetaName(Dense(DenseSource(m)), l, -1), FfnAxis(DenseSource(m)), 1) == Ok(t)
    requires |t.shape| == 2 && y < t.shape[0] && x < t.shape[1]
    ensures Valid(t) && InBounds(t.shape, [y, x])
    ensures Valid(MlpKernel(w, m)) && InBounds(MlpKernel(w, m).shape, [x, l, y])
    ensures At(MlpKernel(w, m), [x, l, y]) == At(t, [y, x])
  {
    DenseLayersOk(src, n, w, l);
    var g := DenseLayer(src, l).value;
    var key := MetaName(Dense(DenseSource(m)), l, -1);
    assert g[m] == FfnKernel(src, key, DenseSource(m)).value;
    FfnKernelAt(src, key, DenseSource(m), x, y);
    DenseAt(src, n, w, l, g, m, x, y);
  }

  /** `MoeBlock_0` of a mixture-of-experts model: the router gate with the
      layer axis moved second, and the expert kernels as stacked,
      `[experts, layers, ...]`.  Without layers the gate accumulator is
      still `None` and its transpose raises; without experts the tree has
      an `mlp` entry instead of `MoeBlock_0` and the assignment raises. */
  function MoeFinal<T>(gates: Option<seq<Tensor<T>>>, experts: Option<seq<Tensor<T>>>): (r: Result<Mlp<T>>)
    requires gates.Some? ==> |gates.value| == 1 && Valid(gates.value[0])
    requires experts.Some? ==> |experts.value| == 3
    ensures gates.None? ==> r == Err(ShapeMismatch)
    ensures gates.Some? && |gates.value[0].shape| != 3 ==> r == Err(ShapeMismatch)
    ensures gates.Some? && |gates.value[0].shape| == 3 && experts.None? ==> r == Err(MissingKey("MoeBlock_0"))
    ensures r.Ok? <==> gates.Some? && |gates.value[0].shape| == 3 && experts.Some?
    ensures r.Ok? ==> && r.value.MoeMlp?
                      && Valid(r.value.gate) && r.value.gate.shape == PermShape(gates.value[0].shape, MlpAxes)
                      && r.value.wi0 == experts.value[0] && r.value.wi1 == experts.value[1] && r.value.wo == experts.value[2]
  {
    FinalAxesArePerms();
    if gates.None? then Err(ShapeMismatch)
    else
      var gate :- TransposeAxes(gates.value[0], MlpAxes);
      if experts.None? then Err(MissingKey("MoeBlock_0"))
      else Ok(MoeMlp(gate, experts.value[0], experts.value[1], experts.value[2]))
  }

  /** The mixture-of-experts loop over all layers and experts, then the final
      reordering of the gate. */
  function MoeStacks<T>(src: Source<T>, n: nat, e: nat): (r: Result<Mlp<T>>)
    ensures r.Ok? ==> n > 0 && e > 0 && r.value.MoeMlp?
  {
    var st :- MoeStacked(GateOf(src), ExpertOf(src), n, e);
    if n > 0 then
      MoeStackedFacts(src, n, e);
      MoeFinal(st.0, st.1)
    else Err(ShapeMismatch)
  }

  lemma MoeStackedFacts<T>(src: Source<T>, n: nat, e: nat)
    requires MoeStacked(GateOf(src), ExpertOf(src), n, e).Ok? && n > 0
    ensures var st := MoeStacked(GateOf(src), ExpertOf(src), n, e).value;
      && st.0.Some? && |st.0.value| == 1 && Valid(st.0.value[0])
      && st.0.value[0].shape == [n] + GateLayer(src, 0).value[0].shape
      && (st.1.Some? ==> |st.1.value| == 3)
  {
    MoeStackedShapes(GateOf(src), ExpertOf(src), n, e);
    assert GateOf(src)(0) == GateLayer(src, 0);
    assert ExpertOf(src)(0, 0) == ExpertLayer(src, 0, 0);
  }

  /** With zero experts and every layer's gate read, the conversion stops
      at the missing `MoeBlock_0` entry. */
  lemma MoeWithoutExperts<T>(src: Source<T>, n: nat)
    requires n > 0 && LayersFit(GateOf(src), ExpertOf(src), 0, n)
    requires GateLayer(src, 0).Ok? && |GateLayer(src, 0).value[0].shape| == 2
    ensures MoeStacks(src, n, 0) == Err(MissingKey("MoeBlock_0"))
  {
    assert GatesFit(GateOf(src), n);
    assert GateOf(src)(0) == GateLayer(src, 0);
    MoeStackedFacts(src, n, 0);
  }

  /** A finished run and the final reordering it went through. */
  lemma MoeStacksParts<T>(src: Source<T>, n: nat, e: nat, w: Mlp<T>)
    requires MoeStacks(src, n, e) == Ok(w)
    ensures n > 0 && MoeStacked(GateOf(src), ExpertOf(src), n, e).Ok?
    ensures var st := MoeStacked(GateOf(src), ExpertOf(src), n, e).value;
      && st.0.Some? && |st.0.value| == 1 && Valid(st.0.value[0])
      && st.1.Some? && |st.1.value| == 3
      && MoeFinal(st.0, st.1) == Ok(w)
  {
    MoeStackedFacts(src, n, e);
  }

  lemma MoeGateField<T>(src: Source<T>, n: nat, e: nat, w: Mlp<T>)
    requires MoeStacks(src, n, e) == Ok(w)
    ensures n > 0 && MoeStacked(GateOf(src), ExpertOf(src), n, e).Ok?
    ensures var st := MoeStacked(GateOf(src), ExpertOf(src), n, e).value;
      && st.0.Some? && |st.0.value| == 1 && Valid(st.0.value[0])
      && TransposeAxes(st.0.value[0], MlpAxes) == Ok(w.gate)
  {
    MoeStacksParts(src, n, e, w);
  }

  /** Gate element `[x, l, y]` is entry `[y, x]` of layer `l`'s router gate
      joined across the shards on its output axis. */
  lemma MoeGateFromCheckpoint<T>(src: Source<T>, n: nat, e: nat, w: Mlp<T>, l: nat, t: Tensor<T>, x: nat, y: nat)
    requires MoeStacks(src, n, e) == Ok(w) && l < n
    requires Read(src, MetaName(Gate, l, -1), 0, 1) == Ok(t)
    requires |t.shape| == 2 && y < t.shape[0] && x < t.shape[1]
    ensures Valid(t) && InBounds(t.shape, [y, x])
    ensures Valid(w.gate) && InBounds(w.gate.shape, [x, l, y])
    ensures At(w.gate, [x, l, y]) == At(t, [y, x])
  {
    MoeGateField(src, n, e, w);
    GateFinalAt(src, n, e, l, t, x, y, w.gate);
  }

  lemma GateFinalAt<T>(src: Source<T>, n: nat, e: nat, l: nat, t: Tensor<T>, x: nat, y: nat, g: Tensor<T>)
    requires MoeStacked(GateOf(src), ExpertOf(src), n, e).Ok? && l < n
    requires Read(src, MetaName(Gate, l, -1), 0, 1) == Ok(t)
    requires |t.shape| == 2 && y < t.shape[0] && x < t.shape[1]
    requires var st := MoeStacked(GateOf(src), ExpertOf(src), n, e).value;
      && st.0.Some? && |st.0.value| == 1 && Valid(st.0.value[0])
      && TransposeAxes(st.0.value[0], MlpAxes) == Ok(g)
    ensures Valid(t) && InBounds(t.shape, [y, x])
    ensures Valid(g) && InBounds(g.shape, [x, l, y]) && At(g, [x, l, y]) == At(t, [y, x])
  {
    var st := MoeStacked(GateOf(src), ExpertOf(src), n, e).value;
    GateAt(src, n, e, l, t, x, y);
    SwapAt3(st.0.value[0], l, x, y);
  }

  /** Slot `l` of the stacked gate holds layer `l`'s transposed gate. */
  lemma GateAt<T>(src: Source<T>, n: nat, e: nat, l: nat, t: Tensor<T>, x: nat, y: nat)
    requires MoeStacked(GateOf(src), ExpertOf(src), n, e).Ok? && l < n
    requires Read(src, MetaName(Gate, l, -1), 0, 1) == Ok(t)
    requires |t.shape| == 2 && y < t.shape[0] && x < t.shape[1]
    ensures var st := MoeStacked(GateOf(src), ExpertOf(src), n, e).value;
      && st.0.Some? && 0 < |st.0.value| && Valid(st.0.value[0]) && InBounds(st.0.value[0].shape, [l, x, y])
      && At(st.0.value[0], [l, x, y]) == At(t, [y, x])
  {
    var g := GateOf(src);
    assert g(l) == GateLayer(src, l);
    FfnKernelAt(src, MetaName(Gate, l, -1), W1, x, y);
    MoeGateMatrixAt(g, ExpertOf(src), n, e, l, GateLayer(src, l).value, x, y);
  }

  /** A finished run read every expert of every layer. */
  lemma MoeExpertRead<T>(src: Source<T>, n: nat, e: nat, l: nat, k: nat)
    requires MoeStacked(GateOf(src), ExpertOf(src), n, e).Ok? && l < n && k < e
    ensures ExpertLayer(src, l, k).Ok?
  {
    assert ExpertsFit(ExpertOf(src), e, n);
    assert ExpertOf(src)(l, k) == ExpertLayer(src, l, k);
  }

  /** Expert element `[k, l, x, y]` of `wi_0`, `wi_1` and `wo` is entry
      `[y, x]` of expert `k`'s `w1`, `w3` and `w2` in layer `l`. */
  lemma MoeExpertFromCheckpoint<T>(src: Source<T>, n: nat, e: nat, w: Mlp<T>, l: nat, k: nat, m: nat,
                                   t: Tensor<T>, x: nat, y: nat)
    requires MoeStacks(src, n, e) == Ok(w) && l < n && k < e && m < 3
    requires Read(src, MetaName(Expert(DenseSource(m)), l, k), FfnAxis(DenseSource(m)), 1) == Ok(t)
    requires |t.shape| == 2 && y < t.shape[0] && x < t.shape[1]
    ensures Valid(t) && InBounds(t.shape, [y, x])
    ensures Valid(MlpKernel(w, m)) && InBounds(MlpKernel(w, m).shape, [k, l, x, y])
    ensures At(MlpKernel(w, m), [k, l, x, y]) == At(t, [y, x])
  {
    MoeExpertField(src, n, e, w, m);
    ExpertAt(src, n, e, l, k, m, t, x, y);
  }

  /** Slot `[k, l]` of expert array `m` holds expert `k`'s transposed matrix of layer `l`. */
  lemma ExpertAt<T>(src: Source<T>, n: nat, e: nat, l: nat, k: nat, m: nat, t: Tensor<T>, x: nat, y: nat)
    requires MoeStacked(GateOf(src), ExpertOf(src), n, e).Ok? && l < n && k < e && m < 3
    requires Read(src, MetaName(Expert(DenseSource(m)), l, k), FfnAxis(DenseSource(m)), 1) == Ok(t)
    requires |t.shape| == 2 && y < t.shape[0] && x < t.shape[1]
    ensures var st := MoeStacked(GateOf(src), ExpertOf(src), n, e).value;
      && st.1.Some? && m < |st.1.value| && Valid(st.1.value[m]) && InBounds(st.1.value[m].shape, [k, l, x, y])
      && At(st.1.value[m], [k, l, x, y]) == At(t, [y, x])
  {
    var xs := ExpertOf(src);
    MoeExpertRead(src, n, e, l, k);
    assert xs(l, k) == ExpertLayer(src, l, k);
    var key := MetaName(Expert(DenseSource(m)), l, k);
    assert xs(l, k).value[m] == FfnKernel(src, key, DenseSource(m)).value;
    FfnKernelAt(src, key, DenseSource(m), x, y);
    MoeExpertMatrixAt(GateOf(src), xs, n, e, l, k, xs(l, k).value, m, x, y);
  }

  lemma MoeExpertField<T>(src: Source<T>, n: nat, e: nat, w: Mlp<T>, m: nat)
    requires MoeStacks(src, n, e) == Ok(w) && m < 3
    ensures MoeStacked(GateOf(src), ExpertOf(src), n, e).value.1.Some?
    ensures m < |MoeStacked(GateOf(src), ExpertOf(src), n, e).value.1.value|
    ensures MlpKernel(w, m) == MoeStacked(GateOf(src), ExpertOf(src), n, e).value.1.value[m]
  {
    MoeStacksParts(src, n, e, w);
    if m == 0 {
    } else if m == 1 {
    } else {
    }
  }
}
