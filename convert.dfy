/** The whole conversion: the global tensors (decoder norm, logits kernel,
    token embedding), the stacked layer weights in the source's order, and
    the entry point that picks the model row and the checkpoint layout. */
module Conversion {
  import opened Results
  import opened Tensors
  import opened ModelParams
  import opened NameMapping
  import opened Namespace
  import opened Checkpoint
  import opened Shards
  import opened Stacking
  import opened Experts
  import opened JaxWeights

  // ---------------------------------------------------------------------
  // The global tensors

  /** `decoder_norm.scale`: the final norm, taken from the first shard. */
  function DecoderNorm<T>(src: Source<T>): (r: Result<Tensor<T>>)
    ensures r.Ok? ==> Valid(r.value)
    ensures src.Sharded? && |src.parts| == 0 ==> r == Err(NoShards)
  {
    ReadFirst(src, MetaName(Norm, -1, -1))
  }

  /** `logits_dense.kernel`: the output projection joined over the shards on
      its vocabulary axis, transposed, and cut to the vocabulary of the model
      row; indexing a tensor of rank below two with `[:, :v]` raises. */
  function Logits<T>(src: Source<T>, vocab: nat): (r: Result<Tensor<T>>)
    ensures r.Ok? ==> Valid(r.value)
  {
    var t :- Read(src, MetaName(Output, -1, -1), 0, 1);
    SliceAxis(TransposeAll(t), 1, vocab)
  }

  /** The logits kernel exists exactly when the output projection was read
      and has at least two axes. */
  lemma LogitsOk<T>(src: Source<T>, vocab: nat)
    ensures Logits(src, vocab).Ok? <==>
      Read(src, MetaName(Output, -1, -1), 0, 1).Ok? && |Read(src, MetaName(Output, -1, -1), 0, 1).value.shape| >= 2
    ensures Read(src, MetaName(Output, -1, -1), 0, 1).Err? ==>
      Logits(src, vocab) == Read(src, MetaName(Output, -1, -1), 0, 1)
  {
    var t := Read(src, MetaName(Output, -1, -1), 0, 1);
    if t.Ok? {
      assert |TransposeAll(t.value).shape| == |t.value.shape|;
    }
  }

  /** For a `[vocab, embed]` projection the kernel is `[embed, kept vocab]`
      with element `[x, y]` the projection's `[y, x]`: only the first
      `vocab` rows survive. */
  lemma LogitsAt<T>(src: Source<T>, vocab: nat, t: Tensor<T>, x: nat, y: nat)
    requires Read(src, MetaName(Output, -1, -1), 0, 1) == Ok(t) && |t.shape| == 2
    requires x < t.shape[1] && y < Keep(t.shape[0], vocab)
    ensures Logits(src, vocab).Ok?
    ensures Logits(src, vocab).value.shape == [t.shape[1], Keep(t.shape[0], vocab)]
    ensures At(Logits(src, vocab).value, [x, y]) == At(t, [y, x])
  {
    TransposeAllMatrix(t, x, y);
    var u := TransposeAll(t);
    assert u.shape[1 := Keep(u.shape[1], vocab)] == [t.shape[1], Keep(t.shape[0], vocab)];
    SliceAxisAt(u, 1, vocab, [x, y]);
  }

  /** `token_embedder.embedding`.  For the Llama 3 sizes the table is joined
      on its vocabulary axis and kept whole; otherwise it is joined on the
      embedding axis and cut to the first `vocab` rows (`[:v, :]` needs two
      axes). */
  function Embedding<T>(src: Source<T>, modelSize: string, vocab: nat): (r: Result<Tensor<T>>)
    ensures r.Ok? ==> Valid(r.value)
  {
    var key := MetaName(TokEmbeddings, -1, -1);
    if IsLlama3(modelSize) then Read(src, key, 0, 1)
    else
      var t :- Read(src, key, 1, 1);
      if |t.shape| < 2 then Err(ShapeMismatch) else SliceAxis(t, 0, vocab)
  }

  /** A Llama 3 table is never cut: the embedding is the table read on the
      vocabulary axis, whatever the vocabulary of the model row. */
  lemma EmbeddingWhole<T>(src: Source<T>, modelSize: string, vocab: nat, t: Tensor<T>)
    requires IsLlama3(modelSize) && Read(src, MetaName(TokEmbeddings, -1, -1), 0, 1) == Ok(t)
    ensures Embedding(src, modelSize, vocab) == Ok(t)
    ensures Embedding(src, modelSize, vocab) == Embedding(src, modelSize, vocab + 1)
  {
  }

  /** Any other table keeps the same element at every index below the
      vocabulary cut, and its rows beyond the vocabulary are dropped. */
  lemma EmbeddingCut<T>(src: Source<T>, modelSize: string, vocab: nat, t: Tensor<T>, j: Index)
    requires !IsLlama3(modelSize) && Read(src, MetaName(TokEmbeddings, -1, -1), 1, 1) == Ok(t)
    requires |t.shape| >= 2 && InBounds(t.shape[0 := Keep(t.shape[0], vocab)], j)
    ensures Embedding(src, modelSize, vocab).Ok?
    ensures Embedding(src, modelSize, vocab).value.shape == t.shape[0 := Keep(t.shape[0], vocab)]
    ensures Embedding(src, modelSize, vocab).value.shape[0] <= vocab
    ensures InBounds(t.shape, j) && At(Embedding(src, modelSize, vocab).value, j) == At(t, j)
  {
    SliceAxisAt(t, 0, vocab, j);
  }

  /** A table of rank below two is refused on the cutting path. */
  lemma EmbeddingFlat<T>(src: Source<T>, modelSize: string, vocab: nat, t: Tensor<T>)
    requires !IsLlama3(modelSize) && Read(src, MetaName(TokEmbeddings, -1, -1), 1, 1) == Ok(t)
    requires |t.shape| < 2
    ensures Embedding(src, modelSize, vocab) == Err(ShapeMismatch)
  {
  }

  // ---------------------------------------------------------------------
  // The stacked layer weights

  /** The feed-forward block: `mlp` when the model row has no expert count,
      `MoeBlock_0` otherwise. */
  function MlpStacks<T>(src: Source<T>, c: ModelConfig): (r: Result<Mlp<T>>)
    ensures r.Ok? ==> c.numLayers > 0 && (r.value.DenseMlp? <==> c.numExperts.None?)
    ensures c.numExperts == Some(0) ==> r.Err?
  {
    match c.numExperts
    case None => DenseStacks(src, c.numLayers)
    case Some(e) => MoeStacks(src, c.numLayers, e)
  }

  /** The converted tree: the decoder norm, the logits kernel, the token
      embedding, the attention stacks, the norm stacks and the feed-forward
      stacks, in that order; the first step that raises decides the error. */
  function Convert<T>(src: Source<T>, c: ModelConfig, modelSize: string, scale: T -> T): (r: Result<Weights<T>>)
    ensures r.Ok? ==> c.numLayers > 0
  {
    var norm :- DecoderNorm(src);
    var logits :- Logits(src, c.vocab);
    var embedding :- Embedding(src, modelSize, c.vocab);
    var attention :- AttentionStacks(src, c, modelSize, scale);
    var norms :- NormStacks(src, c.numLayers);
    var mlp :- MlpStacks(src, c);
    Ok(Weights(norm, logits, embedding, attention, norms.0, norms.1, mlp))
  }

  /** A converted tree is well formed: every array is valid, the attention
      kernels have the model row's shapes, and the feed-forward block is the
      dense one exactly for rows without an expert count. */
  lemma ConvertShapes<T>(src: Source<T>, c: ModelConfig, modelSize: string, scale: T -> T, w: Weights<T>)
    requires Convert(src, c, modelSize, scale) == Ok(w)
    ensures c.numLayers > 0
    ensures Valid(w.decoderNorm) && Valid(w.logits) && Valid(w.embedding)
    ensures StacksShaped(c, c.numLayers, w.attention)
    ensures Valid(w.preNorm) && Valid(w.postNorm)
    ensures w.mlp.DenseMlp? <==> c.numExperts.None?
  {
    ConvertFields(src, c, modelSize, scale, w);
  }

  /** Each entry of a converted tree is what its own step produced, so every
      property of a step carries over to the tree. */
  lemma ConvertFields<T>(src: Source<T>, c: ModelConfig, modelSize: string, scale: T -> T, w: Weights<T>)
    requires Convert(src, c, modelSize, scale) == Ok(w)
    ensures DecoderNorm(src) == Ok(w.decoderNorm)
    ensures Logits(src, c.vocab) == Ok(w.logits)
    ensures Embedding(src, modelSize, c.vocab) == Ok(w.embedding)
    ensures AttentionStacks(src, c, modelSize, scale) == Ok(w.attention)
    ensures NormStacks(src, c.numLayers) == Ok((w.preNorm, w.postNorm))
    ensures MlpStacks(src, c) == Ok(w.mlp)
  {
    var norm := DecoderNorm(src);
    var logits := Logits(src, c.vocab);
    var embedding := Embedding(src, modelSize, c.vocab);
    var attention := AttentionStacks(src, c, modelSize, scale);
    var norms := NormStacks(src, c.numLayers);
    var mlp := MlpStacks(src, c);
    assert norm.Ok? && logits.Ok? && embedding.Ok? && attention.Ok? && norms.Ok? && mlp.Ok?;
    assert w == Weights(norm.value, logits.value, embedding.value, attention.value, norms.value.0, norms.value.1, mlp.value);
  }

  /** The conversion succeeds exactly when every step does. */
  lemma ConvertOk<T>(src: Source<T>, c: ModelConfig, modelSize: string, scale: T -> T)
    ensures Convert(src, c, modelSize, scale).Ok? <==>
      && DecoderNorm(src).Ok? && Logits(src, c.vocab).Ok? && Embedding(src, modelSize, c.vocab).Ok?
      && AttentionStacks(src, c, modelSize, scale).Ok? && NormStacks(src, c.numLayers).Ok? && MlpStacks(src, c).Ok?
  {
  }

  /** A failing step reports its error only when every earlier step succeeded:
      the steps run in the order decoder norm, logits, embedding, attention,
      norms, feed-forward. */
  lemma ConvertFirstError<T>(src: Source<T>, c: ModelConfig, modelSize: string, scale: T -> T)
    ensures DecoderNorm(src).Err? ==> Convert(src, c, modelSize, scale) == Err(DecoderNorm(src).error)
    ensures (DecoderNorm(src).Ok? && Logits(src, c.vocab).Err?) ==>
      Convert(src, c, modelSize, scale) == Err(Logits(src, c.vocab).error)
    ensures (DecoderNorm(src).Ok? && Logits(src, c.vocab).Ok? && Embedding(src, modelSize, c.vocab).Err?) ==>
      Convert(src, c, modelSize, scale) == Err(Embedding(src, modelSize, c.vocab).error)
    ensures (DecoderNorm(src).Ok? && Logits(src, c.vocab).Ok? && Embedding(src, modelSize, c.vocab).Ok?
             && AttentionStacks(src, c, modelSize, scale).Err?) ==>
      Convert(src, c, modelSize, scale) == Err(AttentionStacks(src, c, modelSize, scale).error)
    ensures (DecoderNorm(src).Ok? && Logits(src, c.vocab).Ok? && Embedding(src, modelSize, c.vocab).Ok?
             && AttentionStacks(src, c, modelSize, scale).Ok? && NormStacks(src, c.numLayers).Err?) ==>
      Convert(src, c, modelSize, scale) == Err(NormStacks(src, c.numLayers).error)
    ensures (DecoderNorm(src).Ok? && Logits(src, c.vocab).Ok? && Embedding(src, modelSize, c.vocab).Ok?
             && AttentionStacks(src, c, modelSize, scale).Ok? && NormStacks(src, c.numLayers).Ok?
             && MlpStacks(src, c).Err?) ==>
      Convert(src, c, modelSize, scale) == Err(MlpStacks(src, c).error)
  {
  }

  /** A sharded checkpoint without files stops at the decoder norm. */
  lemma ConvertNoShards<T>(c: ModelConfig, modelSize: string, scale: T -> T)
    ensures Convert(Sharded([]), c, modelSize, scale) == Err(NoShards)
  {
  }

  // ---------------------------------------------------------------------
  // The entry point

  /** What the converter is pointed at: the `*.pth` files of a PyTorch
      checkpoint (name and collection, in sorted name order), or the tensors
      of a HuggingFace checkpoint already renamed to the Meta-style names. */
  datatype Stored<T> =
    | PytorchFiles(files: seq<(string, map<string, Tensor<T>>)>)
    | HuggingFace(dict: map<string, Tensor<T>>)

  /** Each collection of a PyTorch checkpoint seen through the namespace adapter. */
  function Adapted<T>(shards: seq<map<string, Tensor<T>>>): (r: seq<Shard<T>>)
    ensures |r| == |shards|
  {
    seq(|shards|, i requires 0 <= i < |shards| => var m := shards[i]; (k: string) => Mapper(m, '.').Get(k))
  }

  /** A key of a shard resolves through the adapter: the literal key first,
      then the key's HuggingFace name. */
  lemma AdaptedGet<T>(shards: seq<map<string, Tensor<T>>>, i: nat, key: string)
    requires i < |shards|
    ensures Adapted(shards)[i](key) == Mapper(shards[i], '.').Get(key)
    ensures key in shards[i] ==> Adapted(shards)[i](key) == Ok(shards[i][key])
  {
  }

  /** The checkpoint as the converter reads it. */
  function SourceOf<T>(st: Stored<T>): (r: Result<Source<T>>)
    ensures st.HuggingFace? ==> r == Ok(Single(st.dict))
    ensures st.PytorchFiles? ==> (r.Ok? <==> OrderedShards(st.files).Ok?)
    ensures st.PytorchFiles? && r.Ok? ==> r.value.Sharded? && |r.value.parts| == |OrderedShards(st.files).value|
  {
    match st
    case HuggingFace(dict) => Ok(Single(dict))
    case PytorchFiles(files) =>
      var shards :- OrderedShards(files);
      Ok(Sharded(Adapted(shards)))
  }

  /** `convert_to_jax_weights`: the model row of the size, then the PyTorch
      or the HuggingFace conversion. */
  function ConvertedWeights<T>(modelSize: string, st: Stored<T>, scale: T -> T): (r: Result<Weights<T>>)
    ensures modelSize !in ModelTable ==> r == Err(UnknownModel(modelSize))
    ensures r.Ok? ==> modelSize in ModelTable
  {
    var c :- LookupModel(modelSize);
    var src :- SourceOf(st);
    Convert(src, c, modelSize, scale)
  }

  /** A converted tree of a known size has that row's attention shapes and
      feed-forward kind. */
  lemma ConvertedShapes<T>(modelSize: string, st: Stored<T>, scale: T -> T, w: Weights<T>)
    requires ConvertedWeights(modelSize, st, scale) == Ok(w)
    ensures modelSize in ModelTable
    ensures StacksShaped(ModelTable[modelSize], ModelTable[modelSize].numLayers, w.attention)
    ensures w.mlp.DenseMlp? <==> ModelTable[modelSize].numExperts.None?
  {
    var src := SourceOf(st).value;
    ConvertShapes(src, ModelTable[modelSize], modelSize, scale, w);
  }

  /** A PyTorch file whose name carries no shard number stops the
      conversion of a known model size before any tensor is read. */
  lemma BadShardNameStops<T>(modelSize: string, files: seq<(string, map<string, Tensor<T>>)>, i: nat, scale: T -> T)
    requires modelSize in ModelTable && i < |files| && ShardIndex(files[i].0).Err?
    ensures ConvertedWeights(modelSize, PytorchFiles(files), scale).Err?
  {
  }

  /** A HuggingFace checkpoint of a known size is converted as a single collection. */
  lemma HuggingFaceConverts<T>(modelSize: string, dict: map<string, Tensor<T>>, scale: T -> T)
    requires modelSize in ModelTable
    ensures ConvertedWeights(modelSize, HuggingFace(dict), scale) == Convert(Single(dict), ModelTable[modelSize], modelSize, scale)
  {
  }

  // ---------------------------------------------------------------------
  // The conversion as the program runs it: loops over zero-allocated
  // accumulators, then the final reordering

  method AttentionStage<T>(src: Source<T>, c: ModelConfig, modelSize: string, scale: T -> T, zero: T)
    returns (r: Result<Attention<T>>)
    ensures r == AttentionStacks(src, c, modelSize, scale)
  {
    var st := StackLayers(AttentionOf(src, c, modelSize), c.numLayers, zero);
    if st.Err? {
      return Err(st.error);
    }
    if st.value.None? {
      return Err(ShapeMismatch);
    }
    AttentionStackShapes(src, c, modelSize, st.value.value);
    AttentionFinalShapes(c, c.numLayers, st.value.value, scale);
    r := AttentionFinal(st.value.value, scale);
  }

  method NormStage<T>(src: Source<T>, n: nat, zero: T) returns (r: Result<(Tensor<T>, Tensor<T>)>)
    ensures r == NormStacks(src, n)
  {
    var st := StackLayers(NormOf(src), n, zero);
    if st.Err? {
      return Err(st.error);
    }
    if st.value.None? {
      return Err(ShapeMismatch);
    }
    NormStacksParts(src, n, st.value.value);
    r := NormFinal(st.value.value);
  }

  method MlpStage<T>(src: Source<T>, c: ModelConfig, zero: T) returns (r: Result<Mlp<T>>)
    ensures r == MlpStacks(src, c)
  {
    if c.numExperts.None? {
      var st := StackLayers(DenseOf(src), c.numLayers, zero);
      if st.Err? {
        return Err(st.error);
      }
      if st.value.None? {
        return Err(ShapeMismatch);
      }
      DenseStacksParts(src, c.numLayers, st.value.value);
      r := DenseFinal(st.value.value);
    } else {
      var e := c.numExperts.value;
      var st := MoeLoop(GateOf(src), ExpertOf(src), c.numLayers, e, zero);
      if st.Err? {
        return Err(st.error);
      }
      if c.numLayers == 0 {
        return Err(ShapeMismatch);
      }
      MoeStackedFacts(src, c.numLayers, e);
      r := MoeFinal(st.value.0, st.value.1);
    }
  }

  /** One pass of the converter over a checkpoint: each step in turn, each
      layer loop filling its accumulators in place. */
  method ConvertSource<T>(src: Source<T>, c: ModelConfig, modelSize: string, scale: T -> T, zero: T)
    returns (r: Result<Weights<T>>)
    ensures r == Convert(src, c, modelSize, scale)
  {
    var norm := DecoderNorm(src);
    if norm.Err? {
      return Err(norm.error);
    }
    var logits := Logits(src, c.vocab);
    if logits.Err? {
      return Err(logits.error);
    }
    var embedding := Embedding(src, modelSize, c.vocab);
    if embedding.Err? {
      return Err(embedding.error);
    }
    var attention := AttentionStage(src, c, modelSize, scale, zero);
    if attention.Err? {
      return Err(attention.error);
    }
    var norms := NormStage(src, c.numLayers, zero);
    if norms.Err? {
      return Err(norms.error);
    }
    var mlp := MlpStage(src, c, zero);
    if mlp.Err? {
      return Err(mlp.error);
    }
    r := Ok(Weights(norm.value, logits.value, embedding.value, attention.value, norms.value.0, norms.value.1, mlp.value));
  }

  /** `convert_to_jax_weights` as it runs: look the size up, load and order
      the PyTorch shard files with the loading loop, then convert. */
  method ConvertToJaxWeights<T>(modelSize: string, st: Stored<T>, scale: T -> T, zero: T) returns (r: Result<Weights<T>>)
    ensures r == ConvertedWeights(modelSize, st, scale)
  {
    var c := LookupModel(modelSize);
    if c.Err? {
      return Err(c.error);
    }
    var src: Source<T>;
    match st {
      case HuggingFace(dict) =>
        src := Single(dict);
      case PytorchFiles(files) =>
        var shards := OrderShards(files);
        if shards.Err? {
          return Err(shards.error);
        }
        src := Sharded(Adapted(shards.value));
    }
    assert SourceOf(st) == Ok(src);
    r := ConvertSource(src, c.value, modelSize, scale, zero);
  }
}
