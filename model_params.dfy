/** The model-size table and the rules that pick a layout variant from the
    model-size string. */
module ModelParams {
  import opened Results

  /** One row of the model table; the last three fields exist only for some models. */
  datatype ModelConfig = ModelConfig(
    numLayers: nat,
    numHeads: nat,
    numKvHeads: nat,
    headDim: nat,
    vocab: nat,
    embDim: Option<nat>,
    mlpDim: Option<nat>,
    numExperts: Option<nat>)

  function Llama(layers: nat, heads: nat, kvHeads: nat, vocab: nat): ModelConfig
  {
    ModelConfig(layers, heads, kvHeads, 128, vocab, None, None, None)
  }

  function Mistral(layers: nat, heads: nat, vocab: nat, emb: nat, mlp: nat, experts: Option<nat>): ModelConfig
  {
    ModelConfig(layers, heads, 8, 128, vocab, Some(emb), Some(mlp), experts)
  }

  /** The supported model sizes and their dimensions. */
  const ModelTable: map<string, ModelConfig> := map[
    "llama2-70b" := Llama(80, 64, 8, 32000),
    "llama2-13b" := Llama(40, 40, 40, 32000),
    "llama2-7b" := Llama(32, 32, 32, 32000),
    "llama3-8b" := Llama(32, 32, 8, 128256),
    "llama3-70b" := Llama(80, 64, 8, 128256),
    "llama3.1-8b" := Llama(32, 32, 8, 128256),
    "llama3.1-70b" := Llama(80, 64, 8, 128256),
    "llama3.1-405b" := Llama(126, 128, 8, 128256),
    "llama3.3-70b" := Llama(80, 64, 8, 128256),
    "mistral-7b" := Mistral(32, 32, 32000, 4096, 14336, None),
    "mixtral-8x7b" := Mistral(32, 32, 32000, 4096, 14336, Some(8)),
    "mixtral-8x22b" := Mistral(56, 48, 32768, 6144, 16384, Some(8))
  ]

  /** `MODEL_PARAMS_DICT[model_size]`: an unknown size is a KeyError. */
  function LookupModel(name: string): (r: Result<ModelConfig>)
    ensures r.Ok? <==> name in ModelTable
    ensures r.Ok? ==> r.value == ModelTable[name]
    ensures r.Err? ==> r.error == UnknownModel(name)
  {
    if name in ModelTable then Ok(ModelTable[name]) else Err(UnknownModel(name))
  }

  /** Every row has grouped-query heads that divide the query heads, an even
      head size (the rotary permutation splits it in halves) and a positive
      vocabulary; exactly the Mixtral rows have experts. */
  lemma TableShapes(name: string)
    requires name in ModelTable
    ensures var c := ModelTable[name];
      && c.numKvHeads > 0 && c.numHeads % c.numKvHeads == 0
      && c.headDim % 2 == 0 && c.vocab > 0 && c.numLayers > 0
      && (c.numExperts.Some? <==> name == "mixtral-8x7b" || name == "mixtral-8x22b")
      && (c.numExperts.Some? ==> c.numExperts.value > 0)
  {
  }

  /** Looking up a listed size gives its row; any other size is refused by name. */
  lemma LookupModelTotal(name: string)
    ensures LookupModel(name).Ok? ==> LookupModel(name).value.numLayers > 0
    ensures !LookupModel(name).Ok? <==> LookupModel(name) == Err(UnknownModel(name))
  {
    if name in ModelTable {
      TableShapes(name);
    }
  }

  // ---------------------------------------------------------------------
  // Model-family rules on prefixes of the model size

  /** `s[:n]`: Python keeps the whole string when it is shorter than `n`. */
  function Prefix(s: string, n: nat): (r: string)
    ensures |r| == if n < |s| then n else |s|
    ensures forall i :: 0 <= i < |r| ==> r[i] == s[i]
  {
    if n < |s| then s[..n] else s
  }

  const Llama3Variants: set<string> := {"llama3.1", "llama3.3"}

  /** `model_size[:6] == "llama3"`: the token embedding is kept whole and, for a
      sharded checkpoint, joined on the vocabulary axis. */
  predicate IsLlama3(modelSize: string)
  {
    Prefix(modelSize, 6) == "llama3"
  }

  /** The PyTorch path applies the rotary permutation to the query and key
      kernels unless `model_size[:8]` names a 3.1 or 3.3 release. */
  predicate PytorchPermutes(modelSize: string)
  {
    Prefix(modelSize, 8) !in Llama3Variants
  }

  /** The HuggingFace path applies it exactly for the 3.1 release. */
  predicate HfPermutes(modelSize: string)
  {
    Prefix(modelSize, 8) == "llama3.1"
  }

  /** The 405B checkpoints repeat each key/value shard in two consecutive
      files, so only every second shard is read. */
  function KvStep(modelSize: string): (s: nat)
    ensures s == 1 || s == 2
    ensures s == 2 <==> modelSize == "llama3.1-405b"
  {
    if modelSize == "llama3.1-405b" then 2 else 1
  }

  /** A prefix test only looks at the first characters: any size that starts
      with `p` has `p` as its prefix of that length. */
  lemma PrefixOf(p: string, rest: string)
    ensures Prefix(p + rest, |p|) == p
  {
    assert (p + rest)[..|p|] == p;
  }

  /** Every 3.1 size is permuted by the HuggingFace path and not by the PyTorch
      path; every 3.3 size by neither; every size not starting with "llama3."
      by the PyTorch path only. */
  lemma PermuteRules(modelSize: string)
    ensures |modelSize| >= 8 && modelSize[..8] == "llama3.1" ==>
      HfPermutes(modelSize) && !PytorchPermutes(modelSize)
    ensures |modelSize| >= 8 && modelSize[..8] == "llama3.3" ==>
      !HfPermutes(modelSize) && !PytorchPermutes(modelSize)
    ensures (|modelSize| < 7 || modelSize[..7] != "llama3.") ==>
      !HfPermutes(modelSize) && PytorchPermutes(modelSize)
  {
    var p := Prefix(modelSize, 8);
    if |modelSize| >= 8 {
      assert p == modelSize[..8];
      assert "llama3.3" in Llama3Variants;
    }
    if |modelSize| >= 7 && modelSize[..7] != "llama3." && |p| >= 7 {
      assert p[..7] == modelSize[..7];
      assert "llama3.1"[..7] == "llama3." && "llama3.3"[..7] == "llama3.";
    }
    if |modelSize| < 7 {
      assert |p| < 7;
    }
  }

  /** On the table: the PyTorch path permutes all sizes but the 3.1 and 3.3
      releases, the HuggingFace path only the 3.1 releases, the embedding is
      cut to the vocabulary for all but the Llama 3 sizes, and only the 405B
      size reads every second key/value shard. */
  lemma TableRules(name: string)
    requires name in ModelTable
    ensures PytorchPermutes(name) <==>
      name !in {"llama3.1-8b", "llama3.1-70b", "llama3.1-405b", "llama3.3-70b"}
    ensures HfPermutes(name) <==> name in {"llama3.1-8b", "llama3.1-70b", "llama3.1-405b"}
    ensures IsLlama3(name) <==> name in {"llama3-8b", "llama3-70b", "llama3.1-8b", "llama3.1-70b", "llama3.1-405b", "llama3.3-70b"}
    ensures KvStep(name) == 2 <==> name == "llama3.1-405b"
  {
    if name == "llama2-70b" {
      assert Prefix(name, 6) == "llama2" && Prefix(name, 8) == "llama2-7";
    } else if name == "llama2-13b" {
      assert Prefix(name, 6) == "llama2" && Prefix(name, 8) == "llama2-1";
    } else if name == "llama2-7b" {
      assert Prefix(name, 6) == "llama2" && Prefix(name, 8) == "llama2-7";
    } else if name == "llama3-8b" {
      assert Prefix(name, 6) == "llama3" && Prefix(name, 8) == "llama3-8";
    } else if name == "llama3-70b" {
      assert Prefix(name, 6) == "llama3" && Prefix(name, 8) == "llama3-7";
    } else if name == "llama3.1-8b" {
      assert Prefix(name, 6) == "llama3" && Prefix(name, 8) == "llama3.1";
    } else if name == "llama3.1-70b" {
      assert Prefix(name, 6) == "llama3" && Prefix(name, 8) == "llama3.1";
    } else if name == "llama3.1-405b" {
      assert Prefix(name, 6) == "llama3" && Prefix(name, 8) == "llama3.1";
    } else if name == "llama3.3-70b" {
      assert Prefix(name, 6) == "llama3" && Prefix(name, 8) == "llama3.3";
    } else if name == "mistral-7b" {
      assert Prefix(name, 6) == "mistra" && Prefix(name, 8) == "mistral-";
    } else if name == "mixtral-8x7b" {
      assert Prefix(name, 6) == "mixtra" && Prefix(name, 8) == "mixtral-";
    } else if name == "mixtral-8x22b" {
      assert Prefix(name, 6) == "mixtra" && Prefix(name, 8) == "mixtral-";
    }
  }
}
