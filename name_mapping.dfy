/** The two weight-name tables: `_hf_mapping` (Meta-style name to HuggingFace
    name) and `_hf_to_maxtext_mapping` (the reverse direction), both built for
    one layer index and one expert index.  Every entry is one `Param`; its two
    names are dotted field lists in which the layer and expert indices appear
    as decimal fields. */
module NameMapping {
  import opened Results
  import opened Strings

  /** The four attention projections. */
  datatype Proj = Q | K | V | O

  /** The three feed-forward matrices, in Meta's naming. */
  datatype Ffn = W1 | W2 | W3

  /** The two low-rank factors of a LoRA adapter. */
  datatype Factor = A | B

  /** One entry kind of the tables. */
  datatype Param =
    | TokEmbeddings
    | Norm
    | Output
    | AttentionNorm
    | FfnNorm
    | Attn(proj: Proj)
    | RotaryInvFreq
    | Gate
    | Expert(ffn: Ffn)
    | Dense(ffn: Ffn)
    | Lora(proj: Proj, factor: Factor)

  // ---------------------------------------------------------------------
  // Field spellings

  function MetaProj(p: Proj): string
  {
    match p
    case Q => "wq"
    case K => "wk"
    case V => "wv"
    case O => "wo"
  }

  function ProjFromMeta(s: string): (r: Option<Proj>)
    ensures r.Some? ==> MetaProj(r.value) == s
  {
    if s == "wq" then Some(Q) else if s == "wk" then Some(K)
    else if s == "wv" then Some(V) else if s == "wo" then Some(O) else None
  }

  function HfProj(p: Proj): string
  {
    match p
    case Q => "q_proj"
    case K => "k_proj"
    case V => "v_proj"
    case O => "o_proj"
  }

  function ProjFromHf(s: string): (r: Option<Proj>)
    ensures r.Some? ==> HfProj(r.value) == s
  {
    if s == "q_proj" then Some(Q) else if s == "k_proj" then Some(K)
    else if s == "v_proj" then Some(V) else if s == "o_proj" then Some(O) else None
  }

  function FfnField(w: Ffn): string
  {
    match w
    case W1 => "w1"
    case W2 => "w2"
    case W3 => "w3"
  }

  function FfnFromField(s: string): (r: Option<Ffn>)
    ensures r.Some? ==> FfnField(r.value) == s
  {
    if s == "w1" then Some(W1) else if s == "w2" then Some(W2) else if s == "w3" then Some(W3) else None
  }

  /** HuggingFace's names for the dense feed-forward matrices. */
  function HfDense(w: Ffn): string
  {
    match w
    case W1 => "gate_proj"
    case W2 => "down_proj"
    case W3 => "up_proj"
  }

  function DenseFromHf(s: string): (r: Option<Ffn>)
    ensures r.Some? ==> HfDense(r.value) == s
  {
    if s == "gate_proj" then Some(W1) else if s == "down_proj" then Some(W2)
    else if s == "up_proj" then Some(W3) else None
  }

  function FactorField(f: Factor): string
  {
    match f
    case A => "lora_A"
    case B => "lora_B"
  }

  function FactorFromField(s: string): (r: Option<Factor>)
    ensures r.Some? ==> FactorField(r.value) == s
  {
    if s == "lora_A" then Some(A) else if s == "lora_B" then Some(B) else None
  }

  lemma SpellingsRoundTrip(p: Proj, w: Ffn, f: Factor)
    ensures ProjFromMeta(MetaProj(p)) == Some(p) && ProjFromHf(HfProj(p)) == Some(p)
    ensures FfnFromField(FfnField(w)) == Some(w) && DenseFromHf(HfDense(w)) == Some(w)
    ensures FactorFromField(FactorField(f)) == Some(f)
  {
  }

  // ---------------------------------------------------------------------
  // The two names of every entry

  /** The Meta-style (PyTorch checkpoint) name, as a list of dotted fields. */
  function MetaFields(p: Param, layer: int, expert: int): seq<string>
  {
    var l := IntToString(layer);
    match p
    case TokEmbeddings => ["tok_embeddings", "weight"]
    case Norm => ["norm", "weight"]
    case Output => ["output", "weight"]
    case AttentionNorm => ["layers", l, "attention_norm", "weight"]
    case FfnNorm => ["layers", l, "ffn_norm", "weight"]
    case Attn(q) => ["layers", l, "attention", MetaProj(q), "weight"]
    case RotaryInvFreq => ["layers", l, "attention", "rotary_emb", "inv_freq"]
    case Gate => ["layers", l, "feed_forward", "gate", "weight"]
    case Expert(w) => ["layers", l, "feed_forward", "experts", IntToString(expert), FfnField(w), "weight"]
    case Dense(w) => ["layers", l, "feed_forward", FfnField(w), "weight"]
    case Lora(q, f) => ["layers", l, "attention", MetaProj(q), FactorField(f), "weights"]
  }

  /** The HuggingFace name, as a list of dotted fields. */
  function HfFields(p: Param, layer: int, expert: int): seq<string>
  {
    var l := IntToString(layer);
    match p
    case TokEmbeddings => ["model", "embed_tokens", "weight"]
    case Norm => ["model", "norm", "weight"]
    case Output => ["lm_head", "weight"]
    case AttentionNorm => ["model", "layers", l, "input_layernorm", "weight"]
    case FfnNorm => ["model", "layers", l, "post_attention_layernorm", "weight"]
    case Attn(q) => ["model", "layers", l, "self_attn", HfProj(q), "weight"]
    case RotaryInvFreq => ["model", "layers", l, "self_attn", "rotary_emb", "inv_freq"]
    case Gate => ["model", "layers", l, "block_sparse_moe", "gate", "weight"]
    case Expert(w) =>
      ["model", "layers", l, "block_sparse_moe", "experts", IntToString(expert), FfnField(w), "weight"]
    case Dense(w) => ["model", "layers", l, "mlp", HfDense(w), "weight"]
    case Lora(q, f) =>
      ["base_model", "model", "model", "layers", l, "self_attn", HfProj(q), FactorField(f), "weight"]
  }

  function MetaName(p: Param, layer: int, expert: int): string
  {
    Dotted(MetaFields(p, layer, expert))
  }

  function HfName(p: Param, layer: int, expert: int): string
  {
    Dotted(HfFields(p, layer, expert))
  }

  /** Which indices a name spells out: the layer for all per-layer entries, the
      expert only for expert entries. */
  predicate UsesLayer(p: Param)
  {
    !(p.TokEmbeddings? || p.Norm? || p.Output?)
  }

  /** No field of either name contains the delimiter, so the fields can be read back. */
  lemma FieldsHaveNoDot(p: Param, l: int, e: int)
    ensures |MetaFields(p, l, e)| >= 2 && NoDelimiter(MetaFields(p, l, e), '.')
    ensures |HfFields(p, l, e)| >= 2 && NoDelimiter(HfFields(p, l, e), '.')
  {
    IntToStringHasNoDot(l);
    IntToStringHasNoDot(e);
    SpellingsHaveNoDot();
    MetaFieldsHaveNoDot(p, l, e);
    HfFieldsHaveNoDot(p, l, e);
  }

  lemma SpellingsHaveNoDot()
    ensures forall q :: '.' !in MetaProj(q) && '.' !in HfProj(q)
    ensures forall w :: '.' !in FfnField(w) && '.' !in HfDense(w)
    ensures forall f :: '.' !in FactorField(f)
  {
    forall q ensures '.' !in MetaProj(q) && '.' !in HfProj(q) {
      match q
      case Q => case K => case V => case O =>
    }
    forall w ensures '.' !in FfnField(w) && '.' !in HfDense(w) {
      match w
      case W1 => case W2 => case W3 =>
    }
  }

  lemma MetaLiteralsHaveNoDotPart1()
    ensures '.' !in "attention" && '.' !in "attention_norm" && '.' !in "experts" && '.' !in "feed_forward"
    ensures '.' !in "ffn_norm" && '.' !in "gate" && '.' !in "inv_freq"
  {
  }

  lemma MetaLiteralsHaveNoDotPart2()
    ensures '.' !in "layers" && '.' !in "norm" && '.' !in "output" && '.' !in "rotary_emb"
    ensures '.' !in "tok_embeddings" && '.' !in "weight" && '.' !in "weights"
  {
  }

  lemma HfLiteralsHaveNoDotPart1()
    ensures '.' !in "base_model" && '.' !in "block_sparse_moe" && '.' !in "embed_tokens" && '.' !in "experts"
    ensures '.' !in "gate" && '.' !in "input_layernorm" && '.' !in "inv_freq" && '.' !in "layers"
  {
  }

  lemma HfLiteralsHaveNoDotPart2()
    ensures '.' !in "lm_head" && '.' !in "mlp" && '.' !in "model" && '.' !in "norm"
    ensures '.' !in "post_attention_layernorm" && '.' !in "rotary_emb" && '.' !in "self_attn" && '.' !in "weight"
  {
  }

  lemma MetaFieldsHaveNoDot(p: Param, l: int, e: int)
    requires '.' !in IntToString(l) && '.' !in IntToString(e)
    requires forall q :: '.' !in MetaProj(q)
    requires forall w :: '.' !in FfnField(w)
    requires forall f :: '.' !in FactorField(f)
    ensures |MetaFields(p, l, e)| >= 2 && NoDelimiter(MetaFields(p, l, e), '.')
  {
    MetaLiteralsHaveNoDotPart1();
    MetaLiteralsHaveNoDotPart2();
  }

  lemma HfFieldsHaveNoDot(p: Param, l: int, e: int)
    requires '.' !in IntToString(l) && '.' !in IntToString(e)
    requires forall q :: '.' !in HfProj(q)
    requires forall w :: '.' !in FfnField(w) && '.' !in HfDense(w)
    requires forall f :: '.' !in FactorField(f)
    ensures |HfFields(p, l, e)| >= 2 && NoDelimiter(HfFields(p, l, e), '.')
  {
    HfLiteralsHaveNoDotPart1();
    HfLiteralsHaveNoDotPart2();
  }

  // ---------------------------------------------------------------------
  // Reading the entry kind back from the fields

  /** The entry whose Meta-style name has these fields, if any. */
  function MetaParam(fs: seq<string>): Option<Param>
  {
    if |fs| == 2 then
      if fs[1] != "weight" then None
      else if fs[0] == "tok_embeddings" then Some(TokEmbeddings)
      else if fs[0] == "norm" then Some(Norm)
      else if fs[0] == "output" then Some(Output)
      else None
    else if |fs| < 4 || fs[0] != "layers" then None
    else if |fs| == 4 then
      if fs[3] != "weight" then None
      else if fs[2] == "attention_norm" then Some(AttentionNorm)
      else if fs[2] == "ffn_norm" then Some(FfnNorm)
      else None
    else if |fs| == 5 then
      if fs[2] == "attention" then
        if fs[3] == "rotary_emb" && fs[4] == "inv_freq" then Some(RotaryInvFreq)
        else if fs[4] == "weight" && ProjFromMeta(fs[3]).Some? then Some(Attn(ProjFromMeta(fs[3]).value))
        else None
      else if fs[2] == "feed_forward" && fs[4] == "weight" then
        if fs[3] == "gate" then Some(Gate)
        else if FfnFromField(fs[3]).Some? then Some(Dense(FfnFromField(fs[3]).value))
        else None
      else None
    else if |fs| == 6 then
      if fs[2] == "attention" && fs[5] == "weights" && ProjFromMeta(fs[3]).Some? && FactorFromField(fs[4]).Some?
      then Some(Lora(ProjFromMeta(fs[3]).value, FactorFromField(fs[4]).value))
      else None
    else if |fs| == 7 then
      if fs[2] == "feed_forward" && fs[3] == "experts" && fs[6] == "weight" && FfnFromField(fs[5]).Some?
      then Some(Expert(FfnFromField(fs[5]).value))
      else None
    else None
  }

  /** The entry whose HuggingFace name has these fields, if any. */
  function HfParam(fs: seq<string>): Option<Param>
  {
    if |fs| == 2 then
      if fs == ["lm_head", "weight"] then Some(Output) else None
    else if |fs| == 3 then
      if fs[0] != "model" || fs[2] != "weight" then None
      else if fs[1] == "embed_tokens" then Some(TokEmbeddings)
      else if fs[1] == "norm" then Some(Norm)
      else None
    else if |fs| == 9 then
      if fs[0] == "base_model" && fs[1] == "model" && fs[2] == "model" && fs[3] == "layers"
         && fs[5] == "self_attn" && fs[8] == "weight"
         && ProjFromHf(fs[6]).Some? && FactorFromField(fs[7]).Some?
      then Some(Lora(ProjFromHf(fs[6]).value, FactorFromField(fs[7]).value))
      else None
    else if |fs| < 5 || fs[0] != "model" || fs[1] != "layers" then None
    else if |fs| == 5 then
      if fs[4] != "weight" then None
      else if fs[3] == "input_layernorm" then Some(AttentionNorm)
      else if fs[3] == "post_attention_layernorm" then Some(FfnNorm)
      else None
    else if |fs| == 6 then
      if fs[3] == "self_attn" then
        if fs[4] == "rotary_emb" && fs[5] == "inv_freq" then Some(RotaryInvFreq)
        else if fs[5] == "weight" && ProjFromHf(fs[4]).Some? then Some(Attn(ProjFromHf(fs[4]).value))
        else None
      else if fs[3] == "block_sparse_moe" && fs[4] == "gate" && fs[5] == "weight" then Some(Gate)
      else if fs[3] == "mlp" && fs[5] == "weight" && DenseFromHf(fs[4]).Some? then Some(Dense(DenseFromHf(fs[4]).value))
      else None
    else if |fs| == 8 then
      if fs[3] == "block_sparse_moe" && fs[4] == "experts" && fs[7] == "weight" && FfnFromField(fs[6]).Some?
      then Some(Expert(FfnFromField(fs[6]).value))
      else None
    else None
  }

  lemma MetaParamOfFields(p: Param, l: int, e: int)
    ensures MetaParam(MetaFields(p, l, e)) == Some(p)
  {
    match p
    case Attn(q) => SpellingsRoundTrip(q, W1, A);
    case Expert(w) => SpellingsRoundTrip(Q, w, A); MetaParamOfExpertFields(w, l, e);
    case Dense(w) => SpellingsRoundTrip(Q, w, A);
    case Lora(q, f) => SpellingsRoundTrip(q, W1, f); MetaParamOfLoraFields(q, f, l, e);
    case _ =>
  }

  lemma MetaParamOfExpertFields(w: Ffn, l: int, e: int)
    requires FfnFromField(FfnField(w)) == Some(w)
    ensures MetaParam(MetaFields(Expert(w), l, e)) == Some(Expert(w))
  {
  }

  lemma MetaParamOfLoraFields(q: Proj, f: Factor, l: int, e: int)
    requires ProjFromMeta(MetaProj(q)) == Some(q) && FactorFromField(FactorField(f)) == Some(f)
    ensures MetaParam(MetaFields(Lora(q, f), l, e)) == Some(Lora(q, f))
  {
  }

  lemma HfParamOfFields(p: Param, l: int, e: int)
    ensures HfParam(HfFields(p, l, e)) == Some(p)
  {
    match p
    case Attn(q) => SpellingsRoundTrip(q, W1, A);
    case Expert(w) => SpellingsRoundTrip(Q, w, A); HfParamOfExpertFields(w, l, e);
    case Dense(w) => SpellingsRoundTrip(Q, w, A);
    case Lora(q, f) => SpellingsRoundTrip(q, W1, f); HfParamOfLoraFields(q, f, l, e);
    case _ =>
  }

  lemma HfParamOfExpertFields(w: Ffn, l: int, e: int)
    requires FfnFromField(FfnField(w)) == Some(w)
    ensures HfParam(HfFields(Expert(w), l, e)) == Some(Expert(w))
  {
  }

  lemma HfParamOfLoraFields(q: Proj, f: Factor, l: int, e: int)
    requires ProjFromHf(HfProj(q)) == Some(q) && FactorFromField(FactorField(f)) == Some(f)
    ensures HfParam(HfFields(Lora(q, f), l, e)) == Some(Lora(q, f))
  {
  }

  /** The entry kind is recoverable from the Meta-style name alone. */
  lemma MetaNameDetermines(p: Param, l: int, e: int, q: Param, l2: int, e2: int)
    requires MetaName(p, l, e) == MetaName(q, l2, e2)
    ensures p == q && MetaFields(p, l, e) == MetaFields(q, l2, e2)
  {
    FieldsHaveNoDot(p, l, e);
    FieldsHaveNoDot(q, l2, e2);
    DottedInjective(MetaFields(p, l, e), MetaFields(q, l2, e2));
    MetaParamOfFields(p, l, e);
    MetaParamOfFields(q, l2, e2);
  }

  /** The entry kind is recoverable from the HuggingFace name alone. */
  lemma HfNameDetermines(p: Param, l: int, e: int, q: Param, l2: int, e2: int)
    requires HfName(p, l, e) == HfName(q, l2, e2)
    ensures p == q && HfFields(p, l, e) == HfFields(q, l2, e2)
  {
    FieldsHaveNoDot(p, l, e);
    FieldsHaveNoDot(q, l2, e2);
    DottedInjective(HfFields(p, l, e), HfFields(q, l2, e2));
    HfParamOfFields(p, l, e);
    HfParamOfFields(q, l2, e2);
  }

  // ---------------------------------------------------------------------
  // The tables

  /** The entries of `_hf_mapping`: everything except the rotary frequencies. */
  const ForwardParams: set<Param> := {
    TokEmbeddings, Norm, Output, AttentionNorm, FfnNorm,
    Attn(Q), Attn(K), Attn(V), Attn(O),
    Gate, Expert(W1), Expert(W2), Expert(W3),
    Dense(W1), Dense(W2), Dense(W3),
    Lora(Q, A), Lora(Q, B), Lora(K, A), Lora(K, B),
    Lora(V, A), Lora(V, B), Lora(O, A), Lora(O, B)
  }

  /** The entries of `_hf_to_maxtext_mapping`: no LoRA factors, but the rotary frequencies. */
  const ReverseParams: set<Param> := {
    TokEmbeddings, Norm, Output, AttentionNorm, FfnNorm,
    Attn(Q), Attn(K), Attn(V), Attn(O), RotaryInvFreq,
    Gate, Expert(W1), Expert(W2), Expert(W3),
    Dense(W1), Dense(W2), Dense(W3)
  }

  lemma ParamSets(p: Param)
    ensures p in ForwardParams <==> !p.RotaryInvFreq?
    ensures p in ReverseParams <==> !p.Lora?
  {
    match p
    case Attn(q) => match q { case Q => case K => case V => case O => }
    case Expert(w) => match w { case W1 => case W2 => case W3 => }
    case Dense(w) => match w { case W1 => case W2 => case W3 => }
    case Lora(q, f) =>
      match q { case Q => case K => case V => case O => }
      match f { case A => case B => }
    case _ =>
  }

  /** `_hf_mapping(layer_idx, expert_idx)`. */
  function HfMapping(layer: int, expert: int): map<string, string>
  {
    forall p, q | MetaName(p, layer, expert) == MetaName(q, layer, expert)
      ensures p == q
    {
      MetaNameDetermines(p, layer, expert, q, layer, expert);
    }
    map p | p in ForwardParams :: MetaName(p, layer, expert) := HfName(p, layer, expert)
  }

  /** `_hf_to_maxtext_mapping(layer_idx, expert_idx)`. */
  function HfToMaxTextMapping(layer: int, expert: int): map<string, string>
  {
    forall p, q | HfName(p, layer, expert) == HfName(q, layer, expert)
      ensures p == q
    {
      HfNameDetermines(p, layer, expert, q, layer, expert);
    }
    map p | p in ReverseParams :: HfName(p, layer, expert) := MetaName(p, layer, expert)
  }

  /** Every entry of `_hf_mapping` sends its Meta-style name to its HuggingFace name. */
  lemma HfMappingAt(p: Param, l: int, e: int)
    requires p in ForwardParams
    ensures MetaName(p, l, e) in HfMapping(l, e) && HfMapping(l, e)[MetaName(p, l, e)] == HfName(p, l, e)
  {
    HfMappingHas(p, l, e);
    forall q | q in ForwardParams && MetaName(q, l, e) == MetaName(p, l, e) ensures q == p {
      MetaNameDetermines(q, l, e, p, l, e);
    }
  }

  /** Every entry of `_hf_to_maxtext_mapping` sends its HuggingFace name to its Meta-style name. */
  lemma HfToMaxTextAt(p: Param, l: int, e: int)
    requires p in ReverseParams
    ensures HfName(p, l, e) in HfToMaxTextMapping(l, e)
    ensures HfToMaxTextMapping(l, e)[HfName(p, l, e)] == MetaName(p, l, e)
  {
    HfToMaxTextHas(p, l, e);
    forall q | q in ReverseParams && HfName(q, l, e) == HfName(p, l, e) ensures q == p {
      HfNameDetermines(q, l, e, p, l, e);
    }
  }

  lemma HfMappingHas(p: Param, l: int, e: int)
    requires p in ForwardParams
    ensures MetaName(p, l, e) in HfMapping(l, e)
  {
  }

  lemma HfToMaxTextHas(p: Param, l: int, e: int)
    requires p in ReverseParams
    ensures HfName(p, l, e) in HfToMaxTextMapping(l, e)
  {
  }

  /** The keys of `_hf_mapping` are exactly the Meta-style names of its entries. */
  lemma HfMappingKeys(k: string, l: int, e: int)
    ensures k in HfMapping(l, e) <==> exists p :: p in ForwardParams && k == MetaName(p, l, e)
  {
  }

  /** The keys of `_hf_to_maxtext_mapping` are exactly the HuggingFace names of its entries. */
  lemma HfToMaxTextKeys(k: string, l: int, e: int)
    ensures k in HfToMaxTextMapping(l, e) <==> exists p :: p in ReverseParams && k == HfName(p, l, e)
  {
  }

  /** The entry of `_hf_mapping` that has `k` as its key. */
  function ForwardEntry(k: string, l: int, e: int): (p: Param)
    requires k in HfMapping(l, e)
    ensures p in ForwardParams && k == MetaName(p, l, e)
  {
    HfMappingKeys(k, l, e);
    forall p, q | p in ForwardParams && k == MetaName(p, l, e) && q in ForwardParams && k == MetaName(q, l, e)
      ensures p == q
    {
      MetaNameDetermines(p, l, e, q, l, e);
    }
    var p :| p in ForwardParams && k == MetaName(p, l, e);
    p
  }

  /** The entry of `_hf_to_maxtext_mapping` that has `k` as its key. */
  function ReverseEntry(k: string, l: int, e: int): (p: Param)
    requires k in HfToMaxTextMapping(l, e)
    ensures p in ReverseParams && k == HfName(p, l, e)
  {
    HfToMaxTextKeys(k, l, e);
    forall p, q | p in ReverseParams && k == HfName(p, l, e) && q in ReverseParams && k == HfName(q, l, e)
      ensures p == q
    {
      HfNameDetermines(p, l, e, q, l, e);
    }
    var p :| p in ReverseParams && k == HfName(p, l, e);
    p
  }

  // ---------------------------------------------------------------------
  // Properties of the tables

  /** For fixed indices, `_hf_mapping` sends distinct keys to distinct names. */
  lemma HfMappingInjective(l: int, e: int, k1: string, k2: string)
    requires k1 in HfMapping(l, e) && k2 in HfMapping(l, e) && k1 != k2
    ensures HfMapping(l, e)[k1] != HfMapping(l, e)[k2]
  {
    var p1, p2 := ForwardEntry(k1, l, e), ForwardEntry(k2, l, e);
    HfMappingAt(p1, l, e);
    HfMappingAt(p2, l, e);
    if HfMapping(l, e)[k1] == HfMapping(l, e)[k2] {
      HfNameDetermines(p1, l, e, p2, l, e);
    }
  }

  /** For fixed indices, `_hf_to_maxtext_mapping` sends distinct keys to distinct names. */
  lemma HfToMaxTextInjective(l: int, e: int, k1: string, k2: string)
    requires k1 in HfToMaxTextMapping(l, e) && k2 in HfToMaxTextMapping(l, e) && k1 != k2
    ensures HfToMaxTextMapping(l, e)[k1] != HfToMaxTextMapping(l, e)[k2]
  {
    var p1, p2 := ReverseEntry(k1, l, e), ReverseEntry(k2, l, e);
    HfToMaxTextAt(p1, l, e);
    HfToMaxTextAt(p2, l, e);
    if HfToMaxTextMapping(l, e)[k1] == HfToMaxTextMapping(l, e)[k2] {
      MetaNameDetermines(p1, l, e, p2, l, e);
    }
  }

  /** Going forward then back returns the key, exactly for the keys that are
      not LoRA factors; a LoRA factor's HuggingFace name has no way back. */
  lemma ReverseUndoesForward(l: int, e: int, k: string)
    requires k in HfMapping(l, e)
    ensures var hf := HfMapping(l, e)[k];
      && (hf in HfToMaxTextMapping(l, e) <==> !ForwardEntry(k, l, e).Lora?)
      && (hf in HfToMaxTextMapping(l, e) ==> HfToMaxTextMapping(l, e)[hf] == k)
  {
    var p := ForwardEntry(k, l, e);
    HfMappingAt(p, l, e);
    var hf := HfMapping(l, e)[k];
    ParamSets(p);
    if hf in HfToMaxTextMapping(l, e) {
      var q := ReverseEntry(hf, l, e);
      HfNameDetermines(p, l, e, q, l, e);
      HfToMaxTextAt(q, l, e);
    } else if !p.Lora? {
      HfToMaxTextAt(p, l, e);
    }
  }

  /** Going back then forward returns the key, exactly for the keys that are not
      the rotary frequencies; those have no Meta-style counterpart in `_hf_mapping`. */
  lemma ForwardUndoesReverse(l: int, e: int, k: string)
    requires k in HfToMaxTextMapping(l, e)
    ensures var meta := HfToMaxTextMapping(l, e)[k];
      && (meta in HfMapping(l, e) <==> !ReverseEntry(k, l, e).RotaryInvFreq?)
      && (meta in HfMapping(l, e) ==> HfMapping(l, e)[meta] == k)
  {
    var p := ReverseEntry(k, l, e);
    HfToMaxTextAt(p, l, e);
    var meta := HfToMaxTextMapping(l, e)[k];
    ParamSets(p);
    if meta in HfMapping(l, e) {
      var q := ForwardEntry(meta, l, e);
      MetaNameDetermines(p, l, e, q, l, e);
      HfMappingAt(q, l, e);
    } else if !p.RotaryInvFreq? {
      HfMappingAt(p, l, e);
    }
  }

  /** LoRA names occur only in `_hf_mapping`, the rotary frequencies only in
      `_hf_to_maxtext_mapping`, on either side of each table. */
  lemma OneSidedEntries(l: int, e: int, q: Proj, f: Factor)
    ensures MetaName(Lora(q, f), l, e) in HfMapping(l, e)
    ensures HfName(Lora(q, f), l, e) !in HfToMaxTextMapping(l, e)
    ensures MetaName(Lora(q, f), l, e) !in HfToMaxTextMapping(l, e).Values
    ensures HfName(RotaryInvFreq, l, e) in HfToMaxTextMapping(l, e)
    ensures MetaName(RotaryInvFreq, l, e) !in HfMapping(l, e)
    ensures HfName(RotaryInvFreq, l, e) !in HfMapping(l, e).Values
  {
    ParamSets(Lora(q, f));
    ParamSets(RotaryInvFreq);
    HfMappingAt(Lora(q, f), l, e);
    HfToMaxTextAt(RotaryInvFreq, l, e);
    if HfName(Lora(q, f), l, e) in HfToMaxTextMapping(l, e) {
      var p := ReverseEntry(HfName(Lora(q, f), l, e), l, e);
      HfNameDetermines(p, l, e, Lora(q, f), l, e);
    }
    if MetaName(Lora(q, f), l, e) in HfToMaxTextMapping(l, e).Values {
      var k :| k in HfToMaxTextMapping(l, e) && HfToMaxTextMapping(l, e)[k] == MetaName(Lora(q, f), l, e);
      var p := ReverseEntry(k, l, e);
      HfToMaxTextAt(p, l, e);
      MetaNameDetermines(p, l, e, Lora(q, f), l, e);
    }
    if MetaName(RotaryInvFreq, l, e) in HfMapping(l, e) {
      var p := ForwardEntry(MetaName(RotaryInvFreq, l, e), l, e);
      MetaNameDetermines(p, l, e, RotaryInvFreq, l, e);
    }
    if HfName(RotaryInvFreq, l, e) in HfMapping(l, e).Values {
      var k :| k in HfMapping(l, e) && HfMapping(l, e)[k] == HfName(RotaryInvFreq, l, e);
      var p := ForwardEntry(k, l, e);
      HfMappingAt(p, l, e);
      HfNameDetermines(p, l, e, RotaryInvFreq, l, e);
    }
  }
}
