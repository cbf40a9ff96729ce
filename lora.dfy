/** The LoRA adapter conversion.  For every layer and, within it, every
    target-module string in order, each projection whose name the string
    contains (`q_proj`, `k_proj`, `v_proj`, `o_proj`, tested in that order)
    has its two factors read, reshaped and written into slot `layer` of that
    projection's accumulators, which are allocated at its first write.
    Afterwards every allocated pair of stacks gets its final axis order; a
    projection no string names keeps both factors `None`. */
module Lora {
  import opened Results
  import opened Strings
  import opened Tensors
  import opened ModelParams
  import opened NameMapping
  import opened Namespace
  import opened Checkpoint
  import opened Heads
  import opened Stacking
  import opened FinalAxes

  /** What the conversion reads from: the adapter's collection (seen through
      the namespace adapter), the adapter rank `r`, and the query head count
      and head size of the model row. */
  datatype Adapter<T> = Adapter(vars: Shard<T>, rank: nat, heads: nat, headDim: nat)

  /** The two factors of one projection, stacked over the layers. */
  datatype LoraKernels<T> = LoraKernels(a: Tensor<T>, b: Tensor<T>)

  /** `decoder.layers.self_attention` of the adapter tree: `None` for a
      projection that was never written. */
  datatype LoraAttention<T> = LoraAttention(
    query: Option<LoraKernels<T>>,
    key: Option<LoraKernels<T>>,
    value: Option<LoraKernels<T>>,
    out: Option<LoraKernels<T>>)

  function Module<T>(w: LoraAttention<T>, p: Proj): Option<LoraKernels<T>>
  {
    match p
    case Q => w.query
    case K => w.key
    case V => w.value
    case O => w.out
  }

  /** The substring of a target-module name that selects each projection. */
  function TargetName(p: Proj): string
  {
    match p
    case Q => "q_proj"
    case K => "k_proj"
    case V => "v_proj"
    case O => "o_proj"
  }

  /** Some target-module string among `targets` names the projection. */
  predicate Targeted(targets: seq<string>, p: Proj)
  {
    exists j :: 0 <= j < |targets| && Contains(targets[j], TargetName(p))
  }

  // ---------------------------------------------------------------------
  // One layer's factors

  function FactorKey(p: Proj, f: Factor, l: nat): string
  {
    MetaName(Lora(p, f), l, -1)
  }

  /** `lora_chkpt_vars[key]` as a well-formed array. */
  function ReadFactor<T>(vars: Shard<T>, key: string): (r: Result<Tensor<T>>)
    ensures r.Ok? ==> Valid(r.value)
    ensures vars(key).Err? ==> r == vars(key)
  {
    var t :- vars(key);
    if Valid(t) then Ok(t) else Err(ShapeMismatch)
  }

  /** The two factors of projection `p` in layer `l` as they go into slot
      `l`: for query, key and value both are transposed and B is split into
      `[r, heads, head_dim]`, with the query head count for all three; for
      out neither is transposed and A is split instead.  A is read first,
      then B, then the split is made. */
  function LoraFactors<T>(ad: Adapter<T>, p: Proj, l: nat): (r: Result<seq<Tensor<T>>>)
    ensures r.Ok? ==> |r.value| == 2 && Valid(r.value[0]) && Valid(r.value[1])
    ensures r.Ok? && p != O ==> r.value[1].shape == [ad.rank, ad.heads, ad.headDim]
    ensures r.Ok? && p == O ==> r.value[0].shape == [ad.rank, ad.heads, ad.headDim]
    ensures ReadFactor(ad.vars, FactorKey(p, A, l)).Err? ==> r.Err?
    ensures ReadFactor(ad.vars, FactorKey(p, B, l)).Err? ==> r.Err?
  {
    var a :- ReadFactor(ad.vars, FactorKey(p, A, l));
    var b :- ReadFactor(ad.vars, FactorKey(p, B, l));
    if p == O then
      var a' :- Reshape(a, [ad.rank, ad.heads, ad.headDim]);
      Ok([a', b])
    else
      var b' :- SplitHeads(b, ad.rank, ad.heads, ad.headDim);
      Ok([TransposeAll(a), b'])
  }

  function LoraOf<T>(ad: Adapter<T>, p: Proj): nat -> Result<seq<Tensor<T>>>
  {
    (l: nat) => LoraFactors(ad, p, l)
  }

  /** Each projection's factors, layer by layer. */
  type Projections<T> = Proj -> nat -> Result<seq<Tensor<T>>>

  function Factors<T>(ad: Adapter<T>): Projections<T>
  {
    (p: Proj) => LoraOf(ad, p)
  }

  /** The factors of a layer in terms of the tensors read. */
  lemma LoraFactorsParts<T>(ad: Adapter<T>, p: Proj, l: nat, a: Tensor<T>)
    requires LoraFactors(ad, p, l).Ok? && ReadFactor(ad.vars, FactorKey(p, A, l)) == Ok(a)
    ensures ReadFactor(ad.vars, FactorKey(p, B, l)).Ok?
    ensures p != O ==> LoraFactors(ad, p, l).value[0] == TransposeAll(a)
    ensures p == O ==> Reshape(a, [ad.rank, ad.heads, ad.headDim]).Ok?
    ensures p == O ==> LoraFactors(ad, p, l).value[0] == Reshape(a, [ad.rank, ad.heads, ad.headDim]).value
    ensures p == O ==> LoraFactors(ad, p, l).value[1] == ReadFactor(ad.vars, FactorKey(p, B, l)).value
    ensures p != O ==> SplitHeads(ReadFactor(ad.vars, FactorKey(p, B, l)).value, ad.rank, ad.heads, ad.headDim).Ok?
    ensures p != O ==> LoraFactors(ad, p, l).value[1] ==
                       SplitHeads(ReadFactor(ad.vars, FactorKey(p, B, l)).value, ad.rank, ad.heads, ad.headDim).value
  {
  }

  // ---------------------------------------------------------------------
  // The loops' first error

  /** What writing layer `l`'s factors raises: a read or split error, or a
      factor whose shape is not exactly that of the slot allocated from
      layer 0. */
  function WriteError<T>(f: nat -> Result<seq<Tensor<T>>>, l: nat): Option<ConvError>
  {
    match f(l)
    case Err(e) => Some(e)
    case Ok(g) => if Fits(g, if l == 0 || f(0).Err? then g else f(0).value) then None else Some(ShapeMismatch)
  }

  /** One of the four substring tests of a target-module string. */
  function CheckWrite<T>(fs: Projections<T>, t: string, p: Proj, l: nat): Option<ConvError>
  {
    if Contains(t, TargetName(p)) then WriteError(fs(p), l) else None
  }

  /** The first error of the four tests of one target-module string. */
  function ModuleError<T>(fs: Projections<T>, t: string, l: nat): Option<ConvError>
  {
    if CheckWrite(fs, t, Q, l).Some? then CheckWrite(fs, t, Q, l)
    else if CheckWrite(fs, t, K, l).Some? then CheckWrite(fs, t, K, l)
    else if CheckWrite(fs, t, V, l).Some? then CheckWrite(fs, t, V, l)
    else CheckWrite(fs, t, O, l)
  }

  /** The first error of layer `l` over the first `j` target-module strings. */
  function LayerError<T>(fs: Projections<T>, targets: seq<string>, l: nat, j: nat): Option<ConvError>
    requires j <= |targets|
  {
    if j == 0 then None
    else if LayerError(fs, targets, l, j - 1).Some? then LayerError(fs, targets, l, j - 1)
    else ModuleError(fs, targets[j - 1], l)
  }

  /** The first error of the layers below `l`. */
  function RunError<T>(fs: Projections<T>, targets: seq<string>, l: nat): Option<ConvError>
  {
    if l == 0 then None
    else if RunError(fs, targets, l - 1).Some? then RunError(fs, targets, l - 1)
    else LayerError(fs, targets, l - 1, |targets|)
  }

  lemma {:induction false} LayerErrorNone<T>(fs: Projections<T>, targets: seq<string>, l: nat, j: nat, i: nat)
    requires j <= |targets| && i < j && LayerError(fs, targets, l, j) == None
    ensures ModuleError(fs, targets[i], l) == None
    decreases j
  {
    if i < j - 1 {
      LayerErrorNone(fs, targets, l, j - 1, i);
    }
  }

  lemma {:induction false} RunErrorNone<T>(fs: Projections<T>, targets: seq<string>, n: nat, l: nat)
    requires l < n && RunError(fs, targets, n) == None
    ensures LayerError(fs, targets, l, |targets|) == None
    decreases n
  {
    if l < n - 1 {
      RunErrorNone(fs, targets, n - 1, l);
    }
  }

  lemma ModuleErrorNone<T>(fs: Projections<T>, t: string, l: nat, p: Proj)
    requires ModuleError(fs, t, l) == None && Contains(t, TargetName(p))
    ensures WriteError(fs(p), l) == None
  {
    assert CheckWrite(fs, t, p, l) == None;
  }

  /** After a run without error, every layer's factors of a named projection
      were read and fit the slots allocated from layer 0. */
  lemma TargetedFits<T>(fs: Projections<T>, targets: seq<string>, n: nat, p: Proj)
    requires RunError(fs, targets, n) == None && Targeted(targets, p)
    ensures AllFit(fs(p), n)
  {
    var j :| 0 <= j < |targets| && Contains(targets[j], TargetName(p));
    var f := fs(p);
    forall l: nat | l < n ensures WriteError(f, l) == None {
      RunErrorNone(fs, targets, n, l);
      LayerErrorNone(fs, targets, l, |targets|, j);
      ModuleErrorNone(fs, targets[j], l, p);
    }
    if n > 0 {
      assert WriteError(f, 0) == None;
    }
    forall l: nat | l < n ensures f(l).Ok? && Fits(f(l).value, f(0).value) {
      assert WriteError(f, l) == None;
    }
  }

  lemma {:induction false} LayerErrPersists<T>(fs: Projections<T>, targets: seq<string>, l: nat, j: nat)
    requires j <= |targets| && LayerError(fs, targets, l, j).Some?
    ensures LayerError(fs, targets, l, |targets|) == LayerError(fs, targets, l, j)
    decreases |targets| - j
  {
    if j < |targets| {
      LayerErrPersists(fs, targets, l, j + 1);
    }
  }

  lemma {:induction false} RunErrPersists<T>(fs: Projections<T>, targets: seq<string>, l: nat, n: nat)
    requires l <= n && RunError(fs, targets, l).Some?
    ensures RunError(fs, targets, n) == RunError(fs, targets, l)
    decreases n - l
  {
    if l < n {
      RunErrPersists(fs, targets, l + 1, n);
    }
  }

  // ---------------------------------------------------------------------
  // The result

  /** The final axis order of a pair of stacks: for query, key and value A
      becomes `[in, layer, r]` and B `[r, layer, heads, head_dim]`; for out
      A becomes `[heads, layer, head_dim, r]` and B `[out, layer, r]`. */
  function LoraFinal<T>(s: seq<Tensor<T>>, p: Proj): (r: Result<LoraKernels<T>>)
    requires |s| == 2 && Valid(s[0]) && Valid(s[1])
    ensures r.Ok? <==> if p == O then |s[0].shape| == 4 && |s[1].shape| == 3
                       else |s[0].shape| == 3 && |s[1].shape| == 4
    ensures r.Ok? && p != O ==> r.value.a.shape == PermShape(s[0].shape, MlpAxes)
                                && r.value.b.shape == PermShape(s[1].shape, QkvAxes)
    ensures r.Ok? && p == O ==> r.value.a.shape == PermShape(s[0].shape, OutAxes)
                                && r.value.b.shape == PermShape(s[1].shape, MlpAxes)
  {
    FinalAxesArePerms();
    if p == O then
      var a :- TransposeAxes(s[0], OutAxes);
      var b :- TransposeAxes(s[1], MlpAxes);
      Ok(LoraKernels(a, b))
    else
      var a :- TransposeAxes(s[0], MlpAxes);
      var b :- TransposeAxes(s[1], QkvAxes);
      Ok(LoraKernels(a, b))
  }

  /** One projection's entry of the tree: `None` unless some string names it
      and there are layers, otherwise its stacks in their final order. */
  function ModuleFinal<T>(ad: Adapter<T>, targets: seq<string>, n: nat, p: Proj): (r: Result<Option<LoraKernels<T>>>)
    ensures r.Ok? && r.value.Some? ==> Targeted(targets, p) && n > 0
    ensures !Targeted(targets, p) || n == 0 ==> r == Ok(None)
  {
    if !Targeted(targets, p) then Ok(None)
    else
      var st :- Stacked(LoraOf(ad, p), n);
      if st.None? then Ok(None)
      else
        StackedShapes(LoraOf(ad, p), n);
        assert LoraOf(ad, p)(0) == LoraFactors(ad, p, 0);
        var k :- LoraFinal(st.value, p);
        Ok(Some(k))
  }

  /** The adapter tree, or the first error of the loops and then of the
      final reordering (query, key, value, out). */
  function LoraWeights<T>(ad: Adapter<T>, targets: seq<string>, n: nat): (r: Result<LoraAttention<T>>)
    ensures RunError(Factors(ad), targets, n).Some? ==> r == Err(RunError(Factors(ad), targets, n).value)
  {
    var err := RunError(Factors(ad), targets, n);
    if err.Some? then Err(err.value)
    else
      var q :- ModuleFinal(ad, targets, n, Q);
      var k :- ModuleFinal(ad, targets, n, K);
      var v :- ModuleFinal(ad, targets, n, V);
      var o :- ModuleFinal(ad, targets, n, O);
      Ok(LoraAttention(q, k, v, o))
  }

  /** `convert_lora_weights_to_jax_weights`: the model row of the size, then
      the adapter's collection seen through the namespace adapter. */
  function ConvertLora<T>(modelSize: string, vars: map<string, Tensor<T>>, rank: nat, targets: seq<string>)
    : (r: Result<LoraAttention<T>>)
    ensures modelSize !in ModelTable ==> r == Err(UnknownModel(modelSize))
  {
    var c :- LookupModel(modelSize);
    LoraWeights(Adapter((k: string) => Mapper(vars, '.').Get(k), rank, c.numHeads, c.headDim), targets, c.numLayers)
  }

  // ---------------------------------------------------------------------
  // What the tree holds

  lemma LoraParts<T>(ad: Adapter<T>, targets: seq<string>, n: nat, w: LoraAttention<T>, p: Proj)
    requires LoraWeights(ad, targets, n) == Ok(w)
    ensures RunError(Factors(ad), targets, n) == None
    ensures ModuleFinal(ad, targets, n, p) == Ok(Module(w, p))
  {
  }

  /** A projection that no target-module string names keeps both factors `None`. */
  lemma LoraUntargeted<T>(ad: Adapter<T>, targets: seq<string>, n: nat, w: LoraAttention<T>, p: Proj)
    requires LoraWeights(ad, targets, n) == Ok(w) && !Targeted(targets, p)
    ensures Module(w, p) == None
  {
    LoraParts(ad, targets, n, w, p);
  }

  /** A projection some string names has both factors once there is a layer. */
  lemma LoraTargeted<T>(ad: Adapter<T>, targets: seq<string>, n: nat, w: LoraAttention<T>, p: Proj)
    requires LoraWeights(ad, targets, n) == Ok(w) && Targeted(targets, p) && n > 0
    ensures Module(w, p).Some?
  {
    LoraParts(ad, targets, n, w, p);
    TargetedFits(Factors(ad), targets, n, p);
    assert Factors(ad)(p) == LoraOf(ad, p);
    StackedOk(LoraOf(ad, p), n);
  }

  /** A conversion that succeeds has read both factors of every named
      projection at every layer. */
  lemma LoraFactorsRead<T>(ad: Adapter<T>, targets: seq<string>, n: nat, p: Proj, l: nat)
    requires LoraWeights(ad, targets, n).Ok? && Targeted(targets, p) && l < n
    ensures ReadFactor(ad.vars, FactorKey(p, A, l)).Ok? && ReadFactor(ad.vars, FactorKey(p, B, l)).Ok?
  {
    TargetedFits(Factors(ad), targets, n, p);
    assert Factors(ad)(p) == LoraOf(ad, p);
    assert LoraOf(ad, p)(l).Ok?;
  }

  /** A named projection's stacks and its entry after a run. */
  lemma ModuleSlots<T>(ad: Adapter<T>, targets: seq<string>, n: nat, w: LoraAttention<T>, p: Proj, l: nat)
    returns (s: seq<Tensor<T>>, k: LoraKernels<T>)
    requires LoraWeights(ad, targets, n) == Ok(w) && Targeted(targets, p) && l < n
    ensures Stacked(LoraOf(ad, p), n) == Ok(Some(s)) && LoraFactors(ad, p, l).Ok?
    ensures LoraOf(ad, p)(l) == LoraFactors(ad, p, l)
    ensures |s| == 2 && Valid(s[0]) && Valid(s[1])
    ensures Module(w, p) == Some(k) && LoraFinal(s, p) == Ok(k)
  {
    LoraParts(ad, targets, n, w, p);
    TargetedFits(Factors(ad), targets, n, p);
    assert Factors(ad)(p) == LoraOf(ad, p);
    StackedOk(LoraOf(ad, p), n);
    s := Stacked(LoraOf(ad, p), n).value.value;
    StackedShapes(LoraOf(ad, p), n);
    assert LoraOf(ad, p)(0) == LoraFactors(ad, p, 0);
    assert LoraOf(ad, p)(l).Ok?;
    k := Module(w, p).value;
  }

  lemma LoraFinalFields<T>(s: seq<Tensor<T>>, p: Proj, k: LoraKernels<T>)
    requires |s| == 2 && Valid(s[0]) && Valid(s[1]) && LoraFinal(s, p) == Ok(k)
    ensures p != O ==> IsPerm(MlpAxes, |s[0].shape|) && k.a == Transpose(s[0], MlpAxes)
    ensures p != O ==> IsPerm(QkvAxes, |s[1].shape|) && k.b == Transpose(s[1], QkvAxes)
    ensures p == O ==> IsPerm(OutAxes, |s[0].shape|) && k.a == Transpose(s[0], OutAxes)
    ensures p == O ==> IsPerm(MlpAxes, |s[1].shape|) && k.b == Transpose(s[1], MlpAxes)
  {
    FinalAxesArePerms();
  }

  /** Slot `l` of a stack whose layers are B factors split into heads. */
  lemma SplitSlotAt<T>(f: nat -> Result<seq<Tensor<T>>>, n: nat, s: seq<Tensor<T>>, l: nat, g: seq<Tensor<T>>, m: nat,
                       b: Tensor<T>, rank: nat, heads: nat, headDim: nat, x: nat, h: nat, d: nat)
    requires Stacked(f, n) == Ok(Some(s)) && l < n && f(l) == Ok(g) && m < |g|
    requires Valid(b) && b.shape == [heads * headDim, rank] && x < rank && h < heads && d < headDim
    requires SplitHeads(b, rank, heads, headDim).Ok? && g[m] == SplitHeads(b, rank, heads, headDim).value
    ensures m < |s| && Valid(s[m]) && InBounds(s[m].shape, [l, x, h, d]) && Row(h, headDim, d) < heads * headDim
    ensures At(s[m], [l, x, h, d]) == At(b, [Row(h, headDim, d), x])
  {
    SplitHeadsAt(b, rank, heads, headDim, x, h, d);
    StackedSlotAt(f, n, s, l, g, m, [x, h, d]);
    assert [l] + [x, h, d] == [l, x, h, d];
  }

  /** Slot `l` of a stack whose layers are A factors reshaped into heads. */
  lemma ReshapeSlotAt<T>(f: nat -> Result<seq<Tensor<T>>>, n: nat, s: seq<Tensor<T>>, l: nat, g: seq<Tensor<T>>, m: nat,
                         a: Tensor<T>, rank: nat, heads: nat, headDim: nat, x: nat, h: nat, d: nat)
    requires Stacked(f, n) == Ok(Some(s)) && l < n && f(l) == Ok(g) && m < |g|
    requires Valid(a) && a.shape == [rank, heads * headDim] && x < rank && h < heads && d < headDim
    requires Reshape(a, [rank, heads, headDim]).Ok? && g[m] == Reshape(a, [rank, heads, headDim]).value
    ensures m < |s| && Valid(s[m]) && InBounds(s[m].shape, [l, x, h, d]) && Row(h, headDim, d) < heads * headDim
    ensures At(s[m], [l, x, h, d]) == At(a, [x, Row(h, headDim, d)])
  {
    SplitLastAxis(a, rank, heads, headDim, x, h, d);
    var c := Reshape(a, [rank, heads, headDim]).value;
    assert c.shape == [rank, heads, headDim];
    assert InBounds(g[m].shape, [x, h, d]);
    assert Row(h, headDim, d) == h * headDim + d;
    StackedSlotAt(f, n, s, l, g, m, [x, h, d]);
    assert [l] + [x, h, d] == [l, x, h, d];
  }

  /** Query, key and value factor A of layer `l`, an `[r, in]` matrix, lands
      transposed at `[x, l, y]`; no scaling is applied. */
  lemma LoraProjectionAAt<T>(ad: Adapter<T>, targets: seq<string>, n: nat, w: LoraAttention<T>, p: Proj, l: nat,
                             a: Tensor<T>, x: nat, y: nat)
    requires LoraWeights(ad, targets, n) == Ok(w) && p != O && Targeted(targets, p) && l < n
    requires ReadFactor(ad.vars, FactorKey(p, A, l)) == Ok(a)
    requires |a.shape| == 2 && y < a.shape[0] && x < a.shape[1]
    ensures Module(w, p).Some? && Valid(Module(w, p).value.a)
    ensures InBounds(Module(w, p).value.a.shape, [x, l, y])
    ensures At(Module(w, p).value.a, [x, l, y]) == At(a, [y, x])
  {
    var s, k := ModuleSlots(ad, targets, n, w, p, l);
    var g := LoraFactors(ad, p, l).value;
    LoraFactorsParts(ad, p, l, a);
    TransposeAllMatrix(a, x, y);
    StackedMatrixAt(LoraOf(ad, p), n, s, l, g, 0, x, y);
    LoraFinalFields(s, p, k);
    SwapAt3(s[0], l, x, y);
  }

  /** Query, key and value factor B of layer `l`, an `[heads * head_dim, r]`
      matrix, lands transposed and split into heads: element
      `[x, l, h, d]` is its entry at row `h * head_dim + d` and column `x`. */
  lemma LoraProjectionBAt<T>(ad: Adapter<T>, targets: seq<string>, n: nat, w: LoraAttention<T>, p: Proj, l: nat,
                             b: Tensor<T>, x: nat, h: nat, d: nat)
    requires LoraWeights(ad, targets, n) == Ok(w) && p != O && Targeted(targets, p) && l < n
    requires ReadFactor(ad.vars, FactorKey(p, B, l)) == Ok(b)
    requires b.shape == [ad.heads * ad.headDim, ad.rank] && x < ad.rank && h < ad.heads && d < ad.headDim
    ensures Module(w, p).Some? && Valid(Module(w, p).value.b) && Row(h, ad.headDim, d) < ad.heads * ad.headDim
    ensures InBounds(Module(w, p).value.b.shape, [x, l, h, d])
    ensures At(Module(w, p).value.b, [x, l, h, d]) == At(b, [Row(h, ad.headDim, d), x])
  {
    var s, k := ModuleSlots(ad, targets, n, w, p, l);
    var g := LoraFactors(ad, p, l).value;
    var a := ReadFactor(ad.vars, FactorKey(p, A, l)).value;
    LoraFactorsParts(ad, p, l, a);
    SplitSlotAt(LoraOf(ad, p), n, s, l, g, 1, b, ad.rank, ad.heads, ad.headDim, x, h, d);
    LoraFinalFields(s, p, k);
    QkvTransposeAt(s[1], l, x, h, d);
  }

  /** The out projection's factor A of layer `l`, an `[r, heads * head_dim]`
      matrix, is split into heads without a transpose: element
      `[h, l, d, x]` is its entry at row `x` and column `h * head_dim + d`. */
  lemma LoraOutAAt<T>(ad: Adapter<T>, targets: seq<string>, n: nat, w: LoraAttention<T>, l: nat,
                      a: Tensor<T>, x: nat, h: nat, d: nat)
    requires LoraWeights(ad, targets, n) == Ok(w) && Targeted(targets, O) && l < n
    requires ReadFactor(ad.vars, FactorKey(O, A, l)) == Ok(a)
    requires a.shape == [ad.rank, ad.heads * ad.headDim] && x < ad.rank && h < ad.heads && d < ad.headDim
    ensures w.out.Some? && Valid(w.out.value.a) && Row(h, ad.headDim, d) < ad.heads * ad.headDim
    ensures InBounds(w.out.value.a.shape, [h, l, d, x])
    ensures At(w.out.value.a, [h, l, d, x]) == At(a, [x, Row(h, ad.headDim, d)])
  {
    var s, k := ModuleSlots(ad, targets, n, w, O, l);
    var g := LoraFactors(ad, O, l).value;
    LoraFactorsParts(ad, O, l, a);
    ReshapeSlotAt(LoraOf(ad, O), n, s, l, g, 0, a, ad.rank, ad.heads, ad.headDim, x, h, d);
    LoraFinalFields(s, O, k);
    OutTransposeAt(s[0], l, x, h, d);
  }

  /** The out projection's factor B of layer `l` is kept as read: element
      `[i, l, j]` is its `[i, j]`. */
  lemma LoraOutBAt<T>(ad: Adapter<T>, targets: seq<string>, n: nat, w: LoraAttention<T>, l: nat,
                      b: Tensor<T>, i: nat, j: nat)
    requires LoraWeights(ad, targets, n) == Ok(w) && Targeted(targets, O) && l < n
    requires ReadFactor(ad.vars, FactorKey(O, B, l)) == Ok(b)
    requires |b.shape| == 2 && i < b.shape[0] && j < b.shape[1]
    ensures w.out.Some? && Valid(w.out.value.b)
    ensures InBounds(w.out.value.b.shape, [i, l, j])
    ensures At(w.out.value.b, [i, l, j]) == At(b, [i, j])
  {
    var s, k := ModuleSlots(ad, targets, n, w, O, l);
    var g := LoraFactors(ad, O, l).value;
    var a := ReadFactor(ad.vars, FactorKey(O, A, l)).value;
    LoraFactorsParts(ad, O, l, a);
    StackedMatrixAt(LoraOf(ad, O), n, s, l, g, 1, i, j);
    LoraFinalFields(s, O, k);
    SwapAt3(s[1], l, i, j);
  }
}
