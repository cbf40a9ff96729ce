/** The LoRA loops as the program runs them: the layer loop, the loop over
    the target-module strings inside it, the four substring tests, and the
    accumulators allocated at each projection's first write. */
module LoraLoops {
  import opened Results
  import opened Strings
  import opened Tensors
  import opened ModelParams
  import opened NameMapping
  import opened Namespace
  import opened Stacking
  import opened Lora

  /** One value for each of the four attention projections. */
  datatype PerProj<X> = PerProj(query: X, key: X, value: X, out: X)
  {
    function Of(p: Proj): X
    {
      match p
      case Q => query
      case K => key
      case V => value
      case O => out
    }

    /** The same with `p`'s value replaced by `x`. */
    function With(p: Proj, x: X): (r: PerProj<X>)
      ensures r.Of(p) == x && forall p': Proj :: p' != p ==> r.Of(p') == Of(p')
    {
      match p
      case Q => this.(query := x)
      case K => this.(key := x)
      case V => this.(value := x)
      case O => this.(out := x)
    }
  }

  /** One projection's pair of accumulators: `slots[m][l]` is slot `l` of
      factor `m` (`lora_a.kernel`, then `lora_b.kernel`), each factor with
      room for `layers` layers. */
  datatype Buffers<T> = Buffers(layers: nat, shapes: seq<Shape>, slots: seq<seq<Tensor<T>>>)
  {
    predicate Valid()
    {
      && |slots| == |shapes|
      && forall m :: 0 <= m < |slots| ==> |slots[m]| == layers && AllShaped(slots[m], shapes[m])
    }

    /** `lora_x.kernel[l, ...] = w` for both factors; `None` when a tensor
        does not have exactly its slot's shape. */
    function Store(l: nat, g: seq<Tensor<T>>): (r: Option<Buffers<T>>)
      requires Valid() && l < layers
      ensures r.Some? <==> |g| == |shapes| && forall m :: 0 <= m < |g| ==> Tensors.Valid(g[m]) && g[m].shape == shapes[m]
      ensures r.Some? ==> r.value.Valid() && r.value.layers == layers && r.value.shapes == shapes
      ensures r.Some? ==> forall m, l' :: 0 <= m < |slots| && 0 <= l' < layers ==>
        r.value.slots[m][l'] == if l' == l then g[m] else slots[m][l']
    {
      if |g| == |shapes| && forall m :: 0 <= m < |g| ==> Tensors.Valid(g[m]) && g[m].shape == shapes[m] then
        Some(this.(slots := seq(|slots|, m requires 0 <= m < |slots| => slots[m][l := g[m]])))
      else None
    }

    /** Each factor's accumulator as one array with the layers as leading axis. */
    function Read(): (r: seq<Tensor<T>>)
      requires Valid()
      ensures |r| == |shapes| && forall m :: 0 <= m < |r| ==> Tensors.Valid(r[m]) && r[m].shape == [layers] + shapes[m]
    {
      seq(|slots|, m requires 0 <= m < |slots| => Stack(slots[m], shapes[m]))
    }
  }

  /** `np.zeros(stack_shape + w.shape)` for each factor `w` of the first write. */
  function Zeroed<T>(n: nat, g0: seq<Tensor<T>>, zero: T): (b: Buffers<T>)
    ensures b.Valid() && b.layers == n && b.shapes == ShapesOf(g0)
    ensures forall m, l, i :: 0 <= m < |g0| && 0 <= l < n && InBounds(g0[m].shape, i) ==> At(b.slots[m][l], i) == zero
  {
    Buffers(n, ShapesOf(g0), seq(|g0|, m requires 0 <= m < |g0| => seq(n, _ => Zeros(g0[m].shape, zero))))
  }

  /** Buffers filled from layers `0 .. n-1` of `f` read out as the stacked arrays. */
  lemma ReadStacked<T>(b: Buffers<T>, f: nat -> Result<seq<Tensor<T>>>, n: nat)
    requires n > 0 && AllFit(f, n) && b.Valid() && b.layers == n && |b.slots| == |f(0).value|
    requires forall m, k :: 0 <= m < |b.slots| && 0 <= k < n ==> b.slots[m][k] == f(k).value[m]
    ensures Stacked(f, n) == Ok(Some(b.Read()))
  {
    var gs := Groups(f, n).value;
    forall m | 0 <= m < |b.slots| ensures b.Read()[m] == StackAll(gs)[m] {
      ColumnShaped(gs, m);
      assert b.slots[m] == Column(gs, m) by {
        forall k | 0 <= k < n ensures b.slots[m][k] == Column(gs, m)[k] {
          assert b.slots[m][k] == f(k).value[m];
        }
      }
    }
    assert b.Read() == StackAll(gs);
  }

  /** The four entries of `self_attention_lora`, each `None` until its first write. */
  type Accumulators<T> = PerProj<Option<Buffers<T>>>

  /** Slots below `k` of one projection's accumulators hold those layers'
      factors; nothing is allocated before the first write. */
  ghost predicate Held<T>(acc: Option<Buffers<T>>, f: nat -> Result<seq<Tensor<T>>>, n: nat, k: nat)
  {
    match f(0)
    case Err(_) => acc == None && k == 0
    case Ok(g) =>
      && k <= n && (acc == None <==> k == 0)
      && (acc.Some? ==>
            && acc.value.Valid() && acc.value.shapes == ShapesOf(g) && acc.value.layers == n
            && (forall j :: 0 <= j < k ==> f(j).Ok? && |f(j).value| == |acc.value.slots|)
            && forall m, j :: 0 <= m < |acc.value.slots| && 0 <= j < k ==> acc.value.slots[m][j] == f(j).value[m])
  }

  /** `initialize_self_attention_lora_kernels` after the reads: allocate the
      projection's accumulators if they are still `None`, then write slot `l`.
      A projection named twice in one layer is written twice. */
  method WriteFactors<T>(acc: Option<Buffers<T>>, f: nat -> Result<seq<Tensor<T>>>, n: nat, l: nat, ghost k: nat, zero: T)
    returns (acc': Option<Buffers<T>>, err: Option<ConvError>)
    requires l < n && (k == l || k == l + 1) && Held(acc, f, n, k)
    ensures err == WriteError(f, l)
    ensures err.None? ==> Held(acc', f, n, l + 1)
  {
    acc' := acc;
    var g := f(l);
    if g.Err? {
      return acc', Some(g.error);
    }
    var b := if acc.None? then Zeroed(n, g.value, zero) else acc.value;
    var s := b.Store(l, g.value);
    if s.None? {
      return acc', Some(ShapeMismatch);
    }
    return s, None;
  }

  /** The slots filled of projection `p` once target string `t` of layer `l`
      is done, `k` before it. */
  function After(t: string, p: Proj, l: nat, k: nat): nat
  {
    if Contains(t, TargetName(p)) then l + 1 else k
  }

  /** Each projection's accumulators hold `ks.Of(p)` slots. */
  ghost predicate AllHeld<T>(accs: Accumulators<T>, fs: Projections<T>, n: nat, ks: PerProj<nat>)
  {
    forall p: Proj :: Held(accs.Of(p), fs(p), n, ks.Of(p))
  }

  /** One of the four tests of a target-module string and the write it
      guards; only projection `p`'s entry changes. */
  method StepIf<T>(accs: Accumulators<T>, fs: Projections<T>, t: string, p: Proj, n: nat, l: nat, ghost ks: PerProj<nat>, zero: T)
    returns (accs': Accumulators<T>, err: Option<ConvError>)
    requires l < n && (Contains(t, TargetName(p)) ==> ks.Of(p) == l || ks.Of(p) == l + 1)
    requires AllHeld(accs, fs, n, ks)
    ensures err == CheckWrite(fs, t, p, l)
    ensures err.None? ==> AllHeld(accs', fs, n, ks.With(p, After(t, p, l, ks.Of(p))))
  {
    if !Contains(t, TargetName(p)) {
      assert ks.With(p, ks.Of(p)) == ks;
      return accs, None;
    }
    var a';
    a', err := WriteFactors(accs.Of(p), fs(p), n, l, ks.Of(p), zero);
    accs' := accs.With(p, a');
    if err.None? {
      var ks' := ks.With(p, l + 1);
      forall p': Proj ensures Held(accs'.Of(p'), fs(p'), n, ks'.Of(p')) {
        if p' != p {
          assert Held(accs.Of(p'), fs(p'), n, ks.Of(p'));
        }
      }
    }
  }

  /** The counts once target string `t` of layer `l` is done. */
  function Advance(ks: PerProj<nat>, t: string, l: nat): PerProj<nat>
  {
    PerProj(After(t, Q, l, ks.query), After(t, K, l, ks.key), After(t, V, l, ks.value), After(t, O, l, ks.out))
  }

  /** The body of the inner loop: the four tests of target string `t`, with
      `ks.Of(p)` slots of projection `p` filled before it. */
  method TargetStep<T>(accs: Accumulators<T>, fs: Projections<T>, t: string, n: nat, l: nat, ghost ks: PerProj<nat>, zero: T)
    returns (accs': Accumulators<T>, err: Option<ConvError>)
    requires l < n
    requires forall p: Proj :: Contains(t, TargetName(p)) ==> ks.Of(p) == l || ks.Of(p) == l + 1
    requires AllHeld(accs, fs, n, ks)
    ensures err == ModuleError(fs, t, l)
    ensures err.None? ==> AllHeld(accs', fs, n, Advance(ks, t, l))
  {
    ghost var k1 := ks.With(Q, After(t, Q, l, ks.Of(Q)));
    ghost var k2 := k1.With(K, After(t, K, l, k1.Of(K)));
    ghost var k3 := k2.With(V, After(t, V, l, k2.Of(V)));
    accs', err := StepIf(accs, fs, t, Q, n, l, ks, zero);
    if err.Some? {
      return;
    }
    accs', err := StepIf(accs', fs, t, K, n, l, k1, zero);
    if err.Some? {
      return;
    }
    accs', err := StepIf(accs', fs, t, V, n, l, k2, zero);
    if err.Some? {
      return;
    }
    accs', err := StepIf(accs', fs, t, O, n, l, k3, zero);
    assert k3.With(O, After(t, O, l, k3.Of(O))) == Advance(ks, t, l);
  }

  /** The slots of projection `p` filled before layer `l`: every earlier layer
      once a target string names it, none otherwise. */
  function Filled(targets: seq<string>, p: Proj, l: nat): nat
  {
    if Targeted(targets, p) then l else 0
  }

  function Done(targets: seq<string>, l: nat): PerProj<nat>
  {
    PerProj(Filled(targets, Q, l), Filled(targets, K, l), Filled(targets, V, l), Filled(targets, O, l))
  }

  /** The slots filled of projection `p` before target string `j` of layer `l`. */
  function WrittenAt(targets: seq<string>, p: Proj, l: nat, j: nat): nat
    requires j <= |targets|
  {
    if Targeted(targets[..j], p) then l + 1 else Filled(targets, p, l)
  }

  function Written(targets: seq<string>, l: nat, j: nat): PerProj<nat>
    requires j <= |targets|
  {
    PerProj(WrittenAt(targets, Q, l, j), WrittenAt(targets, K, l, j), WrittenAt(targets, V, l, j), WrittenAt(targets, O, l, j))
  }

  lemma WrittenAtStep(targets: seq<string>, p: Proj, l: nat, j: nat)
    requires j < |targets|
    ensures WrittenAt(targets, p, l, j + 1) == After(targets[j], p, l, WrittenAt(targets, p, l, j))
    ensures Contains(targets[j], TargetName(p)) ==>
      WrittenAt(targets, p, l, j) == l || WrittenAt(targets, p, l, j) == l + 1
  {
    var pre := targets[..j + 1];
    if Contains(targets[j], TargetName(p)) {
      assert pre[j] == targets[j];
    }
    if Targeted(pre, p) {
      var i :| 0 <= i < |pre| && Contains(pre[i], TargetName(p));
      if i < j {
        assert targets[..j][i] == pre[i];
      }
    }
    if Targeted(targets[..j], p) {
      var i :| 0 <= i < j && Contains(targets[..j][i], TargetName(p));
      assert pre[i] == targets[..j][i];
    }
    if Targeted(targets[..j], p) || Contains(targets[j], TargetName(p)) {
      var i :| 0 <= i < j + 1 && Contains(pre[i], TargetName(p));
      assert targets[i] == pre[i];
    }
  }

  /** One target string advances the counts as the four tests write. */
  lemma WrittenStep(targets: seq<string>, l: nat, j: nat)
    requires j < |targets|
    ensures Written(targets, l, j + 1) == Advance(Written(targets, l, j), targets[j], l)
    ensures forall p: Proj :: Contains(targets[j], TargetName(p)) ==>
      Written(targets, l, j).Of(p) == l || Written(targets, l, j).Of(p) == l + 1
  {
    WrittenAtStep(targets, Q, l, j);
    WrittenAtStep(targets, K, l, j);
    WrittenAtStep(targets, V, l, j);
    WrittenAtStep(targets, O, l, j);
  }

  /** Before the first target string of layer `l` the earlier layers are
      filled; after the last, layer `l` too. */
  lemma WrittenEnds(targets: seq<string>, l: nat)
    ensures Written(targets, l, 0) == Done(targets, l)
    ensures Written(targets, l, |targets|) == Done(targets, l + 1)
  {
    assert targets[..|targets|] == targets;
  }

  /** The inner loop over the target-module strings of layer `l`. */
  method LayerStep<T>(accs: Accumulators<T>, fs: Projections<T>, targets: seq<string>, n: nat, l: nat, zero: T)
    returns (accs': Accumulators<T>, err: Option<ConvError>)
    requires l < n && AllHeld(accs, fs, n, Done(targets, l))
    ensures err == LayerError(fs, targets, l, |targets|)
    ensures err.None? ==> AllHeld(accs', fs, n, Done(targets, l + 1))
  {
    WrittenEnds(targets, l);
    ghost var ks := Done(targets, l);
    accs' := accs;
    var j := 0;
    while j < |targets|
      invariant j <= |targets| && LayerError(fs, targets, l, j) == None
      invariant ks == Written(targets, l, j) && AllHeld(accs', fs, n, ks)
    {
      WrittenStep(targets, l, j);
      var t := targets[j];
      accs', err := TargetStep(accs', fs, t, n, l, ks, zero);
      if err.Some? {
        LayerErrPersists(fs, targets, l, j + 1);
        return;
      }
      ks := Advance(ks, t, l);
      j := j + 1;
    }
    return accs', None;
  }

  /** The layer loop with the target loop inside it. */
  method RunLoops<T>(fs: Projections<T>, targets: seq<string>, n: nat, zero: T)
    returns (accs: Accumulators<T>, err: Option<ConvError>)
    ensures err == RunError(fs, targets, n)
    ensures err.None? ==> AllHeld(accs, fs, n, Done(targets, n))
  {
    accs := PerProj(None, None, None, None);
    var l := 0;
    while l < n
      invariant l <= n && RunError(fs, targets, l) == None
      invariant AllHeld(accs, fs, n, Done(targets, l))
    {
      accs, err := LayerStep(accs, fs, targets, n, l, zero);
      if err.Some? {
        RunErrPersists(fs, targets, l + 1, n);
        return;
      }
      l := l + 1;
    }
    return accs, None;
  }

  /** One projection's entry after the loops: nothing if it was never
      allocated, otherwise its filled accumulators read out and reordered. */
  method ModuleResult<T>(accs: Accumulators<T>, ad: Adapter<T>, targets: seq<string>, n: nat, p: Proj)
    returns (r: Result<Option<LoraKernels<T>>>)
    requires RunError(Factors(ad), targets, n) == None
    requires AllHeld(accs, Factors(ad), n, Done(targets, n))
    ensures r == ModuleFinal(ad, targets, n, p)
  {
    var acc := accs.Of(p);
    assert Done(targets, n).Of(p) == Filled(targets, p, n);
    assert Held(acc, Factors(ad)(p), n, Filled(targets, p, n));
    if acc.None? {
      return Ok(None);
    }
    TargetedFits(Factors(ad), targets, n, p);
    assert Factors(ad)(p) == LoraOf(ad, p);
    var st := acc.value.Read();
    ReadStacked(acc.value, LoraOf(ad, p), n);
    StackedShapes(LoraOf(ad, p), n);
    assert LoraOf(ad, p)(0) == LoraFactors(ad, p, 0);
    var k := LoraFinal(st, p);
    if k.Err? {
      return Err(k.error);
    }
    return Ok(Some(k.value));
  }

  /** The loops, then each projection's stacks in their final order. */
  method LoraConversion<T>(ad: Adapter<T>, targets: seq<string>, n: nat, zero: T) returns (r: Result<LoraAttention<T>>)
    ensures r == LoraWeights(ad, targets, n)
  {
    var accs, err := RunLoops(Factors(ad), targets, n, zero);
    if err.Some? {
      return Err(err.value);
    }
    var q := ModuleResult(accs, ad, targets, n, Q);
    if q.Err? {
      return Err(q.error);
    }
    var k := ModuleResult(accs, ad, targets, n, K);
    if k.Err? {
      return Err(k.error);
    }
    var v := ModuleResult(accs, ad, targets, n, V);
    if v.Err? {
      return Err(v.error);
    }
    var o := ModuleResult(accs, ad, targets, n, O);
    if o.Err? {
      return Err(o.error);
    }
    return Ok(LoraAttention(q.value, k.value, v.value, o.value));
  }

  /** `convert_lora_weights_to_jax_weights` as it runs. */
  method ConvertLoraWeights<T>(modelSize: string, vars: map<string, Tensor<T>>, rank: nat, targets: seq<string>, zero: T)
    returns (r: Result<LoraAttention<T>>)
    ensures r == ConvertLora(modelSize, vars, rank, targets)
  {
    var c := LookupModel(modelSize);
    if c.Err? {
      return Err(c.error);
    }
    var ad := Adapter((k: string) => Mapper(vars, '.').Get(k), rank, c.value.numHeads, c.value.headDim);
    r := LoraConversion(ad, targets, c.value.numLayers, zero);
  }
}
