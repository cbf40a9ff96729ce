/** The converter's accumulators: for a group of kernels computed layer by
    layer, one zero-filled array per kernel is allocated when the first layer
    is done, with room for every layer, and layer `l`'s tensor is written
    into slot `l`.  The model accepts a later layer's tensor only when it has
    exactly the shape of the first layer's; numpy's assignment would also
    broadcast a compatible smaller shape into the slot, and that case is
    refused here. */
module Stacking {
  import opened Results
  import opened Tensors

  /** Every tensor of `g` is well formed and has exactly the shape of the same
      member of `g0` (numpy broadcasting is not modelled). */
  predicate Fits<T>(g: seq<Tensor<T>>, g0: seq<Tensor<T>>)
  {
    |g| == |g0| && forall m :: 0 <= m < |g| ==> Valid(g[m]) && g[m].shape == g0[m].shape
  }

  /** The shapes of a group of tensors, in order. */
  function ShapesOf<T>(w: seq<Tensor<T>>): (r: seq<Shape>)
    ensures |r| == |w| && forall m :: 0 <= m < |w| ==> r[m] == w[m].shape
  {
    seq(|w|, m requires 0 <= m < |w| => w[m].shape)
  }

  /** Every layer below `k` succeeds and fits the shapes of layer 0. */
  predicate AllFit<T>(f: nat -> Result<seq<Tensor<T>>>, k: nat)
  {
    && (forall l: nat :: l < k ==> f(l).Ok?)
    && (forall l: nat :: l < k ==> Fits(f(l).value, f(0).value))
  }

  /** The outputs of layers `0 .. k-1`, or the first error in the order the
      loop meets them: layer `l` is computed, then written. */
  function Groups<T>(f: nat -> Result<seq<Tensor<T>>>, k: nat): (r: Result<seq<seq<Tensor<T>>>>)
    ensures r.Ok? <==> AllFit(f, k)
    ensures r.Ok? ==> |r.value| == k && forall l :: 0 <= l < k ==> r.value[l] == f(l).value
    decreases k
  {
    if k == 0 then Ok([])
    else
      var gs :- Groups(f, k - 1);
      var g :- f(k - 1);
      var g0 := if k == 1 then g else gs[0];
      if Fits(g, g0) then Ok(gs + [g]) else Err(ShapeMismatch)
  }

  /** Once a layer has failed, every longer run fails with the same error. */
  lemma {:induction false} GroupsErrPersists<T>(f: nat -> Result<seq<Tensor<T>>>, k: nat, n: nat)
    requires k <= n && Groups(f, k).Err?
    ensures Groups(f, n) == Err(Groups(f, k).error)
    decreases n
  {
    if n > k {
      GroupsErrPersists(f, k, n - 1);
    }
  }

  /** Member `m` of every layer. */
  function Column<T>(gs: seq<seq<Tensor<T>>>, m: nat): (c: seq<Tensor<T>>)
    requires forall l :: 0 <= l < |gs| ==> m < |gs[l]|
    ensures |c| == |gs| && forall l :: 0 <= l < |gs| ==> c[l] == gs[l][m]
  {
    seq(|gs|, l requires 0 <= l < |gs| => gs[l][m])
  }

  predicate Uniform<T>(gs: seq<seq<Tensor<T>>>)
  {
    |gs| > 0 && forall l :: 0 <= l < |gs| ==> Fits(gs[l], gs[0])
  }

  lemma ColumnShaped<T>(gs: seq<seq<Tensor<T>>>, m: nat)
    requires Uniform(gs) && m < |gs[0]|
    ensures forall l :: 0 <= l < |gs| ==> m < |gs[l]|
    ensures AllShaped(Column(gs, m), gs[0][m].shape)
  {
  }

  /** One stacked array per member: member `m` of layer `l` in slot `l`. */
  function StackAll<T>(gs: seq<seq<Tensor<T>>>): (r: seq<Tensor<T>>)
    requires Uniform(gs)
    ensures |r| == |gs[0]|
  {
    seq(|gs[0]|, m requires 0 <= m < |gs[0]| => (ColumnShaped(gs, m); Stack(Column(gs, m), gs[0][m].shape)))
  }

  /** What a filled group of accumulators holds: nothing when no layer ran,
      the stacked outputs when all layers fit, or the first error. */
  function Stacked<T>(f: nat -> Result<seq<Tensor<T>>>, n: nat): (r: Result<Option<seq<Tensor<T>>>>)
  {
    var gs :- Groups(f, n);
    if n == 0 then Ok(None) else Ok(Some(StackAll(gs)))
  }

  /** The stacked array of member `m` has the layers as a new leading axis, and
      its slot `l` holds exactly member `m` of layer `l`. */
  lemma StackedAt<T>(f: nat -> Result<seq<Tensor<T>>>, n: nat, m: nat, l: nat, i: Index)
    requires Stacked(f, n).Ok? && Stacked(f, n).value.Some?
    requires m < |Stacked(f, n).value.value| && l < n
    requires InBounds(f(0).value[m].shape, i)
    ensures |Stacked(f, n).value.value| == |f(0).value| && m < |f(l).value|
    ensures Valid(Stacked(f, n).value.value[m])
    ensures Stacked(f, n).value.value[m].shape == [n] + f(0).value[m].shape
    ensures InBounds(f(l).value[m].shape, i)
    ensures At(Stacked(f, n).value.value[m], [l] + i) == At(f(l).value[m], i)
  {
    var gs: seq<seq<Tensor<T>>> := Groups(f, n).value;
    ColumnShaped(gs, m);
    StackAt(Column(gs, m), gs[0][m].shape, l, i);
  }

  /** The same, for a layer's output and a stack the caller already holds. */
  lemma StackedSlotAt<T>(f: nat -> Result<seq<Tensor<T>>>, n: nat, s: seq<Tensor<T>>,
                         l: nat, g: seq<Tensor<T>>, m: nat, i: Index)
    requires Stacked(f, n) == Ok(Some(s)) && l < n && f(l) == Ok(g)
    requires m < |g| && InBounds(g[m].shape, i)
    ensures m < |s| && Valid(s[m]) && Valid(g[m]) && InBounds(s[m].shape, [l] + i)
    ensures At(s[m], [l] + i) == At(g[m], i)
  {
    assert Fits(f(l).value, f(0).value);
    StackedAt(f, n, m, l, i);
    InBoundsJoin([n], [l], f(0).value[m].shape, i);
  }

  /** The same for a vector kernel: element `i` of layer `l` is element `[l, i]`. */
  lemma StackedVectorAt<T>(f: nat -> Result<seq<Tensor<T>>>, n: nat, s: seq<Tensor<T>>,
                           l: nat, g: seq<Tensor<T>>, m: nat, i: nat)
    requires Stacked(f, n) == Ok(Some(s)) && l < n && f(l) == Ok(g)
    requires m < |g| && |g[m].shape| == 1 && i < g[m].shape[0]
    ensures m < |s| && Valid(s[m]) && InBounds(s[m].shape, [l, i]) && At(s[m], [l, i]) == At(g[m], [i])
  {
    StackedSlotAt(f, n, s, l, g, m, [i]);
    assert [l] + [i] == [l, i];
  }

  /** The same for a matrix kernel: element `[i, j]` of layer `l` is element `[l, i, j]`. */
  lemma StackedMatrixAt<T>(f: nat -> Result<seq<Tensor<T>>>, n: nat, s: seq<Tensor<T>>,
                           l: nat, g: seq<Tensor<T>>, m: nat, i: nat, j: nat)
    requires Stacked(f, n) == Ok(Some(s)) && l < n && f(l) == Ok(g)
    requires m < |g| && |g[m].shape| == 2 && i < g[m].shape[0] && j < g[m].shape[1]
    ensures m < |s| && Valid(s[m]) && InBounds(s[m].shape, [l, i, j]) && At(s[m], [l, i, j]) == At(g[m], [i, j])
  {
    StackedSlotAt(f, n, s, l, g, m, [i, j]);
    assert [l] + [i, j] == [l, i, j];
  }

  /** Every stacked array is well formed with the layers as a new leading axis
      in front of the shape of the matching kernel of layer 0. */
  lemma StackedShapes<T>(f: nat -> Result<seq<Tensor<T>>>, n: nat)
    requires Stacked(f, n).Ok? && Stacked(f, n).value.Some?
    ensures n > 0 && f(0).Ok? && |Stacked(f, n).value.value| == |f(0).value|
    ensures forall m :: 0 <= m < |f(0).value| ==>
      Valid(Stacked(f, n).value.value[m]) && Stacked(f, n).value.value[m].shape == [n] + f(0).value[m].shape
  {
    var gs: seq<seq<Tensor<T>>> := Groups(f, n).value;
    forall m | 0 <= m < |f(0).value|
      ensures Valid(Stacked(f, n).value.value[m]) && Stacked(f, n).value.value[m].shape == [n] + f(0).value[m].shape
    {
      ColumnShaped(gs, m);
    }
  }

  /** Stacking succeeds exactly when every layer succeeds and fits layer 0. */
  lemma StackedOk<T>(f: nat -> Result<seq<Tensor<T>>>, n: nat)
    ensures Stacked(f, n).Ok? <==> AllFit(f, n)
    ensures Stacked(f, n).Ok? ==> (Stacked(f, n).value.Some? <==> n > 0)
  {
  }

  /** The accumulators of one kernel group: `slots[m, l]` is slot `l` of kernel `m`. */
  class LayerStacks<T> {
    const shapes: seq<Shape>
    const slots: array2<Tensor<T>>

    predicate Valid()
      reads slots
    {
      && slots.Length0 == |shapes|
      && forall m, l :: 0 <= m < slots.Length0 && 0 <= l < slots.Length1 ==>
           Tensors.Valid(slots[m, l]) && slots[m, l].shape == shapes[m]
    }

    /** `np.zeros((n,) + w.shape)` for every kernel `w` of the first layer. */
    constructor (n: nat, g0: seq<Tensor<T>>, zero: T)
      ensures shapes == seq(|g0|, m requires 0 <= m < |g0| => g0[m].shape)
      ensures slots.Length0 == |g0| && slots.Length1 == n && fresh(slots)
      ensures forall m, l :: 0 <= m < |g0| && 0 <= l < n ==> slots[m, l] == Zeros(g0[m].shape, zero)
      ensures Valid()
    {
      shapes := seq(|g0|, m requires 0 <= m < |g0| => g0[m].shape);
      slots := new Tensor<T>[|g0|, n]((m, l) requires 0 <= m < |g0| => Zeros(g0[m].shape, zero));
    }

    /** `kernel[l, ...] = w` for each kernel in turn; a tensor whose shape is
        not exactly its slot's stops the writes. */
    method Write(l: nat, g: seq<Tensor<T>>) returns (ok: bool)
      requires Valid() && l < slots.Length1
      modifies slots
      ensures Valid()
      ensures ok <==> |g| == |shapes| && forall m :: 0 <= m < |g| ==> Tensors.Valid(g[m]) && g[m].shape == shapes[m]
      ensures ok ==> forall m, l' :: 0 <= m < slots.Length0 && 0 <= l' < slots.Length1 ==>
        slots[m, l'] == if l' == l then g[m] else old(slots[m, l'])
    {
      if |g| != |shapes| {
        return false;
      }
      var m := 0;
      while m < |g|
        invariant 0 <= m <= |g| && Valid()
        invariant forall k :: 0 <= k < m ==> Tensors.Valid(g[k]) && g[k].shape == shapes[k]
        invariant forall k, l' :: 0 <= k < slots.Length0 && 0 <= l' < slots.Length1 ==>
          slots[k, l'] == if l' == l && k < m then g[k] else old(slots[k, l'])
      {
        if !(Tensors.Valid(g[m]) && g[m].shape == shapes[m]) {
          return false;
        }
        slots[m, l] := g[m];
        m := m + 1;
      }
      return true;
    }

    /** The slots of kernel `m`, layer by layer. */
    function Slots(m: nat): (c: seq<Tensor<T>>)
      reads slots
      requires m < slots.Length0
      ensures |c| == slots.Length1 && forall l :: 0 <= l < |c| ==> c[l] == slots[m, l]
    {
      seq(slots.Length1, l requires 0 <= l < slots.Length1 reads slots => slots[m, l])
    }

    /** Every kernel's accumulator as an array with the layers as leading axis. */
    method Stacks() returns (r: seq<Tensor<T>>)
      requires Valid()
      ensures |r| == |shapes|
      ensures forall m :: 0 <= m < |r| ==> AllShaped(Slots(m), shapes[m]) && r[m] == Stack(Slots(m), shapes[m])
    {
      r := [];
      var m := 0;
      while m < |shapes|
        invariant 0 <= m <= |shapes| && |r| == m
        invariant forall k :: 0 <= k < m ==> AllShaped(Slots(k), shapes[k]) && r[k] == Stack(Slots(k), shapes[k])
      {
        r := r + [Stack(Slots(m), shapes[m])];
        m := m + 1;
      }
    }
  }

  lemma GroupsStep<T>(f: nat -> Result<seq<Tensor<T>>>, l: nat)
    requires Groups(f, l).Ok?
    ensures f(l).Err? ==> Groups(f, l + 1) == Err(f(l).error)
    ensures f(l).Ok? && !Fits(f(l).value, if l == 0 then f(l).value else f(0).value) ==>
      Groups(f, l + 1) == Err(ShapeMismatch)
    ensures f(l).Ok? && Fits(f(l).value, if l == 0 then f(l).value else f(0).value) ==> Groups(f, l + 1).Ok?
  {
  }

  /** Layer `l` of the loop: compute it and write it into slot `l`. */
  method FillLayer<T>(acc: LayerStacks<T>, f: nat -> Result<seq<Tensor<T>>>, l: nat) returns (err: Option<ConvError>)
    requires f(0).Ok? && acc.Valid() && l < acc.slots.Length1 && Groups(f, l).Ok?
    requires acc.shapes == seq(|f(0).value|, m requires 0 <= m < |f(0).value| => f(0).value[m].shape)
    modifies acc.slots
    ensures acc.Valid()
    ensures err.Some? ==> Groups(f, l + 1) == Err(err.value)
    ensures err.None? ==> Groups(f, l + 1).Ok? && |f(l).value| == acc.slots.Length0
    ensures err.None? ==> forall k, m :: 0 <= k < acc.slots.Length1 && 0 <= m < acc.slots.Length0 ==>
      acc.slots[m, k] == if k == l then f(l).value[m] else old(acc.slots[m, k])
  {
    var next := f(l);
    GroupsStep(f, l);
    if next.Err? {
      return Some(next.error);
    }
    var ok := acc.Write(l, next.value);
    if !ok {
      assert !Fits(next.value, f(0).value);
      return Some(ShapeMismatch);
    }
    return None;
  }

  /** The layer loop after allocation: compute layer `l`, write it into slot `l`. */
  method FillLayers<T>(acc: LayerStacks<T>, f: nat -> Result<seq<Tensor<T>>>, n: nat) returns (err: Option<ConvError>)
    requires n > 0 && f(0).Ok? && acc.Valid() && acc.slots.Length1 == n
    requires acc.shapes == seq(|f(0).value|, m requires 0 <= m < |f(0).value| => f(0).value[m].shape)
    modifies acc.slots
    ensures acc.Valid()
    ensures err.None? ==> Groups(f, n).Ok?
    ensures err.Some? ==> Groups(f, n) == Err(err.value)
    ensures err.None? ==> forall k, m :: 0 <= k < n && 0 <= m < acc.slots.Length0 ==> acc.slots[m, k] == f(k).value[m]
  {
    var l := 0;
    while l < n
      invariant 0 <= l <= n && acc.Valid()
      invariant Groups(f, l).Ok?
      invariant forall k, m :: 0 <= k < l && 0 <= m < acc.slots.Length0 ==>
        m < |f(k).value| && acc.slots[m, k] == f(k).value[m]
    {
      err := FillLayer(acc, f, l);
      if err.Some? {
        GroupsErrPersists(f, l + 1, n);
        return;
      }
      l := l + 1;
    }
    return None;
  }

  /** The layer loop: compute layer `l`, allocate the accumulators after the
      first layer, write layer `l` into slot `l`; the result is the stacked
      arrays, one per kernel of the group. */
  method StackLayers<T>(f: nat -> Result<seq<Tensor<T>>>, n: nat, zero: T) returns (r: Result<Option<seq<Tensor<T>>>>)
    ensures r == Stacked(f, n)
  {
    if n == 0 {
      return Ok(None);
    }
    var first := f(0);
    if first.Err? {
      assert Groups(f, 1) == Err(first.error);
      GroupsErrPersists(f, 1, n);
      return Err(first.error);
    }
    var acc := new LayerStacks(n, first.value, zero);
    var err := FillLayers(acc, f, n);
    if err.Some? {
      return Err(err.value);
    }
    var stacks := ReadStacks(acc, f, n);
    return Ok(Some(stacks));
  }

  /** Reading filled accumulators out gives the stacked arrays. */
  method ReadStacks<T>(acc: LayerStacks<T>, f: nat -> Result<seq<Tensor<T>>>, n: nat) returns (r: seq<Tensor<T>>)
    requires n > 0 && AllFit(f, n) && acc.Valid() && acc.slots.Length1 == n && acc.slots.Length0 == |f(0).value|
    requires forall m, k :: 0 <= m < acc.slots.Length0 && 0 <= k < n ==> acc.slots[m, k] == f(k).value[m]
    ensures Stacked(f, n) == Ok(Some(r))
  {
    r := acc.Stacks();
    var gs := Groups(f, n).value;
    assert r == StackAll(gs) by {
      forall m | 0 <= m < |r| ensures r[m] == StackAll(gs)[m] {
        assert acc.Slots(m) == Column(gs, m) by {
          forall k | 0 <= k < n ensures acc.Slots(m)[k] == Column(gs, m)[k] {
            assert acc.slots[m, k] == f(k).value[m];
          }
        }
      }
    }
  }
}
