/** The mixture-of-experts layer loop.  For each layer the gate kernel is
    computed and written into a per-layer accumulator; then, for each expert,
    the expert's three kernels are computed and written into accumulators
    indexed by (expert, layer).  Each accumulator is zero-filled when the first
    tensor it will hold has been computed.  A later tensor is accepted only
    with exactly the shape of its slot; numpy's broadcasting of a compatible
    smaller shape is not modelled and is refused here. */
module Experts {
  import opened Results
  import opened Tensors
  import opened Stacking

  /** Experts `0 .. k-1` of layer `l`, each checked against expert 0 of layer 0
      (the group the accumulators were allocated from), or the first error. */
  function ExpertRow<T>(x: (nat, nat) -> Result<seq<Tensor<T>>>, l: nat, k: nat): (r: Result<seq<seq<Tensor<T>>>>)
    requires l > 0 && k > 0 ==> x(0, 0).Ok?
    ensures r.Ok? <==> forall i :: 0 <= i < k ==> x(l, i).Ok? && x(0, 0).Ok? && Fits(x(l, i).value, x(0, 0).value)
    ensures r.Ok? ==> |r.value| == k && forall i :: 0 <= i < k ==> r.value[i] == x(l, i).value
    decreases k
  {
    if k == 0 then Ok([])
    else
      var row :- ExpertRow(x, l, k - 1);
      var w :- x(l, k - 1);
      var base := if l == 0 && k == 1 then w else x(0, 0).value;
      if Fits(w, base) then Ok(row + [w]) else Err(ShapeMismatch)
  }

  /** What the loop has computed after some layers: the gate group of each
      layer and the expert groups of each layer. */
  datatype MoeRun<T> = MoeRun(gates: seq<seq<Tensor<T>>>, experts: seq<seq<seq<Tensor<T>>>>)

  /** Every layer below `l` has a gate fitting layer 0's gate. */
  predicate GatesFit<T>(g: nat -> Result<seq<Tensor<T>>>, l: nat)
  {
    forall i :: 0 <= i < l ==> g(i).Ok? && g(0).Ok? && Fits(g(i).value, g(0).value)
  }

  /** Every layer below `l` has `e` experts fitting expert 0 of layer 0. */
  predicate ExpertsFit<T>(x: (nat, nat) -> Result<seq<Tensor<T>>>, e: nat, l: nat)
  {
    forall i, k :: 0 <= i < l && 0 <= k < e ==> x(i, k).Ok? && x(0, 0).Ok? && Fits(x(i, k).value, x(0, 0).value)
  }

  predicate LayersFit<T>(g: nat -> Result<seq<Tensor<T>>>, x: (nat, nat) -> Result<seq<Tensor<T>>>, e: nat, l: nat)
  {
    GatesFit(g, l) && ExpertsFit(x, e, l)
  }

  /** Layers `0 .. l-1` of the loop, or the first error in the order the loop
      meets them: gate of layer 0, its experts in order, gate of layer 1, ... */
  function MoeLayers<T>(g: nat -> Result<seq<Tensor<T>>>, x: (nat, nat) -> Result<seq<Tensor<T>>>, e: nat, l: nat)
    : (r: Result<MoeRun<T>>)
    ensures r.Ok? ==> |r.value.gates| == l && |r.value.experts| == l
    ensures r.Ok? && l > 0 ==> g(0).Ok? && (e > 0 ==> x(0, 0).Ok?)
    decreases l
  {
    if l == 0 then Ok(MoeRun([], []))
    else
      var run :- MoeLayers(g, x, e, l - 1);
      var gate :- g(l - 1);
      if !Fits(gate, if l == 1 then gate else g(0).value) then Err(ShapeMismatch)
      else
        var row :- ExpertRow(x, l - 1, e);
        Ok(MoeRun(run.gates + [gate], run.experts + [row]))
  }

  /** A run through `l` layers holds what the layers computed. */
  lemma {:induction false} MoeLayersValues<T>(g: nat -> Result<seq<Tensor<T>>>, x: (nat, nat) -> Result<seq<Tensor<T>>>,
                                              e: nat, l: nat)
    requires MoeLayers(g, x, e, l).Ok?
    ensures forall i :: 0 <= i < l ==> g(i).Ok? && MoeLayers(g, x, e, l).value.gates[i] == g(i).value
    ensures forall i :: 0 <= i < l ==> |MoeLayers(g, x, e, l).value.experts[i]| == e
    ensures forall i, k :: 0 <= i < l && 0 <= k < e ==>
      x(i, k).Ok? && MoeLayers(g, x, e, l).value.experts[i][k] == x(i, k).value
    decreases l
  {
    if l > 0 {
      MoeLayersValues(g, x, e, l - 1);
    }
  }

  /** The loop gets through `l` layers exactly when every gate and every
      expert below `l` is computed and fits the first one. */
  lemma {:induction false} MoeLayersOk<T>(g: nat -> Result<seq<Tensor<T>>>, x: (nat, nat) -> Result<seq<Tensor<T>>>,
                                          e: nat, l: nat)
    ensures MoeLayers(g, x, e, l).Ok? <==> LayersFit(g, x, e, l)
    decreases l
  {
    if l > 0 {
      MoeLayersOk(g, x, e, l - 1);
      if LayersFit(g, x, e, l) {
        MoeLayersFitOk(g, x, e, l);
      }
      if MoeLayers(g, x, e, l).Ok? {
        MoeLayersOkFit(g, x, e, l);
      }
    }
  }

  lemma MoeLayersFitOk<T>(g: nat -> Result<seq<Tensor<T>>>, x: (nat, nat) -> Result<seq<Tensor<T>>>, e: nat, l: nat)
    requires l > 0 && LayersFit(g, x, e, l) && (MoeLayers(g, x, e, l - 1).Ok? <==> LayersFit(g, x, e, l - 1))
    ensures MoeLayers(g, x, e, l).Ok?
  {
    assert GatesFit(g, l - 1) && ExpertsFit(x, e, l - 1);
    assert g(l - 1).Ok? && Fits(g(l - 1).value, g(0).value);
    if l == 1 {
      assert g(0).value == g(l - 1).value;
    }
    assert Fits(g(l - 1).value, if l == 1 then g(l - 1).value else g(0).value);
    assert ExpertRow(x, l - 1, e).Ok?;
  }

  lemma MoeLayersOkFit<T>(g: nat -> Result<seq<Tensor<T>>>, x: (nat, nat) -> Result<seq<Tensor<T>>>, e: nat, l: nat)
    requires l > 0 && MoeLayers(g, x, e, l).Ok? && (MoeLayers(g, x, e, l - 1).Ok? <==> LayersFit(g, x, e, l - 1))
    ensures LayersFit(g, x, e, l)
  {
    assert MoeLayers(g, x, e, l - 1).Ok?;
    assert g(l - 1).Ok? && Fits(g(l - 1).value, if l == 1 then g(l - 1).value else g(0).value);
    assert ExpertRow(x, l - 1, e).Ok?;
    assert GatesFit(g, l);
    forall i, k | 0 <= i < l && 0 <= k < e ensures x(i, k).Ok? && x(0, 0).Ok? && Fits(x(i, k).value, x(0, 0).value) {
      if i < l - 1 {
        assert ExpertsFit(x, e, l - 1);
      }
    }
  }

  /** The expert groups rearranged for member `m`: expert `k`, layer `l`. */
  function ExpertGrid<T>(rows: seq<seq<seq<Tensor<T>>>>, n: nat, e: nat, m: nat): (w: seq<seq<Tensor<T>>>)
    requires |rows| == n && forall l :: 0 <= l < n ==> |rows[l]| == e && forall k :: 0 <= k < e ==> m < |rows[l][k]|
    ensures |w| == e && forall k :: 0 <= k < e ==> |w[k]| == n && forall l :: 0 <= l < n ==> w[k][l] == rows[l][k][m]
  {
    seq(e, k requires 0 <= k < e => seq(n, l requires 0 <= l < n => rows[l][k][m]))
  }

  /** The expert groups of a finished run are uniform: every member fits expert 0 of layer 0. */
  predicate RowsFit<T>(rows: seq<seq<seq<Tensor<T>>>>, n: nat, e: nat)
  {
    && n > 0 && e > 0 && |rows| == n
    && (forall l :: 0 <= l < n ==> |rows[l]| == e)
    && (forall l, k :: 0 <= l < n && 0 <= k < e ==> Fits(rows[l][k], rows[0][0]))
  }

  lemma GridShaped<T>(rows: seq<seq<seq<Tensor<T>>>>, n: nat, e: nat, m: nat)
    requires RowsFit(rows, n, e) && m < |rows[0][0]|
    ensures forall l, k :: 0 <= l < n && 0 <= k < e ==> m < |rows[l][k]|
    ensures AllShaped2(ExpertGrid(rows, n, e, m), n, rows[0][0][m].shape)
  {
  }

  /** One array per expert kernel, with axes (expert, layer, ...). */
  function ExpertArrays<T>(rows: seq<seq<seq<Tensor<T>>>>, n: nat, e: nat): (r: seq<Tensor<T>>)
    requires RowsFit(rows, n, e)
    ensures |r| == |rows[0][0]|
  {
    seq(|rows[0][0]|, m requires 0 <= m < |rows[0][0]| =>
      (GridShaped(rows, n, e, m); Stack2(ExpertGrid(rows, n, e, m), n, rows[0][0][m].shape)))
  }

  /** What the loop leaves in the accumulators: nothing that was never
      allocated, the stacked gate arrays, and the (expert, layer) arrays. */
  function MoeStacked<T>(g: nat -> Result<seq<Tensor<T>>>, x: (nat, nat) -> Result<seq<Tensor<T>>>, n: nat, e: nat)
    : (r: Result<(Option<seq<Tensor<T>>>, Option<seq<Tensor<T>>>)>)
    ensures r.Ok? <==> LayersFit(g, x, e, n)
    ensures r.Ok? ==> (r.value.0.Some? <==> n > 0) && (r.value.1.Some? <==> n > 0 && e > 0)
  {
    MoeLayersOk(g, x, e, n);
    var run :- MoeLayers(g, x, e, n);
    if n == 0 then Ok((None, None))
    else
      MoeLayersValues(g, x, e, n);
      assert Uniform(run.gates);
      var gates := StackAll(run.gates);
      if e == 0 then Ok((Some(gates), None))
      else
        assert RowsFit(run.experts, n, e);
        Ok((Some(gates), Some(ExpertArrays(run.experts, n, e))))
  }

  /** The gate array of member `m` holds layer `l`'s gate at `[l, ...]`, and
      the expert array of member `m` holds expert `k` of layer `l` at
      `[k, l, ...]`: no transpose is applied to the expert arrays. */
  lemma MoeStackedAt<T>(g: nat -> Result<seq<Tensor<T>>>, x: (nat, nat) -> Result<seq<Tensor<T>>>, n: nat, e: nat,
                        m: nat, k: nat, l: nat, i: Index)
    requires MoeStacked(g, x, n, e).Ok? && e > 0 && l < n && k < e
    requires x(0, 0).Ok? && m < |x(0, 0).value| && InBounds(x(0, 0).value[m].shape, i)
    ensures MoeStacked(g, x, n, e).value.1.Some? && m < |MoeStacked(g, x, n, e).value.1.value|
    ensures x(l, k).Ok? && m < |x(l, k).value| && InBounds(x(l, k).value[m].shape, i)
    ensures var a := MoeStacked(g, x, n, e).value.1.value[m];
      && Valid(a) && a.shape == [e, n] + x(0, 0).value[m].shape
      && At(a, [k, l] + i) == At(x(l, k).value[m], i)
  {
    MoeLayersOk(g, x, e, n);
    MoeLayersValues(g, x, e, n);
    var run := MoeLayers(g, x, e, n).value;
    assert RowsFit(run.experts, n, e);
    GridShaped(run.experts, n, e, m);
    Stack2At(ExpertGrid(run.experts, n, e, m), n, run.experts[0][0][m].shape, k, l, i);
  }

  lemma MoeGateAt<T>(g: nat -> Result<seq<Tensor<T>>>, x: (nat, nat) -> Result<seq<Tensor<T>>>, n: nat, e: nat,
                     m: nat, l: nat, i: Index)
    requires MoeStacked(g, x, n, e).Ok? && l < n
    requires g(0).Ok? && m < |g(0).value| && InBounds(g(0).value[m].shape, i)
    ensures MoeStacked(g, x, n, e).value.0.Some? && m < |MoeStacked(g, x, n, e).value.0.value|
    ensures g(l).Ok? && m < |g(l).value| && InBounds(g(l).value[m].shape, i)
    ensures var a := MoeStacked(g, x, n, e).value.0.value[m];
      && Valid(a) && a.shape == [n] + g(0).value[m].shape
      && At(a, [l] + i) == At(g(l).value[m], i)
  {
    MoeLayersOk(g, x, e, n);
    MoeLayersValues(g, x, e, n);
    var run := MoeLayers(g, x, e, n).value;
    assert Uniform(run.gates);
    ColumnShaped(run.gates, m);
    StackAt(Column(run.gates, m), run.gates[0][m].shape, l, i);
  }

  /** The same for a matrix gate of layer `l` that the caller holds:
      its element `[i, j]` is element `[l, i, j]` of the gate array. */
  lemma MoeGateMatrixAt<T>(g: nat -> Result<seq<Tensor<T>>>, x: (nat, nat) -> Result<seq<Tensor<T>>>, n: nat, e: nat,
                           l: nat, gl: seq<Tensor<T>>, i: nat, j: nat)
    requires MoeStacked(g, x, n, e).Ok? && l < n && g(l) == Ok(gl)
    requires |gl| > 0 && |gl[0].shape| == 2 && i < gl[0].shape[0] && j < gl[0].shape[1]
    ensures var st := MoeStacked(g, x, n, e).value;
      && st.0.Some? && 0 < |st.0.value| && Valid(st.0.value[0]) && InBounds(st.0.value[0].shape, [l, i, j])
      && At(st.0.value[0], [l, i, j]) == At(gl[0], [i, j])
  {
    assert GatesFit(g, n);
    assert Fits(g(l).value, g(0).value);
    MoeGateAt(g, x, n, e, 0, l, [i, j]);
    assert [l] + [i, j] == [l, i, j];
  }

  /** The same for matrix `m` of expert `k` of layer `l` that the caller
      holds: its element `[i, j]` is element `[k, l, i, j]` of expert array `m`. */
  lemma MoeExpertMatrixAt<T>(g: nat -> Result<seq<Tensor<T>>>, x: (nat, nat) -> Result<seq<Tensor<T>>>, n: nat, e: nat,
                             l: nat, k: nat, xl: seq<Tensor<T>>, m: nat, i: nat, j: nat)
    requires MoeStacked(g, x, n, e).Ok? && l < n && k < e && x(l, k) == Ok(xl)
    requires m < |xl| && |xl[m].shape| == 2 && i < xl[m].shape[0] && j < xl[m].shape[1]
    ensures var st := MoeStacked(g, x, n, e).value;
      && st.1.Some? && m < |st.1.value| && Valid(st.1.value[m]) && InBounds(st.1.value[m].shape, [k, l, i, j])
      && At(st.1.value[m], [k, l, i, j]) == At(xl[m], [i, j])
  {
    assert ExpertsFit(x, e, n);
    assert Fits(x(l, k).value, x(0, 0).value);
    MoeStackedAt(g, x, n, e, m, k, l, [i, j]);
    assert [k, l] + [i, j] == [k, l, i, j];
    InBoundsJoin([e, n], [k, l], x(0, 0).value[m].shape, [i, j]);
  }

  /** A finished run has one gate array per gate kernel of layer 0, with the
      layers in front, and one expert array per kernel of expert 0, with
      experts and then layers in front. */
  lemma MoeStackedShapes<T>(g: nat -> Result<seq<Tensor<T>>>, x: (nat, nat) -> Result<seq<Tensor<T>>>, n: nat, e: nat)
    requires MoeStacked(g, x, n, e).Ok? && n > 0
    ensures g(0).Ok? && |MoeStacked(g, x, n, e).value.0.value| == |g(0).value|
    ensures forall m :: 0 <= m < |g(0).value| ==>
      Valid(MoeStacked(g, x, n, e).value.0.value[m]) && MoeStacked(g, x, n, e).value.0.value[m].shape == [n] + g(0).value[m].shape
    ensures e > 0 ==> x(0, 0).Ok? && |MoeStacked(g, x, n, e).value.1.value| == |x(0, 0).value|
    ensures e > 0 ==> forall m :: 0 <= m < |x(0, 0).value| ==>
      Valid(MoeStacked(g, x, n, e).value.1.value[m]) && MoeStacked(g, x, n, e).value.1.value[m].shape == [e, n] + x(0, 0).value[m].shape
  {
    MoeLayersOk(g, x, e, n);
    MoeLayersValues(g, x, e, n);
    var run := MoeLayers(g, x, e, n).value;
    assert Uniform(run.gates);
    forall m | 0 <= m < |g(0).value|
      ensures Valid(MoeStacked(g, x, n, e).value.0.value[m]) && MoeStacked(g, x, n, e).value.0.value[m].shape == [n] + g(0).value[m].shape
    {
      ColumnShaped(run.gates, m);
    }
    if e > 0 {
      assert RowsFit(run.experts, n, e);
      forall m | 0 <= m < |x(0, 0).value|
        ensures Valid(MoeStacked(g, x, n, e).value.1.value[m]) && MoeStacked(g, x, n, e).value.1.value[m].shape == [e, n] + x(0, 0).value[m].shape
      {
        GridShaped(run.experts, n, e, m);
      }
    }
  }

  // ---------------------------------------------------------------------
  // Error propagation

  lemma {:induction false} MoeErrPersists<T>(g: nat -> Result<seq<Tensor<T>>>, x: (nat, nat) -> Result<seq<Tensor<T>>>,
                                             e: nat, l: nat, n: nat)
    requires l <= n && MoeLayers(g, x, e, l).Err?
    ensures MoeLayers(g, x, e, n) == Err(MoeLayers(g, x, e, l).error)
    decreases n - l
  {
    if l < n {
      MoeErrPersists(g, x, e, l + 1, n);
    }
  }

  lemma {:induction false} RowErrPersists<T>(x: (nat, nat) -> Result<seq<Tensor<T>>>, l: nat, k: nat, e: nat)
    requires k <= e && (l > 0 && e > 0 ==> x(0, 0).Ok?) && ExpertRow(x, l, k).Err?
    ensures ExpertRow(x, l, e) == Err(ExpertRow(x, l, k).error)
    decreases e - k
  {
    if k < e {
      RowErrPersists(x, l, k + 1, e);
    }
  }

  // ---------------------------------------------------------------------
  // The accumulators

  /** The accumulators of the expert kernels: `slots[m, k, l]` is expert `k`,
      layer `l` of kernel `m`. */
  class ExpertStacks<T> {
    const shapes: seq<Shape>
    const slots: array3<Tensor<T>>

    predicate Valid()
      reads this, slots
    {
      && slots.Length0 == |shapes|
      && forall m, k, l :: 0 <= m < slots.Length0 && 0 <= k < slots.Length1 && 0 <= l < slots.Length2 ==>
           Tensors.Valid(slots[m, k, l]) && slots[m, k, l].shape == shapes[m]
    }

    /** `np.zeros((num_experts, num_layers) + w.shape)` for every kernel `w` of the first expert. */
    constructor (e: nat, n: nat, w0: seq<Tensor<T>>, zero: T)
      ensures shapes == seq(|w0|, m requires 0 <= m < |w0| => w0[m].shape)
      ensures slots.Length0 == |w0| && slots.Length1 == e && slots.Length2 == n && fresh(slots)
      ensures forall m, k, l :: 0 <= m < |w0| && 0 <= k < e && 0 <= l < n ==> slots[m, k, l] == Zeros(w0[m].shape, zero)
      ensures Valid()
    {
      shapes := seq(|w0|, m requires 0 <= m < |w0| => w0[m].shape);
      slots := new Tensor<T>[|w0|, e, n]((m, k, l) requires 0 <= m < |w0| => Zeros(w0[m].shape, zero));
    }

    /** `kernel[k, l, ...] = w` for each kernel in turn. */
    method Write(k: nat, l: nat, w: seq<Tensor<T>>) returns (ok: bool)
      requires Valid() && k < slots.Length1 && l < slots.Length2
      modifies slots
      ensures Valid()
      ensures ok <==> |w| == |shapes| && forall m :: 0 <= m < |w| ==> Tensors.Valid(w[m]) && w[m].shape == shapes[m]
      ensures ok ==> forall m, k', l' :: 0 <= m < slots.Length0 && 0 <= k' < slots.Length1 && 0 <= l' < slots.Length2 ==>
        slots[m, k', l'] == if k' == k && l' == l then w[m] else old(slots[m, k', l'])
    {
      if |w| != |shapes| {
        return false;
      }
      var m := 0;
      while m < |w|
        invariant 0 <= m <= |w| && Valid()
        invariant forall j :: 0 <= j < m ==> Tensors.Valid(w[j]) && w[j].shape == shapes[j]
        invariant forall j, k', l' :: 0 <= j < slots.Length0 && 0 <= k' < slots.Length1 && 0 <= l' < slots.Length2 ==>
          slots[j, k', l'] == if k' == k && l' == l && j < m then w[j] else old(slots[j, k', l'])
      {
        if !(Tensors.Valid(w[m]) && w[m].shape == shapes[m]) {
          return false;
        }
        slots[m, k, l] := w[m];
        m := m + 1;
      }
      return true;
    }

    /** The slots of kernel `m`, expert by expert and layer by layer. */
    function Grid(m: nat): (w: seq<seq<Tensor<T>>>)
      reads this, slots
      requires m < slots.Length0
      ensures |w| == slots.Length1
      ensures forall k :: 0 <= k < |w| ==> |w[k]| == slots.Length2 && forall l :: 0 <= l < |w[k]| ==> w[k][l] == slots[m, k, l]
    {
      seq(slots.Length1, k requires 0 <= k < slots.Length1 reads slots =>
        seq(slots.Length2, l requires 0 <= l < slots.Length2 reads slots => slots[m, k, l]))
    }

    /** Every kernel's accumulator as an array with axes (expert, layer, ...). */
    method Stacks() returns (r: seq<Tensor<T>>)
      requires Valid()
      ensures |r| == |shapes|
      ensures forall m :: 0 <= m < |r| ==>
        AllShaped2(Grid(m), slots.Length2, shapes[m]) && r[m] == Stack2(Grid(m), slots.Length2, shapes[m])
    {
      r := [];
      var m := 0;
      while m < |shapes|
        invariant 0 <= m <= |shapes| && |r| == m
        invariant forall j :: 0 <= j < m ==>
          AllShaped2(Grid(j), slots.Length2, shapes[j]) && r[j] == Stack2(Grid(j), slots.Length2, shapes[j])
      {
        r := r + [Stack2(Grid(m), slots.Length2, shapes[m])];
        m := m + 1;
      }
    }
  }

  // ---------------------------------------------------------------------
  // The loop

  lemma ExpertRowStep<T>(x: (nat, nat) -> Result<seq<Tensor<T>>>, l: nat, k: nat)
    requires (l > 0 ==> x(0, 0).Ok?) && ExpertRow(x, l, k).Ok?
    ensures x(l, k).Err? ==> ExpertRow(x, l, k + 1) == Err(x(l, k).error)
    ensures x(l, k).Ok? && !Fits(x(l, k).value, if l == 0 && k == 0 then x(l, k).value else x(0, 0).value) ==>
      ExpertRow(x, l, k + 1) == Err(ShapeMismatch)
    ensures x(l, k).Ok? && Fits(x(l, k).value, if l == 0 && k == 0 then x(l, k).value else x(0, 0).value) ==>
      ExpertRow(x, l, k + 1).Ok?
  {
  }

  /** Expert `k` of layer `l`: compute it and write it into slot `[k, l]`. */
  method FillExpert<T>(acc: ExpertStacks<T>, x: (nat, nat) -> Result<seq<Tensor<T>>>, l: nat, k: nat)
    returns (err: Option<ConvError>)
    requires x(0, 0).Ok? && acc.Valid() && k < acc.slots.Length1 && l < acc.slots.Length2
    requires acc.shapes == seq(|x(0, 0).value|, m requires 0 <= m < |x(0, 0).value| => x(0, 0).value[m].shape)
    requires ExpertRow(x, l, k).Ok?
    modifies acc.slots
    ensures acc.Valid()
    ensures err.Some? ==> ExpertRow(x, l, k + 1) == Err(err.value)
    ensures err.None? ==> ExpertRow(x, l, k + 1).Ok? && |x(l, k).value| == acc.slots.Length0
    ensures err.None? ==> forall m, k', l' :: 0 <= m < acc.slots.Length0 && 0 <= k' < acc.slots.Length1 && 0 <= l' < acc.slots.Length2 ==>
      acc.slots[m, k', l'] == if k' == k && l' == l then x(l, k).value[m] else old(acc.slots[m, k', l'])
  {
    var w := x(l, k);
    ExpertRowStep(x, l, k);
    if w.Err? {
      return Some(w.error);
    }
    var ok := acc.Write(k, l, w.value);
    if !ok {
      assert !Fits(w.value, x(0, 0).value);
      return Some(ShapeMismatch);
    }
    return None;
  }

  /** The expert loop of layer `l`: compute expert `k`, write it into slot `[k, l]`. */
  method FillExperts<T>(acc: ExpertStacks<T>, x: (nat, nat) -> Result<seq<Tensor<T>>>, l: nat, from: nat, e: nat)
    returns (err: Option<ConvError>)
    requires x(0, 0).Ok? && acc.Valid() && from <= e && acc.slots.Length1 == e && l < acc.slots.Length2
    requires acc.shapes == seq(|x(0, 0).value|, m requires 0 <= m < |x(0, 0).value| => x(0, 0).value[m].shape)
    requires ExpertRow(x, l, from).Ok?
    modifies acc.slots
    ensures acc.Valid()
    ensures err.Some? ==> ExpertRow(x, l, e) == Err(err.value)
    ensures err.None? ==> ExpertRow(x, l, e).Ok?
    ensures err.None? ==> forall m, k, l' :: 0 <= m < acc.slots.Length0 && 0 <= k < e && 0 <= l' < acc.slots.Length2 ==>
      acc.slots[m, k, l'] == if l' == l && from <= k then x(l, k).value[m] else old(acc.slots[m, k, l'])
  {
    var k := from;
    while k < e
      invariant from <= k <= e && acc.Valid()
      invariant ExpertRow(x, l, k).Ok?
      invariant forall m, j, l' :: 0 <= m < acc.slots.Length0 && 0 <= j < e && 0 <= l' < acc.slots.Length2 ==>
        acc.slots[m, j, l'] == if l' == l && from <= j < k then x(l, j).value[m] else old(acc.slots[m, j, l'])
    {
      err := FillExpert(acc, x, l, k);
      if err.Some? {
        RowErrPersists(x, l, k + 1, e);
        return;
      }
      k := k + 1;
    }
    return None;
  }

  lemma MoeStep<T>(g: nat -> Result<seq<Tensor<T>>>, x: (nat, nat) -> Result<seq<Tensor<T>>>, e: nat, l: nat)
    requires MoeLayers(g, x, e, l).Ok?
    ensures g(l).Err? ==> MoeLayers(g, x, e, l + 1) == Err(g(l).error)
    ensures g(l).Ok? && !Fits(g(l).value, if l == 0 then g(l).value else g(0).value) ==>
      MoeLayers(g, x, e, l + 1) == Err(ShapeMismatch)
    ensures g(l).Ok? && Fits(g(l).value, if l == 0 then g(l).value else g(0).value) ==>
      && (l > 0 && e > 0 ==> x(0, 0).Ok?)
      && (ExpertRow(x, l, e).Err? ==> MoeLayers(g, x, e, l + 1) == Err(ExpertRow(x, l, e).error))
      && (ExpertRow(x, l, e).Ok? ==> MoeLayers(g, x, e, l + 1).Ok?)
  {
  }

  /** The gate accumulators before layer `l`: allocated from layer 0's gate
      once layer 0 is done, holding layer `j`'s gate in slot `j`. */
  ghost predicate GatesHeld<T>(gates: LayerStacks?<T>, g: nat -> Result<seq<Tensor<T>>>, n: nat, l: nat)
    reads gates, if gates != null then {gates.slots} else {}
  {
    && l <= n && (gates == null <==> l == 0)
    && (gates != null ==>
          && g(0).Ok? && gates.Valid() && gates.shapes == ShapesOf(g(0).value) && gates.slots.Length1 == n
          && (forall j :: 0 <= j < l ==> g(j).Ok? && |g(j).value| == gates.slots.Length0)
          && forall m, j :: 0 <= m < gates.slots.Length0 && 0 <= j < l ==> gates.slots[m, j] == g(j).value[m])
  }

  /** The expert accumulators before layer `l`: allocated from expert 0 of
      layer 0 once it is computed, holding expert `k` of layer `j` in slot `[k, j]`. */
  ghost predicate ExpertsHeld<T>(acc: ExpertStacks?<T>, x: (nat, nat) -> Result<seq<Tensor<T>>>, n: nat, e: nat, l: nat)
    reads acc, if acc != null then {acc.slots} else {}
  {
    && l <= n && (acc == null <==> l == 0 || e == 0)
    && (acc != null ==>
          && x(0, 0).Ok? && acc.Valid() && acc.shapes == ShapesOf(x(0, 0).value)
          && acc.slots.Length1 == e && acc.slots.Length2 == n
          && (forall j, k :: 0 <= j < l && 0 <= k < e ==> x(j, k).Ok? && |x(j, k).value| == acc.slots.Length0)
          && forall m, k, j :: 0 <= m < acc.slots.Length0 && 0 <= k < e && 0 <= j < l ==>
               acc.slots[m, k, j] == x(j, k).value[m])
  }

  /** Expert 0 of layer 0: compute it, allocate the accumulators from it
      and write it into slot `[0, 0]`. */
  method FirstExpert<T>(x: (nat, nat) -> Result<seq<Tensor<T>>>, n: nat, e: nat, zero: T)
    returns (acc: ExpertStacks?<T>, err: Option<ConvError>)
    requires 0 < n && 0 < e
    ensures err.Some? ==> ExpertRow(x, 0, e) == Err(err.value)
    ensures err.None? ==> && ExpertRow(x, 0, 1).Ok? && acc != null && fresh(acc.slots)
                          && x(0, 0).Ok? && acc.Valid() && acc.shapes == ShapesOf(x(0, 0).value)
                          && acc.slots.Length1 == e && acc.slots.Length2 == n
                          && forall m :: 0 <= m < acc.slots.Length0 ==> acc.slots[m, 0, 0] == x(0, 0).value[m]
  {
    var w := x(0, 0);
    if w.Err? {
      assert ExpertRow(x, 0, 1) == Err(w.error);
      RowErrPersists(x, 0, 1, e);
      return null, Some(w.error);
    }
    acc := new ExpertStacks(e, n, w.value, zero);
    var ok := acc.Write(0, 0, w.value);
    if !ok {
      assert ExpertRow(x, 0, 1) == Err(ShapeMismatch);
      RowErrPersists(x, 0, 1, e);
      return acc, Some(ShapeMismatch);
    }
    assert ExpertRow(x, 0, 1).Ok?;
    return acc, None;
  }

  /** The expert loop of one layer, allocating the accumulators at the first
      expert of the first layer. */
  method ExpertLoop<T>(acc: ExpertStacks?<T>, x: (nat, nat) -> Result<seq<Tensor<T>>>, l: nat, n: nat, e: nat, zero: T)
    returns (acc': ExpertStacks?<T>, err: Option<ConvError>)
    requires l < n && ExpertsHeld(acc, x, n, e, l)
    modifies if acc != null then {acc.slots} else {}
    ensures err.Some? ==> ExpertRow(x, l, e) == Err(err.value)
    ensures err.None? ==> ExpertRow(x, l, e).Ok? && ExpertsHeld(acc', x, n, e, l + 1)
    ensures err.None? && acc != null ==> acc' == acc
    ensures err.None? && acc == null && acc' != null ==> fresh(acc'.slots)
  {
    acc' := acc;
    if e == 0 {
      return acc', None;
    }
    var from := 0;
    if acc' == null {
      acc', err := FirstExpert(x, n, e, zero);
      if err.Some? {
        return;
      }
      from := 1;
    }
    err := FillExperts(acc', x, l, from, e);
    if err.None? {
      ExpertsAdvance(acc', x, n, e, l, from);
    }
  }

  /** After the expert loop of layer `l` the accumulators hold layer `l` too. */
  lemma ExpertsAdvance<T>(acc: ExpertStacks<T>, x: (nat, nat) -> Result<seq<Tensor<T>>>, n: nat, e: nat, l: nat, from: nat)
    requires l < n && e > 0 && from <= 1 && (from == 1 ==> l == 0)
    requires x(0, 0).Ok? && acc.Valid() && acc.shapes == ShapesOf(x(0, 0).value)
    requires acc.slots.Length1 == e && acc.slots.Length2 == n
    requires forall j, k :: 0 <= j < l && 0 <= k < e ==> x(j, k).Ok? && |x(j, k).value| == acc.slots.Length0
    requires forall m, k, j :: 0 <= m < acc.slots.Length0 && 0 <= k < e && 0 <= j < l ==>
      acc.slots[m, k, j] == x(j, k).value[m]
    requires from == 1 ==> forall m :: 0 <= m < acc.slots.Length0 ==> acc.slots[m, 0, 0] == x(0, 0).value[m]
    requires ExpertRow(x, l, e).Ok?
    requires forall m, k :: 0 <= m < acc.slots.Length0 && from <= k < e ==> acc.slots[m, k, l] == x(l, k).value[m]
    ensures ExpertsHeld(acc, x, n, e, l + 1)
  {
    forall j, k | 0 <= j < l + 1 && 0 <= k < e ensures x(j, k).Ok? && |x(j, k).value| == acc.slots.Length0 {
      if j == l {
        assert Fits(x(l, k).value, x(0, 0).value);
      }
    }
  }

  /** The gate group of layer `l`: compute it, allocate the accumulators after
      layer 0 and write it into slot `l`. */
  method GateStep<T>(gates: LayerStacks?<T>, g: nat -> Result<seq<Tensor<T>>>, n: nat, l: nat, zero: T)
    returns (gates': LayerStacks?<T>, err: Option<ConvError>)
    requires l < n && GatesHeld(gates, g, n, l)
    modifies if gates != null then {gates.slots} else {}
    ensures g(l).Err? ==> err == Some(g(l).error)
    ensures g(l).Ok? && !Fits(g(l).value, if l == 0 then g(l).value else g(0).value) ==> err == Some(ShapeMismatch)
    ensures g(l).Ok? && Fits(g(l).value, if l == 0 then g(l).value else g(0).value) ==> err.None?
    ensures err.None? ==> GatesHeld(gates', g, n, l + 1)
    ensures err.None? && gates != null ==> gates' == gates
    ensures err.None? && gates == null && gates' != null ==> fresh(gates'.slots)
  {
    gates' := gates;
    var gate := g(l);
    if gate.Err? {
      return gates', Some(gate.error);
    }
    if gates' == null {
      gates' := new LayerStacks(n, gate.value, zero);
    }
    var ok := gates'.Write(l, gate.value);
    if !ok {
      return gates', Some(ShapeMismatch);
    }
    return gates', None;
  }

  /** One layer of the loop: the gate group, then the expert loop. */
  method MoeLayer<T>(gates: LayerStacks?<T>, experts: ExpertStacks?<T>,
                     g: nat -> Result<seq<Tensor<T>>>, x: (nat, nat) -> Result<seq<Tensor<T>>>,
                     n: nat, e: nat, l: nat, zero: T)
    returns (gates': LayerStacks?<T>, experts': ExpertStacks?<T>, err: Option<ConvError>)
    requires l < n && MoeLayers(g, x, e, l).Ok? && GatesHeld(gates, g, n, l) && ExpertsHeld(experts, x, n, e, l)
    modifies (if gates != null then {gates.slots} else {}), (if experts != null then {experts.slots} else {})
    ensures err.Some? ==> MoeLayers(g, x, e, l + 1) == Err(err.value)
    ensures err.None? ==> MoeLayers(g, x, e, l + 1).Ok? && GatesHeld(gates', g, n, l + 1) && ExpertsHeld(experts', x, n, e, l + 1)
    ensures err.None? && gates != null ==> gates' == gates
    ensures err.None? && gates == null && gates' != null ==> fresh(gates'.slots)
    ensures err.None? && experts != null ==> experts' == experts
    ensures err.None? && experts == null && experts' != null ==> fresh(experts'.slots)
  {
    MoeStep(g, x, e, l);
    experts' := experts;
    gates', err := GateStep(gates, g, n, l, zero);
    if err.Some? {
      return;
    }
    experts', err := ExpertLoop(experts, x, l, n, e, zero);
  }

  /** The mixture-of-experts layer loop: for each layer, the gate group is
      computed, allocated after the first layer and written into slot `l`; then
      each expert group is computed, allocated after the first expert and
      written into slot `[k, l]`.  The result is the stacked gate arrays and
      the (expert, layer) arrays, or the first error. */
  method MoeLoop<T>(g: nat -> Result<seq<Tensor<T>>>, x: (nat, nat) -> Result<seq<Tensor<T>>>, n: nat, e: nat, zero: T)
    returns (r: Result<(Option<seq<Tensor<T>>>, Option<seq<Tensor<T>>>)>)
    ensures r == MoeStacked(g, x, n, e)
  {
    var gates, experts, err := RunLayers(g, x, n, e, zero);
    if err.Some? {
      return Err(err.value);
    }
    if n == 0 {
      return Ok((None, None));
    }
    r := MoeResult(g, x, n, e, n, gates, experts);
  }

  /** The layer loop itself, leaving the filled accumulators or the first error. */
  method RunLayers<T>(g: nat -> Result<seq<Tensor<T>>>, x: (nat, nat) -> Result<seq<Tensor<T>>>, n: nat, e: nat, zero: T)
    returns (gates: LayerStacks?<T>, experts: ExpertStacks?<T>, err: Option<ConvError>)
    ensures err.Some? ==> MoeLayers(g, x, e, n) == Err(err.value)
    ensures err.None? ==> MoeLayers(g, x, e, n).Ok? && GatesHeld(gates, g, n, n) && ExpertsHeld(experts, x, n, e, n)
  {
    gates, experts := null, null;
    var l := 0;
    while l < n
      invariant 0 <= l <= n && MoeLayers(g, x, e, l).Ok?
      invariant GatesHeld(gates, g, n, l) && ExpertsHeld(experts, x, n, e, l)
      invariant gates != null ==> fresh(gates.slots)
      invariant experts != null ==> fresh(experts.slots)
    {
      gates, experts, err := MoeLayer(gates, experts, g, x, n, e, l, zero);
      if err.Some? {
        MoeErrPersists(g, x, e, l + 1, n);
        return;
      }
      l := l + 1;
    }
    return gates, experts, None;
  }

  /** The accumulators after the loop, read out as arrays. */
  method MoeResult<T>(g: nat -> Result<seq<Tensor<T>>>, x: (nat, nat) -> Result<seq<Tensor<T>>>, n: nat, e: nat, l: nat,
                      gates: LayerStacks?<T>, experts: ExpertStacks?<T>)
    returns (r: Result<(Option<seq<Tensor<T>>>, Option<seq<Tensor<T>>>)>)
    requires l == n && n > 0
    requires MoeLayers(g, x, e, l).Ok? && GatesHeld(gates, g, n, l) && ExpertsHeld(experts, x, n, e, l)
    ensures r == MoeStacked(g, x, n, e)
  {
    MoeLayersOk(g, x, e, n);
    MoeLayersValues(g, x, e, n);
    var run := MoeLayers(g, x, e, n).value;
    assert Uniform(run.gates);
    var gs := gates.Stacks();
    assert gs == StackAll(run.gates) by {
      forall m | 0 <= m < |gs| ensures gs[m] == StackAll(run.gates)[m] {
        assert gates.Slots(m) == Column(run.gates, m) by {
          forall j | 0 <= j < n ensures gates.Slots(m)[j] == Column(run.gates, m)[j] {
            assert gates.slots[m, j] == g(j).value[m];
          }
        }
      }
    }
    if experts == null {
      return Ok((Some(gs), None));
    }
    assert RowsFit(run.experts, n, e);
    var xs := experts.Stacks();
    assert xs == ExpertArrays(run.experts, n, e) by {
      forall m | 0 <= m < |xs| ensures xs[m] == ExpertArrays(run.experts, n, e)[m] {
        GridShaped(run.experts, n, e, m);
        assert experts.Grid(m) == ExpertGrid(run.experts, n, e, m) by {
          forall k | 0 <= k < e ensures experts.Grid(m)[k] == ExpertGrid(run.experts, n, e, m)[k] {
            forall j | 0 <= j < n ensures experts.Grid(m)[k][j] == ExpertGrid(run.experts, n, e, m)[k][j] {
              assert experts.slots[m, k, j] == x(j, k).value[m];
            }
          }
        }
      }
    }
    return Ok((Some(gs), Some(xs)));
  }
}
