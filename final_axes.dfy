/** The axis orders the converter gives its stacked arrays at the end, and
    where each element of a stack lands under them. */
module FinalAxes {
  import opened Tensors

  const QkvAxes: seq<nat> := [1, 0, 2, 3]
  const OutAxes: seq<nat> := [2, 0, 3, 1]
  const NormAxes: seq<nat> := [1, 0]
  const MlpAxes: seq<nat> := [1, 0, 2]

  /** The four final orders are permutations of their ranks. */
  lemma FinalAxesArePerms()
    ensures IsPerm(QkvAxes, 4) && IsPerm(OutAxes, 4) && IsPerm(NormAxes, 2) && IsPerm(MlpAxes, 3)
  {
    assert QkvAxes[1] == 0 && QkvAxes[0] == 1 && QkvAxes[2] == 2 && QkvAxes[3] == 3;
    assert OutAxes[1] == 0 && OutAxes[3] == 1 && OutAxes[0] == 2 && OutAxes[2] == 3;
    assert NormAxes[1] == 0 && NormAxes[0] == 1;
    assert MlpAxes[1] == 0 && MlpAxes[0] == 1 && MlpAxes[2] == 2;
  }

  /** Query, key and value stacks `[layer, embed, heads, head_dim]` become
      `[embed, layer, heads, head_dim]`. */
  lemma QkvTransposeAt<T>(t: Tensor<T>, l: nat, e: nat, h: nat, k: nat)
    requires Valid(t) && InBounds(t.shape, [l, e, h, k])
    ensures IsPerm(QkvAxes, |t.shape|)
    ensures InBounds(Transpose(t, QkvAxes).shape, [e, l, h, k])
    ensures At(Transpose(t, QkvAxes), [e, l, h, k]) == At(t, [l, e, h, k])
  {
    FinalAxesArePerms();
    var j: Index := [e, l, h, k];
    assert InBounds(PermShape(t.shape, QkvAxes), j) by {
      assert PermShape(t.shape, QkvAxes) == [t.shape[1], t.shape[0], t.shape[2], t.shape[3]];
    }
    TransposeAt(t, QkvAxes, j, [l, e, h, k]);
  }

  /** An out stack `[layer, embed, heads, head_dim]` becomes
      `[heads, layer, head_dim, embed]`. */
  lemma OutTransposeAt<T>(t: Tensor<T>, l: nat, e: nat, h: nat, k: nat)
    requires Valid(t) && InBounds(t.shape, [l, e, h, k])
    ensures IsPerm(OutAxes, |t.shape|)
    ensures InBounds(Transpose(t, OutAxes).shape, [h, l, k, e])
    ensures At(Transpose(t, OutAxes), [h, l, k, e]) == At(t, [l, e, h, k])
  {
    FinalAxesArePerms();
    var j: Index := [h, l, k, e];
    assert InBounds(PermShape(t.shape, OutAxes), j) by {
      assert PermShape(t.shape, OutAxes) == [t.shape[2], t.shape[0], t.shape[3], t.shape[1]];
    }
    TransposeAt(t, OutAxes, j, [l, e, h, k]);
  }

  /** A stack of vectors `[layer, i]` becomes `[i, layer]`. */
  lemma SwapAt2<T>(t: Tensor<T>, l: nat, i: nat)
    requires Valid(t) && InBounds(t.shape, [l, i])
    ensures IsPerm(NormAxes, |t.shape|)
    ensures InBounds(Transpose(t, NormAxes).shape, [i, l])
    ensures At(Transpose(t, NormAxes), [i, l]) == At(t, [l, i])
  {
    FinalAxesArePerms();
    assert PermShape(t.shape, NormAxes) == [t.shape[1], t.shape[0]];
    TransposeAt(t, NormAxes, [i, l], [l, i]);
  }

  /** A stack of matrices `[layer, i, j]` becomes `[i, layer, j]`. */
  lemma SwapAt3<T>(t: Tensor<T>, l: nat, i: nat, j: nat)
    requires Valid(t) && InBounds(t.shape, [l, i, j])
    ensures IsPerm(MlpAxes, |t.shape|)
    ensures InBounds(Transpose(t, MlpAxes).shape, [i, l, j])
    ensures At(Transpose(t, MlpAxes), [i, l, j]) == At(t, [l, i, j])
  {
    FinalAxesArePerms();
    assert PermShape(t.shape, MlpAxes) == [t.shape[1], t.shape[0], t.shape[2]];
    TransposeAt(t, MlpAxes, [i, l, j], [l, i, j]);
  }
}
