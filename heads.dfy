/** Splitting a projection matrix into attention heads, with or without
    the rotary permutation of each head's dimensions. */
module Heads {
  import opened Results
  import opened Tensors
  import opened Rope

  /** The rotary permutation when `permute` holds, the kernel itself otherwise. */
  function RopeIf<T>(t: Tensor<T>, permute: bool): (r: Tensor<T>)
    requires Valid(t) && |t.shape| > 0
    ensures Valid(r) && r.shape == t.shape
    ensures !permute ==> r == t
  {
    if permute then PermuteToMatchMaxTextRope(t) else t
  }

  /** Row `a * d + b` of a projection split into heads of `d`. */
  function Row(a: nat, d: nat, b: nat): nat
  {
    a * d + b
  }

  /** The last-axis position a permuted (or unpermuted) kernel reads. */
  function RopeIndex(permute: bool, n: nat, p: nat): (q: nat)
    ensures p < n ==> q < n
  {
    if permute then RopeSource(n, p) else p
  }

  /** A projection of shape `[h * d, m]` transposed and reshaped to `[m, h, d]`. */
  function SplitHeads<T>(w: Tensor<T>, m: nat, h: nat, d: nat): (r: Result<Tensor<T>>)
    requires Valid(w)
    ensures r.Ok? <==> Prod([m, h, d]) == Prod(TransposeAll(w).shape)
    ensures r.Ok? ==> Valid(r.value) && r.value.shape == [m, h, d]
  {
    Reshape(TransposeAll(w), [m, h, d])
  }

  /** A projection of shape `[h * d, m]` (output rows, input columns)
      transposed and split into `h` heads of `d`: element `[e, a, b]` is the
      projection's entry at row `a * d + b` and column `e`. */
  lemma SplitHeadsAt<T>(w: Tensor<T>, m: nat, h: nat, d: nat, e: nat, a: nat, b: nat)
    requires Valid(w) && w.shape == [h * d, m] && e < m && a < h && b < d
    ensures SplitHeads(w, m, h, d).Ok?
    ensures Row(a, d, b) < h * d
    ensures At(SplitHeads(w, m, h, d).value, [e, a, b]) == At(w, [Row(a, d, b), e])
  {
    MulAddBound(a, b, h, d);
    TransposeAllMatrix(w, e, a * d + b);
    SplitLastAxis(TransposeAll(w), m, h, d, e, a, b);
  }

  /** The optional permutation moves elements along the head dimension only. */
  lemma RopeIfAt<T>(q: Tensor<T>, m: nat, h: nat, d: nat, permute: bool, e: nat, a: nat, b: nat)
    requires Valid(q) && q.shape == [m, h, d] && e < m && a < h && b < d
    ensures RopeIndex(permute, d, b) < d
    ensures At(RopeIf(q, permute), [e, a, b]) == At(q, [e, a, RopeIndex(permute, d, b)])
  {
    if permute {
      assert LastAxis(q.shape) == 2;
      PermuteAt(q, [e, a, b]);
      assert [e, a, b][2 := RopeSource(d, b)] == [e, a, RopeSource(d, b)];
    }
  }

  /** Splitting and then optionally permuting: element `[e, a, b]` is the
      projection's entry at row `a * d + b'` and column `e`, where `b'` is
      `b` or its rotary source. */
  lemma ProjectionAt<T>(w: Tensor<T>, m: nat, h: nat, d: nat, permute: bool, e: nat, a: nat, b: nat)
    requires Valid(w) && w.shape == [h * d, m] && e < m && a < h && b < d
    ensures SplitHeads(w, m, h, d).Ok?
    ensures Row(a, d, RopeIndex(permute, d, b)) < h * d
    ensures At(RopeIf(SplitHeads(w, m, h, d).value, permute), [e, a, b])
      == At(w, [Row(a, d, RopeIndex(permute, d, b)), e])
  {
    SplitHeadsAt(w, m, h, d, e, a, RopeIndex(permute, d, b));
    RopeIfAt(SplitHeads(w, m, h, d).value, m, h, d, permute, e, a, b);
  }

  /** The out projection `[m, h * d]` (output rows, input columns) reshaped
      to `[m, h, d]`: element `[e, a, b]` is the entry at row `e` and column
      `a * d + b`. */
  lemma OutHeadsAt<T>(w: Tensor<T>, m: nat, h: nat, d: nat, e: nat, a: nat, b: nat)
    requires Valid(w) && w.shape == [m, h * d] && e < m && a < h && b < d
    ensures Reshape(w, [m, h, d]).Ok?
    ensures Row(a, d, b) < h * d
    ensures At(Reshape(w, [m, h, d]).value, [e, a, b]) == At(w, [e, Row(a, d, b)])
  {
    MulAddBound(a, b, h, d);
    SplitLastAxis(w, m, h, d, e, a, b);
  }
}
