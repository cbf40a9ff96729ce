/** The rotary-embedding permutation `permute_to_match_maxtext_rope`:
    the last axis is reordered as its even positions followed by its odd
    positions (`arr[..., ::2]` then `arr[..., 1::2]`, concatenated on the last axis). */
module Rope {
  import opened Tensors

  /** Number of positions `start, start + 2, ...` below `n` (numpy's length of `[start::2]`). */
  function StrideCount(n: nat, start: nat): (c: nat)
    ensures forall x: nat :: x < c <==> start + 2 * x < n
  {
    if start >= n then 0 else (n - start + 1) / 2
  }

  function LastAxis(s: Shape): nat
    requires |s| > 0
  {
    |s| - 1
  }

  /** `arr[..., start::2]`: every other position of the last axis, from `start`. */
  function EveryOther<T>(t: Tensor<T>, start: nat): (r: Tensor<T>)
    requires Valid(t) && |t.shape| > 0
    ensures Valid(r)
    ensures r.shape == t.shape[LastAxis(t.shape) := StrideCount(t.shape[LastAxis(t.shape)], start)]
  {
    var z := LastAxis(t.shape);
    var s := t.shape[z := StrideCount(t.shape[z], start)];
    Build(s, j requires InBounds(s, j) => At(t, j[z := start + 2 * j[z]]))
  }

  /** Position `j` of `arr[..., start::2]` is position `k` of `arr`, where `k` is `j`
      with its last coordinate `p` moved to `start + 2 * p`. */
  lemma EveryOtherAt<T>(t: Tensor<T>, start: nat, j: Index, k: Index)
    requires Valid(t) && |t.shape| > 0
    requires InBounds(EveryOther(t, start).shape, j)
    requires k == j[LastAxis(t.shape) := start + 2 * j[LastAxis(t.shape)]]
    ensures InBounds(t.shape, k) && At(EveryOther(t, start), j) == At(t, k)
  {
    var z := LastAxis(t.shape);
    var s := t.shape[z := StrideCount(t.shape[z], start)];
    BuildAt(s, j requires InBounds(s, j) => At(t, j[z := start + 2 * j[z]]), j);
  }

  lemma HalvesShape<T>(t: Tensor<T>)
    requires Valid(t) && |t.shape| > 0
    ensures Concatenable([EveryOther(t, 0), EveryOther(t, 1)], LastAxis(t.shape))
    ensures ConcatShape([EveryOther(t, 0), EveryOther(t, 1)], LastAxis(t.shape)) == t.shape
  {
    var z := LastAxis(t.shape);
    var parts := [EveryOther(t, 0), EveryOther(t, 1)];
    var sizes := AxisSizes(parts, z);
    assert sizes == [StrideCount(t.shape[z], 0), StrideCount(t.shape[z], 1)];
    SumPair(sizes[0], sizes[1]);
    StrideCountsAddUp(t.shape[z]);
  }

  /** `permute_to_match_maxtext_rope` (the source requires at least one axis: `arr[..., ::2]`
      on a 0-d array raises).  It keeps the shape. */
  function PermuteToMatchMaxTextRope<T>(t: Tensor<T>): (r: Tensor<T>)
    requires Valid(t) && |t.shape| > 0
    ensures Valid(r) && r.shape == t.shape
  {
    HalvesShape(t);
    ConcatUnchecked([EveryOther(t, 0), EveryOther(t, 1)], LastAxis(t.shape))
  }

  /** Where output position `p` of a last axis of length `n` reads from:
      the first `ceil(n/2)` positions read `0, 2, 4, ...`, the rest `1, 3, 5, ...`. */
  function RopeSource(n: nat, p: nat): nat
  {
    var half := StrideCount(n, 0);
    if p < half then 2 * p else 2 * (p - half) + 1
  }

  /** The inverse map: where input position `q` ends up. */
  function RopeTarget(n: nat, q: nat): nat
  {
    if q % 2 == 0 then q / 2 else StrideCount(n, 0) + q / 2
  }

  lemma StrideCountsAddUp(n: nat)
    ensures StrideCount(n, 0) + StrideCount(n, 1) == n
  {
  }

  lemma RopeMapsInverse(n: nat, p: nat, q: nat)
    requires p < n && q < n
    ensures RopeSource(n, p) < n && RopeTarget(n, q) < n
    ensures RopeTarget(n, RopeSource(n, p)) == p
    ensures RopeSource(n, RopeTarget(n, q)) == q
  {
  }

  /** Only the last coordinate moves: output `j` is input `j` with its last
      coordinate `p` replaced by `RopeSource(n, p)`. */
  lemma PermuteAt<T>(t: Tensor<T>, j: Index)
    requires Valid(t) && |t.shape| > 0 && InBounds(t.shape, j)
    ensures var z := LastAxis(t.shape);
      && InBounds(t.shape, j[z := RopeSource(t.shape[z], j[z])])
      && At(PermuteToMatchMaxTextRope(t), j) == At(t, j[z := RopeSource(t.shape[z], j[z])])
  {
    var z := LastAxis(t.shape);
    if j[z] < StrideCount(t.shape[z], 0) {
      PermuteAtFirstHalf(t, j);
    } else {
      PermuteAtSecondHalf(t, j);
    }
  }

  lemma PermuteAtFirstHalf<T>(t: Tensor<T>, j: Index)
    requires Valid(t) && |t.shape| > 0 && InBounds(t.shape, j)
    requires j[LastAxis(t.shape)] < StrideCount(t.shape[LastAxis(t.shape)], 0)
    ensures var z := LastAxis(t.shape);
      && InBounds(t.shape, j[z := RopeSource(t.shape[z], j[z])])
      && At(PermuteToMatchMaxTextRope(t), j) == At(t, j[z := RopeSource(t.shape[z], j[z])])
  {
    var z := LastAxis(t.shape);
    var k := j[z := RopeSource(t.shape[z], j[z])];
    EveryOtherAt(t, 0, j, k);
    PermuteAtEven(t, j);
  }

  lemma PermuteAtSecondHalf<T>(t: Tensor<T>, j: Index)
    requires Valid(t) && |t.shape| > 0 && InBounds(t.shape, j)
    requires j[LastAxis(t.shape)] >= StrideCount(t.shape[LastAxis(t.shape)], 0)
    ensures var z := LastAxis(t.shape);
      && InBounds(t.shape, j[z := RopeSource(t.shape[z], j[z])])
      && At(PermuteToMatchMaxTextRope(t), j) == At(t, j[z := RopeSource(t.shape[z], j[z])])
  {
    var z := LastAxis(t.shape);
    var half := StrideCount(t.shape[z], 0);
    var k := j[z := RopeSource(t.shape[z], j[z])];
    var j1 := j[z := j[z] - half];
    UpdateTwice(j, z, j[z] - half, k[z]);
    EveryOtherAt(t, 1, j1, k);
    PermuteAtOdd(t, j);
  }

  /** The first `half` output positions read the even half ... */
  lemma PermuteAtEven<T>(t: Tensor<T>, j: Index)
    requires Valid(t) && |t.shape| > 0 && InBounds(t.shape, j)
    requires j[LastAxis(t.shape)] < StrideCount(t.shape[LastAxis(t.shape)], 0)
    ensures InBounds(EveryOther(t, 0).shape, j)
    ensures At(PermuteToMatchMaxTextRope(t), j) == At(EveryOther(t, 0), j)
  {
    HalvesShape(t);
    ConcatPairAt(EveryOther(t, 0), EveryOther(t, 1), LastAxis(t.shape), j);
  }

  /** ... and the others read the odd half, shifted back by `half`. */
  lemma PermuteAtOdd<T>(t: Tensor<T>, j: Index)
    requires Valid(t) && |t.shape| > 0 && InBounds(t.shape, j)
    requires j[LastAxis(t.shape)] >= StrideCount(t.shape[LastAxis(t.shape)], 0)
    ensures var z := LastAxis(t.shape);
      && InBounds(EveryOther(t, 1).shape, j[z := j[z] - StrideCount(t.shape[z], 0)])
      && At(PermuteToMatchMaxTextRope(t), j) == At(EveryOther(t, 1), j[z := j[z] - StrideCount(t.shape[z], 0)])
  {
    HalvesShape(t);
    ConcatPairAt(EveryOther(t, 0), EveryOther(t, 1), LastAxis(t.shape), j);
  }

  /** Index `j` with its last coordinate `q` moved to `RopeTarget(n, q)`. */
  function Retarget(s: Shape, j: Index): (k: Index)
    requires |s| > 0 && InBounds(s, j)
    ensures InBounds(s, k)
  {
    var z := |s| - 1;
    RopeMapsInverse(s[z], 0, j[z]);
    j[z := RopeTarget(s[z], j[z])]
  }

  /** The inverse permutation: interleave the two halves of the last axis again. */
  function Interleave<T>(t: Tensor<T>): (r: Tensor<T>)
    requires Valid(t) && |t.shape| > 0
    ensures Valid(r) && r.shape == t.shape
  {
    Build(t.shape, j requires InBounds(t.shape, j) => At(t, Retarget(t.shape, j)))
  }

  lemma InterleaveAt<T>(t: Tensor<T>, j: Index)
    requires Valid(t) && |t.shape| > 0 && InBounds(t.shape, j)
    ensures var z := LastAxis(t.shape);
      && InBounds(t.shape, j[z := RopeTarget(t.shape[z], j[z])])
      && At(Interleave(t), j) == At(t, j[z := RopeTarget(t.shape[z], j[z])])
  {
    BuildAt(t.shape, j requires InBounds(t.shape, j) => At(t, Retarget(t.shape, j)), j);
  }

  /** The permutation is a bijection of the last axis: interleaving undoes it ... */
  lemma InterleaveAfterPermute<T>(t: Tensor<T>)
    requires Valid(t) && |t.shape| > 0
    ensures Interleave(PermuteToMatchMaxTextRope(t)) == t
  {
    var z := LastAxis(t.shape);
    var n := t.shape[z];
    var p := PermuteToMatchMaxTextRope(t);
    forall j | InBounds(t.shape, j) ensures At(Interleave(p), j) == At(t, j) {
      InterleaveAt(p, j);
      var k := j[z := RopeTarget(n, j[z])];
      PermuteAt(t, k);
      RopeMapsInverse(n, 0, j[z]);
      UpdateTwice(j, z, RopeTarget(n, j[z]), j[z]);
      UpdateSame(j, z);
    }
    Extensionality(Interleave(p), t);
  }

  /** ... and permuting undoes interleaving. */
  lemma PermuteAfterInterleave<T>(t: Tensor<T>)
    requires Valid(t) && |t.shape| > 0
    ensures PermuteToMatchMaxTextRope(Interleave(t)) == t
  {
    var z := LastAxis(t.shape);
    var n := t.shape[z];
    var u := Interleave(t);
    var p := PermuteToMatchMaxTextRope(u);
    forall j | InBounds(t.shape, j) ensures At(p, j) == At(t, j) {
      PermuteAt(u, j);
      var k := j[z := RopeSource(n, j[z])];
      InterleaveAt(t, k);
      RopeMapsInverse(n, j[z], 0);
      UpdateTwice(j, z, RopeSource(n, j[z]), j[z]);
      UpdateSame(j, z);
    }
    Extensionality(p, t);
  }

  // -----------------------------------------------------------------------
  // The property on one vector: evens then odds of an interleaving.

  /** The sequence `e0, o0, e1, o1, ...`. */
  function InterleaveSeqs<T>(e: seq<T>, o: seq<T>): (r: seq<T>)
    requires |e| == |o|
    ensures |r| == 2 * |e|
  {
    seq(2 * |e|, k requires 0 <= k < 2 * |e| => if k % 2 == 0 then e[k / 2] else o[k / 2])
  }

  /** Element `p` of a vector is the `p`-th entry of its data. */
  lemma VectorAt<T>(xs: seq<T>, p: nat)
    requires p < |xs|
    ensures Valid(Tensor([|xs|], xs)) && InBounds([|xs|], [p]) && At(Tensor([|xs|], xs), [p]) == xs[p]
  {
    assert [|xs|][1..] == [];
    assert [p][1..] == [];
  }

  /** Position `q` of the permuted interleaving reads `(e + o)[q]`. */
  lemma InterleavedSource<T>(e: seq<T>, o: seq<T>, q: nat)
    requires |e| == |o| && q < 2 * |e|
    ensures RopeSource(2 * |e|, q) < 2 * |e|
    ensures InterleaveSeqs(e, o)[RopeSource(2 * |e|, q)] == (e + o)[q]
  {
    assert StrideCount(2 * |e|, 0) == |e|;
    if q < |e| {
      assert RopeSource(2 * |e|, q) == 2 * q;
    } else {
      var r := q - |e|;
      assert RopeSource(2 * |e|, q) == 2 * r + 1;
      assert (2 * r + 1) % 2 == 1 && (2 * r + 1) / 2 == r;
    }
  }

  /** Applied to a vector holding the interleaving of `e` and `o`, the permutation yields `e + o`. */
  lemma PermuteInterleaved<T>(e: seq<T>, o: seq<T>)
    requires |e| == |o|
    ensures var t := Tensor([2 * |e|], InterleaveSeqs(e, o));
      Valid(t) && PermuteToMatchMaxTextRope(t) == Tensor([2 * |e|], e + o)
  {
    var n := 2 * |e|;
    var xs := InterleaveSeqs(e, o);
    var t := Tensor([n], xs);
    var want := Tensor([n], e + o);
    assert Prod([n]) == n by { assert [n][1..] == []; }
    var p := PermuteToMatchMaxTextRope(t);
    assert StrideCount(n, 0) == |e|;
    forall j | InBounds([n], j) ensures At(p, j) == At(want, j) {
      var q := j[0];
      var src := RopeSource(n, q);
      assert j == [q];
      assert j[0 := src] == [src];
      InterleavedSource(e, o, q);
      VectorAt(xs, src);
      VectorAt(e + o, q);
      PermuteAt(t, j);
    }
    Extensionality(p, want);
  }
}
