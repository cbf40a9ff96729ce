/** Dense arrays over an abstract element type, stored row-major as numpy
    stores them: a shape and a flat sequence of elements.

    Every operation of the converter that moves elements around (transpose,
    reshape, concatenation, slicing, stacking) is defined here, and each one
    comes with a lemma saying which input element lands at a given output
    index.  Elements are never inspected, so no arithmetic on them is needed. */
module Tensors {
  import opened Results

  type Shape = seq<nat>
  type Index = seq<nat>

  /** Number of elements of an array of shape `s`. */
  function Prod(s: Shape): nat
  {
    if |s| == 0 then 1 else s[0] * Prod(s[1..])
  }

  datatype Tensor<T> = Tensor(shape: Shape, data: seq<T>)

  /** The flat data holds exactly one element per index of the shape. */
  predicate Valid<T>(t: Tensor<T>)
  {
    |t.data| == Prod(t.shape)
  }

  /** `i` is an index into an array of shape `s`. */
  predicate InBounds(s: Shape, i: Index)
  {
    |i| == |s| && forall a :: 0 <= a < |s| ==> i[a] < s[a]
  }

  /** Writing one coordinate twice keeps the second write. */
  lemma UpdateTwice(i: Index, a: nat, x: nat, y: nat)
    requires a < |i|
    ensures i[a := x][a := y] == i[a := y]
  {
  }

  /** Writing a coordinate's own value back changes nothing. */
  lemma UpdateSame(i: Index, a: nat)
    requires a < |i|
    ensures i[a := i[a]] == i
  {
  }

  // ---------------------------------------------------------------------
  // Arithmetic helpers

  lemma MulLeMono(x: nat, y: nat, p: nat)
    requires x <= y
    ensures x * p <= y * p
  {
    assert y * p == x * p + (y - x) * p;
  }

  lemma MulAddBound(a: nat, r: nat, b: nat, p: nat)
    requires a < b && r < p
    ensures a * p + r < b * p
  {
    MulLeMono(a + 1, b, p);
    assert (a + 1) * p == a * p + p;
  }

  lemma DivModOfSum(q: nat, r: nat, p: nat)
    requires r < p
    ensures (q * p + r) / p == q && (q * p + r) % p == r
  {
    var k := q * p + r;
    var q', r' := k / p, k % p;
    if q' > q {
      MulLeMono(q + 1, q', p);
    } else if q' < q {
      MulLeMono(q' + 1, q, p);
    }
  }

  lemma MulPositive(a: nat, p: nat)
    requires a * p > 0
    ensures p > 0
  {
  }

  lemma DivBound(k: nat, s0: nat, p: nat)
    requires k < s0 * p
    ensures p > 0 && k / p < s0
    ensures k == (k / p) * p + k % p
  {
    MulPositive(s0, p);
    if k / p >= s0 {
      MulLeMono(s0, k / p, p);
    }
  }

  // ---------------------------------------------------------------------
  // Row-major addressing

  lemma InBoundsTail(s: Shape, i: Index)
    requires |s| > 0 && InBounds(s, i)
    ensures InBounds(s[1..], i[1..]) && i[0] < s[0]
  {
    assert forall a :: 0 <= a < |s| - 1 ==> i[1..][a] == i[a + 1] && s[1..][a] == s[a + 1];
  }

  /** Position of index `i` in the flat data. */
  function Offset(s: Shape, i: Index): (r: nat)
    requires InBounds(s, i)
    ensures r < Prod(s)
    decreases |s|
  {
    if |s| == 0 then 0
    else
      InBoundsTail(s, i);
      var rest := Offset(s[1..], i[1..]);
      MulAddBound(i[0], rest, s[0], Prod(s[1..]));
      i[0] * Prod(s[1..]) + rest
  }

  lemma InBoundsCons(s: Shape, x: nat, rest: Index)
    requires |s| > 0 && x < s[0] && InBounds(s[1..], rest)
    ensures InBounds(s, [x] + rest)
    ensures Offset(s, [x] + rest) == x * Prod(s[1..]) + Offset(s[1..], rest)
  {
    var i := [x] + rest;
    assert i[1..] == rest;
    assert forall a :: 1 <= a < |s| ==> i[a] == rest[a - 1] && s[a] == s[1..][a - 1];
  }

  /** The index whose element is stored at flat position `k`. */
  function Unravel(s: Shape, k: nat): (i: Index)
    requires k < Prod(s)
    ensures InBounds(s, i) && Offset(s, i) == k
    decreases |s|
  {
    if |s| == 0 then []
    else
      var p := Prod(s[1..]);
      DivBound(k, s[0], p);
      var rest := Unravel(s[1..], k % p);
      InBoundsCons(s, k / p, rest);
      [k / p] + rest
  }

  lemma {:induction false} UnravelOffset(s: Shape, i: Index)
    requires InBounds(s, i)
    ensures Unravel(s, Offset(s, i)) == i
    decreases |s|
  {
    if |s| > 0 {
      InBoundsTail(s, i);
      var p := Prod(s[1..]);
      var rest := Offset(s[1..], i[1..]);
      DivModOfSum(i[0], rest, p);
      UnravelOffset(s[1..], i[1..]);
      assert i == [i[0]] + i[1..];
    }
  }

  /** The element of `t` at index `i`. */
  function At<T>(t: Tensor<T>, i: Index): T
    requires Valid(t) && InBounds(t.shape, i)
  {
    t.data[Offset(t.shape, i)]
  }

  /** The array of shape `s` whose element at `j` is `f(j)`. */
  function Build<T>(s: Shape, f: Index --> T): (t: Tensor<T>)
    requires forall j :: InBounds(s, j) ==> f.requires(j)
    ensures Valid(t) && t.shape == s
  {
    Tensor(s, seq(Prod(s), k requires 0 <= k < Prod(s) => f(Unravel(s, k))))
  }

  lemma BuildAt<T>(s: Shape, f: Index --> T, j: Index)
    requires forall j :: InBounds(s, j) ==> f.requires(j)
    requires InBounds(s, j)
    ensures At(Build(s, f), j) == f(j)
  {
    UnravelOffset(s, j);
  }

  /** Two arrays of one shape that agree at every index are equal. */
  lemma Extensionality<T>(a: Tensor<T>, b: Tensor<T>)
    requires Valid(a) && Valid(b) && a.shape == b.shape
    requires forall i :: InBounds(a.shape, i) ==> At(a, i) == At(b, i)
    ensures a == b
  {
    forall k | 0 <= k < |a.data|
      ensures a.data[k] == b.data[k]
    {
      var i := Unravel(a.shape, k);
      assert At(a, i) == At(b, i);
    }
  }

  // ---------------------------------------------------------------------
  // Allocation and elementwise maps

  /** `np.zeros(s)`, with `zero` standing for the element type's zero. */
  function Zeros<T>(s: Shape, zero: T): (t: Tensor<T>)
    ensures Valid(t) && t.shape == s
    ensures forall i :: InBounds(s, i) ==> At(t, i) == zero
  {
    Tensor(s, seq(Prod(s), _ => zero))
  }

  /** Apply `f` to every element (the model of an elementwise numpy expression). */
  function MapElements<T>(f: T -> T, t: Tensor<T>): (r: Tensor<T>)
    requires Valid(t)
    ensures Valid(r) && r.shape == t.shape
    ensures forall i :: InBounds(t.shape, i) ==> At(r, i) == f(At(t, i))
  {
    Tensor(t.shape, seq(|t.data|, k requires 0 <= k < |t.data| => f(t.data[k])))
  }

  // ---------------------------------------------------------------------
  // Reshape: numpy keeps the flat data and only checks the element count.

  function Reshape<T>(t: Tensor<T>, s: Shape): (r: Result<Tensor<T>>)
    requires Valid(t)
    ensures r.Ok? <==> Prod(s) == Prod(t.shape)
    ensures r.Ok? ==> Valid(r.value) && r.value.shape == s && r.value.data == t.data
  {
    if Prod(s) == |t.data| then Ok(Tensor(s, t.data)) else Err(ShapeMismatch)
  }

  lemma ProdPair(h: nat, d: nat)
    ensures Prod([h, d]) == h * d && Prod([d]) == d
  {
    assert [h, d][1..] == [d];
    assert [d][1..] == [];
    assert Prod([d]) == d * Prod([]);
  }

  /** Reshaping `[m, h * d]` to `[m, h, d]` splits the last index `c` into
      the pair `(c / d, c % d)`: element `[i, a, b]` is old element `[i, a * d + b]`. */
  lemma SplitLastAxis<T>(t: Tensor<T>, m: nat, h: nat, d: nat, i: nat, a: nat, b: nat)
    requires Valid(t) && t.shape == [m, h * d]
    requires i < m && a < h && b < d
    ensures Reshape(t, [m, h, d]).Ok?
    ensures a * d + b < h * d
    ensures At(Reshape(t, [m, h, d]).value, [i, a, b]) == At(t, [i, a * d + b])
  {
    ProdPair(h, d);
    ProdPair(m, h * d);
    var s3: Shape := [m, h, d];
    assert s3[1..] == [h, d];
    assert Prod(s3) == m * (h * d);
    MulAddBound(a, b, h, d);
    calc {
      Offset(s3, [i, a, b]);
      i * Prod([h, d]) + Offset([h, d], [a, b]);
      { assert [i, a, b][1..] == [a, b]; }
      i * (h * d) + Offset([h, d], [a, b]);
      { assert [a, b][1..] == [b]; assert [b][1..] == []; }
      i * (h * d) + (a * d + b);
      { assert [i, a * d + b][1..] == [a * d + b]; assert [a * d + b][1..] == []; }
      Offset([m, h * d], [i, a * d + b]);
    }
  }

  // ---------------------------------------------------------------------
  // Transpose

  /** `perm` lists every axis below `n` exactly once. */
  predicate IsPerm(perm: seq<nat>, n: nat)
  {
    && |perm| == n
    && (forall a :: 0 <= a < n ==> perm[a] < n)
    && (forall a, b :: 0 <= a < b < n ==> perm[a] != perm[b])
    && (forall x :: 0 <= x < n ==> x in perm)
  }

  /** The position of axis `x` in `perm`. */
  function Pos(perm: seq<nat>, x: nat): (a: nat)
    requires x in perm
    ensures a < |perm| && perm[a] == x
  {
    if perm[0] == x then 0 else 1 + Pos(perm[1..], x)
  }

  /** Shape after `np.transpose(axes=perm)`: axis `a` of the result is axis `perm[a]` of the input. */
  function PermShape(s: Shape, perm: seq<nat>): (r: Shape)
    requires IsPerm(perm, |s|)
    ensures |r| == |s| && forall a :: 0 <= a < |s| ==> r[a] == s[perm[a]]
  {
    seq(|perm|, a requires 0 <= a < |perm| => s[perm[a]])
  }

  /** The input index read for output index `j`: input axis `perm[a]` carries `j[a]`. */
  function SourceIndex(s: Shape, perm: seq<nat>, j: Index): (i: Index)
    requires IsPerm(perm, |s|) && InBounds(PermShape(s, perm), j)
    ensures InBounds(s, i)
    ensures forall a :: 0 <= a < |s| ==> i[perm[a]] == j[a]
  {
    var i := seq(|s|, x requires 0 <= x < |s| => j[Pos(perm, x)]);
    assert forall a :: 0 <= a < |s| ==> Pos(perm, perm[a]) == a;
    i
  }

  function Transpose<T>(t: Tensor<T>, perm: seq<nat>): (r: Tensor<T>)
    requires Valid(t) && IsPerm(perm, |t.shape|)
    ensures Valid(r) && r.shape == PermShape(t.shape, perm)
  {
    var ps := PermShape(t.shape, perm);
    Build(ps, j requires InBounds(ps, j) => At(t, SourceIndex(t.shape, perm, j)))
  }

  /** Element `j` of the transpose is the input element whose axis `perm[a]` holds `j[a]`. */
  lemma TransposeAt<T>(t: Tensor<T>, perm: seq<nat>, j: Index, i: Index)
    requires Valid(t) && IsPerm(perm, |t.shape|)
    requires InBounds(PermShape(t.shape, perm), j)
    requires |i| == |t.shape| && forall a :: 0 <= a < |perm| ==> i[perm[a]] == j[a]
    ensures InBounds(t.shape, i)
    ensures At(Transpose(t, perm), j) == At(t, i)
  {
    var ps := PermShape(t.shape, perm);
    var src := SourceIndex(t.shape, perm, j);
    forall x | 0 <= x < |i| ensures i[x] == src[x] {
      var a := Pos(perm, x);
      assert i[perm[a]] == j[a] && src[perm[a]] == j[a];
    }
    assert i == src;
    BuildAt(ps, j requires InBounds(ps, j) => At(t, SourceIndex(t.shape, perm, j)), j);
  }

  /** `np.transpose(t, axes=perm)`: numpy refuses axes that are not a permutation of the rank. */
  function TransposeAxes<T>(t: Tensor<T>, perm: seq<nat>): (r: Result<Tensor<T>>)
    requires Valid(t)
    ensures r.Ok? <==> IsPerm(perm, |t.shape|)
    ensures r.Ok? ==> r.value == Transpose(t, perm)
  {
    if IsPerm(perm, |t.shape|) then Ok(Transpose(t, perm)) else Err(ShapeMismatch)
  }

  /** The axes `n-1, ..., 1, 0`. */
  function ReversedAxes(n: nat): (r: seq<nat>)
    ensures IsPerm(r, n)
    ensures forall a :: 0 <= a < n ==> r[a] == n - 1 - a
  {
    var r := seq(n, a requires 0 <= a < n => n - 1 - a);
    forall x | 0 <= x < n ensures x in r {
      assert r[n - 1 - x] == x;
    }
    r
  }

  /** `t.transpose()` with no argument reverses all axes. */
  function TransposeAll<T>(t: Tensor<T>): (r: Tensor<T>)
    requires Valid(t)
    ensures Valid(r)
  {
    Transpose(t, ReversedAxes(|t.shape|))
  }

  /** On a matrix, `.transpose()` swaps rows and columns. */
  lemma TransposeAllMatrix<T>(t: Tensor<T>, x: nat, y: nat)
    requires Valid(t) && |t.shape| == 2 && x < t.shape[1] && y < t.shape[0]
    ensures TransposeAll(t).shape == [t.shape[1], t.shape[0]]
    ensures At(TransposeAll(t), [x, y]) == At(t, [y, x])
  {
    var perm := ReversedAxes(2);
    assert perm == [1, 0];
    TransposeAt(t, perm, [x, y], [y, x]);
  }

  // ---------------------------------------------------------------------
  // Slicing a leading part of one axis: `t[..., :v, ...]`

  /** Python's `[:v]` keeps `min(v, n)` entries. */
  function Keep(n: nat, v: nat): nat
  {
    if v < n then v else n
  }

  /** `t[:, ..., :v]` on axis `axis`; indexing past the rank is an IndexError. */
  function SliceAxis<T>(t: Tensor<T>, axis: nat, v: nat): (r: Result<Tensor<T>>)
    requires Valid(t)
    ensures r.Ok? <==> axis < |t.shape|
    ensures r.Ok? ==> Valid(r.value) && r.value.shape == t.shape[axis := Keep(t.shape[axis], v)]
  {
    if axis < |t.shape| then
      var s := t.shape[axis := Keep(t.shape[axis], v)];
      assert forall j :: InBounds(s, j) ==> InBounds(t.shape, j);
      Ok(Build(s, j requires InBounds(s, j) => At(t, j)))
    else Err(ShapeMismatch)
  }

  /** A slice keeps every element it keeps at the same index. */
  lemma SliceAxisAt<T>(t: Tensor<T>, axis: nat, v: nat, j: Index)
    requires Valid(t) && axis < |t.shape|
    requires InBounds(t.shape[axis := Keep(t.shape[axis], v)], j)
    ensures InBounds(t.shape, j)
    ensures At(SliceAxis(t, axis, v).value, j) == At(t, j)
  {
    var s := t.shape[axis := Keep(t.shape[axis], v)];
    assert forall j :: InBounds(s, j) ==> InBounds(t.shape, j);
    BuildAt(s, j requires InBounds(s, j) => At(t, j), j);
  }

  // ---------------------------------------------------------------------
  // Stacking slices along new leading axes (the filled accumulators)

  lemma InBoundsSplit(s1: Shape, s2: Shape, j: Index)
    requires InBounds(s1 + s2, j)
    ensures InBounds(s1, j[..|s1|]) && InBounds(s2, j[|s1|..])
  {
    assert forall a :: 0 <= a < |s1| ==> j[..|s1|][a] == j[a] && (s1 + s2)[a] == s1[a];
    assert forall a :: 0 <= a < |s2| ==> j[|s1|..][a] == j[|s1| + a] && (s1 + s2)[|s1| + a] == s2[a];
  }

  lemma InBoundsJoin(s1: Shape, i1: Index, s2: Shape, i2: Index)
    requires InBounds(s1, i1) && InBounds(s2, i2)
    ensures InBounds(s1 + s2, i1 + i2)
    ensures (i1 + i2)[..|s1|] == i1 && (i1 + i2)[|s1|..] == i2
  {
    assert forall a :: 0 <= a < |s1| ==> (i1 + i2)[a] == i1[a] && (s1 + s2)[a] == s1[a];
    assert forall a :: |s1| <= a < |s1| + |s2| ==> (i1 + i2)[a] == i2[a - |s1|] && (s1 + s2)[a] == s2[a - |s1|];
  }

  predicate AllShaped<T>(ws: seq<Tensor<T>>, s: Shape)
  {
    forall l :: 0 <= l < |ws| ==> Valid(ws[l]) && ws[l].shape == s
  }

  /** The array of shape `[|ws|] + s` whose slot `l` is `ws[l]`. */
  function Stack<T>(ws: seq<Tensor<T>>, s: Shape): (r: Tensor<T>)
    requires AllShaped(ws, s)
    ensures Valid(r) && r.shape == [|ws|] + s
  {
    var full := [|ws|] + s;
    assert forall j :: InBounds(full, j) ==> j[0] < |ws| && InBounds(s, j[1..]) by {
      forall j | InBounds(full, j) ensures j[0] < |ws| && InBounds(s, j[1..]) { InBoundsSplit([|ws|], s, j); }
    }
    Build(full, j requires InBounds(full, j) => At(ws[j[0]], j[1..]))
  }

  lemma StackAt<T>(ws: seq<Tensor<T>>, s: Shape, l: nat, i: Index)
    requires AllShaped(ws, s) && l < |ws| && InBounds(s, i)
    ensures InBounds([|ws|] + s, [l] + i)
    ensures At(Stack(ws, s), [l] + i) == At(ws[l], i)
  {
    var full := [|ws|] + s;
    InBoundsJoin([|ws|], [l], s, i);
    assert forall j :: InBounds(full, j) ==> j[0] < |ws| && InBounds(s, j[1..]) by {
      forall j | InBounds(full, j) ensures j[0] < |ws| && InBounds(s, j[1..]) { InBoundsSplit([|ws|], s, j); }
    }
    BuildAt(full, j requires InBounds(full, j) => At(ws[j[0]], j[1..]), [l] + i);
  }

  predicate AllShaped2<T>(ws: seq<seq<Tensor<T>>>, n: nat, s: Shape)
  {
    forall e :: 0 <= e < |ws| ==> |ws[e]| == n && AllShaped(ws[e], s)
  }

  lemma InBoundsSplit2(m: nat, n: nat, s: Shape, j: Index)
    requires InBounds([m, n] + s, j)
    ensures j[0] < m && j[1] < n && InBounds(s, j[2..])
  {
    InBoundsSplit([m, n], s, j);
  }

  /** The array of shape `[|ws|, n] + s` whose slot `[e, l]` is `ws[e][l]`. */
  function Stack2<T>(ws: seq<seq<Tensor<T>>>, n: nat, s: Shape): (r: Tensor<T>)
    requires AllShaped2(ws, n, s)
    ensures Valid(r) && r.shape == [|ws|, n] + s
  {
    var full := [|ws|, n] + s;
    assert forall j :: InBounds(full, j) ==> j[0] < |ws| && j[1] < n && InBounds(s, j[2..]) by {
      forall j | InBounds(full, j) ensures j[0] < |ws| && j[1] < n && InBounds(s, j[2..]) {
        InBoundsSplit2(|ws|, n, s, j);
      }
    }
    Build(full, j requires InBounds(full, j) => At(ws[j[0]][j[1]], j[2..]))
  }

  lemma Stack2At<T>(ws: seq<seq<Tensor<T>>>, n: nat, s: Shape, e: nat, l: nat, i: Index)
    requires AllShaped2(ws, n, s) && e < |ws| && l < n && InBounds(s, i)
    ensures InBounds([|ws|, n] + s, [e, l] + i)
    ensures At(Stack2(ws, n, s), [e, l] + i) == At(ws[e][l], i)
  {
    var full := [|ws|, n] + s;
    InBoundsJoin([|ws|, n], [e, l], s, i);
    assert forall j :: InBounds(full, j) ==> j[0] < |ws| && j[1] < n && InBounds(s, j[2..]) by {
      forall j | InBounds(full, j) ensures j[0] < |ws| && j[1] < n && InBounds(s, j[2..]) {
        InBoundsSplit2(|ws|, n, s, j);
      }
    }
    BuildAt(full, j requires InBounds(full, j) => At(ws[j[0]][j[1]], j[2..]), [e, l] + i);
  }

  // ---------------------------------------------------------------------
  // Concatenation along one axis: `np.concatenate(ts, axis=axis)`

  function Sum(xs: seq<nat>): nat
  {
    if |xs| == 0 then 0 else xs[0] + Sum(xs[1..])
  }

  /** Which part an index `x` along the joined axis falls into, and where in that part. */
  function Locate(sizes: seq<nat>, x: nat): (r: (nat, nat))
    requires x < Sum(sizes)
    ensures r.0 < |sizes| && r.1 < sizes[r.0]
  {
    if x < sizes[0] then (0, x)
    else
      var r := Locate(sizes[1..], x - sizes[0]);
      (r.0 + 1, r.1)
  }

  lemma {:induction false} LocateOffset(sizes: seq<nat>, i: nat, y: nat)
    requires i < |sizes| && y < sizes[i]
    ensures Sum(sizes[..i]) + y < Sum(sizes)
    ensures Locate(sizes, Sum(sizes[..i]) + y) == (i, y)
  {
    if i > 0 {
      assert sizes[..i][1..] == sizes[1..][..i - 1];
      LocateOffset(sizes[1..], i - 1, y);
    }
  }

  /** Sizes of the parts along `axis`. */
  function AxisSizes<T>(ts: seq<Tensor<T>>, axis: nat): (r: seq<nat>)
    requires forall i :: 0 <= i < |ts| ==> axis < |ts[i].shape|
    ensures |r| == |ts| && forall i :: 0 <= i < |ts| ==> r[i] == ts[i].shape[axis]
  {
    seq(|ts|, i requires 0 <= i < |ts| => ts[i].shape[axis])
  }

  /** numpy's conditions for concatenation: at least one part, one rank, the axis
      inside it, and equal sizes on every other axis. */
  predicate Concatenable<T>(ts: seq<Tensor<T>>, axis: nat)
  {
    && |ts| > 0
    && (forall i :: 0 <= i < |ts| ==> Valid(ts[i]) && |ts[i].shape| == |ts[0].shape|)
    && axis < |ts[0].shape|
    && (forall i, a :: 0 <= i < |ts| && 0 <= a < |ts[0].shape| && a != axis ==> ts[i].shape[a] == ts[0].shape[a])
  }

  function ConcatShape<T>(ts: seq<Tensor<T>>, axis: nat): Shape
    requires Concatenable(ts, axis)
  {
    ts[0].shape[axis := Sum(AxisSizes(ts, axis))]
  }

  /** The element of the concatenation at index `j`. */
  function ConcatElement<T>(ts: seq<Tensor<T>>, axis: nat, j: Index): T
    requires Concatenable(ts, axis) && InBounds(ConcatShape(ts, axis), j)
  {
    var p := Locate(AxisSizes(ts, axis), j[axis]);
    assert InBounds(ts[p.0].shape, j[axis := p.1]);
    At(ts[p.0], j[axis := p.1])
  }

  function ConcatUnchecked<T>(ts: seq<Tensor<T>>, axis: nat): (r: Tensor<T>)
    requires Concatenable(ts, axis)
    ensures Valid(r) && r.shape == ConcatShape(ts, axis)
  {
    var s := ConcatShape(ts, axis);
    Build(s, j requires InBounds(s, j) => ConcatElement(ts, axis, j))
  }

  /** `np.concatenate(ts, axis=axis)`; numpy refuses parts that do not fit together. */
  function Concat<T>(ts: seq<Tensor<T>>, axis: nat): (r: Result<Tensor<T>>)
    ensures r.Ok? <==> Concatenable(ts, axis)
    ensures r.Ok? ==> r.value == ConcatUnchecked(ts, axis)
  {
    if Concatenable(ts, axis) then Ok(ConcatUnchecked(ts, axis)) else Err(ShapeMismatch)
  }

  /** Part `i` of a concatenation sits at offset `Sum(sizes[..i])` along the joined axis:
      index `j` of part `i` is index `k` of the concatenation. */
  lemma ConcatAt<T>(ts: seq<Tensor<T>>, axis: nat, i: nat, j: Index, k: Index)
    requires Concatenable(ts, axis) && i < |ts| && InBounds(ts[i].shape, j)
    requires k == j[axis := Sum(AxisSizes(ts, axis)[..i]) + j[axis]]
    ensures InBounds(ConcatShape(ts, axis), k) && At(ConcatUnchecked(ts, axis), k) == At(ts[i], j)
  {
    var sizes := AxisSizes(ts, axis);
    UpdateTwice(j, axis, k[axis], j[axis]);
    UpdateSame(j, axis);
    LocateOffset(sizes, i, j[axis]);
    assert InBounds(ConcatShape(ts, axis), k);
    ConcatUncheckedAt(ts, axis, k);
  }

  lemma ConcatUncheckedAt<T>(ts: seq<Tensor<T>>, axis: nat, k: Index)
    requires Concatenable(ts, axis) && InBounds(ConcatShape(ts, axis), k)
    ensures At(ConcatUnchecked(ts, axis), k) == ConcatElement(ts, axis, k)
  {
    var s := ConcatShape(ts, axis);
    BuildAt(s, j requires InBounds(s, j) => ConcatElement(ts, axis, j), k);
  }

  /** Concatenating a single part returns it unchanged. */
  lemma ConcatSingle<T>(t: Tensor<T>, axis: nat)
    requires Valid(t) && axis < |t.shape|
    ensures Concat([t], axis) == Ok(t)
  {
    var c := ConcatUnchecked([t], axis);
    assert AxisSizes([t], axis) == [t.shape[axis]];
    assert Sum([t.shape[axis]]) == t.shape[axis] by { assert [t.shape[axis]][1..] == []; }
    assert c.shape == t.shape;
    forall j | InBounds(t.shape, j) ensures At(c, j) == At(t, j) {
      assert AxisSizes([t], axis)[..0] == [];
      UpdateSame(j, axis);
      ConcatAt([t], axis, 0, j, j);
    }
    Extensionality(c, t);
  }

  lemma SumPair(x: nat, y: nat)
    ensures Sum([x, y]) == x + y
  {
    assert [x, y][1..] == [y];
    assert [y][1..] == [];
    assert Sum([y]) == y + Sum([]);
  }

  /** Concatenating two parts: indices below the first part's size read the first
      part, the others read the second part shifted back by that size. */
  lemma ConcatPairAt<T>(a: Tensor<T>, b: Tensor<T>, axis: nat, j: Index)
    requires Valid(a) && Valid(b)
    requires Concatenable([a, b], axis) && InBounds(ConcatShape([a, b], axis), j)
    ensures j[axis] < a.shape[axis] ==>
      InBounds(a.shape, j) && At(ConcatUnchecked([a, b], axis), j) == At(a, j)
    ensures j[axis] >= a.shape[axis] ==>
      && InBounds(b.shape, j[axis := j[axis] - a.shape[axis]])
      && At(ConcatUnchecked([a, b], axis), j) == At(b, j[axis := j[axis] - a.shape[axis]])
  {
    var ts := [a, b];
    assert ts[0] == a && ts[1] == b;
    assert Valid(a) && Valid(b) && |b.shape| == |a.shape|;
    var sizes := AxisSizes(ts, axis);
    assert sizes == [a.shape[axis], b.shape[axis]];
    SumPair(a.shape[axis], b.shape[axis]);
    if j[axis] < a.shape[axis] {
      assert InBounds(a.shape, j);
      assert sizes[..0] == [];
      UpdateSame(j, axis);
      ConcatAt(ts, axis, 0, j, j);
    } else {
      var j1 := j[axis := j[axis] - a.shape[axis]];
      assert InBounds(b.shape, j1);
      assert sizes[..1] == [a.shape[axis]];
      assert Sum([a.shape[axis]]) == a.shape[axis] by { assert [a.shape[axis]][1..] == []; }
      UpdateTwice(j, axis, j[axis] - a.shape[axis], j[axis]);
      UpdateSame(j, axis);
      assert j == j1[axis := Sum(sizes[..1]) + j1[axis]];
      ConcatAt(ts, axis, 1, j1, j);
    }
  }
}
