/** Reading one tensor out of a checkpoint: a sharded PyTorch checkpoint is
    a list of collections, one per shard, whose pieces of a tensor are joined
    along one axis; a HuggingFace checkpoint is a single collection. */
module Checkpoint {
  import opened Results
  import opened Tensors
  import opened Shards

  /** One shard seen through a lookup by name (the namespace adapter's `[]`). */
  type Shard<T> = string -> Result<Tensor<T>>

  /** Where the tensors come from: the shards of a PyTorch checkpoint, in
      shard order, or the single collection of a HuggingFace checkpoint whose
      keys were already renamed to Meta style. */
  datatype Source<T> = Sharded(parts: seq<Shard<T>>) | Single(dict: map<string, Tensor<T>>)

  // ---------------------------------------------------------------------
  // Reading one tensor

  /** `[var[key] for var in parts]`: the first failing lookup raises. */
  function Gather<T>(parts: seq<Shard<T>>, key: string): (r: Result<seq<Tensor<T>>>)
    ensures r.Ok? <==> forall i :: 0 <= i < |parts| ==> parts[i](key).Ok?
    ensures r.Ok? ==> |r.value| == |parts| && forall i :: 0 <= i < |parts| ==> r.value[i] == parts[i](key).value
  {
    if |parts| == 0 then Ok([])
    else
      var t :- parts[0](key);
      var rest :- Gather(parts[1..], key);
      Ok([t] + rest)
  }

  /** A failed gather reports the error of the first shard whose lookup fails. */
  lemma {:induction false} GatherFirstError<T>(parts: seq<Shard<T>>, key: string)
    requires Gather(parts, key).Err?
    ensures exists i :: (0 <= i < |parts| && parts[i](key) == Err(Gather(parts, key).error)
      && forall j :: 0 <= j < i ==> parts[j](key).Ok?)
    decreases |parts|
  {
    if parts[0](key).Err? {
      assert 0 <= 0 < |parts| && parts[0](key) == Err(Gather(parts, key).error);
    } else {
      var rest := parts[1..];
      GatherFirstError(rest, key);
      var i :| 0 <= i < |rest| && rest[i](key) == Err(Gather(rest, key).error)
        && forall j :: 0 <= j < i ==> rest[j](key).Ok?;
      forall j | 0 <= j < i + 1 ensures parts[j](key).Ok? {
        if j > 0 {
          assert parts[j] == rest[j - 1];
        }
      }
      assert parts[i + 1] == rest[i];
    }
  }

  /** `dict[key]` on a plain dictionary.  A stored tensor whose data does not
      fill its shape is refused as a shape error (numpy arrays never are). */
  function Lookup<T>(dict: map<string, Tensor<T>>, key: string): (r: Result<Tensor<T>>)
    ensures r.Ok? <==> key in dict && Valid(dict[key])
    ensures r.Ok? ==> r.value == dict[key]
    ensures key !in dict ==> r == Err(MissingKey(key))
  {
    if key !in dict then Err(MissingKey(key))
    else if Valid(dict[key]) then Ok(dict[key])
    else Err(ShapeMismatch)
  }

  /** `np.concatenate([var[key] for var in parts[::step]], axis=axis)` for a
      sharded checkpoint; the plain lookup for a single collection, where the
      joining axis and the stride play no part. */
  function Read<T>(src: Source<T>, key: string, axis: nat, step: nat): (r: Result<Tensor<T>>)
    requires step > 0
    ensures r.Ok? ==> Valid(r.value)
    ensures src.Single? ==> r == Lookup(src.dict, key)
  {
    match src
    case Single(dict) => Lookup(dict, key)
    case Sharded(parts) =>
      var ts :- Gather(Strided(parts, step), key);
      Concat(ts, axis)
  }

  /** A sharded read succeeds exactly when every strided shard has the key and
      the parts fit together along `axis`; its value is their concatenation. */
  lemma ReadSharded<T>(parts: seq<Shard<T>>, key: string, axis: nat, step: nat)
    requires step > 0
    ensures var ts := Gather(Strided(parts, step), key);
      && (Read(Sharded(parts), key, axis, step).Ok? <==> ts.Ok? && Concatenable(ts.value, axis))
      && (Read(Sharded(parts), key, axis, step).Ok? ==> Read(Sharded(parts), key, axis, step).value == ConcatUnchecked(ts.value, axis))
  {
  }

  /** Shard `p` of the strided list (file `p * step`, by `Strided`) lands in
      the joined tensor shifted along `axis` by the sizes of the strided shards
      before it; every other axis keeps its index. */
  lemma ReadShardAt<T>(parts: seq<Shard<T>>, key: string, axis: nat, step: nat,
                       ts: seq<Tensor<T>>, r: Tensor<T>, p: nat, j: Index, k: Index)
    requires step > 0 && Read(Sharded(parts), key, axis, step) == Ok(r)
    requires Gather(Strided(parts, step), key) == Ok(ts)
    requires p < |ts| && InBounds(ts[p].shape, j) && axis < |j|
    requires k == j[axis := Sum(AxisSizes(ts, axis)[..p]) + j[axis]]
    ensures ts[p] == Strided(parts, step)[p](key).value
    ensures InBounds(r.shape, k) && At(r, k) == At(ts[p], j)
  {
    assert Concatenable(ts, axis) && r == ConcatUnchecked(ts, axis);
    ConcatAt(ts, axis, p, j, k);
  }

  /** A checkpoint of one shard reads every tensor as stored. */
  lemma ReadOneShard<T>(m: Shard<T>, key: string, axis: nat)
    requires m(key).Ok? && Valid(m(key).value) && axis < |m(key).value.shape|
    ensures Read(Sharded([m]), key, axis, 1) == m(key)
  {
    StridedOne([m]);
    assert Gather([m], key) == Ok([m(key).value]) by {
      assert [m][1..] == [];
      assert [m][0] == m;
      assert Gather([m][1..], key) == Ok([]);
      assert [m(key).value] + [] == [m(key).value];
    }
    ConcatSingle(m(key).value, axis);
  }

  /** `chkpt_vars[0][key]` for a sharded checkpoint (no shard is an
      IndexError) and `chkpt_vars[key]` for a single collection: the norms
      are taken from the first shard only. */
  function ReadFirst<T>(src: Source<T>, key: string): (r: Result<Tensor<T>>)
    ensures r.Ok? ==> Valid(r.value)
    ensures src.Single? ==> r == Lookup(src.dict, key)
    ensures src.Sharded? && |src.parts| == 0 ==> r == Err(NoShards)
    ensures src.Sharded? && |src.parts| > 0 ==>
      (r.Ok? <==> src.parts[0](key).Ok? && Valid(src.parts[0](key).value))
      && (r.Ok? ==> r.value == src.parts[0](key).value)
      && (src.parts[0](key).Err? ==> r == src.parts[0](key))
  {
    match src
    case Single(dict) => Lookup(dict, key)
    case Sharded(parts) =>
      if |parts| == 0 then Err(NoShards)
      else
        var t :- parts[0](key);
        if Valid(t) then Ok(t) else Err(ShapeMismatch)
  }
}
