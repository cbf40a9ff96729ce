/** How the converted weights are laid out across the simulated devices
    before saving: each leaf of the weight tree, in flatten order, is split
    along its first axis, else its second, when that axis divides evenly by
    the device count, and is replicated otherwise. */
module Placement {
  import opened Results
  import opened Tensors

  /** The three named shardings: first axis, second axis, none. */
  datatype Sharding = FirstAxis | SecondAxis | Replicated

  /** A leaf together with the sharding it was put on the devices with. */
  datatype Placed<T> = Placed(leaf: Tensor<T>, sharding: Sharding)

  /** `x` is `d` added to itself some number of times. */
  predicate Multiple(d: nat, x: nat)
    requires d > 0
    decreases x
  {
    x == 0 || (x >= d && Multiple(d, x - d))
  }

  /** Python's `x % d == 0` on a non-negative `x` and a positive `d` tests
      exactly that `x` is a multiple of `d`. */
  lemma {:induction false} MultipleMod(d: nat, x: nat)
    requires d > 0
    ensures Multiple(d, x) <==> x % d == 0
    decreases x
  {
    if x >= d {
      MultipleMod(d, x - d);
      var q, r := (x - d) / d, (x - d) % d;
      assert x == (q + 1) * d + r by {
        assert (q + 1) * d == q * d + d;
      }
      DivModOfSum(q + 1, r, d);
    } else {
      DivModOfSum(0, x, d);
    }
  }

  /** `checkpoint_device_put`: reading `shape[0]` of a zero-dimensional leaf
      raises, and so does `% 0`; otherwise the first axis is split when it
      divides by the device count, the second when there is one and it
      divides, and the leaf is replicated in every other case. */
  function ChooseSharding(shape: Shape, deviceCount: nat): (r: Result<Sharding>)
    ensures r == Err(ScalarLeaf) <==> |shape| == 0
    ensures r == Err(ZeroDevices) <==> |shape| > 0 && deviceCount == 0
    ensures r.Ok? ==> |shape| > 0 && deviceCount > 0
    ensures r == Ok(FirstAxis) <==> |shape| > 0 && deviceCount > 0 && Multiple(deviceCount, shape[0])
    ensures r == Ok(SecondAxis) <==>
      && |shape| > 1 && deviceCount > 0
      && !Multiple(deviceCount, shape[0]) && Multiple(deviceCount, shape[1])
    ensures r == Ok(Replicated) <==>
      && |shape| > 0 && deviceCount > 0 && !Multiple(deviceCount, shape[0])
      && (|shape| == 1 || !Multiple(deviceCount, shape[1]))
  {
    if |shape| == 0 then Err(ScalarLeaf)
    else if deviceCount == 0 then Err(ZeroDevices)
    else
      MultipleMod(deviceCount, shape[0]);
      if shape[0] % deviceCount == 0 then Ok(FirstAxis)
      else if |shape| > 1 && (MultipleMod(deviceCount, shape[1]); shape[1] % deviceCount == 0) then Ok(SecondAxis)
      else
        assert |shape| > 1 ==> (MultipleMod(deviceCount, shape[1]); !Multiple(deviceCount, shape[1]));
        Ok(Replicated)
  }

  /** A split axis exists and each device receives the same whole number of
      its entries. */
  lemma EvenSplit(shape: Shape, deviceCount: nat)
    requires ChooseSharding(shape, deviceCount).Ok? && ChooseSharding(shape, deviceCount).value != Replicated
    ensures var axis := if ChooseSharding(shape, deviceCount).value == FirstAxis then 0 else 1;
      axis < |shape| && (shape[axis] / deviceCount) * deviceCount == shape[axis]
  {
    var axis := if ChooseSharding(shape, deviceCount).value == FirstAxis then 0 else 1;
    MultipleMod(deviceCount, shape[axis]);
  }

  /** The placements of `leaves` in order, or the error of the first leaf
      that cannot be placed. */
  function PlaceLeaves<T>(leaves: seq<Tensor<T>>, deviceCount: nat): (r: Result<seq<Placed<T>>>)
    decreases |leaves|
  {
    if |leaves| == 0 then Ok([])
    else
      var done :- PlaceLeaves(leaves[..|leaves| - 1], deviceCount);
      var s :- ChooseSharding(leaves[|leaves| - 1].shape, deviceCount);
      Ok(done + [Placed(leaves[|leaves| - 1], s)])
  }

  /** A successful placement keeps every leaf, in its place in the flatten
      order, with the sharding the rule picks for its shape. */
  lemma {:induction false} PlaceLeavesOk<T>(leaves: seq<Tensor<T>>, deviceCount: nat)
    requires PlaceLeaves(leaves, deviceCount).Ok?
    ensures |PlaceLeaves(leaves, deviceCount).value| == |leaves|
    ensures forall i :: 0 <= i < |leaves| ==>
      && ChooseSharding(leaves[i].shape, deviceCount).Ok?
      && PlaceLeaves(leaves, deviceCount).value[i] == Placed(leaves[i], ChooseSharding(leaves[i].shape, deviceCount).value)
    decreases |leaves|
  {
    if |leaves| > 0 {
      var pre := leaves[..|leaves| - 1];
      PlaceLeavesOk(pre, deviceCount);
      forall i | 0 <= i < |pre| ensures leaves[i] == pre[i] {}
    }
  }

  /** Placement succeeds exactly when every leaf can be placed; otherwise the
      error is that of the first leaf that cannot. */
  lemma {:induction false} PlaceLeavesErr<T>(leaves: seq<Tensor<T>>, deviceCount: nat, k: nat)
    requires k < |leaves| && ChooseSharding(leaves[k].shape, deviceCount).Err?
    requires forall i :: 0 <= i < k ==> ChooseSharding(leaves[i].shape, deviceCount).Ok?
    ensures PlaceLeaves(leaves, deviceCount) == Err(ChooseSharding(leaves[k].shape, deviceCount).error)
    decreases |leaves|
  {
    var pre := leaves[..|leaves| - 1];
    if k < |leaves| - 1 {
      forall i | 0 <= i <= k ensures pre[i] == leaves[i] {}
      PlaceLeavesErr(pre, deviceCount, k);
    } else {
      PlaceLeavesPrefixOk(leaves, deviceCount, k);
    }
  }

  /** Leaves that can all be placed are placed. */
  lemma {:induction false} PlaceLeavesPrefixOk<T>(leaves: seq<Tensor<T>>, deviceCount: nat, k: nat)
    requires k <= |leaves| && forall i :: 0 <= i < k ==> ChooseSharding(leaves[i].shape, deviceCount).Ok?
    ensures PlaceLeaves(leaves[..k], deviceCount).Ok?
    decreases k
  {
    if k > 0 {
      var pre := leaves[..k];
      assert pre[..k - 1] == leaves[..k - 1];
      PlaceLeavesPrefixOk(leaves, deviceCount, k - 1);
      assert pre[k - 1] == leaves[k - 1];
    }
  }

  /** The leaf loop of `save_weights_to_checkpoint`: pop the first remaining
      leaf, place it, append the placed leaf until none remain. */
  method PlaceAll<T>(leaves: seq<Tensor<T>>, deviceCount: nat) returns (r: Result<seq<Placed<T>>>)
    ensures r == PlaceLeaves(leaves, deviceCount)
  {
    var flat := leaves;
    var placed := [];
    while |flat| > 0
      invariant |flat| <= |leaves| && flat == leaves[|leaves| - |flat|..]
      invariant PlaceLeaves(leaves[..|leaves| - |flat|], deviceCount) == Ok(placed)
      decreases |flat|
    {
      var done := |leaves| - |flat|;
      var leaf := flat[0];
      flat := flat[1..];
      var s := ChooseSharding(leaf.shape, deviceCount);
      assert leaves[..done + 1][..done] == leaves[..done];
      if s.Err? {
        assert PlaceLeaves(leaves[..done + 1], deviceCount) == Err(s.error);
        PlaceLeavesErrPersists(leaves, deviceCount, done + 1);
        return Err(s.error);
      }
      placed := placed + [Placed(leaf, s.value)];
    }
    assert leaves[..|leaves|] == leaves;
    return Ok(placed);
  }

  /** An error among the first `k` leaves is the error of the whole run. */
  lemma {:induction false} PlaceLeavesErrPersists<T>(leaves: seq<Tensor<T>>, deviceCount: nat, k: nat)
    requires k <= |leaves| && PlaceLeaves(leaves[..k], deviceCount).Err?
    ensures PlaceLeaves(leaves, deviceCount) == PlaceLeaves(leaves[..k], deviceCount)
    decreases |leaves| - k
  {
    if k < |leaves| {
      assert leaves[..k + 1][..k] == leaves[..k];
      PlaceLeavesErrPersists(leaves, deviceCount, k + 1);
    } else {
      assert leaves[..k] == leaves;
    }
  }
}
