/** The files of a sharded PyTorch checkpoint: each file name carries its
    shard number between its first and second dot; the loader keeps one
    collection per number (a later file with the same number replaces an
    earlier one) and lists them by increasing number.  The key/value kernels
    of some checkpoints are read from every second shard only. */
module Shards {
  import opened Results
  import opened Strings
  import Tensors

  /** `int(name.split(".", maxsplit=2)[1])`: a name without a dot has no
      second field (an IndexError) and the field must be a number, possibly
      signed, so `consolidated.-1.pth` is shard -1. */
  function ShardIndex(name: string): (r: Result<int>)
    ensures |Split(name, '.')| < 2 <==> r == Err(BadShardName(name))
    ensures |Split(name, '.')| >= 2 ==> (r.Ok? <==> IsNumeral(Split(name, '.')[1]))
  {
    var fields := Split(name, '.');
    if |fields| < 2 then Err(BadShardName(name)) else ParseInt(fields[1])
  }

  /** A name made of delimiter-free fields whose second field is a rendered
      number has that number as its shard index, whatever follows. */
  lemma ShardIndexOfName(stem: string, n: int, rest: seq<string>)
    requires '.' !in stem && NoDelimiter(rest, '.')
    ensures ShardIndex(Dotted([stem, IntToString(n)] + rest)) == Ok(n)
  {
    var fs := [stem, IntToString(n)] + rest;
    IntToStringHasNoDot(n);
    assert NoDelimiter(fs, '.') by {
      forall i | 0 <= i < |fs| ensures '.' !in fs[i] {
        if i >= 2 {
          assert fs[i] == rest[i - 2];
        }
      }
    }
    SplitJoin(fs, '.');
    ParseIntOfString(n);
  }

  /** A `+` in front of the shard number is accepted and ignored. */
  lemma ShardIndexOfPlus(stem: string, n: nat, rest: seq<string>)
    requires '.' !in stem && NoDelimiter(rest, '.')
    ensures ShardIndex(Dotted([stem, "+" + NatToString(n)] + rest)) == Ok(n)
  {
    var field := "+" + NatToString(n);
    var fs := [stem, field] + rest;
    IntToStringHasNoDot(n);
    assert '.' !in field by {
      forall k | 0 <= k < |field| ensures field[k] != '.' {
        if k > 0 {
          assert field[k] == IntToString(n)[k - 1];
        }
      }
    }
    assert NoDelimiter(fs, '.') by {
      forall i | 0 <= i < |fs| ensures '.' !in fs[i] {
        if i >= 2 {
          assert fs[i] == rest[i - 2];
        }
      }
    }
    SplitJoin(fs, '.');
    ParseIntPlus(n);
  }

  // ---------------------------------------------------------------------
  // The loading loop and the sorted list

  /** The dictionary built by the loading loop after the given files, or the
      error of the first file whose name has no index. */
  function ShardMap<C>(files: seq<(string, C)>): (r: Result<map<int, C>>)
    ensures r.Ok? <==> forall i :: 0 <= i < |files| ==> ShardIndex(files[i].0).Ok?
    decreases |files|
  {
    if |files| == 0 then Ok(map[])
    else
      var m :- ShardMap(files[..|files| - 1]);
      var i :- ShardIndex(files[|files| - 1].0);
      Ok(m[i := files[|files| - 1].1])
  }

  /** An error of the first `k` files is the error of the whole list. */
  lemma {:induction false} ShardMapErrPersists<C>(files: seq<(string, C)>, k: nat)
    requires k <= |files| && ShardMap(files[..k]).Err?
    ensures ShardMap(files) == Err(ShardMap(files[..k]).error)
    decreases |files| - k
  {
    if k < |files| {
      var next := files[..k + 1];
      assert next[..|next| - 1] == files[..k];
      ShardMapErrPersists(files, k + 1);
    } else {
      assert files[..k] == files;
    }
  }

  /** The dictionary's keys are exactly the indices of the files. */
  lemma {:induction false} ShardMapKeys<C>(files: seq<(string, C)>, n: int)
    requires ShardMap(files).Ok?
    ensures n in ShardMap(files).value <==> exists i :: 0 <= i < |files| && ShardIndex(files[i].0) == Ok(n)
    decreases |files|
  {
    if |files| > 0 {
      var init := files[..|files| - 1];
      ShardMapKeys(init, n);
      if exists i :: 0 <= i < |files| && ShardIndex(files[i].0) == Ok(n) {
        var i :| 0 <= i < |files| && ShardIndex(files[i].0) == Ok(n);
        if i < |init| {
          assert init[i] == files[i];
        }
      }
      if exists i :: 0 <= i < |init| && ShardIndex(init[i].0) == Ok(n) {
        var i :| 0 <= i < |init| && ShardIndex(init[i].0) == Ok(n);
        assert init[i] == files[i];
      }
    }
  }

  /** Under each index sits the collection of the last file with that index. */
  lemma {:induction false} ShardMapLast<C>(files: seq<(string, C)>, i: nat)
    requires ShardMap(files).Ok? && i < |files|
    requires forall j :: i < j < |files| ==> ShardIndex(files[j].0) != ShardIndex(files[i].0)
    ensures ShardIndex(files[i].0).value in ShardMap(files).value
    ensures ShardMap(files).value[ShardIndex(files[i].0).value] == files[i].1
    decreases |files|
  {
    if i < |files| - 1 {
      var init := files[..|files| - 1];
      assert init[i] == files[i];
      forall j | i < j < |init| ensures ShardIndex(init[j].0) != ShardIndex(init[i].0) {
        assert init[j] == files[j];
      }
      ShardMapLast(init, i);
    }
  }

  /** Every file has a last file after it (or itself) with the same index. */
  lemma {:induction false} LastWithIndex<C>(files: seq<(string, C)>, i: nat) returns (k: nat)
    requires i < |files|
    ensures i <= k < |files| && ShardIndex(files[k].0) == ShardIndex(files[i].0)
    ensures forall j :: k < j < |files| ==> ShardIndex(files[j].0) != ShardIndex(files[i].0)
    decreases |files| - i
  {
    if exists j :: i < j < |files| && ShardIndex(files[j].0) == ShardIndex(files[i].0) {
      var j :| i < j < |files| && ShardIndex(files[j].0) == ShardIndex(files[i].0);
      k := LastWithIndex(files, j);
    } else {
      k := i;
    }
  }

  /** The least element of a non-empty set of integers. */
  lemma MinExists(s: set<int>)
    requires s != {}
    ensures exists x :: x in s && forall y :: y in s ==> x <= y
    decreases |s|
  {
    if forall y :: y !in s {
      assert false;
    }
    var x :| x in s;
    if s != {x} {
      MinExists(s - {x});
      var m :| m in s - {x} && forall y :: y in s - {x} ==> m <= y;
      var least := if x < m then x else m;
      forall y | y in s ensures least <= y {
        if y != x {
          assert y in s - {x};
        }
      }
      assert least in s;
    } else {
      forall y | y in s ensures x <= y {
        assert y == x;
      }
      assert x in s;
    }
  }

  function SetMin(s: set<int>): (x: int)
    requires s != {}
    ensures x in s && forall y :: y in s ==> x <= y
  {
    MinExists(s);
    var x :| x in s && forall y :: y in s ==> x <= y;
    x
  }

  /** `sorted(list(keys))` for a set of integers. */
  function SortedKeys(s: set<int>): (r: seq<int>)
    ensures |r| == |s|
    ensures forall x :: x in r <==> x in s
    ensures forall i, j :: 0 <= i < j < |r| ==> r[i] < r[j]
    decreases |s|
  {
    if s == {} then []
    else
      var m := SetMin(s);
      var rest := SortedKeys(s - {m});
      assert forall i :: 0 <= i < |rest| ==> m < rest[i] by {
        forall i | 0 <= i < |rest| ensures m < rest[i] {
          assert rest[i] in s - {m};
        }
      }
      [m] + rest
  }

  /** The list the converter works on: the stored collections by increasing index. */
  function OrderedShards<C>(files: seq<(string, C)>): (r: Result<seq<C>>)
    ensures r.Ok? <==> ShardMap(files).Ok?
  {
    var m :- ShardMap(files);
    var keys := SortedKeys(m.Keys);
    Ok(seq(|keys|, k requires 0 <= k < |keys| => m[keys[k]]))
  }

  /** Each position of the ordered list holds the collection of the last file
      with the index of that rank: indices strictly increase along the list,
      and there is one position per distinct index. */
  lemma OrderedShardsAt<C>(files: seq<(string, C)>, p: nat)
    requires OrderedShards(files).Ok? && p < |OrderedShards(files).value|
    ensures |OrderedShards(files).value| == |ShardMap(files).value.Keys|
    ensures exists i :: (0 <= i < |files| && ShardIndex(files[i].0).value == SortedKeys(ShardMap(files).value.Keys)[p]
      && (forall j :: i < j < |files| ==> ShardIndex(files[j].0) != ShardIndex(files[i].0))
      && OrderedShards(files).value[p] == files[i].1)
  {
    var m := ShardMap(files).value;
    var keys := SortedKeys(m.Keys);
    var n := keys[p];
    assert n in m;
    var i := LastFileWithIndex(files, n);
    assert OrderedShards(files).value[p] == m[n];
  }

  /** The dictionary entry under index `n` was written by the last file with that index. */
  lemma LastFileWithIndex<C>(files: seq<(string, C)>, n: int) returns (i: nat)
    requires ShardMap(files).Ok? && n in ShardMap(files).value
    ensures i < |files| && ShardIndex(files[i].0) == Ok(n)
    ensures forall j :: i < j < |files| ==> ShardIndex(files[j].0) != ShardIndex(files[i].0)
    ensures ShardMap(files).value[n] == files[i].1
  {
    ShardMapKeys(files, n);
    var i0 :| 0 <= i0 < |files| && ShardIndex(files[i0].0) == Ok(n);
    i := LastWithIndex(files, i0);
    ShardMapLast(files, i);
  }

  /** The loading loop: each file's collection goes into a dictionary under
      the file's index; the dictionary's values are then listed by increasing key. */
  method OrderShards<C>(files: seq<(string, C)>) returns (r: Result<seq<C>>)
    ensures r == OrderedShards(files)
  {
    var m: map<int, C> := map[];
    var i := 0;
    while i < |files|
      invariant 0 <= i <= |files|
      invariant ShardMap(files[..i]) == Ok(m)
    {
      var idx := ShardIndex(files[i].0);
      var next := files[..i + 1];
      assert next[..|next| - 1] == files[..i];
      if idx.Err? {
        ShardMapErrPersists(files, i + 1);
        return Err(idx.error);
      }
      m := m[idx.value := files[i].1];
      i := i + 1;
    }
    assert files[..i] == files;
    var keys := SortedKeys(m.Keys);
    r := Ok(seq(|keys|, k requires 0 <= k < |keys| => m[keys[k]]));
  }

  // ---------------------------------------------------------------------
  // Every `step`-th shard

  lemma StrideBound(n: nat, step: nat, i: nat)
    requires step > 0
    ensures i < (n + step - 1) / step <==> i * step < n
  {
    var c := (n + step - 1) / step;
    assert c * step <= n + step - 1 && n + step - 1 < c * step + step;
    if i < c {
      Tensors.MulLeMono(i + 1, c, step);
    } else {
      Tensors.MulLeMono(c, i, step);
    }
  }

  /** `s[::step]`: the elements at positions 0, step, 2*step, ... */
  function Strided<X>(s: seq<X>, step: nat): (r: seq<X>)
    requires step > 0
    ensures forall i: nat :: i < |r| <==> i * step < |s|
    ensures forall i :: 0 <= i < |r| ==> r[i] == s[i * step]
  {
    var c := (|s| + step - 1) / step;
    forall i: nat ensures i < c <==> i * step < |s| {
      StrideBound(|s|, step, i);
    }
    seq(c, i requires 0 <= i < c => s[i * step])
  }

  /** A step of one keeps every shard. */
  lemma StridedOne<X>(s: seq<X>)
    ensures Strided(s, 1) == s
  {
  }

  /** A step of two keeps the even positions: half the shards, rounded up. */
  lemma StridedTwo<X>(s: seq<X>)
    ensures |Strided(s, 2)| == (|s| + 1) / 2
    ensures forall i :: 0 <= i < |Strided(s, 2)| ==> Strided(s, 2)[i] == s[2 * i]
  {
  }
}
