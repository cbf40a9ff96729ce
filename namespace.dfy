/** The namespace adapter wrapped around every checkpoint collection: a lookup
    by Meta-style name that falls back to the HuggingFace name of the same
    tensor when the collection was saved by HuggingFace. */
module Namespace {
  import opened Results
  import opened Strings
  import opened NameMapping

  /** The fields that `re.match("[0-9]+", field)` accepts, in order. */
  function DigitFields(fs: seq<string>): (r: seq<string>)
    ensures |r| <= |fs|
    ensures forall i :: 0 <= i < |r| ==> StartsWithDigit(r[i])
  {
    if |fs| == 0 then []
    else if StartsWithDigit(fs[0]) then [fs[0]] + DigitFields(fs[1..])
    else DigitFields(fs[1..])
  }

  /** `[int(f) for f in fs]`: the first field that is not a number raises. */
  function ParseAll(fs: seq<string>): (r: Result<seq<int>>)
    ensures r.Ok? <==> forall i :: 0 <= i < |fs| ==> ParseInt(fs[i]).Ok?
    ensures r.Ok? ==> |r.value| == |fs| && forall i :: 0 <= i < |fs| ==> r.value[i] == ParseInt(fs[i]).value
    ensures r.Err? ==> r.error.NotAnInteger?
  {
    if |fs| == 0 then Ok([])
    else
      var x :- ParseInt(fs[0]);
      var rest :- ParseAll(fs[1..]);
      Ok([x] + rest)
  }

  /** `_hf_mapping(*nums)`: both indices default to -1, and a third argument is a TypeError. */
  function MappingFor(key: string, nums: seq<int>): (r: Result<map<string, string>>)
    ensures r.Ok? <==> |nums| <= 2
    ensures r.Err? ==> r.error == TooManyIndexFields(key)
    ensures |nums| == 0 ==> r == Ok(HfMapping(-1, -1))
    ensures |nums| == 1 ==> r == Ok(HfMapping(nums[0], -1))
    ensures |nums| == 2 ==> r == Ok(HfMapping(nums[0], nums[1]))
  {
    if |nums| == 0 then Ok(HfMapping(-1, -1))
    else if |nums| == 1 then Ok(HfMapping(nums[0], -1))
    else if |nums| == 2 then Ok(HfMapping(nums[0], nums[1]))
    else Err(TooManyIndexFields(key))
  }

  /** A collection of tensors (or any values) seen through the adapter. */
  datatype Mapper<V> = Mapper(collection: map<string, V>, delimiter: char)
  {
    /** `mapper[key]`: the literal key wins; otherwise the key is looked up in
        the name table built from the integers found in its fields, and the
        HuggingFace name it maps to must be in the collection. */
    function Get(key: string): (r: Result<V>)
      ensures key in collection ==> r == Ok(collection[key])
      ensures r.Err? ==> key !in collection
    {
      if key in collection then Ok(collection[key])
      else
        var nums :- ParseAll(DigitFields(Split(key, delimiter)));
        var mapping :- MappingFor(key, nums);
        if key !in mapping then Err(KeyNotInMapping(key))
        else
          var newKey := mapping[key];
          if newKey !in collection then Err(MappedKeyMissing(key, newKey))
          else Ok(collection[newKey])
    }
  }

  // ---------------------------------------------------------------------
  // The integers found in a generated name are exactly its indices

  lemma {:induction false} DigitFieldsAppend(a: seq<string>, b: seq<string>)
    ensures DigitFields(a + b) == DigitFields(a) + DigitFields(b)
    decreases |a|
  {
    if |a| > 0 {
      assert (a + b)[0] == a[0] && (a + b)[1..] == a[1..] + b;
      DigitFieldsAppend(a[1..], b);
    } else {
      assert a + b == b;
    }
  }

  predicate NoDigitStart(fs: seq<string>)
  {
    forall i :: 0 <= i < |fs| ==> !StartsWithDigit(fs[i])
  }

  lemma {:induction false} NoDigitFields(fs: seq<string>)
    requires NoDigitStart(fs)
    ensures DigitFields(fs) == []
    decreases |fs|
  {
    if |fs| > 0 {
      NoDigitFields(fs[1..]);
    }
  }

  /** A name with one number between number-free parts yields just that number. */
  lemma OneNumber(pre: seq<string>, x: string, post: seq<string>)
    requires NoDigitStart(pre) && NoDigitStart(post) && StartsWithDigit(x)
    ensures DigitFields(pre + [x] + post) == [x]
  {
    NoDigitFields(pre);
    NoDigitFields(post);
    DigitFieldsAppend(pre + [x], post);
    DigitFieldsAppend(pre, [x]);
    assert DigitFields([x]) == [x] + DigitFields([]);
  }

  /** A name with two numbers between number-free parts yields both, in order. */
  lemma TwoNumbers(pre: seq<string>, x: string, mid: seq<string>, y: string, post: seq<string>)
    requires NoDigitStart(pre) && NoDigitStart(mid) && NoDigitStart(post)
    requires StartsWithDigit(x) && StartsWithDigit(y)
    ensures DigitFields(pre + [x] + mid + [y] + post) == [x, y]
  {
    OneNumber(pre, x, mid);
    OneNumber([], y, post);
    assert [] + [y] + post == [y] + post;
    DigitFieldsAppend(pre + [x] + mid, [y] + post);
    assert pre + [x] + mid + [y] + post == (pre + [x] + mid) + ([y] + post);
  }

  lemma SpellingsStartWithLetter()
    ensures forall q :: !StartsWithDigit(MetaProj(q)) && !StartsWithDigit(HfProj(q))
    ensures forall w :: !StartsWithDigit(FfnField(w)) && !StartsWithDigit(HfDense(w))
    ensures forall f :: !StartsWithDigit(FactorField(f))
  {
    forall q ensures !StartsWithDigit(MetaProj(q)) && !StartsWithDigit(HfProj(q)) {
      match q
      case Q =>
      case K =>
      case V =>
      case O =>
    }
    forall w ensures !StartsWithDigit(FfnField(w)) && !StartsWithDigit(HfDense(w)) {
      match w
      case W1 =>
      case W2 =>
      case W3 =>
    }
  }

  /** The numbers a Meta-style name carries: none for the model-wide entries, the
      layer for per-layer entries, the layer then the expert for expert entries. */
  function MetaNumbers(p: Param, l: int, e: int): seq<int>
  {
    if !UsesLayer(p) then [] else if p.Expert? then [l, e] else [l]
  }

  /** The same numbers as they are written in the name. */
  function MetaIndices(p: Param, l: int, e: int): seq<string>
  {
    if !UsesLayer(p) then [] else if p.Expert? then [IntToString(l), IntToString(e)] else [IntToString(l)]
  }

  lemma MetaDigitFieldsGlobal(p: Param, l: nat, e: nat)
    requires !UsesLayer(p)
    ensures DigitFields(MetaFields(p, l, e)) == []
  {
    NoDigitFields(MetaFields(p, l, e));
  }

  lemma MetaDigitFieldsExpert(w: Ffn, l: nat, e: nat)
    requires !StartsWithDigit(FfnField(w))
    ensures DigitFields(MetaFields(Expert(w), l, e)) == [IntToString(l), IntToString(e)]
  {
    var L, E := IntToString(l), IntToString(e);
    assert MetaFields(Expert(w), l, e) == ["layers"] + [L] + ["feed_forward", "experts"] + [E] + [FfnField(w), "weight"];
    TwoNumbers(["layers"], L, ["feed_forward", "experts"], E, [FfnField(w), "weight"]);
  }

  /** Every per-layer entry other than the experts' has the shape `layers.{l}.rest`. */
  lemma MetaDigitFieldsLayer(p: Param, l: nat, e: nat)
    requires UsesLayer(p) && !p.Expert?
    requires forall q :: !StartsWithDigit(MetaProj(q))
    requires forall w :: !StartsWithDigit(FfnField(w))
    requires forall f :: !StartsWithDigit(FactorField(f))
    ensures DigitFields(MetaFields(p, l, e)) == [IntToString(l)]
  {
    var fs := MetaFields(p, l, e);
    var L := IntToString(l);
    assert fs == ["layers"] + [L] + fs[2..];
    OneNumber(["layers"], L, fs[2..]);
  }

  lemma MetaDigitFields(p: Param, l: nat, e: nat)
    ensures DigitFields(MetaFields(p, l, e)) == MetaIndices(p, l, e)
  {
    SpellingsStartWithLetter();
    if !UsesLayer(p) {
      MetaDigitFieldsGlobal(p, l, e);
    } else if p.Expert? {
      MetaDigitFieldsExpert(p.ffn, l, e);
    } else {
      MetaDigitFieldsLayer(p, l, e);
    }
  }

  /** The adapter reads back exactly the numbers a Meta-style name was generated with. */
  lemma MetaNameNumbers(p: Param, l: nat, e: nat)
    ensures ParseAll(DigitFields(Split(MetaName(p, l, e), '.'))) == Ok(MetaNumbers(p, l, e))
  {
    FieldsHaveNoDot(p, l, e);
    SplitJoin(MetaFields(p, l, e), '.');
    MetaDigitFields(p, l, e);
    ParseIntOfString(l);
    ParseIntOfString(e);
    var r := ParseAll(MetaIndices(p, l, e));
    assert r.value == MetaNumbers(p, l, e);
  }

  /** The table built from those numbers maps the name to the entry's HuggingFace name. */
  lemma MetaNameInMapping(p: Param, l: nat, e: nat)
    requires p in ForwardParams
    ensures MappingFor(MetaName(p, l, e), MetaNumbers(p, l, e)).Ok?
    ensures var m := MappingFor(MetaName(p, l, e), MetaNumbers(p, l, e)).value;
      MetaName(p, l, e) in m && m[MetaName(p, l, e)] == HfName(p, l, e)
  {
    if !UsesLayer(p) {
      assert MetaName(p, l, e) == MetaName(p, -1, -1) && HfName(p, l, e) == HfName(p, -1, -1);
      HfMappingAt(p, -1, -1);
    } else if p.Expert? {
      HfMappingAt(p, l, e);
    } else {
      assert MetaName(p, l, e) == MetaName(p, l, -1) && HfName(p, l, e) == HfName(p, l, -1);
      HfMappingAt(p, l, -1);
    }
  }

  // ---------------------------------------------------------------------
  // What a lookup returns

  /** Looking up a Meta-style name that the collection lacks returns the tensor
      stored under the tensor's HuggingFace name, or reports that name missing. */
  lemma GetResolves<V>(c: map<string, V>, p: Param, l: nat, e: nat)
    requires p in ForwardParams && MetaName(p, l, e) !in c
    ensures HfName(p, l, e) in c ==> Mapper(c, '.').Get(MetaName(p, l, e)) == Ok(c[HfName(p, l, e)])
    ensures HfName(p, l, e) !in c ==>
      Mapper(c, '.').Get(MetaName(p, l, e)) == Err(MappedKeyMissing(MetaName(p, l, e), HfName(p, l, e)))
  {
    MetaNameNumbers(p, l, e);
    MetaNameInMapping(p, l, e);
  }

  /** The steps a successful lookup of a key the collection lacks went through. */
  lemma GetSteps<V>(c: map<string, V>, key: string) returns (nums: seq<int>, m: map<string, string>)
    requires key !in c && Mapper(c, '.').Get(key).Ok?
    ensures ParseAll(DigitFields(Split(key, '.'))) == Ok(nums) && MappingFor(key, nums) == Ok(m)
    ensures key in m && m[key] in c && Mapper(c, '.').Get(key).value == c[m[key]]
  {
    nums := ParseAll(DigitFields(Split(key, '.'))).value;
    m := MappingFor(key, nums).value;
  }

  /** Every successful lookup of a key the collection lacks went through one
      table entry: the key is the entry's Meta-style name and the value is the
      one stored under its HuggingFace name. */
  lemma GetSound<V>(c: map<string, V>, key: string)
    requires key !in c && Mapper(c, '.').Get(key).Ok?
    ensures exists p, l, e ::
      (p in ForwardParams && key == MetaName(p, l, e) && HfName(p, l, e) in c
       && Mapper(c, '.').Get(key).value == c[HfName(p, l, e)])
  {
    var nums, m := GetSteps(c, key);
    var l := if |nums| >= 1 then nums[0] else -1;
    var e := if |nums| == 2 then nums[1] else -1;
    assert m == HfMapping(l, e);
    var p := ForwardEntry(key, l, e);
    HfMappingAt(p, l, e);
    assert m[key] == HfName(p, l, e);
  }

  /** A key the collection lacks and that no table entry generates is refused
      with the first error: a bad number, too many numbers, or no table entry. */
  lemma GetUnknown<V>(c: map<string, V>, key: string)
    requires key !in c
    requires forall p, l, e :: p in ForwardParams ==> key != MetaName(p, l, e)
    ensures Mapper(c, '.').Get(key).Err?
    ensures !Mapper(c, '.').Get(key).error.MappedKeyMissing?
  {
    var r := Mapper(c, '.').Get(key);
    var nums := ParseAll(DigitFields(Split(key, '.')));
    if nums.Ok? && |nums.value| <= 2 {
      var l := if |nums.value| >= 1 then nums.value[0] else -1;
      var e := if |nums.value| == 2 then nums.value[1] else -1;
      assert MappingFor(key, nums.value) == Ok(HfMapping(l, e));
      if key in HfMapping(l, e) {
        var p := ForwardEntry(key, l, e);
        assert false;
      }
    }
  }
}
