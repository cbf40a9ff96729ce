# Llama / Mistral checkpoint conversion to MaxText, modelled in Dafny

This project models the core of MaxText's checkpoint converter
`MaxText/llama_or_mistral_ckpt.py`. The converter takes a Meta-style
PyTorch checkpoint (several `*.pth` shards) or a HuggingFace checkpoint and
builds the nested weight tree that MaxText loads: the decoder norm, the
logits kernel, the token embedding, and the per-layer self-attention, norm
and feed-forward weights. It stacks the per-layer weights along a new layer
axis and reorders their axes. The model covers:

- the two name tables `_hf_mapping` and `_hf_to_maxtext_mapping`
  (`NameMapping`);
- the namespace adapter `_HFNamespaceMapper`, which looks a Meta-style key
  up in a HuggingFace collection (`Namespace`);
- the rotary permutation `permute_to_match_maxtext_rope` (`Rope`);
- the model table `MODEL_PARAMS_DICT` and the rules keyed on prefixes of
  the model size (`ModelParams`);
- shard ordering and the key/value stride (`Shards`), and reading a tensor
  joined across shards (`Checkpoint`);
- the head-split reshapes (`Heads`) and the per-layer kernels (`Layout`);
- the layer loops, which allocate zeroed accumulators at the first layer
  and write slot `l` (or slot `[k, l]` for experts) in place. These are
  imperative Dafny over `array2`/`array3` (`Stacking`, `Experts`);
- the final axis orders (`FinalAxes`, `JaxWeights`) and the whole
  conversion (`Conversion`);
- the LoRA adapter conversion (`Lora`, `LoraLoops`);
- the sharding placement of `save_weights_to_checkpoint` and its
  pop/append leaf loop (`Placement`).

Tensors are generic-element arrays: `Tensor(shape, data)` with row-major
data, and `At(t, i)` reads the element at index `i`. No floating-point
arithmetic appears. Every numpy or Python error the code can raise on
these paths is an `Err` of a `ConvError` (`Results`): a missing key, a
bad shard name, a shape numpy refuses, an unknown model size, a
zero-dimensional leaf, or a zero device count. Each loop is a method.
Its `ensures` ties its result to a specification function, and lemmas
state the properties of that function, down to the element: which
checkpoint entry ends up at which index of which MaxText array.

All cited lines below are in `MaxText/llama_or_mistral_ckpt.py`.

## Model

| member | source | states |
|---|---|---|
| Strings.Split | MaxText/llama_or_mistral_ckpt.py:228 | `key.split(".")` always has one field more than delimiters, so at least one field |
| Strings.SplitJoin | MaxText/llama_or_mistral_ckpt.py:228 | splitting a dotted name made of dot-free fields gives exactly those fields back |
| Strings.DottedInjective | MaxText/llama_or_mistral_ckpt.py:159-213 | two dotted names over dot-free fields are equal iff their field lists are equal |
| Strings.IntToString | MaxText/llama_or_mistral_ckpt.py:166-188 | `f"{i}"` of a non-negative index is a non-empty run of digits that starts with a digit; a negative one starts with `-` |
| Strings.ParseInt | MaxText/llama_or_mistral_ckpt.py:690 | `int(field)` succeeds iff the field is an optional `+` or `-` followed by a non-empty run of digits; the value is the digits' decimal value, negated after `-`; any other text is `NotAnInteger` |
| Strings.ParseIntOfString | MaxText/llama_or_mistral_ckpt.py:229 | reading back a rendered integer of either sign gives the integer |
| Strings.ParseIntPlus | MaxText/llama_or_mistral_ckpt.py:690 | a leading `+` on a rendered number does not change its value |
| Strings.ParseIntSigned | MaxText/llama_or_mistral_ckpt.py:690 | a `-` in front of a digit run negates its value and a `+` keeps it |
| Strings.ParseIntUnsigned | MaxText/llama_or_mistral_ckpt.py:228-229 | a field the digit filter accepts carries no sign, so it reads as a natural number |
| Strings.NatToStringRoundTrip | MaxText/llama_or_mistral_ckpt.py:229 | the decimal value of `str(n)` is `n` |
| Strings.ContainsAt | MaxText/llama_or_mistral_ckpt.py:351 | `sub in s` holds whenever `sub` occurs at some position of `s` |
| NameMapping.SpellingsRoundTrip | MaxText/llama_or_mistral_ckpt.py:166-188 | each projection, feed-forward and factor spelling is read back as the same entry |
| NameMapping.FieldsHaveNoDot | MaxText/llama_or_mistral_ckpt.py:159-213 | every Meta-style and HuggingFace name has at least two fields and no field holds a dot |
| NameMapping.MetaParamOfFields | MaxText/llama_or_mistral_ckpt.py:159-189 | the entry kind is recovered from the fields of its Meta-style name |
| NameMapping.HfParamOfFields | MaxText/llama_or_mistral_ckpt.py:159-213 | the entry kind is recovered from the fields of its HuggingFace name |
| NameMapping.MetaNameDetermines | MaxText/llama_or_mistral_ckpt.py:159-189 | equal Meta-style names have the same entry kind and the same fields |
| NameMapping.HfNameDetermines | MaxText/llama_or_mistral_ckpt.py:159-213 | equal HuggingFace names have the same entry kind and the same fields |
| NameMapping.ParamSets | MaxText/llama_or_mistral_ckpt.py:159-213 | `_hf_mapping` holds every entry kind but the rotary frequencies; `_hf_to_maxtext_mapping` holds every kind but the LoRA factors |
| NameMapping.HfMappingAt | MaxText/llama_or_mistral_ckpt.py:159-189 | `_hf_mapping(l, e)` maps each entry's Meta-style name to its HuggingFace name |
| NameMapping.HfToMaxTextAt | MaxText/llama_or_mistral_ckpt.py:192-213 | `_hf_to_maxtext_mapping(l, e)` maps each entry's HuggingFace name to its Meta-style name |
| NameMapping.HfMappingKeys | MaxText/llama_or_mistral_ckpt.py:159-189 | the keys of `_hf_mapping` are exactly the Meta-style names of its entries |
| NameMapping.HfToMaxTextKeys | MaxText/llama_or_mistral_ckpt.py:192-213 | the keys of `_hf_to_maxtext_mapping` are exactly the HuggingFace names of its entries |
| NameMapping.ForwardEntry | MaxText/llama_or_mistral_ckpt.py:159-189 | every key of `_hf_mapping` is the Meta-style name of some forward entry |
| NameMapping.ReverseEntry | MaxText/llama_or_mistral_ckpt.py:192-213 | every key of `_hf_to_maxtext_mapping` is the HuggingFace name of some reverse entry |
| NameMapping.HfMappingInjective | MaxText/llama_or_mistral_ckpt.py:159-189 | for fixed indices, distinct keys of `_hf_mapping` map to distinct names |
| NameMapping.HfToMaxTextInjective | MaxText/llama_or_mistral_ckpt.py:192-213 | for fixed indices, distinct keys of `_hf_to_maxtext_mapping` map to distinct names |
| NameMapping.ReverseUndoesForward | MaxText/llama_or_mistral_ckpt.py:159-213 | forward then reverse returns the key, exactly for keys that are not LoRA factors; a LoRA name has no way back |
| NameMapping.ForwardUndoesReverse | MaxText/llama_or_mistral_ckpt.py:159-213 | reverse then forward returns the key, exactly for keys that are not `rotary_emb.inv_freq` |
| NameMapping.OneSidedEntries | MaxText/llama_or_mistral_ckpt.py:181-188 | LoRA names occur only in `_hf_mapping`, `rotary_emb.inv_freq` only in `_hf_to_maxtext_mapping`, on both sides of each table |
| Namespace.DigitFields | MaxText/llama_or_mistral_ckpt.py:228 | the fields `re.match("[0-9]+", …)` accepts, in order; each starts with a digit |
| Namespace.ParseAll | MaxText/llama_or_mistral_ckpt.py:229 | `[int(f) …]` succeeds iff every field parses, element by element; otherwise it is a `NotAnInteger` error |
| Namespace.MappingFor | MaxText/llama_or_mistral_ckpt.py:230 | `_hf_mapping(*nums)`: indices default to -1, and more than two numbers is a `TooManyIndexFields` error |
| Namespace.Mapper.Get | MaxText/llama_or_mistral_ckpt.py:225-236 | a key in the collection is returned as stored, even when it is also a mapping source; every error is for a key the collection lacks |
| Namespace.OneNumber | MaxText/llama_or_mistral_ckpt.py:228 | a name with one numeric field among non-numeric fields yields just that number |
| Namespace.TwoNumbers | MaxText/llama_or_mistral_ckpt.py:228 | a name with two numeric fields yields both, in order |
| Namespace.MetaDigitFields | MaxText/llama_or_mistral_ckpt.py:228 | the numeric fields of a Meta-style name are none for model-wide entries, the layer for per-layer entries, and the layer then the expert for expert entries |
| Namespace.MetaNameNumbers | MaxText/llama_or_mistral_ckpt.py:228-229 | the adapter reads back exactly the indices a Meta-style name was built with |
| Namespace.MetaNameInMapping | MaxText/llama_or_mistral_ckpt.py:228-230 | the table built from those indices maps the name to the entry's HuggingFace name |
| Namespace.GetResolves | MaxText/llama_or_mistral_ckpt.py:225-236 | a Meta-style name the collection lacks returns the tensor under its HuggingFace name, or `MappedKeyMissing` naming that HuggingFace name |
| Namespace.GetSteps | MaxText/llama_or_mistral_ckpt.py:228-236 | a successful fallback lookup parsed the key's numbers, built the table, found the key in it and read the mapped name from the collection |
| Namespace.GetSound | MaxText/llama_or_mistral_ckpt.py:225-236 | every successful fallback lookup went through one table entry: the key is its Meta-style name and the value is stored under its HuggingFace name |
| Namespace.GetUnknown | MaxText/llama_or_mistral_ckpt.py:228-232 | a key the collection lacks and no table entry generates is refused, and never as `MappedKeyMissing` |
| Tensors.Unravel | MaxText/llama_or_mistral_ckpt.py:262-265 | the row-major index stored at a flat position is in bounds and has that offset |
| Tensors.UnravelOffset | MaxText/llama_or_mistral_ckpt.py:262-265 | row-major offsets and indices are mutually inverse |
| Tensors.Extensionality | MaxText/llama_or_mistral_ckpt.py:239-242 | two arrays of one shape that agree at every index are equal |
| Tensors.Zeros | MaxText/llama_or_mistral_ckpt.py:780-785 | `np.zeros(s)` has shape `s` and the zero element everywhere |
| Tensors.MapElements | MaxText/llama_or_mistral_ckpt.py:800 | an elementwise expression keeps the shape and applies the map at every index |
| Tensors.Reshape | MaxText/llama_or_mistral_ckpt.py:765-767 | `np.reshape` succeeds iff the element counts agree, and keeps the row-major data |
| Tensors.SplitLastAxis | MaxText/llama_or_mistral_ckpt.py:765-767 | reshaping `[m, h*d]` to `[m, h, d]` sends `[i, a*d + b]` to `[i, a, b]` |
| Tensors.TransposeAt | MaxText/llama_or_mistral_ckpt.py:792-797 | element `j` of `np.transpose(t, axes=perm)` is the input element whose axis `perm[a]` holds `j[a]` |
| Tensors.TransposeAxes | MaxText/llama_or_mistral_ckpt.py:792-797 | `np.transpose` succeeds iff the axes are a permutation of the rank |
| Tensors.ReversedAxes | MaxText/llama_or_mistral_ckpt.py:753-763 | the axes `n-1, …, 0` of `.transpose()` form a permutation |
| Tensors.TransposeAllMatrix | MaxText/llama_or_mistral_ckpt.py:856-864 | `.transpose()` on a matrix swaps rows and columns |
| Tensors.SliceAxis | MaxText/llama_or_mistral_ckpt.py:724-736 | `[:, :v]` / `[:v, :]` keeps `min(v, n)` entries of that axis and fails on a tensor without the axis |
| Tensors.SliceAxisAt | MaxText/llama_or_mistral_ckpt.py:724-736 | a slice keeps each kept element at the same index |
| Tensors.Stack | MaxText/llama_or_mistral_ckpt.py:780-790 | the stack of per-layer tensors has the layers as a new leading axis |
| Tensors.StackAt | MaxText/llama_or_mistral_ckpt.py:787-790 | slot `l` of the stack holds tensor `l` |
| Tensors.Stack2At | MaxText/llama_or_mistral_ckpt.py:909-912 | slot `[e, l]` of the two-level stack holds tensor `[e][l]` |
| Tensors.Concat | MaxText/llama_or_mistral_ckpt.py:753-763 | `np.concatenate` succeeds iff the parts have one rank, the axis is inside it, and the other axes agree |
| Tensors.ConcatAt | MaxText/llama_or_mistral_ckpt.py:753-763 | part `i` keeps every element, shifted along the axis by the sizes of the parts before it |
| Tensors.ConcatSingle | MaxText/llama_or_mistral_ckpt.py:753-763 | concatenating one part returns it unchanged |
| Tensors.ConcatPairAt | MaxText/llama_or_mistral_ckpt.py:241 | joining two parts: below the first part's size read the first part, beyond it read the second, shifted back |
| Rope.StrideCount | MaxText/llama_or_mistral_ckpt.py:240-241 | `[start::2]` keeps exactly the positions `start + 2x` below `n` |
| Rope.EveryOtherAt | MaxText/llama_or_mistral_ckpt.py:240-241 | position `p` of `arr[..., start::2]` is position `start + 2p` of `arr`, other axes unchanged |
| Rope.HalvesShape | MaxText/llama_or_mistral_ckpt.py:241 | the even and odd halves join back to the input shape |
| Rope.PermuteToMatchMaxTextRope | MaxText/llama_or_mistral_ckpt.py:239-242 | the permutation keeps the shape |
| Rope.RopeMapsInverse | MaxText/llama_or_mistral_ckpt.py:239-242 | the source and target maps of the last axis are mutually inverse bijections |
| Rope.PermuteAt | MaxText/llama_or_mistral_ckpt.py:239-242 | only the last coordinate moves: output `p` reads input `RopeSource(n, p)` |
| Rope.PermuteAtEven | MaxText/llama_or_mistral_ckpt.py:239-242 | the first `ceil(n/2)` outputs are `arr[..., 0], arr[..., 2], …` |
| Rope.PermuteAtOdd | MaxText/llama_or_mistral_ckpt.py:239-242 | the remaining outputs are `arr[..., 1], arr[..., 3], …` |
| Rope.InterleaveAfterPermute | MaxText/llama_or_mistral_ckpt.py:239-242 | interleaving the halves again undoes the permutation |
| Rope.PermuteAfterInterleave | MaxText/llama_or_mistral_ckpt.py:239-242 | the permutation undoes interleaving, so it is a bijection |
| Rope.PermuteInterleaved | MaxText/llama_or_mistral_ckpt.py:239-242 | applied to the interleaving of equal-length `E` and `O` it yields `E ++ O` |
| ModelParams.LookupModel | MaxText/llama_or_mistral_ckpt.py:59-152 | `MODEL_PARAMS_DICT[size]` gives the size's row, and an unknown size is an `UnknownModel` error |
| ModelParams.TableShapes | MaxText/llama_or_mistral_ckpt.py:59-152 | every row has kv heads dividing the query heads, an even head size, layers and a vocabulary; exactly the Mixtral rows have experts |
| ModelParams.LookupModelTotal | MaxText/llama_or_mistral_ckpt.py:948 | a lookup either gives a row with layers or refuses the size by name |
| ModelParams.Prefix | MaxText/llama_or_mistral_ckpt.py:769 | `s[:n]` keeps the first `min(n, len(s))` characters |
| ModelParams.KvStep | MaxText/llama_or_mistral_ckpt.py:749-750 | the key/value stride is 2 exactly for `llama3.1-405b`, 1 otherwise |
| ModelParams.PrefixOf | MaxText/llama_or_mistral_ckpt.py:500 | a prefix test sees only the first characters |
| ModelParams.PermuteRules | MaxText/llama_or_mistral_ckpt.py:154 | 3.1 sizes are permuted by the HuggingFace path only; 3.3 sizes by neither; sizes not starting `llama3.` by the PyTorch path only |
| ModelParams.TableRules | MaxText/llama_or_mistral_ckpt.py:59-154 | on the table rows: which sizes each path permutes, which sizes keep the whole embedding (the Llama 3 sizes), and that the key/value stride is 2 exactly for the 405B size |
| Shards.ShardIndex | MaxText/llama_or_mistral_ckpt.py:690 | `int(name.split(".", maxsplit=2)[1])`: no second field is `BadShardName`; otherwise it succeeds iff that field is a possibly signed run of digits |
| Shards.ShardIndexOfName | MaxText/llama_or_mistral_ckpt.py:690 | a name whose second field is a rendered integer, negative ones included, has that integer as its index, whatever follows |
| Shards.ShardIndexOfPlus | MaxText/llama_or_mistral_ckpt.py:690 | a `+` in front of the shard number is accepted and gives the same index |
| Shards.ShardMap | MaxText/llama_or_mistral_ckpt.py:688-690 | the loading loop succeeds iff every file name has an index |
| Shards.ShardMapErrPersists | MaxText/llama_or_mistral_ckpt.py:688-690 | a bad name among the first `k` files is the error of the whole loop |
| Shards.ShardMapKeys | MaxText/llama_or_mistral_ckpt.py:688-690 | the dictionary's keys are exactly the files' indices |
| Shards.ShardMapLast | MaxText/llama_or_mistral_ckpt.py:688-690 | under each index sits the collection of the last file with that index |
| Shards.LastWithIndex | MaxText/llama_or_mistral_ckpt.py:688-690 | every file has a last file, itself or later, with the same index |
| Shards.SortedKeys | MaxText/llama_or_mistral_ckpt.py:691 | `sorted(list(keys))` lists each key once in strictly increasing order |
| Shards.OrderedShards | MaxText/llama_or_mistral_ckpt.py:688-691 | ordering succeeds iff loading does |
| Shards.OrderedShardsAt | MaxText/llama_or_mistral_ckpt.py:688-691 | position `p` holds the collection of the last file whose index has rank `p`; one position per distinct index |
| Shards.LastFileWithIndex | MaxText/llama_or_mistral_ckpt.py:690 | the entry under an index was written by the last file with that index |
| Shards.OrderShards | MaxText/llama_or_mistral_ckpt.py:687-691 | the loading loop and the sort give the specified ordered list or the first bad name |
| Shards.Strided | MaxText/llama_or_mistral_ckpt.py:757-761 | `s[::step]` holds exactly the elements at positions `0, step, 2*step, …` |
| Shards.StridedOne | MaxText/llama_or_mistral_ckpt.py:750 | a step of one keeps every shard |
| Shards.StridedTwo | MaxText/llama_or_mistral_ckpt.py:749-750 | a step of two keeps the even shards, half rounded up |
| Checkpoint.Gather | MaxText/llama_or_mistral_ckpt.py:753-763 | `[var[key] for var in parts]` succeeds iff every shard has the key, element by element |
| Checkpoint.GatherFirstError | MaxText/llama_or_mistral_ckpt.py:753-763 | a failed gather reports the first failing shard's error |
| Checkpoint.Lookup | MaxText/llama_or_mistral_ckpt.py:518-520 | `dict[key]` returns the stored tensor, or `MissingKey` |
| Checkpoint.Read | MaxText/llama_or_mistral_ckpt.py:753-763 | a HuggingFace collection is a plain lookup; a read returns a well-formed tensor |
| Checkpoint.ReadSharded | MaxText/llama_or_mistral_ckpt.py:753-763 | a sharded read succeeds iff every strided shard has the key and the parts fit along the axis; its value is their concatenation |
| Checkpoint.ReadShardAt | MaxText/llama_or_mistral_ckpt.py:753-763 | strided shard `p` lands shifted along the joining axis by the sizes of the strided shards before it |
| Checkpoint.ReadOneShard | MaxText/llama_or_mistral_ckpt.py:753-763 | a one-shard checkpoint reads each tensor as stored |
| Checkpoint.ReadFirst | MaxText/llama_or_mistral_ckpt.py:715 | `chkpt_vars[0][key]`: no shard is `NoShards`; otherwise the first shard's lookup, with its error |
| Heads.RopeIf | MaxText/llama_or_mistral_ckpt.py:769-771 | the kernel is permuted when the rule says so and left unchanged otherwise |
| Heads.SplitHeads | MaxText/llama_or_mistral_ckpt.py:753-767 | transpose then reshape to `[m, h, d]` succeeds iff the counts agree |
| Heads.SplitHeadsAt | MaxText/llama_or_mistral_ckpt.py:753-767 | element `[e, a, b]` of a split `[h*d, m]` projection is its entry at row `a*d + b` and column `e` |
| Heads.RopeIfAt | MaxText/llama_or_mistral_ckpt.py:769-771 | the optional permutation moves elements along the head dimension only |
| Heads.ProjectionAt | MaxText/llama_or_mistral_ckpt.py:753-771 | after the split and the optional permutation, `[e, a, b]` is the entry at row `a*d + b'` and column `e` |
| Heads.OutHeadsAt | MaxText/llama_or_mistral_ckpt.py:773-778 | element `[e, a, b]` of the reshaped out projection is its entry at row `e` and column `a*d + b` |
| Layout.KvStride | MaxText/llama_or_mistral_ckpt.py:749-750 | the stride is 2 exactly for a sharded `llama3.1-405b` checkpoint |
| Layout.AttentionLayer | MaxText/llama_or_mistral_ckpt.py:752-778 | layer `l`'s four kernels, when they are read, have the shapes the model row fixes; `Layout.AttentionKernelsReads` and the `*KernelAt` lemmas state which entries they come from |
| Layout.AttentionKernels | MaxText/llama_or_mistral_ckpt.py:753-778 | successful kernels have the shapes the model row fixes |
| Layout.ReadQkv | MaxText/llama_or_mistral_ckpt.py:753-767 | query, key and value are read and split into three well-formed kernels |
| Layout.SplitQkv | MaxText/llama_or_mistral_ckpt.py:765-767 | the query is split with the query heads and key and value with the kv heads, all with `heads*head_dim` rows |
| Layout.NormLayer | MaxText/llama_or_mistral_ckpt.py:811-812 | layer `l`'s attention norm and feed-forward norm are read from the first shard |
| Layout.FfnKernel | MaxText/llama_or_mistral_ckpt.py:856-864 | a feed-forward matrix is read on its joining axis and transposed |
| Layout.FfnKernelAt | MaxText/llama_or_mistral_ckpt.py:856-864 | the transposed matrix holds entry `[y, x]` at `[x, y]` |
| Layout.DenseLayer | MaxText/llama_or_mistral_ckpt.py:856-864 | `wi_0`, `wi_1`, `wo` come from `w1`, `w3`, `w2` |
| Layout.GateLayer | MaxText/llama_or_mistral_ckpt.py:875-877 | the router gate is joined on its output axis and transposed |
| Layout.ExpertLayer | MaxText/llama_or_mistral_ckpt.py:883-903 | expert `k`'s kernels come from its `w1`, `w3`, `w2` |
| Layout.AttentionKernelsParts | MaxText/llama_or_mistral_ckpt.py:753-778 | the kernels are the split projections, permuted for query and key, read under the four names |
| Layout.AttentionKernelsReads | MaxText/llama_or_mistral_ckpt.py:753-778 | a successful layer read all four projections, key and value through the stride |
| Layout.QueryKernelAt | MaxText/llama_or_mistral_ckpt.py:753-771 | query `[e, h, k]` is `wq`'s entry at column `e` and row `h*head_dim + k'`, with `k'` the rotary source when permuted |
| Layout.KeyKernelAt | MaxText/llama_or_mistral_ckpt.py:756-771 | key `[e, h, k]` is `wk`'s entry, read through the stride, at column `e` and row `h*head_dim + k'` |
| Layout.ValueKernelAt | MaxText/llama_or_mistral_ckpt.py:760-767 | value `[e, h, k]` is `wv`'s entry at column `e` and row `h*head_dim + k`: never permuted |
| Layout.OutKernelAt | MaxText/llama_or_mistral_ckpt.py:773-778 | out `[e, h, k]` is `wo`'s entry, joined on the input axis and not transposed, at row `e` and column `h*head_dim + k` |
| Stacking.ShapesOf | MaxText/llama_or_mistral_ckpt.py:780-785 | the shapes of a kernel group, in order |
| Stacking.Groups | MaxText/llama_or_mistral_ckpt.py:752-790 | the layer loop succeeds iff every layer succeeds and fits layer 0's slots, and then holds layer `l`'s kernels |
| Stacking.GroupsErrPersists | MaxText/llama_or_mistral_ckpt.py:752-790 | once a layer fails, every longer run fails with that error |
| Stacking.Column | MaxText/llama_or_mistral_ckpt.py:787-790 | member `m` of every layer, layer by layer |
| Stacking.StackedAt | MaxText/llama_or_mistral_ckpt.py:780-790 | the stacked array of kernel `m` has the layers in front, and slot `l` holds kernel `m` of layer `l` |
| Stacking.StackedSlotAt | MaxText/llama_or_mistral_ckpt.py:787-790 | the same, for a layer output the caller holds |
| Stacking.StackedVectorAt | MaxText/llama_or_mistral_ckpt.py:821-822 | element `i` of layer `l`'s vector is element `[l, i]` of the stack |
| Stacking.StackedMatrixAt | MaxText/llama_or_mistral_ckpt.py:871-873 | element `[i, j]` of layer `l`'s matrix is element `[l, i, j]` of the stack |
| Stacking.StackedShapes | MaxText/llama_or_mistral_ckpt.py:780-785 | each stack is `(L,) + w.shape` of layer 0's kernel |
| Stacking.StackedOk | MaxText/llama_or_mistral_ckpt.py:780-790 | stacking succeeds iff every layer fits layer 0, and leaves arrays iff there is a layer |
| Stacking.LayerStacks.constructor | MaxText/llama_or_mistral_ckpt.py:780-785 | `np.zeros((L,) + w.shape)` for every kernel of the first layer |
| Stacking.LayerStacks.Write | MaxText/llama_or_mistral_ckpt.py:787-790 | `kernel[l, ...] = w` succeeds iff every tensor has its slot's shape, and changes slot `l` only |
| Stacking.LayerStacks.Slots | MaxText/llama_or_mistral_ckpt.py:787-790 | the slots of kernel `m`, layer by layer |
| Stacking.LayerStacks.Stacks | MaxText/llama_or_mistral_ckpt.py:792-797 | each accumulator read out as one array with the layers in front |
| Stacking.GroupsStep | MaxText/llama_or_mistral_ckpt.py:752-790 | one more layer: its read error, a shape error, or success |
| Stacking.FillLayer | MaxText/llama_or_mistral_ckpt.py:787-790 | layer `l` is computed and written into slot `l`, other slots unchanged, or the loop's error is returned |
| Stacking.FillLayers | MaxText/llama_or_mistral_ckpt.py:752-790 | after the loop slot `l` holds layer `l`'s kernels, or the first error is returned |
| Stacking.StackLayers | MaxText/llama_or_mistral_ckpt.py:752-822 | the loop with allocation at the first layer computes exactly `Stacked` |
| Stacking.ReadStacks | MaxText/llama_or_mistral_ckpt.py:792-797 | filled accumulators read out give `Stacked` |
| Experts.ExpertRow | MaxText/llama_or_mistral_ckpt.py:882-912 | experts of a layer succeed iff each is read and fits expert 0 of layer 0 |
| Experts.MoeLayers | MaxText/llama_or_mistral_ckpt.py:874-912 | a run through `l` layers holds one gate and one expert row per layer |
| Experts.MoeLayersValues | MaxText/llama_or_mistral_ckpt.py:874-912 | a run holds each layer's gate and each expert's kernels |
| Experts.MoeLayersOk | MaxText/llama_or_mistral_ckpt.py:874-912 | the loop gets through `l` layers iff every gate and expert below `l` is read and fits the first |
| Experts.MoeStacked | MaxText/llama_or_mistral_ckpt.py:874-912 | the loop leaves a gate stack iff there is a layer, and expert arrays iff there is also an expert |
| Experts.MoeStackedAt | MaxText/llama_or_mistral_ckpt.py:904-912 | expert array `m` is `(E, L) + w.shape` and holds expert `k` of layer `l` at `[k, l, ...]` |
| Experts.MoeGateMatrixAt | MaxText/llama_or_mistral_ckpt.py:878-881 | element `[i, j]` of layer `l`'s gate is element `[l, i, j]` of the gate stack |
| Experts.MoeExpertMatrixAt | MaxText/llama_or_mistral_ckpt.py:909-912 | element `[i, j]` of expert `k`'s matrix in layer `l` is element `[k, l, i, j]` |
| Experts.MoeStackedShapes | MaxText/llama_or_mistral_ckpt.py:878-908 | a gate stack `(L,) + gate.shape` per gate kernel, an expert array `(E, L) + w.shape` per expert kernel |
| Experts.MoeErrPersists | MaxText/llama_or_mistral_ckpt.py:874-912 | a failed layer is the error of every longer run |
| Experts.ExpertStacks.constructor | MaxText/llama_or_mistral_ckpt.py:904-908 | `np.zeros((E, L) + w.shape)` for every kernel of the first expert |
| Experts.ExpertStacks.Write | MaxText/llama_or_mistral_ckpt.py:909-912 | `kernel[k, l, ...] = w` succeeds iff the shapes fit, and changes slot `[k, l]` only |
| Experts.ExpertStacks.Stacks | MaxText/llama_or_mistral_ckpt.py:927-929 | each accumulator read out as an array with axes (expert, layer, ...) |
| Experts.FillExpert | MaxText/llama_or_mistral_ckpt.py:909-912 | expert `k` of layer `l` is written into slot `[k, l]`, other slots unchanged |
| Experts.FillExperts | MaxText/llama_or_mistral_ckpt.py:882-912 | the expert loop of a layer writes slot `[k, l]` for each expert from `from` on |
| Experts.FirstExpert | MaxText/llama_or_mistral_ckpt.py:904-912 | expert 0 of layer 0 allocates the accumulators from its shapes and fills slot `[0, 0]` |
| Experts.ExpertLoop | MaxText/llama_or_mistral_ckpt.py:882-912 | the expert loop of layer `l` returns its first error, or leaves the accumulators holding layer `l` too |
| Experts.GateStep | MaxText/llama_or_mistral_ckpt.py:875-881 | the gate of layer `l`: its read error, a shape error, or slot `l` written |
| Experts.MoeLayer | MaxText/llama_or_mistral_ckpt.py:874-912 | one layer: the gate then the expert loop, tracking `MoeLayers` |
| Experts.MoeLoop | MaxText/llama_or_mistral_ckpt.py:854-912 | the mixture-of-experts loop computes exactly `MoeStacked` |
| Experts.RunLayers | MaxText/llama_or_mistral_ckpt.py:854-912 | the loop leaves the filled accumulators or the first error |
| Experts.MoeResult | MaxText/llama_or_mistral_ckpt.py:924-929 | filled accumulators read out give `MoeStacked` |
| FinalAxes.FinalAxesArePerms | MaxText/llama_or_mistral_ckpt.py:792-829 | the orders `(1,0,2,3)`, `(2,0,3,1)`, `(1,0)`, `(1,0,2)` are permutations of their ranks |
| FinalAxes.QkvTransposeAt | MaxText/llama_or_mistral_ckpt.py:792-794 | after `(1,0,2,3)`, `[e, l, h, k]` is stack element `[l, e, h, k]` |
| FinalAxes.OutTransposeAt | MaxText/llama_or_mistral_ckpt.py:795-797 | after `(2,0,3,1)`, `[h, l, k, e]` is stack element `[l, e, h, k]` |
| FinalAxes.SwapAt2 | MaxText/llama_or_mistral_ckpt.py:824-829 | after `(1,0)`, `[i, l]` is stack element `[l, i]` |
| FinalAxes.SwapAt3 | MaxText/llama_or_mistral_ckpt.py:918-924 | after `(1,0,2)`, `[i, l, j]` is stack element `[l, i, j]` |
| JaxWeights.AttentionFinal | MaxText/llama_or_mistral_ckpt.py:792-800 | the final orders apply iff every stack has rank four, with the permuted shapes |
| JaxWeights.AttentionFinalAt | MaxText/llama_or_mistral_ckpt.py:792-800 | query, key and value `[e, l, h, k]` are stack `[l, e, h, k]`, the query scaled; out `[h, l, k, e]` is stack `[l, e, h, k]` |
| JaxWeights.AttentionStacks | MaxText/llama_or_mistral_ckpt.py:752-800 | a successful attention stage has layers and the final shapes of the model row |
| JaxWeights.AttentionStackShapes | MaxText/llama_or_mistral_ckpt.py:780-785 | the stacks carry the layer axis in front of the row's kernel shapes |
| JaxWeights.AttentionFinalShapes | MaxText/llama_or_mistral_ckpt.py:792-797 | the final kernels are `[heads*head_dim, L, heads, head_dim]` (kv heads for key and value) and out `[heads, L, head_dim, heads*head_dim]` |
| JaxWeights.AttentionLayersFit | MaxText/llama_or_mistral_ckpt.py:780-790 | layers that read successfully always fit layer 0's slots |
| JaxWeights.AttentionStacksOk | MaxText/llama_or_mistral_ckpt.py:752-800 | the attention stage succeeds iff there is a layer and every layer's kernels are read and split |
| JaxWeights.AttentionStacksParts | MaxText/llama_or_mistral_ckpt.py:780-800 | the final kernels are the reordered stacks |
| JaxWeights.AttentionSlotAt | MaxText/llama_or_mistral_ckpt.py:787-790 | slot `l` of stack `m` holds kernel `m` of layer `l` |
| JaxWeights.AttentionAt | MaxText/llama_or_mistral_ckpt.py:780-800 | final query, key and value `[e, l, h, k]` are layer `l`'s `[e, h, k]` (query scaled); out `[h, l, k, e]` is its `[e, h, k]` |
| JaxWeights.QueryFromCheckpoint | MaxText/llama_or_mistral_ckpt.py:753-800 | final query `[e, l, h, k]` is the scaled `wq` entry of layer `l` at column `e` and row `h*head_dim + k'` |
| JaxWeights.KeyFromCheckpoint | MaxText/llama_or_mistral_ckpt.py:756-797 | final key `[e, l, h, k]` is the `wk` entry of layer `l`, through the stride, at column `e` and row `h*head_dim + k'` |
| JaxWeights.ValueFromCheckpoint | MaxText/llama_or_mistral_ckpt.py:760-797 | final value `[e, l, h, k]` is the `wv` entry of layer `l` at column `e` and row `h*head_dim + k` |
| JaxWeights.OutFromCheckpoint | MaxText/llama_or_mistral_ckpt.py:773-797 | final out `[h, l, k, e]` is the `wo` entry of layer `l` at row `e` and column `h*head_dim + k` |
| JaxWeights.NormFinal | MaxText/llama_or_mistral_ckpt.py:824-829 | both norm stacks become `[embed, layer]` |
| JaxWeights.NormStacks | MaxText/llama_or_mistral_ckpt.py:810-829 | a successful norm stage has layers and well-formed scales |
| JaxWeights.NormStacksParts | MaxText/llama_or_mistral_ckpt.py:810-829 | the norm stage is the reordered stacks |
| JaxWeights.NormAt | MaxText/llama_or_mistral_ckpt.py:810-829 | final `pre[i, l]` is layer `l`'s attention norm `[i]`, and `post[j, l]` its feed-forward norm `[j]` |
| JaxWeights.DenseFinal | MaxText/llama_or_mistral_ckpt.py:916-920 | each dense stack gets order `(1,0,2)` iff it has rank three |
| JaxWeights.DenseStacks | MaxText/llama_or_mistral_ckpt.py:854-922 | a successful dense stage has layers and is the `mlp` block |
| JaxWeights.DenseStacksParts | MaxText/llama_or_mistral_ckpt.py:916-920 | the dense stage is the reordered stacks |
| JaxWeights.DenseAt | MaxText/llama_or_mistral_ckpt.py:865-920 | final `[i, l, j]` is layer `l`'s kernel `[i, j]` |
| JaxWeights.DenseLayersOk | MaxText/llama_or_mistral_ckpt.py:854-873 | a finished dense stack read every layer |
| JaxWeights.DenseFromCheckpoint | MaxText/llama_or_mistral_ckpt.py:856-920 | final `wi_0`/`wi_1`/`wo` `[x, l, y]` is entry `[y, x]` of layer `l`'s `w1`/`w3`/`w2` joined across shards |
| JaxWeights.MoeFinal | MaxText/llama_or_mistral_ckpt.py:923-929 | the gate gets order `(1,0,2)` and the expert arrays are kept as stacked; a missing gate is a shape error and no experts is a missing `MoeBlock_0` |
| JaxWeights.MoeStacks | MaxText/llama_or_mistral_ckpt.py:874-929 | a successful mixture-of-experts stage has layers and experts |
| JaxWeights.MoeStackedFacts | MaxText/llama_or_mistral_ckpt.py:878-908 | after the loop there is one gate stack `(L,) + gate.shape`, and three expert arrays when there are experts |
| JaxWeights.MoeWithoutExperts | MaxText/llama_or_mistral_ckpt.py:846-925 | with zero experts the conversion stops at the missing `MoeBlock_0` entry |
| JaxWeights.MoeStacksParts | MaxText/llama_or_mistral_ckpt.py:923-929 | the stage is the final reordering of the filled accumulators |
| JaxWeights.MoeGateFromCheckpoint | MaxText/llama_or_mistral_ckpt.py:875-924 | final gate `[x, l, y]` is entry `[y, x]` of layer `l`'s router gate joined on its output axis |
| JaxWeights.GateFinalAt | MaxText/llama_or_mistral_ckpt.py:924 | the reordered gate holds stack element `[l, x, y]` at `[x, l, y]` |
| JaxWeights.GateAt | MaxText/llama_or_mistral_ckpt.py:875-881 | slot `l` of the gate stack holds layer `l`'s transposed gate |
| JaxWeights.MoeExpertRead | MaxText/llama_or_mistral_ckpt.py:882-903 | a finished run read every expert of every layer |
| JaxWeights.MoeExpertFromCheckpoint | MaxText/llama_or_mistral_ckpt.py:883-929 | final expert `[k, l, x, y]` is entry `[y, x]` of expert `k`'s `w1`/`w3`/`w2` in layer `l`; no transpose of the stacked arrays |
| JaxWeights.ExpertAt | MaxText/llama_or_mistral_ckpt.py:909-912 | slot `[k, l]` of expert array `m` holds expert `k`'s transposed matrix of layer `l` |
| Conversion.DecoderNorm | MaxText/llama_or_mistral_ckpt.py:715 | the decoder norm is `norm.weight` of the first shard |
| Conversion.Logits | MaxText/llama_or_mistral_ckpt.py:722-724 | the logits kernel is joined on the vocabulary axis, transposed, and cut to the vocabulary |
| Conversion.LogitsOk | MaxText/llama_or_mistral_ckpt.py:722-724 | the logits kernel exists iff the output projection was read and has at least two axes |
| Conversion.LogitsAt | MaxText/llama_or_mistral_ckpt.py:722-724 | for a `[vocab, embed]` projection the kernel is `[embed, kept vocab]` with `[x, y]` the projection's `[y, x]` |
| Conversion.Embedding | MaxText/llama_or_mistral_ckpt.py:731-736 | the token embedding is joined on the vocabulary axis and kept whole for Llama 3, otherwise joined on axis 1 and cut to the vocabulary |
| Conversion.EmbeddingWhole | MaxText/llama_or_mistral_ckpt.py:731-732 | a Llama 3 table is never cut, whatever the row's vocabulary |
| Conversion.EmbeddingCut | MaxText/llama_or_mistral_ckpt.py:733-736 | any other table keeps each element below the cut, and rows beyond the vocabulary are dropped |
| Conversion.EmbeddingFlat | MaxText/llama_or_mistral_ckpt.py:736 | a table of rank below two is refused on the cutting path |
| Conversion.MlpStacks | MaxText/llama_or_mistral_ckpt.py:837-852 | the feed-forward block is `mlp` without an expert count and `MoeBlock_0` otherwise |
| Conversion.Convert | MaxText/llama_or_mistral_ckpt.py:677-935 | the converted tree, or the first step's error in program order |
| Conversion.ConvertShapes | MaxText/llama_or_mistral_ckpt.py:780-797 | a converted tree is well formed with the row's attention shapes and the right feed-forward kind |
| Conversion.ConvertFields | MaxText/llama_or_mistral_ckpt.py:715-929 | each entry of the tree is what its own step produced |
| Conversion.ConvertOk | MaxText/llama_or_mistral_ckpt.py:715-929 | conversion succeeds iff every step does |
| Conversion.ConvertFirstError | MaxText/llama_or_mistral_ckpt.py:715-929 | a step's error is reported only when every earlier step succeeded |
| Conversion.ConvertNoShards | MaxText/llama_or_mistral_ckpt.py:715 | a sharded checkpoint without files stops at the decoder norm with `NoShards` |
| Conversion.AdaptedGet | MaxText/llama_or_mistral_ckpt.py:693 | each shard is seen through the namespace adapter: the literal key first, then its HuggingFace name |
| Conversion.ConvertedWeights | MaxText/llama_or_mistral_ckpt.py:938-957 | an unknown size is refused before anything is read; otherwise the PyTorch or HuggingFace conversion |
| Conversion.ConvertedShapes | MaxText/llama_or_mistral_ckpt.py:938-957 | a converted tree of a known size has that row's attention shapes and feed-forward kind |
| Conversion.BadShardNameStops | MaxText/llama_or_mistral_ckpt.py:690 | a `.pth` file whose name carries no shard number stops the conversion before any tensor is read |
| Conversion.HuggingFaceConverts | MaxText/llama_or_mistral_ckpt.py:954-955 | a HuggingFace checkpoint of a known size is converted as a single collection |
| Conversion.AttentionStage | MaxText/llama_or_mistral_ckpt.py:752-800 | the attention loop with its accumulators and the final orders computes exactly `AttentionStacks` |
| Conversion.NormStage | MaxText/llama_or_mistral_ckpt.py:810-829 | the norm loop and its transposes compute exactly `NormStacks` |
| Conversion.MlpStage | MaxText/llama_or_mistral_ckpt.py:854-929 | the feed-forward loop and its reordering compute exactly `MlpStacks` |
| Conversion.ConvertSource | MaxText/llama_or_mistral_ckpt.py:715-935 | one pass of the converter over a checkpoint computes exactly `Convert` |
| Conversion.ConvertToJaxWeights | MaxText/llama_or_mistral_ckpt.py:938-957 | the looked-up row, loaded and ordered shards, then the conversion compute exactly `ConvertedWeights` |
| Lora.ReadFactor | MaxText/llama_or_mistral_ckpt.py:259-260 | `lora_chkpt_vars[key]` as a well-formed array, or the lookup's error |
| Lora.LoraFactors | MaxText/llama_or_mistral_ckpt.py:259-265 | for q/k/v both factors are transposed and B is split into `[r, heads, head_dim]`; for o A is split instead; a failed read is an error |
| Lora.LoraFactorsParts | MaxText/llama_or_mistral_ckpt.py:259-265 | the factors of a layer in terms of the tensors read, with the query head count for all three projections |
| Lora.RunErrorNone | MaxText/llama_or_mistral_ckpt.py:347-405 | a run without error had no error in any layer |
| Lora.TargetedFits | MaxText/llama_or_mistral_ckpt.py:267-272 | after a clean run, every layer's factors of a named projection fit the slots of layer 0 |
| Lora.RunErrPersists | MaxText/llama_or_mistral_ckpt.py:347-405 | an error in an early layer is the error of the whole run |
| Lora.LoraFinal | MaxText/llama_or_mistral_ckpt.py:407-427 | q/k/v: A `(1,0,2)`, B `(1,0,2,3)`; out: A `(2,0,3,1)`, B `(1,0,2)`; refused unless the ranks fit |
| Lora.ModuleFinal | MaxText/llama_or_mistral_ckpt.py:325-342 | a projection's entry is `None` unless some target string names it and there are layers |
| Lora.LoraWeights | MaxText/llama_or_mistral_ckpt.py:344-431 | the adapter tree, or the first error of the loops |
| Lora.ConvertLora | MaxText/llama_or_mistral_ckpt.py:285-288 | an unknown model size is `UnknownModel` |
| Lora.LoraParts | MaxText/llama_or_mistral_ckpt.py:407-431 | each projection's entry of a converted tree is its final reordering after a clean run |
| Lora.LoraUntargeted | MaxText/llama_or_mistral_ckpt.py:325-342 | a projection no target string names keeps both factors `None` |
| Lora.LoraTargeted | MaxText/llama_or_mistral_ckpt.py:347-405 | a projection some string names has both factors once there is a layer |
| Lora.LoraFactorsRead | MaxText/llama_or_mistral_ckpt.py:347-405 | a successful conversion read both factors of every named projection at every layer |
| Lora.ModuleSlots | MaxText/llama_or_mistral_ckpt.py:267-272 | a named projection's entry is the final reordering of its stacked factors |
| Lora.LoraFinalFields | MaxText/llama_or_mistral_ckpt.py:407-427 | each final factor is the transpose of its stack with the stated axes |
| Lora.SplitSlotAt | MaxText/llama_or_mistral_ckpt.py:262-265 | slot `l` of a B stack split into heads holds row `h*head_dim + d`, column `x` at `[l, x, h, d]` |
| Lora.ReshapeSlotAt | MaxText/llama_or_mistral_ckpt.py:392-393 | slot `l` of an out A stack holds row `x`, column `h*head_dim + d` at `[l, x, h, d]` |
| Lora.LoraProjectionAAt | MaxText/llama_or_mistral_ckpt.py:259-272 | q/k/v factor A `[r, in]` of layer `l` lands transposed at `[x, l, y]`, unscaled |
| Lora.LoraProjectionBAt | MaxText/llama_or_mistral_ckpt.py:259-272 | q/k/v factor B lands at `[x, l, h, d]` from its entry at row `h*head_dim + d` and column `x` |
| Lora.LoraOutAAt | MaxText/llama_or_mistral_ckpt.py:387-427 | out factor A lands untransposed at `[h, l, d, x]` from its entry at row `x` and column `h*head_dim + d` |
| Lora.LoraOutBAt | MaxText/llama_or_mistral_ckpt.py:387-427 | out factor B is kept as read: `[i, l, j]` is its `[i, j]` |
| LoraLoops.Buffers.Store | MaxText/llama_or_mistral_ckpt.py:271-272 | `lora_x.kernel[l, ...] = w` succeeds iff both factors have their slots' shapes, and changes slot `l` only |
| LoraLoops.Buffers.Read | MaxText/llama_or_mistral_ckpt.py:407-427 | each factor's accumulator as one array with the layers in front |
| LoraLoops.Zeroed | MaxText/llama_or_mistral_ckpt.py:267-270 | `np.zeros(stack_shape + w.shape)` for each factor: the first write's shapes, zero everywhere |
| LoraLoops.ReadStacked | MaxText/llama_or_mistral_ckpt.py:407-427 | buffers filled from every layer read out as `Stacked` |
| LoraLoops.WriteFactors | MaxText/llama_or_mistral_ckpt.py:259-273 | the initialiser returns exactly the layer's write error, and otherwise holds layer `l` too |
| LoraLoops.StepIf | MaxText/llama_or_mistral_ckpt.py:351-405 | one substring test and its write: exactly that test's error, and only projection `p` changes |
| LoraLoops.TargetStep | MaxText/llama_or_mistral_ckpt.py:349-405 | the four tests of one target string: exactly its error, and the counts advance as the tests write |
| LoraLoops.WrittenAtStep | MaxText/llama_or_mistral_ckpt.py:349-405 | target string `j` advances projection `p`'s slot count as its test writes |
| LoraLoops.WrittenStep | MaxText/llama_or_mistral_ckpt.py:349-405 | the same for all four projections at once |
| LoraLoops.WrittenEnds | MaxText/llama_or_mistral_ckpt.py:347-405 | before the first target of layer `l` the earlier layers are filled; after the last, layer `l` too |
| LoraLoops.LayerStep | MaxText/llama_or_mistral_ckpt.py:349-405 | the inner loop over target strings returns exactly the layer's error, or holds layer `l` too |
| LoraLoops.RunLoops | MaxText/llama_or_mistral_ckpt.py:347-405 | the nested loops return exactly `RunError`, or hold every layer |
| LoraLoops.ModuleResult | MaxText/llama_or_mistral_ckpt.py:407-427 | a projection's accumulators read out and reordered give exactly `ModuleFinal` |
| LoraLoops.LoraConversion | MaxText/llama_or_mistral_ckpt.py:325-431 | the loops and final orders compute exactly `LoraWeights` |
| LoraLoops.ConvertLoraWeights | MaxText/llama_or_mistral_ckpt.py:276-431 | `convert_lora_weights_to_jax_weights` computes exactly `ConvertLora` |
| Placement.MultipleMod | MaxText/llama_or_mistral_ckpt.py:978-981 | `x % d == 0` holds exactly for multiples of `d` |
| Placement.ChooseSharding | MaxText/llama_or_mistral_ckpt.py:977-986 | first axis iff `shape[0]` divides by the device count; else second axis iff the rank exceeds 1 and `shape[1]` divides; else replicated; a 0-d leaf and zero devices are errors |
| Placement.EvenSplit | MaxText/llama_or_mistral_ckpt.py:977-983 | a split axis exists and splits into equal whole parts per device |
| Placement.PlaceLeavesOk | MaxText/llama_or_mistral_ckpt.py:989-997 | one placed leaf per input leaf, in flatten order, with the rule's sharding for its shape |
| Placement.PlaceLeavesErr | MaxText/llama_or_mistral_ckpt.py:989-997 | the first leaf that cannot be placed decides the error |
| Placement.PlaceLeavesPrefixOk | MaxText/llama_or_mistral_ckpt.py:989-997 | leaves that can all be placed are placed |
| Placement.PlaceLeavesErrPersists | MaxText/llama_or_mistral_ckpt.py:989-997 | an error among the first `k` leaves is the error of the whole loop |
| Placement.PlaceAll | MaxText/llama_or_mistral_ckpt.py:989-995 | the `pop(0)`/`append` loop computes exactly `PlaceLeaves` |

## Left out

- File and directory I/O is not modelled: `torch.load`, `safe_open`, globbing, the JSON read of the adapter configuration, and the GCS writes. A PyTorch checkpoint is a list of (file name, collection) pairs in sorted name order. A HuggingFace checkpoint is its collection, already renamed to Meta-style keys. A LoRA adapter is a collection plus its rank and target-module strings.
- The HuggingFace loading loop (lines 451-461) is not modelled. It passes no expert index to `_hf_to_maxtext_mapping`.
- The HuggingFace mixture-of-experts branch (lines 631-651) is not modelled as written. Its gate comprehension iterates the collection's keys as if they were shards. The model reads the gate and experts on the HuggingFace path as plain lookups, as the PyTorch path does on a single shard.
- `max_utils.permute_to_match_maxtext_rope`, used by the HuggingFace path, is not part of this model. It is taken to be the local function at lines 239-242.
- JAX meshes, `NamedSharding`, `jax.device_put` and the Orbax checkpoint manager are not modelled: they are foreign runtime code. Only the choice of axis in `checkpoint_device_put` is modelled. `tree.flatten`/`unflatten` become the list of leaves in flatten order, and the device count is a natural number.
- The float16 casts are not modelled. The query scaling by `1/sqrt(head_dim)` is kept as an opaque elementwise map `scale`, and numpy's zero is a parameter `zero`.
- Logging, `gc.collect`, memory measurement, `tqdm`, argument parsing and environment setup are left out. They are side effects only.
- Shards.ShardIndex: Python's `int()` also accepts surrounding whitespace, underscores between digits and non-ASCII digits, so a shard file named `consolidated. 1.pth` or `consolidated.1_0.pth` loads in the source and is refused as `NotAnInteger` here. A leading `+` or `-` is modelled.
- Strings.ParseInt: the same gap. The digit fields of the name tables are plain ASCII digit runs, so the namespace adapter is not affected.
- LoraLoops.WriteFactors: the LoRA accumulators are values (`Buffers`) that the loops reassign, not numpy arrays updated in place. Each array is reachable only from its own dictionary entry, so no aliasing is lost. Only the mutation in place is not represented.
- Lora.LoraWeights: the other `None` entries of the LoRA tree (feed-forward, norms, embedding, logits) are not modelled. Only the `self_attention` entries are built.
- Lora.ConvertLora: its own contract states only the unknown-size error. The known-size case is stated by `LoraLoops.ConvertLoraWeights` and the `Lora` lemmas.
- Stacking.Fits: numpy broadcasting is not modelled. `kernel[l, ...] = w` in the source also succeeds when `w`'s shape only broadcasts to the slot, for example a norm of shape `(1,)` or `()` written into a `(4,)` slot, and then fills the slot with the broadcast values. The model accepts only a shape exactly equal to the first layer's and otherwise returns `ShapeMismatch`. The attention kernels are not affected, because the model row fixes their reshape targets. The members below inherit this gap.
- Stacking.Groups: succeeds only when every layer's shapes equal layer 0's; the source also continues on broadcastable shapes (lines 821-822, 871-873).
- Stacking.GroupsStep: its shape error also covers broadcastable shapes.
- Stacking.StackedOk: "fits layer 0" means exact shape equality, not broadcastable.
- Stacking.LayerStacks.Write: refuses a broadcastable tensor (lines 787-790, 821-822, 871-873). A refused write leaves the slots unspecified, and the conversion stops at that error.
- Experts.ExpertRow: refuses experts whose shapes only broadcast to expert 0 of layer 0 (lines 910-912).
- Experts.GateStep: refuses a gate whose shape only broadcasts to layer 0's (line 881).
- Experts.MoeLayersOk: its iff uses exact shape equality.
- Experts.ExpertStacks.Write: refuses a broadcastable tensor (lines 910-912). A refused write leaves the slots unspecified.
- LoraLoops.Buffers.Store: refuses a factor whose shape only broadcasts to its slot (lines 271-272, 398-399).
- Lora.TargetedFits: states exact fits, where a clean run of the source also admits factors that only broadcast.
