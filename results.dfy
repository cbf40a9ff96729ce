/** Error values of the converter and a failure-compatible result type.
    Every exception the converter can raise on the modelled paths becomes one
    `ConvError` constructor instead of a precondition. */
module Results {

  datatype ConvError =
    /** `_HFNamespaceMapper`: the key is neither in the collection nor a mapping source. */
    | KeyNotInMapping(key: string)
    /** `_HFNamespaceMapper`: the mapped name is not in the collection. */
    | MappedKeyMissing(key: string, newKey: string)
    /** `_hf_mapping(*num_fields)` called with more than two indices (a TypeError). */
    | TooManyIndexFields(key: string)
    /** `int(field)` on a field that starts with a digit but is not a number (a ValueError). */
    | NotAnInteger(field: string)
    /** A plain dictionary lookup that failed (a KeyError). */
    | MissingKey(key: string)
    /** A model size that is not in the configuration table. */
    | UnknownModel(name: string)
    /** `chkpt_vars[0]` on a checkpoint without shard files (an IndexError). */
    | NoShards
    /** A shard file name without a second dotted field (an IndexError). */
    | BadShardName(name: string)
    /** numpy refused a reshape, concatenation, transpose or slot write. */
    | ShapeMismatch
    /** `shape[0]` of a zero-dimensional leaf (an IndexError). */
    | ScalarLeaf
    /** `x % device_count` with `device_count == 0` (a ZeroDivisionError). */
    | ZeroDevices

  datatype Result<+R> = Ok(value: R) | Err(error: ConvError) {
    predicate IsFailure() { Err? }

    function PropagateFailure<U>(): Result<U>
      requires Err?
    {
      Err(error)
    }

    function Extract(): R
      requires Ok?
    {
      value
    }
  }

  datatype Option<+V> = None | Some(value: V)
}
