/** Values that flow through morpho: what the YAML loader produces, the
    exceptions the Python code can raise, and the failure-carrying wrappers
    used in place of those exceptions. */
module Values {

  /** A value as produced by the YAML loader (and as stored in a parameter
      dictionary).  Mapping keys are strings: a key of another type can never
      match the string components of a dotted path, so leaving it out changes
      no lookup. */
  datatype Value =
    | Map(entries: map<string, Value>)
    | List(items: seq<Value>)
    | Str(s: string)
    | Int(i: int)
    | Float(r: real)
    | Bool(b: bool)
    | Null

  /** The exceptions the modelled code raises, one constructor per cause. */
  datatype Error =
    | KeyError(key: string)            // a mapping lacks the subscripted key
    | NotSubscriptable(key: string)    // `v[key]` on a value that is not a mapping
    | UnsupportedOperand               // `/` applied to a value that is not a number
    | NotIterable                      // `for` over a value that cannot be iterated
    | Unhashable                       // `x in d` with a list or mapping as `x`
    | BadName                          // a non-string where h5py or ROOT needs a name
    | LinkExists(name: string)         // h5py refuses to overwrite an existing link
    | NotAGroup(name: string)          // a member is written into a dataset
    | IdenticalInputOutput             // the resampler's refusal
    | MissingTree                      // ROOT found no input file or tree
    | RangeArgument                    // `range(n)` with a non-integer `n`

  datatype Result<T> = Ok(value: T) | Err(error: Error) {
    predicate IsFailure() {
      Err?
    }

    function PropagateFailure<U>(): Result<U>
      requires Err?
    {
      Err(error)
    }

    function Extract(): T
      requires Ok?
    {
      value
    }
  }

  datatype Option<T> = None | Some(value: T) {
    function GetOr(default: T): T {
      match this
      case Some(v) => v
      case None => default
    }
  }

  /** Python's `v[key]` for a string key: only a mapping can be indexed by a
      string; for every other value the subscript raises. */
  function Subscript(v: Value, key: string): (r: Result<Value>)
    ensures r.Ok? <==> v.Map? && key in v.entries
    ensures r.Ok? ==> r.value == v.entries[key]
    ensures r.Err? ==> r.error == (if v.Map? then KeyError(key) else NotSubscriptable(key))
  {
    match v
    case Map(m) => if key in m then Ok(m[key]) else Err(KeyError(key))
    case _ => Err(NotSubscriptable(key))
  }
}
