/** Values shared by every part of the uploader model: identifiers, the
    loosely typed Python values that travel in tuples, and the exceptions
    the handlers can raise. */
module Common {

  /** A ULID task identifier, treated as an opaque value. Its `bytes`
      encoding is a bijection, so the tables are keyed on it directly. */
  type FileId = nat

  datatype Option<T> = None | Some(value: T)

  /** The Python exceptions the modelled code can raise. */
  datatype Exception =
    | ValueError(message: string)
    | KeyError(key: string)
    | IndexError
    | AttributeError(name: string)
    | IntegrityError(message: string)

  /** The outcome of a Python call: it returns a value or raises. */
  datatype Outcome<T> = Ok(value: T) | Raised(error: Exception) {
    /** An exception propagates to the caller, as with `:-`. */
    predicate IsFailure() { Raised? }

    function PropagateFailure<U>(): Outcome<U>
      requires Raised?
    {
      Raised(error)
    }

    function Extract(): T
      requires Ok?
    {
      value
    }
  }

  /** A Python value as it travels inside a tuple or a JSON column: a string,
      a list of strings, or any other object (an exception class, a response
      id, ...), identified only by an opaque tag. */
  datatype Value = Text(text: string) | TextList(items: seq<string>) | Opaque(tag: nat)

  /** A Python tuple. */
  type Tuple = seq<Value>

  /** `a, b = t`: Python's two-target unpacking, which raises ValueError
      unless the tuple has exactly two components. */
  function Unpack2(t: Tuple): (r: Outcome<(Value, Value)>)
    ensures r.Ok? <==> |t| == 2
    ensures r.Ok? ==> r.value.0 == t[0] && r.value.1 == t[1]
    ensures r.Raised? ==> r.error.ValueError?
  {
    if |t| < 2 then Raised(ValueError("not enough values to unpack"))
    else if |t| > 2 then Raised(ValueError("too many values to unpack"))
    else Ok((t[0], t[1]))
  }
}
