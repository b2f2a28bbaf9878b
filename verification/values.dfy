/**
 Runtime values that can be assigned to a validated attribute, and the
 error conditions that validation and attribute access raise.
 */
module Values {

  /** A value assigned to a field. `Bool` is kept apart from `Int` so that a
      stored boolean reads back as itself, but, as in Python where `bool` is a
      subclass of `int`, it passes the integer check (see `IsInt`). `Other`
      stands for any object of another type (a float, `None`, a list, ...),
      identified by its identity. */
  datatype Value = Int(i: int) | Bool(b: bool) | Str(s: string) | Other(id: nat)

  /** `isinstance(value, int)`: true for integers and for booleans. */
  predicate IsInt(v: Value) {
    v.Int? || v.Bool?
  }

  /** The integer a value compares as: `True` is 1 and `False` is 0. */
  function AsInt(v: Value): int
    requires IsInt(v)
  {
    match v
    case Int(i) => i
    case Bool(b) => if b then 1 else 0
  }

  /** The conditions raised by the validated-attribute protocol. `RangeError`
      and `MembershipError` are both `ValueError` in the source; they are kept
      apart here so that a contract can say which check failed. */
  datatype Error =
    | TypeError                                            // "should be integer"
    | RangeError(minValue: int, maxValue: int)             // outside [minValue, maxValue]
    | MembershipError(value: Value, options: seq<string>)  // not one of options
    | AttributeNotFound(key: string)                       // slot never written

  datatype Option<+T> = None | Some(value: T)

  datatype Result<+T> = Ok(value: T) | Err(error: Error)

  /** The state after a statement that may raise: the state it leaves behind,
      and the error it raised, if any. A raised error does not undo what the
      statement had already committed. */
  datatype Outcome<+S> = Outcome(state: S, raised: Option<Error>)
}
