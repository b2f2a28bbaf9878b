/**
 The two concrete validation rules, `Number` and `OneOf`, and the
 `validate` predicate they supply to the descriptor protocol.
 */
module Validators {
  import opened Values

  /** A validation rule. `Number` admits integers in the closed interval
      `[minValue, maxValue]` (nothing checks `minValue <= maxValue`); `OneOf`
      admits exactly the strings listed in `options`. */
  datatype Validator = Number(minValue: int, maxValue: int) | OneOf(options: seq<string>)

  /** `validate`: `Ok(true)` when the value passes, otherwise the error the
      rule raises. `Number` checks the type before the bounds. */
  function Validate(rule: Validator, x: Value): (r: Result<bool>)
    // the concrete rules never answer `False`: they pass or raise
    ensures r.Ok? ==> r.value
    // an integer passes `Number` exactly when it lies in the closed interval
    ensures rule.Number? && IsInt(x) ==>
      (r.Ok? <==> rule.minValue <= AsInt(x) <= rule.maxValue)
    ensures rule.Number? && IsInt(x) && r.Err? ==>
      r.error == RangeError(rule.minValue, rule.maxValue)
    // a non-integer fails `Number` with the type error, whatever the bounds
    ensures rule.Number? && !IsInt(x) ==> r == Err(TypeError)
    // `OneOf` admits exactly the listed strings
    ensures rule.OneOf? ==> (r.Ok? <==> x.Str? && x.s in rule.options)
    ensures rule.OneOf? && r.Err? ==> r.error == MembershipError(x, rule.options)
  {
    match rule
    case Number(lo, hi) =>
      if IsInt(x) then
        if lo <= AsInt(x) <= hi then Ok(true) else Err(RangeError(lo, hi))
      else
        Err(TypeError)
    case OneOf(options) =>
      if x.Str? && x.s in options then Ok(true) else Err(MembershipError(x, options))
  }

  /** The value passes the rule, so a write of it goes through. */
  predicate Accepts(rule: Validator, x: Value) {
    Validate(rule, x).Ok?
  }

  /** The error a rejected value raises. */
  function Rejection(rule: Validator, x: Value): Error
    requires !Accepts(rule, x)
  {
    Validate(rule, x).error
  }

  /** The values a rule admits, written out as a finite set without reference
      to `Validate`: the integers of the interval, the booleans whose integer
      value lies in it, or the listed strings. */
  function Admitted(rule: Validator): set<Value> {
    match rule
    case Number(lo, hi) =>
      (set i: int | lo <= i <= hi :: Int(i))
      + (set b: bool | lo <= (if b then 1 else 0) <= hi :: Bool(b))
    case OneOf(options) =>
      set o | o in options :: Str(o)
  }

  /** `Validate` passes exactly the values of `Admitted`. */
  lemma AcceptsIffAdmitted(rule: Validator, x: Value)
    ensures Accepts(rule, x) <==> x in Admitted(rule)
  {
  }

  /** An empty interval (`minValue > maxValue`) admits nothing: every integer
      is a range error and every other value a type error. */
  lemma EmptyIntervalRejectsAll(lo: int, hi: int, x: Value)
    requires lo > hi
    ensures !Accepts(Number(lo, hi), x)
    ensures Rejection(Number(lo, hi), x) == if IsInt(x) then RangeError(lo, hi) else TypeError
  {
  }
}
