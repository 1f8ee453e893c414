/** A key of a JSON object as the catalog code reads it with `obj.get(key)`:
    missing, present with `null`, or present with a scalar value.  Lists and
    objects as values are not modelled (see README). */
module Json {
  import opened Wrappers
  import opened Text
  import opened Elements

  datatype Field = Absent | Null | Val(v: Scalar)

  /** Python truthiness of `obj.get(key)`: a missing key and `null` are falsy. */
  predicate FieldTruthy(f: Field) {
    f.Val? && Truthy(f.v)
  }

  /** `str(obj.get(key, ""))`: the default "" for a missing key, "None" for
      `null`, otherwise the text form of the value. */
  function FieldText(f: Field, fmt: real -> string): string
  {
    match f
    case Absent => ""
    case Null => "None"
    case Val(v) => ScalarText(v, fmt)
  }

  /** `a or rest` for a key's value a: a when it is truthy, otherwise
      whatever the rest of the `or` chain gives. */
  function Or(a: Field, rest: Option<Scalar>): Option<Scalar>
  {
    if FieldTruthy(a) then Some(a.v) else rest
  }

  /** A JSON value read back: `None` is written as `null`. */
  function OptField(v: Option<Scalar>): (f: Field)
    ensures v.None? ==> f == Null
    ensures v.Some? ==> f == Val(v.value)
  {
    match v
    case None => Null
    case Some(x) => Val(x)
  }
}
