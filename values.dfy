/** The slice of Python's dynamic values that the feature builder touches:
    numbers (int, float and bool alike, since True == 1 in Python), the float
    NaN, None, and strings.  Comparisons with 0 and pandas' fillna(0) are
    modelled on these, together with the exceptions they can raise. */
module Values {

  datatype Option<T> = None | Some(value: T)

  datatype Value = Num(x: real) | NaN | Null | Str(s: string)

  /** The Python exceptions the modelled code can raise. */
  datatype Error =
    | KeyError(key: string)   // dict lookup of a missing key
    | TypeError               // `x > 0` with x a str or None
    | ValueError              // raised inside the scaler or classifier

  datatype Result<T> = Ok(value: T) | Err(error: Error) {
    predicate IsFailure() { Err? }

    function PropagateFailure<U>(): Result<U>
      requires Err?
    {
      Err(error)
    }

    function Extract(): T
      requires Ok?
    {
      value
    }
  }

  /** A value that Python can order against the integer 0. */
  predicate Comparable(v: Value) {
    v.Num? || v.NaN?
  }

  /** Python's `v > 0`: NaN compares false, None and strings raise. */
  function GreaterThanZero(v: Value): (r: Result<bool>)
    ensures r.Err? <==> !Comparable(v)
    ensures r.Err? ==> r.error == TypeError
    ensures r == Ok(true) <==> v.Num? && v.x > 0.0
  {
    match v
    case Num(x) => Ok(x > 0.0)
    case NaN => Ok(false)
    case Null => Err(TypeError)
    case Str(_) => Err(TypeError)
  }

  /** pandas' `fillna(0)` on one cell: NaN and None become 0, anything else is kept. */
  function FillNa(v: Value): (w: Value)
    ensures v.NaN? || v.Null? ==> w == Num(0.0)
    ensures v.Num? || v.Str? ==> w == v
    ensures !w.NaN? && !w.Null?
  {
    if v.NaN? || v.Null? then Num(0.0) else v
  }
}
