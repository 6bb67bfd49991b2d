/** Python values as the package sees them at its runtime type checks: a tagged
    value (`int`, `bool`, `float`, `str`, `None`), IEEE floats with their
    special values, truthiness, `str()` of a value, and the `max`/`min`
    built-ins on floats. Also the Option/Result wrappers used for fallible
    steps. */
module PyValues {
  import opened PyStrings

  datatype Option<+T> = None | Some(value: T)

  /** A step that gives a value or fails with the message Python returns. */
  datatype Result<+T> = Ok(value: T) | Err(message: string)

  /** A Python `float`. A finite float carries its numeric value and the text
      `repr()` gives for it (as produced when the float was parsed); the
      special values have fixed texts. */
  datatype Float = Finite(value: real, repr: string) | NaN | Inf | NegInf

  const Zero: Float := Finite(0.0, "0.0")
  const One: Float := Finite(1.0, "1.0")

  /** `repr(f)`, which is also `str(f)` and what an f-string writes. */
  function FloatRepr(f: Float): string {
    match f
    case Finite(_, text) => text
    case NaN => "nan"
    case Inf => "inf"
    case NegInf => "-inf"
  }

  /** `x < y` on floats: every comparison with NaN is false. */
  predicate Less(x: Float, y: Float) {
    match (x, y)
    case (NaN, _) => false
    case (_, NaN) => false
    case (NegInf, NegInf) => false
    case (NegInf, _) => true
    case (_, NegInf) => false
    case (Inf, _) => false
    case (Finite(_, _), Inf) => true
    case (Finite(a, _), Finite(b, _)) => a < b
  }

  /** The built-in `min(a, b)`: keeps `a` unless `b < a`. */
  function Min(a: Float, b: Float): Float {
    if Less(b, a) then b else a
  }

  /** The built-in `max(a, b)`: keeps `a` unless `b > a`. */
  function Max(a: Float, b: Float): Float {
    if Less(a, b) then b else a
  }

  /** `max(0., min(t, 1.))`. The result is always a finite float in [0, 1]:
      `t` itself when it lies in (0, 1], the literal `1.` above that (and for
      +inf), the literal `0.` otherwise (zero, negatives, -inf and NaN). */
  function Clamp(t: Float): (r: Float)
    ensures r.Finite? && 0.0 <= r.value <= 1.0
    ensures t.Finite? && 0.0 < t.value <= 1.0 ==> r == t
    ensures t == Inf || (t.Finite? && t.value > 1.0) ==> r == One
    ensures t == NaN || t == NegInf || (t.Finite? && t.value <= 0.0) ==> r == Zero
  {
    Max(Zero, Min(t, One))
  }

  /** A value passed across one of the package's runtime type checks. */
  datatype PyValue = PyInt(i: int) | PyBool(b: bool) | PyFloat(f: Float) | PyStr(s: string) | PyNone

  /** `isinstance(v, int)`: Python's `bool` is a subclass of `int`. */
  predicate IsInt(v: PyValue) {
    v.PyInt? || v.PyBool?
  }

  /** `bool(v)`. */
  predicate Truthy(v: PyValue) {
    match v
    case PyInt(i) => i != 0
    case PyBool(b) => b
    case PyFloat(f) => !(f.Finite? && f.value == 0.0)
    case PyStr(s) => s != ""
    case PyNone => false
  }

  /** `str(b)` for a bool. */
  function BoolText(b: bool): string {
    if b then "True" else "False"
  }

  /** `str(v)`, as an f-string writes the value. */
  function Str(v: PyValue): string {
    match v
    case PyInt(i) => IntToString(i)
    case PyBool(b) => BoolText(b)
    case PyFloat(f) => FloatRepr(f)
    case PyStr(s) => s
    case PyNone => "None"
  }
}
