/** Numeric conventions of the Python source, written out over Dafny's reals:
    Python's float `%`, `math.isclose`, the `max(lo, min(hi, v))` clamps, the
    exceptions the source can raise, IEEE infinities and NaN where the source
    produces them, and the floating-point library functions it calls. */
module Numerics {

  /** The Python exceptions the modelled code can raise. */
  datatype Error =
    | ZeroDivision   // `x / 0.0` on Python floats
    | NoExterior     // `.exterior` asked of a geometry that is not a single polygon
    | MissingColumn  // a pandas column looked up in a table that does not have it

  datatype Result<T> = Ok(value: T) | Err(error: Error) {
    predicate IsFailure() { Err? }

    function PropagateFailure<U>(): Result<U>
      requires Err?
    {
      Err(error)
    }

    function Extract(): T
      requires Ok?
    {
      value
    }
  }

  datatype Option<T> = None | Some(value: T) {
    predicate IsFailure() { None? }

    function PropagateFailure<U>(): Option<U>
      requires None?
    {
      None
    }

    function Extract(): T
      requires Some?
    {
      value
    }

    function GetOr(default: T): T {
      match this
      case Some(v) => v
      case None => default
    }
  }

  /** Python's `math.pi`, read as an exact real. */
  const Pi: real := 3.141592653589793

  /** The library functions the source calls (`math`, `numpy`), passed in as
      values. The operations, and most properties, hold whatever they
      return; a lemma that needs a particular library value (such as
      `tan(0) == 0`) says so in its `requires`.
      Angles are in radians, as in Python. */
  datatype Math = Math(
    sqrt: real -> real,
    sin: real -> real,
    cos: real -> real,
    tan: real -> real,
    asin: real -> real,
    acos: real -> real,
    atan2: (real, real) -> real)

  /** `math.radians` */
  function Radians(deg: real): real {
    deg * (Pi / 180.0)
  }

  /** `math.degrees` */
  function Degrees(rad: real): real {
    rad * (180.0 / Pi)
  }

  function Abs(x: real): real {
    if x < 0.0 then -x else x
  }

  function Max(a: real, b: real): (r: real)
    ensures r >= a && r >= b && (r == a || r == b)
  {
    if a >= b then a else b
  }

  function Min(a: real, b: real): (r: real)
    ensures r <= a && r <= b && (r == a || r == b)
  {
    if a <= b then a else b
  }

  /** Python's float `a % n` for a positive modulus: the result has the sign
      of `n`, so it always lies in [0, n). */
  function PyMod(a: real, n: real): (r: real)
    requires n > 0.0
    ensures 0.0 <= r < n
  {
    FloorRemainder(a, n);
    a - n * (a / n).Floor as real
  }

  /** The remainder left by the floor of a quotient lies in [0, n). */
  lemma FloorRemainder(a: real, n: real)
    requires n > 0.0
    ensures 0.0 <= a - n * (a / n).Floor as real < n
  {
    var q := a / n;
    var f := q.Floor as real;
    assert a == n * q;
    var t := q - f;
    assert 0.0 <= t < 1.0;
    ScaleFraction(n, t);
    assert a - n * f == n * t;
    assert 0.0 <= a - n * f < n;
  }

  /** A positive multiple of a number in [0, 1) stays below the multiplier. */
  lemma ScaleFraction(n: real, t: real)
    requires n > 0.0 && 0.0 <= t < 1.0
    ensures 0.0 <= n * t < n
  {
    assert n * (1.0 - t) > 0.0;
  }

  /** A positive multiple of a number of at least 1 is at least the multiplier. */
  lemma ScaleAtLeast(n: real, t: real)
    requires n > 0.0 && t >= 1.0
    ensures n * t >= n
  {
    assert n * (t - 1.0) >= 0.0;
  }

  /** Adding whole turns does not change `a % n`. */
  lemma PyModShift(a: real, n: real, k: int)
    requires n > 0.0
    ensures PyMod(a + n * k as real, n) == PyMod(a, n)
  {
    var f := (a / n).Floor;
    assert (a + n * k as real) / n == a / n + k as real;
    assert ((a + n * k as real) / n).Floor == f + k;
  }

  /** `a % n` leaves a value already in [0, n) alone, so `%` is idempotent. */
  lemma PyModOfRange(a: real, n: real)
    requires n > 0.0
    requires 0.0 <= a < n
    ensures PyMod(a, n) == a
  {
    var q := a / n;
    assert a == n * q;
    if q >= 1.0 {
      ScaleAtLeast(n, q);
    }
    assert q.Floor == 0;
  }

  /** `math.isclose(a, b, abs_tol=absTol)` with Python's default
      `rel_tol = 1e-9`. */
  function IsClose(a: real, b: real, absTol: real): bool {
    Abs(a - b) <= Max(0.000000001 * Max(Abs(a), Abs(b)), absTol)
  }

  /** `max(lo, min(hi, v))`, the source's clamp. */
  function Clamp(v: real, lo: real, hi: real): (r: real)
    requires lo <= hi
    ensures lo <= r <= hi
    ensures lo <= v <= hi ==> r == v
    ensures v < lo ==> r == lo
    ensures hi < v ==> r == hi
  {
    Max(lo, Min(hi, v))
  }

  /** An IEEE-754 double, reduced to the cases the source produces: a finite
      value, an infinity or NaN. */
  datatype Float = Finite(val: real) | PosInf | NegInf | NaN

  /** Unary minus. */
  function FNeg(a: Float): Float {
    match a
    case Finite(v) => Finite(-v)
    case PosInf => NegInf
    case NegInf => PosInf
    case NaN => NaN
  }

  function FAdd(a: Float, b: Float): (r: Float)
    ensures a.Finite? && b.Finite? ==> r == Finite(a.val + b.val)
    ensures a.NaN? || b.NaN? ==> r.NaN?
    ensures !a.Finite? || !b.Finite? ==> !r.Finite?
  {
    match (a, b)
    case (NaN, _) => NaN
    case (_, NaN) => NaN
    case (Finite(x), Finite(y)) => Finite(x + y)
    case (PosInf, NegInf) => NaN
    case (NegInf, PosInf) => NaN
    case (PosInf, _) => PosInf
    case (NegInf, _) => NegInf
    case (_, PosInf) => PosInf
    case (_, NegInf) => NegInf
  }

  /** `a - b`, which IEEE arithmetic defines as `a + (-b)`. */
  function FSub(a: Float, b: Float): Float {
    FAdd(a, FNeg(b))
  }

  /** -1, 0 or 1 for a number; NaN has no sign. */
  function Sign(a: Float): int
    requires !a.NaN?
  {
    match a
    case Finite(v) => if v < 0.0 then -1 else if v == 0.0 then 0 else 1
    case PosInf => 1
    case NegInf => -1
  }

  function FMul(a: Float, b: Float): (r: Float)
    ensures a.Finite? && b.Finite? ==> r == Finite(a.val * b.val)
    ensures a.NaN? || b.NaN? ==> r.NaN?
    ensures !a.Finite? || !b.Finite? ==> !r.Finite?
  {
    if a.NaN? || b.NaN? then NaN
    else if a.Finite? && b.Finite? then Finite(a.val * b.val)
    else if Sign(a) * Sign(b) == 0 then NaN  // infinity times zero
    else if Sign(a) * Sign(b) > 0 then PosInf
    else NegInf
  }
}
