/**
 * Double-precision values as numpy produces them, abstracted to exact reals:
 * a value is NaN, one of the two infinities, or a finite real. Rounding is not
 * modelled; the special values and when they arise are.
 */
module Floats {

  datatype Float = NaN | PosInf | NegInf | Finite(v: real)

  /** The value of `np.pi`. */
  const Pi: real := 3.141592653589793

  /** `a > r` for a real bound `r`; every comparison with NaN is false. */
  predicate Greater(a: Float, r: real)
  {
    match a
    case NaN => false
    case PosInf => true
    case NegInf => false
    case Finite(v) => v > r
  }

  /** `a < r` for a real bound `r`. */
  predicate Less(a: Float, r: real)
  {
    match a
    case NaN => false
    case PosInf => false
    case NegInf => true
    case Finite(v) => v < r
  }

  function Negate(a: Float): Float
  {
    match a
    case NaN => NaN
    case PosInf => NegInf
    case NegInf => PosInf
    case Finite(v) => Finite(-v)
  }

  /** IEEE addition: NaN is absorbing and opposite infinities give NaN. */
  function Add(a: Float, b: Float): (r: Float)
    ensures r.NaN? <==> a.NaN? || b.NaN? || (a.PosInf? && b.NegInf?) || (a.NegInf? && b.PosInf?)
    ensures r.Finite? <==> a.Finite? && b.Finite?
    ensures a.Finite? && b.Finite? ==> r.v == a.v + b.v
  {
    match (a, b)
    case (NaN, _) => NaN
    case (_, NaN) => NaN
    case (PosInf, NegInf) => NaN
    case (NegInf, PosInf) => NaN
    case (PosInf, _) => PosInf
    case (NegInf, _) => NegInf
    case (_, PosInf) => PosInf
    case (_, NegInf) => NegInf
    case (Finite(x), Finite(y)) => Finite(x + y)
  }

  /** IEEE subtraction, `a - b`. */
  function Sub(a: Float, b: Float): (r: Float)
    ensures r.NaN? <==> a.NaN? || b.NaN? || (a.PosInf? && b.PosInf?) || (a.NegInf? && b.NegInf?)
    ensures a.Finite? && b.Finite? ==> r == Finite(a.v - b.v)
  {
    Add(a, Negate(b))
  }

  /**
   * numpy division `a / b` (no exception: a zero divisor gives an infinity, or NaN
   * for 0/0). Zero is taken to be +0.0.
   */
  function Div(a: Float, b: Float): (r: Float)
    ensures r.NaN? <==> a.NaN? || b.NaN? || (a == Finite(0.0) && b == Finite(0.0)) || (!a.Finite? && !b.Finite?)
    ensures a.Finite? && b.Finite? && b.v != 0.0 ==> r == Finite(a.v / b.v)
    ensures a.Finite? && a.v > 0.0 && b == Finite(0.0) ==> r == PosInf
  {
    match (a, b)
    case (NaN, _) => NaN
    case (_, NaN) => NaN
    case (Finite(x), Finite(y)) =>
      if y != 0.0 then Finite(x / y)
      else if x > 0.0 then PosInf
      else if x < 0.0 then NegInf
      else NaN
    case (Finite(_), _) => Finite(0.0)
    case (_, Finite(y)) =>
      if y >= 0.0 then a else Negate(a)
    case (_, _) => NaN
  }
}
