/** JavaScript numbers where the arithmetic has no guard: the finite
    values (as reals, without rounding), the two infinities and NaN, with
    the `+`, `-`, `*`, `/` and `x || 0` of ECMAScript section 6.1.6.1.
    Zero is unsigned: every divisor these screens use is a sum started
    from +0 or a product of one, so a negative zero never reaches a
    division. */
module JsNumber {

  datatype Num = Finite(value: real) | PosInf | NegInf | NaN

  const ZERO: Num := Finite(0.0)

  predicate IsInfinite(a: Num)
  {
    a.PosInf? || a.NegInf?
  }

  /** The infinity of the sign of `s`, which is not 0. */
  function InfinityOfSign(s: real): (r: Num)
    requires s != 0.0
    ensures s > 0.0 ==> r == PosInf
    ensures s < 0.0 ==> r == NegInf
  {
    if s > 0.0 then PosInf else NegInf
  }

  /** The sign of a non-NaN, non-zero number. */
  function Sign(a: Num): real
  {
    match a
    case Finite(v) => if v > 0.0 then 1.0 else if v < 0.0 then -1.0 else 0.0
    case PosInf => 1.0
    case NegInf => -1.0
    case NaN => 0.0
  }

  function Neg(a: Num): (r: Num)
    ensures a.Finite? ==> r == Finite(-a.value)
    ensures a.NaN? <==> r.NaN?
    ensures a == PosInf <==> r == NegInf
  {
    match a
    case Finite(v) => Finite(-v)
    case PosInf => NegInf
    case NegInf => PosInf
    case NaN => NaN
  }

  /** `a + b`. */
  function Add(a: Num, b: Num): (r: Num)
    ensures a.Finite? && b.Finite? ==> r == Finite(a.value + b.value)
    ensures r.NaN? <==> a.NaN? || b.NaN? || (a == PosInf && b == NegInf) || (a == NegInf && b == PosInf)
  {
    match (a, b)
    case (NaN, _) => NaN
    case (_, NaN) => NaN
    case (Finite(x), Finite(y)) => Finite(x + y)
    case (Finite(_), _) => b
    case (_, Finite(_)) => a
    case (_, _) => if a == b then a else NaN
  }

  /** `a - b`. */
  function Sub(a: Num, b: Num): (r: Num)
    ensures a.Finite? && b.Finite? ==> r == Finite(a.value - b.value)
    ensures a.NaN? || b.NaN? ==> r.NaN?
  {
    Add(a, Neg(b))
  }

  /** `a * b`. */
  function Mul(a: Num, b: Num): (r: Num)
    ensures a.Finite? && b.Finite? ==> r == Finite(a.value * b.value)
    ensures r.NaN? <==> a.NaN? || b.NaN? || (IsInfinite(a) && b == ZERO) || (a == ZERO && IsInfinite(b))
  {
    if a.NaN? || b.NaN? then NaN
    else if a.Finite? && b.Finite? then Finite(a.value * b.value)
    else if Sign(a) * Sign(b) == 0.0 then NaN
    else InfinityOfSign(Sign(a) * Sign(b))
  }

  /** `a / b`, where a finite value over +0 is an infinity of its own sign
      and 0 / 0 is NaN. */
  function Div(a: Num, b: Num): (r: Num)
    ensures a.Finite? && b.Finite? && b.value != 0.0 ==> r == Finite(a.value / b.value)
    ensures b == ZERO && a.Finite? ==>
      r == (if a.value > 0.0 then PosInf else if a.value < 0.0 then NegInf else NaN)
    ensures r.NaN? <==> a.NaN? || b.NaN? || (a == ZERO && b == ZERO) || (IsInfinite(a) && IsInfinite(b))
  {
    if a.NaN? || b.NaN? then NaN
    else if IsInfinite(a) && IsInfinite(b) then NaN
    else if a.Finite? && b.Finite? then
      if b.value != 0.0 then Finite(a.value / b.value)
      else if a.value == 0.0 then NaN
      else InfinityOfSign(a.value)
    else if a.Finite? then ZERO
    else if b.value == 0.0 then a
    else InfinityOfSign(Sign(a) * Sign(b))
  }

  /** `a || 0`: the falsy numbers, NaN and 0, become 0. */
  function OrZero(a: Num): (r: Num)
    ensures !r.NaN?
    ensures a.NaN? || a == ZERO ==> r == ZERO
    ensures !a.NaN? ==> r == a
  {
    if a.NaN? then ZERO else a
  }
}
