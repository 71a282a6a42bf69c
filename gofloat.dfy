/** The few float64 outcomes the reports depend on: a quotient is a real number, or, when the
    divisor is zero, an infinity or NaN. Rounding is not modelled: every finite value is exact. */
module GoFloat {

  datatype Float = Num(r: real) | PosInf | NegInf | NaN

  /** `a / b` on float64: the exact quotient, or for a zero divisor +Inf, -Inf or NaN by the
      sign of the dividend. */
  function Div(a: real, b: real): (q: Float)
    ensures b != 0.0 ==> q.Num? && q.r * b == a
    ensures b == 0.0 ==> (q == PosInf <==> a > 0.0) && (q == NegInf <==> a < 0.0) && (q == NaN <==> a == 0.0)
  {
    if b != 0.0 then Num(a / b)
    else if a > 0.0 then PosInf
    else if a < 0.0 then NegInf
    else NaN
  }

  /** For a positive divisor the quotient is a number on the side of zero and of one that the
      dividend is on, relative to zero and to the divisor. */
  lemma DivBounds(a: real, b: real)
    ensures b > 0.0 ==> Div(a, b).Num?
    ensures b > 0.0 && a >= 0.0 ==> Div(a, b).r >= 0.0
    ensures b > 0.0 && a >= b ==> Div(a, b).r >= 1.0
    ensures b > 0.0 && a <= b ==> Div(a, b).r <= 1.0
  {
    if b > 0.0 {
      var q := Div(a, b).r;
      assert q * b == a;
    }
  }

  /** Dividing by a non-zero `n` and multiplying back gives the dividend. */
  lemma DivMul(x: real, n: real)
    requires n != 0.0
    ensures (x / n) * n == x
  {
  }

  /** `x > y` for a float64 `x`: false for NaN, true for +Inf, false for -Inf. */
  predicate Greater(x: Float, y: real) {
    match x
    case Num(r) => r > y
    case PosInf => true
    case NegInf => false
    case NaN => false
  }

  /** `if x > 1.0 { x = 1.0 }`: nothing above one is left, NaN and -Inf pass through. */
  function CapAtOne(x: Float): (c: Float)
    ensures !Greater(c, 1.0)
    ensures !Greater(x, 1.0) ==> c == x
    ensures Greater(x, 1.0) ==> c == Num(1.0)
  {
    if Greater(x, 1.0) then Num(1.0) else x
  }
}
