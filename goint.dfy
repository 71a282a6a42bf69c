/** Go's integer division and conversions, which truncate toward zero where Dafny's
    `/` and `%` are Euclidean. */
module GoInt {

  /** Go's `a / b` on integers: the quotient truncated toward zero. */
  function Quo(a: int, b: int): (q: int)
    requires b != 0
    ensures a >= 0 && b > 0 ==> q == a / b
    ensures (a >= 0) == (b > 0) ==> q >= 0
    ensures (a >= 0) != (b > 0) ==> q <= 0
  {
    if a >= 0 then (if b > 0 then a / b else -(a / -b))
    else (if b > 0 then -((-a) / b) else (-a) / (-b))
  }

  /** Go's `a % b`: the remainder that goes with `Quo`; it has the sign of `a`. */
  function Rem(a: int, b: int): (r: int)
    requires b != 0
    ensures a == b * Quo(a, b) + r
    ensures a >= 0 ==> 0 <= r < (if b > 0 then b else -b)
    ensures a < 0 ==> -(if b > 0 then b else -b) < r <= 0
  {
    a - b * Quo(a, b)
  }

  /** Go's conversion `int(x)` of a float: truncation toward zero. */
  function Trunc(x: real): (n: int)
    ensures x >= 0.0 ==> n as real <= x < n as real + 1.0
    ensures x < 0.0 ==> n as real - 1.0 < x <= n as real
  {
    if x >= 0.0 then x.Floor else -((-x).Floor)
  }

  /** `Duration.Microseconds()`: a nanosecond count divided by 1000, truncated. */
  function Microseconds(ns: int): (us: int)
    ensures ns >= 0 ==> us == ns / 1000
  {
    Quo(ns, 1000)
  }
}
