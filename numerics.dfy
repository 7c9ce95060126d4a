/** Swift's numeric conversions used by the core, on unbounded reals. */
module Numerics {

  function Abs(x: real): (r: real)
    ensures r >= 0.0
    ensures r == x || r == -x
  {
    if x < 0.0 then -x else x
  }

  /** `Int(x)` for a Float `x`: truncation toward zero (Dafny's `.Floor` rounds down). */
  function TruncateToInt(x: real): (r: int)
    ensures x >= 0.0 ==> 0 <= r && r as real <= x < r as real + 1.0
    ensures x < 0.0 ==> r <= 0 && r as real - 1.0 < x <= r as real
  {
    if x >= 0.0 then x.Floor else -((-x).Floor)
  }

  /** The result of Swift's `%` on Int, which truncates toward zero: the
      remainder takes the dividend's sign. For a non-negative dividend it
      agrees with Dafny's `%`; for a negative one it lies in `(-b, 0]`. */
  function SwiftRemainder(a: int, b: int): (r: int)
    requires b != 0
    ensures a >= 0 && b > 0 ==> 0 <= r < b
    ensures a >= 0 && b > 0 ==> r == a % b
    ensures a < 0 && b > 0 ==> -b < r <= 0 && (a - r) % b == 0
  {
    var m := (if a < 0 then -a else a) % (if b < 0 then -b else b);
    if a < 0 then (if b > 0 then NegativeDividendRemainder(a, b); -m else -m) else m
  }

  /** For a negative dividend, minus the remainder of its magnitude lies in
      `(-b, 0]` and differs from the dividend by a multiple of `b`. */
  lemma NegativeDividendRemainder(a: int, b: int)
    requires a < 0 && b > 0
    ensures -b < -((-a) % b) <= 0
    ensures (a + (-a) % b) % b == 0
  {
    var q, m := (-a) / b, (-a) % b;
    assert -a == b * q + m;
    assert a + m == b * -q;
    MultipleRemainder(b, -q);
  }

  /** A multiple of `b` leaves no remainder: the remainder `r` and quotient
      `d` of `b * k` give `b * (k - d) == r` with `0 <= r < b`, which only
      `d == k` allows. */
  lemma MultipleRemainder(b: int, k: int)
    requires b > 0
    ensures (b * k) % b == 0
  {
    var d, r := (b * k) / b, (b * k) % b;
    assert b * (k - d) == r;
    ProductAwayFromZero(b, k - d);
  }

  /** A non-zero multiple of a positive `b` is at least `b` away from zero. */
  lemma ProductAwayFromZero(b: int, n: int)
    requires b > 0
    ensures n >= 1 ==> b * n >= b
    ensures n <= -1 ==> b * n <= -b
  {
    if n >= 1 {
      assert b * n == b + b * (n - 1);
    } else if n <= -1 {
      assert b * n == -b - b * (-n - 1);
    }
  }
}
