/** Python's `round(x, 2)` on an exact value: to the nearest hundredth,
    ties to the even hundredth. */
module Rounding {

  /** `round(x)`: the nearest integer, and the even one of two equally near. */
  function RoundHalfEven(x: real): (n: int)
    ensures x - 0.5 <= n as real <= x + 0.5
    ensures (n as real - x == 0.5 || x - n as real == 0.5) ==> n % 2 == 0
  {
    var f := x.Floor;
    var frac := x - f as real;
    if frac < 0.5 then f
    else if frac > 0.5 then f + 1
    else if f % 2 == 0 then f
    else f + 1
  }

  /** The nearest integer is unique away from ties. */
  lemma RoundHalfEvenUnique(x: real, n: int)
    requires x - 0.5 < n as real < x + 0.5
    ensures RoundHalfEven(x) == n
  {
  }

  lemma RoundHalfEvenOfInt(n: int)
    ensures RoundHalfEven(n as real) == n
  {
    RoundHalfEvenUnique(n as real, n);
  }

  /** `round(x, 2) * 100`, an integer count of hundredths. */
  function Hundredths(x: real): int {
    RoundHalfEven(x * 100.0)
  }

  /** `round(x, 2)` */
  function Round2(x: real): (r: real)
    ensures x - 0.005 <= r <= x + 0.005
  {
    Hundredths(x) as real / 100.0
  }

  /** Rounding an already rounded value changes nothing. */
  lemma Round2Idempotent(x: real)
    ensures Round2(Round2(x)) == Round2(x)
  {
    var n := Hundredths(x);
    assert Round2(x) * 100.0 == n as real;
    RoundHalfEvenOfInt(n);
  }

  /** A value strictly nearer to one hundredth than to any other rounds to it. */
  lemma Round2Nearest(x: real, n: int)
    requires n as real / 100.0 - 0.005 < x < n as real / 100.0 + 0.005
    ensures Round2(x) == n as real / 100.0
  {
    RoundHalfEvenUnique(x * 100.0, n);
  }
}
