/** The program's arithmetic: `Math.max(lo, Math.min(hi, x))` clamps and
    `Math.round`, which rounds halves upwards. Fractional values are exact
    reals here; every place the program rounds, the exact value is a
    multiple of 1/5 or 1/(2s), so rounding errors of binary floating point
    cannot move a result across a half. */
module Numeric {

  function Min(a: int, b: int): int {
    if a <= b then a else b
  }

  function Max(a: int, b: int): int {
    if a <= b then b else a
  }

  /** A condition as a 0/1 term of a score. */
  function B(b: bool): int {
    if b then 1 else 0
  }

  /** `Math.max(lo, Math.min(hi, x))`. */
  function Clamp(lo: int, hi: int, x: int): (r: int)
    requires lo <= hi
    ensures lo <= r <= hi
    ensures lo <= x <= hi ==> r == x
    ensures x < lo ==> r == lo
    ensures hi < x ==> r == hi
  {
    Max(lo, Min(hi, x))
  }

  /** Clamping never separates two values further than they were. */
  lemma ClampContracts(lo: int, hi: int, x: int, y: int)
    requires lo <= hi
    ensures x <= y ==> Clamp(lo, hi, x) <= Clamp(lo, hi, y)
    ensures -(if x <= y then y - x else x - y) <= Clamp(lo, hi, x) - Clamp(lo, hi, y)
                                                  <= (if x <= y then y - x else x - y)
  {
  }

  /** `Math.round(x)`: the nearest integer, halves upwards. */
  function Round(x: real): int {
    (x + 0.5).Floor
  }

  /** Rounding lands within one half of its argument, and on the upper
      neighbour when exactly halfway. */
  lemma RoundNearest(x: real)
    ensures x - 0.5 < Round(x) as real <= x + 0.5
  {
  }

  lemma RoundShift(x: real, k: int)
    ensures Round(x + k as real) == Round(x) + k
  {
    assert x + k as real + 0.5 == (x + 0.5) + k as real;
  }

  lemma RoundMonotone(x: real, y: real)
    requires x <= y
    ensures Round(x) <= Round(y)
  {
  }

  /** The integer nearest to `a / b`, halves upwards. */
  function HalfUpQuotient(a: int, b: int): int
    requires b > 0
  {
    (2 * a + b) / (2 * b)
  }

  /** `Math.round(w / s)` in integers. */
  lemma RoundQuotient(w: int, s: int)
    requires s > 0
    ensures Round(w as real / s as real) == (2 * w + s) / (2 * s)
  {
    var q := (2 * w + s) / (2 * s);
    var r := (2 * w + s) % (2 * s);
    assert 2 * w + s == 2 * s * q + r && 0 <= r < 2 * s;
    var x := w as real / s as real;
    assert x * s as real == w as real;
    var t := x + 0.5;
    assert t * (2 * s) as real == (2 * w + s) as real;
    assert (q as real) * (2 * s) as real <= t * (2 * s) as real;
    assert t * (2 * s) as real < (q + 1) as real * (2 * s) as real;
    ScaleBack(q as real, t, (2 * s) as real);
    ScaleBack(t, (q + 1) as real, (2 * s) as real);
  }

  /** `RoundQuotient` for a count that may be zero. */
  lemma RoundedAverage(total: nat, count: nat)
    ensures count > 0 ==> Round(total as real / count as real) == (2 * total + count) / (2 * count)
  {
    if count > 0 {
      RoundQuotient(total, count);
    }
  }

  lemma ScaleBack(a: real, b: real, k: real)
    requires k > 0.0
    ensures a * k <= b * k ==> a <= b
    ensures a * k < b * k ==> a < b
  {
  }

  /** `Math.round(0.4 * c)` in integers, for an integer `c`. */
  lemma RoundTwoFifths(c: int)
    ensures Round(0.4 * c as real) == (4 * c + 5) / 10
  {
    assert 0.4 * c as real == (2 * c) as real / 5 as real;
    RoundQuotient(2 * c, 5);
    assert (2 * (2 * c) + 5) / (2 * 5) == (4 * c + 5) / 10;
  }

  /** `Math.round(0.6 * c + 0.4 * a)` in integers, for integers `c` and `a`. */
  lemma RoundBlend(c: int, a: int)
    ensures Round(0.6 * c as real + 0.4 * a as real) == (6 * c + 4 * a + 5) / 10
  {
    assert 0.6 * c as real + 0.4 * a as real == (3 * c + 2 * a) as real / 5 as real;
    RoundQuotient(3 * c + 2 * a, 5);
    assert (2 * (3 * c + 2 * a) + 5) / (2 * 5) == (6 * c + 4 * a + 5) / 10;
  }
}
