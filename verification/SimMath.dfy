/** Thread-safe numeric helpers of the simulation. Single-precision floats
    are modelled as exact reals, 32-bit ints as unbounded ints. */
module SimMath {

  /** Integer clamp: below `lo` gives `lo`, above `hi` gives `hi`. The
      lower test comes first, so with `lo > hi` a value below `lo` wins. */
  function ClampInt(v: int, lo: int, hi: int): (r: int)
    ensures r == v || r == lo || r == hi
    ensures lo <= hi ==> lo <= r <= hi
    ensures lo <= v <= hi ==> r == v
    ensures v < lo ==> r == lo
    ensures lo <= v && v > hi ==> r == hi
  {
    if v < lo then lo else if v > hi then hi else v
  }

  function ClampReal(v: real, lo: real, hi: real): (r: real)
    ensures r == v || r == lo || r == hi
    ensures lo <= hi ==> lo <= r <= hi
    ensures lo <= v <= hi ==> r == v
    ensures v < lo ==> r == lo
    ensures lo <= v && v > hi ==> r == hi
  {
    if v < lo then lo else if v > hi then hi else v
  }

  function Clamp01(v: real): (r: real)
    ensures 0.0 <= r <= 1.0
    ensures 0.0 <= v <= 1.0 ==> r == v
    ensures r == ClampReal(v, 0.0, 1.0)
  {
    if v < 0.0 then 0.0 else if v > 1.0 then 1.0 else v
  }

  /** Clamping twice is clamping once, and clamping is monotone. */
  lemma ClampIdempotentMonotone(v: int, w: int, lo: int, hi: int)
    requires lo <= hi
    ensures ClampInt(ClampInt(v, lo, hi), lo, hi) == ClampInt(v, lo, hi)
    ensures v <= w ==> ClampInt(v, lo, hi) <= ClampInt(w, lo, hi)
    ensures ClampReal(ClampReal(v as real, lo as real, hi as real), lo as real, hi as real)
            == ClampInt(v, lo, hi) as real
  {
  }

  function AbsInt(v: int): (r: nat)
    ensures r == v || r == -v
  {
    if v < 0 then -v else v
  }

  function AbsReal(v: real): (r: real)
    ensures r >= 0.0
    ensures r == v || r == -v
  {
    if v < 0.0 then -v else v
  }

  function MinInt(a: int, b: int): (r: int)
    ensures r == a || r == b
    ensures r <= a && r <= b
  {
    if a < b then a else b
  }

  function MaxInt(a: int, b: int): (r: int)
    ensures r == a || r == b
    ensures r >= a && r >= b
  {
    if a > b then a else b
  }

  function MinReal(a: real, b: real): (r: real)
    ensures r == a || r == b
    ensures r <= a && r <= b
  {
    if a < b then a else b
  }

  function MaxReal(a: real, b: real): (r: real)
    ensures r == a || r == b
    ensures r >= a && r >= b
  {
    if a > b then a else b
  }

  /** Linear interpolation with the parameter clamped to [0, 1] first. */
  function Lerp(a: real, b: real, t: real): (r: real)
    ensures MinReal(a, b) <= r <= MaxReal(a, b)
    ensures t <= 0.0 ==> r == a
    ensures t >= 1.0 ==> r == b
  {
    var s := Clamp01(t);
    assert 0.0 <= s <= 1.0;
    LerpBetween(a, b, s);
    a + (b - a) * s
  }

  lemma LerpBetween(a: real, b: real, s: real)
    requires 0.0 <= s <= 1.0
    ensures MinReal(a, b) <= a + (b - a) * s <= MaxReal(a, b)
  {
    ScaleBetween(b - a, s, (b - a) * s);
  }

  lemma ScaleBetween(d: real, s: real, m: real)
    requires 0.0 <= s <= 1.0 && m == d * s
    ensures d >= 0.0 ==> 0.0 <= m <= d
    ensures d <= 0.0 ==> d <= m <= 0.0
  {
    if d >= 0.0 {
      assert d - m == d * (1.0 - s);
    } else {
      assert m - d == -d * (1.0 - s);
    }
  }

  // ---------------------------------------------------------------------
  // Rounding.

  function FloorToInt(f: real): (r: int)
    ensures r as real <= f < r as real + 1.0
  {
    f.Floor
  }

  function CeilToInt(f: real): (r: int)
    ensures r as real - 1.0 < f <= r as real
  {
    -((-f).Floor)
  }

  /** Round to the nearest integer, halves going to the even neighbour
      (the default midpoint rule of the runtime's rounding). */
  function RoundToInt(f: real): (r: int)
    ensures AbsReal(f - r as real) <= 0.5
    ensures AbsReal(f - r as real) == 0.5 ==> r % 2 == 0
  {
    var fl := f.Floor;
    var frac := f - fl as real;
    if frac < 0.5 then fl
    else if frac > 0.5 then fl + 1
    else if fl % 2 == 0 then fl
    else fl + 1
  }

  /** Rounding is the nearest integer: no other integer is strictly closer. */
  lemma RoundIsNearest(f: real, n: int)
    ensures AbsReal(f - RoundToInt(f) as real) <= AbsReal(f - n as real)
  {
    var r := RoundToInt(f);
    assert -0.5 <= f - r as real <= 0.5;
    if n < r {
      assert n as real <= r as real - 1.0;
      assert f - n as real >= 0.5;
    } else if n > r {
      assert n as real >= r as real + 1.0;
      assert n as real - f >= 0.5;
    }
  }

  /** Rounding an integer-valued input returns it unchanged, and rounding is
      monotone. */
  lemma RoundMonotone(f: real, g: real, n: int)
    ensures RoundToInt(n as real) == n
    ensures f <= g ==> RoundToInt(f) <= RoundToInt(g)
  {
  }

  // ---------------------------------------------------------------------
  // Integer division of the runtime: the quotient truncates toward zero.

  /** `a / b` on `int` for a positive divisor: Dafny's `/` for `a >= 0`,
      the negated quotient of `-a` below zero. */
  function Quot(a: int, b: int): (q: int)
    requires b > 0
    ensures a >= 0 ==> q == a / b
  {
    if a >= 0 then a / b else -((-a) / b)
  }
}
