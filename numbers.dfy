/**
 * The numeric conversions the sources rely on, over exact reals: Python's `int()` on a float,
 * Python's `.1f` formatting (round half to even on the magnitude), JavaScript's `Math.round`
 * and `toFixed` (round half up), and the `Math.max(lo, Math.min(hi, x))` clamp.
 */
module Numbers {

  function Abs(x: real): (a: real)
    ensures a >= 0.0 && (a == x || a == -x)
  {
    if x < 0.0 then -x else x
  }

  /** Python `int(x)` for a float: rounds toward zero. */
  function Trunc(x: real): (n: int)
    ensures x >= 0.0 ==> n as real <= x < n as real + 1.0
    ensures x < 0.0 ==> n as real - 1.0 < x <= n as real
  {
    if x >= 0.0 then x.Floor else -((-x).Floor)
  }

  /** JavaScript `Math.round`: the nearest integer, halves rounded up. */
  function RoundHalfUp(x: real): (n: int)
    ensures x - 0.5 < n as real <= x + 0.5
  {
    (x + 0.5).Floor
  }

  /** Round to nearest with ties to the even neighbour (Python's float formatting of an exact value). */
  function RoundHalfEven(x: real): (n: int)
    ensures x - 0.5 <= n as real <= x + 0.5
    ensures (n as real == x - 0.5 || n as real == x + 0.5) ==> n % 2 == 0
  {
    var f := x.Floor;
    var d := x - f as real;
    if d < 0.5 then f
    else if d > 0.5 then f + 1
    else if f % 2 == 0 then f
    else f + 1
  }

  /** An integer is its own rounding. */
  lemma RoundIntegers(k: int)
    ensures RoundHalfUp(k as real) == k && RoundHalfEven(k as real) == k
  {
  }

  /** Rounding half up keeps a value that lies between two integers between them. */
  lemma RoundHalfUpWithin(x: real, lo: int, hi: int)
    requires lo as real <= x <= hi as real
    ensures lo <= RoundHalfUp(x) <= hi
  {
    var n := RoundHalfUp(x);
    assert (lo - 1) as real < n as real;
    assert n as real < (hi + 1) as real;
  }

  /** `Math.max(lo, Math.min(hi, x))`. */
  function Clamp(x: real, lo: real, hi: real): (r: real)
    requires lo <= hi
    ensures lo <= r <= hi
    ensures lo <= x <= hi ==> r == x
    ensures x < lo ==> r == lo
    ensures x > hi ==> r == hi
  {
    if hi < x then hi else if x < lo then lo else x
  }

  function Pow10(k: nat): (p: nat)
    ensures p >= 1
  {
    if k == 0 then 1 else 10 * Pow10(k - 1)
  }

  /**
   * `Number(x.toFixed(2))`: JavaScript rounds the magnitude half up to two decimals and keeps the
   * sign; the result is taken as the exact decimal it prints.
   */
  function ToFixed2(x: real): (r: real)
    ensures Abs(r - x) <= 0.005
  {
    var m := RoundHalfUp(Abs(x) * 100.0);
    if x < 0.0 then -(m as real) / 100.0 else m as real / 100.0
  }

  /** A value with at most two decimals survives `toFixed(2)` unchanged. */
  lemma ToFixed2Hundredths(k: int)
    ensures ToFixed2(k as real / 100.0) == k as real / 100.0
  {
    var x := k as real / 100.0;
    if x < 0.0 {
      assert Abs(x) * 100.0 == (-k) as real;
      RoundIntegers(-k);
    } else {
      assert Abs(x) * 100.0 == k as real;
      RoundIntegers(k);
    }
  }

  /** `toFixed(2)` keeps a value between two whole numbers between them. */
  lemma ToFixed2Within(x: real, lo: nat, hi: nat)
    requires lo as real <= x <= hi as real
    ensures lo as real <= ToFixed2(x) <= hi as real
  {
    RoundHalfUpWithin(x * 100.0, lo * 100, hi * 100);
  }

  // ---------------------------------------------------------------------------
  // Euclidean remainder

  lemma {:induction false} MulAtLeast(k: int, c: int)
    requires k >= 1 && c >= 1
    ensures k * c >= c
    decreases k
  {
    if k > 1 {
      MulAtLeast(k - 1, c);
      assert k * c == (k - 1) * c + c;
    }
  }

  lemma ModUnique(x: int, c: int, q: int, r: int)
    requires c >= 1 && 0 <= r < c && x == q * c + r
    ensures x % c == r
  {
    var q', r' := x / c, x % c;
    assert (q - q') * c == r' - r;
    assert (q' - q) * c == r - r';
    if q > q' {
      MulAtLeast(q - q', c);
    } else if q < q' {
      MulAtLeast(q' - q, c);
    }
  }

  lemma ModSucc(m: nat, c: nat)
    requires c >= 1
    ensures (m % c + 1) % c == (m + 1) % c
  {
    var q, r := m / c, m % c;
    if r + 1 < c {
      ModUnique(m + 1, c, q, r + 1);
      ModUnique(r + 1, c, 0, r + 1);
    } else {
      assert m + 1 == (q + 1) * c;
      ModUnique(m + 1, c, q + 1, 0);
      ModUnique(r + 1, c, 1, 0);
    }
  }

  // ---------------------------------------------------------------------------
  // Weighted blends

  lemma MulMonotone(a: real, b: real, c: real)
    requires a <= b && c >= 0.0
    ensures a * c <= b * c
  {
    assert b * c - a * c == (b - a) * c;
  }

  lemma AddLe(a: real, b: real, c: real, d: real)
    requires a <= b && c <= d
    ensures a + c <= b + d
  {
  }

  lemma BlendAbove(w: real, x: real, y: real, lo: real)
    requires 0.0 <= w <= 1.0 && lo <= x && lo <= y
    ensures lo <= x * w + y * (1.0 - w)
  {
    var v := 1.0 - w;
    MulMonotone(lo, x, w);
    MulMonotone(lo, y, v);
    AddLe(lo * w, x * w, lo * v, y * v);
    assert lo * w + lo * v == lo;
  }

  lemma BlendBelow(w: real, x: real, y: real, hi: real)
    requires 0.0 <= w <= 1.0 && x <= hi && y <= hi
    ensures x * w + y * (1.0 - w) <= hi
  {
    var v := 1.0 - w;
    MulMonotone(x, hi, w);
    MulMonotone(y, hi, v);
    AddLe(x * w, hi * w, y * v, hi * v);
    assert hi * w + hi * v == hi;
  }
}
