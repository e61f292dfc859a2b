/**
 * The few JavaScript built-ins the dashboard's calculations rely on, with
 * their JavaScript meaning written out: `Math.round`, the sign-preserving
 * remainder `%`, and `Array.prototype.slice` with its clamping of negative
 * and out-of-range indices.
 */
module Js {

  datatype Option<+T> = None | Some(value: T)

  function Min(a: int, b: int): int { if a <= b then a else b }
  function Max(a: int, b: int): int { if a >= b then a else b }

  /** `Math.round(x)`: the nearest integer, with halves rounded up. */
  function Round(x: real): (r: int)
    ensures r as real <= x + 0.5 < r as real + 1.0
  {
    (x + 0.5).Floor
  }

  lemma RoundOfInteger(n: int)
    ensures Round(n as real) == n
  {
  }

  lemma RoundMonotone(x: real, y: real)
    requires x <= y
    ensures Round(x) <= Round(y)
  {
  }

  /** An integer lies below (above) a real exactly when it lies below (above) its rounding. */
  lemma RoundBetween(lo: int, x: real, hi: int)
    requires lo as real <= x <= hi as real
    ensures lo <= Round(x) <= hi
  {
    RoundMonotone(lo as real, x);
    RoundMonotone(x, hi as real);
    RoundOfInteger(lo);
    RoundOfInteger(hi);
  }

  /** A real that scales a positive `k` into `[0, k)` lies in `[0, 1)`. */
  lemma UnitFraction(d: real, k: real, m: real)
    requires k > 0.0 && d * k == m && 0.0 <= m < k
    ensures 0.0 <= d < 1.0
  {
  }

  /** `Math.floor(a / b)` for a positive integer `b` is the integer division `a / b`. */
  lemma FloorOfQuotient(a: int, b: int)
    requires b > 0
    ensures (a as real / b as real).Floor == a / b
  {
    var q, m := a / b, a % b;
    assert a == q * b + m && 0 <= m < b;
    var x := a as real / b as real;
    var d := x - q as real;
    assert x * b as real == a as real;
    assert d * b as real == a as real - (q * b) as real;
    UnitFraction(d, b as real, m as real);
  }

  /**
   * JavaScript's `a % b` for a positive `b`: the remainder of the division
   * truncated toward zero, which takes the sign of `a` (unlike Dafny's `%`).
   */
  function Rem(a: int, b: int): (r: int)
    requires b > 0
    ensures -b < r < b
    ensures a >= 0 ==> r == a % b
    ensures a <= 0 ==> r <= 0
    ensures a <= 0 ==> r == -((-a) % b)
    ensures (a - r) % b == 0
  {
    if a >= 0 then
      NonNegativeRemainder(a, b);
      a % b
    else
      NegativeRemainder(a, b);
      -((-a) % b)
  }

  lemma NonNegativeRemainder(a: int, b: int)
    requires a >= 0 && b > 0
    ensures (a - a % b) % b == 0
  {
    var q := a / b;
    assert a - a % b == q * b;
    MultipleOf(q, b);
  }

  /** `a` and JavaScript's remainder of `a` differ by a multiple of `b`. */
  lemma NegativeRemainder(a: int, b: int)
    requires a < 0 && b > 0
    ensures (a + (-a) % b) % b == 0
  {
    var q, m := (-a) / b, (-a) % b;
    assert -a == q * b + m;
    assert a + m == (-q) * b;
    MultipleOf(-q, b);
  }

  /** A multiple of a positive `b` leaves no remainder. */
  lemma MultipleOf(k: int, b: int)
    requires b > 0
    ensures (k * b) % b == 0
  {
    var d, m := (k * b) / b, (k * b) % b;
    assert k * b == d * b + m && 0 <= m < b;
    assert (k - d) * b == m;
    // A non-zero `k - d` would put `m` outside `[0, b)`.
    if k - d >= 1 {
      assert false;
    } else if k - d <= -1 {
      assert false;
    }
  }

  /** Where `slice` starts or stops for index `k` on a sequence of length `len`. */
  function SliceIndex(k: int, len: nat): (r: nat)
    ensures r <= len
    ensures 0 <= k <= len ==> r == k
    ensures k > len ==> r == len
  {
    if k < 0 then Max(len + k, 0) else Min(k, len)
  }

  /** `s.slice(start, end)`: negative indices count from the end, and an empty range gives []. */
  function Slice<T>(s: seq<T>, start: int, end: int): (r: seq<T>)
    ensures |r| <= |s|
    ensures start <= end ==> |r| <= end - start
    ensures 0 <= start <= end <= |s| ==> r == s[start..end]
    ensures 0 <= end <= start ==> r == []
    ensures 0 <= start <= |s| && end > |s| ==> r == s[start..]
  {
    var a := SliceIndex(start, |s|);
    var b := SliceIndex(end, |s|);
    if a < b then s[a..b] else []
  }
}
