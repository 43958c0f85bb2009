/**
  Exact counterparts of the scalar operations the renderer performs on
  `f32`, `i32`, `u8` and `u32` values. Floating point is idealised as `real`;
  the casts are written out so that their saturation and truncation are
  explicit.
 */
module Numeric {

  /** An 8-bit channel value (`u8`). */
  type Byte = x: int | 0 <= x < 256

  /** A 32-bit unsigned value (`u32`). */
  type U32 = x: int | 0 <= x < 0x1_0000_0000

  /** A value that may be missing (`Option`). */
  datatype Option<T> = None | Some(value: T)

  /** `std::f32::consts::PI`, idealised to fifteen digits. */
  const Pi: real := 3.14159265358979

  function Min(a: real, b: real): (r: real)
    ensures r <= a && r <= b
    ensures r == a || r == b
  {
    if a <= b then a else b
  }

  function Max(a: real, b: real): (r: real)
    ensures a <= r && b <= r
    ensures r == a || r == b
  {
    if a >= b then a else b
  }

  function Abs(x: real): (r: real)
    ensures 0.0 <= r
    ensures r == x || r == -x
  {
    if x < 0.0 then -x else x
  }

  /** `f32::clamp`: the bounds used in the renderer are constants with lo <= hi. */
  function Clamp(x: real, lo: real, hi: real): (r: real)
    requires lo <= hi
    ensures lo <= r <= hi
    ensures lo <= x <= hi ==> r == x
    ensures x < lo ==> r == lo
    ensures hi < x ==> r == hi
  {
    if x < lo then lo else if hi < x then hi else x
  }

  function MinInt(a: int, b: int): int { if a <= b then a else b }

  function MaxInt(a: int, b: int): int { if a >= b then a else b }

  /** `i32::clamp`, which panics unless lo <= hi. */
  function ClampInt(x: int, lo: int, hi: int): (r: int)
    requires lo <= hi
    ensures lo <= r <= hi
    ensures lo <= x <= hi ==> r == x
  {
    if x < lo then lo else if hi < x then hi else x
  }

  /** `f32::floor` followed by an exact `as i32`. */
  function Floor(x: real): (r: int)
    ensures r as real <= x < r as real + 1.0
  {
    x.Floor
  }

  /** `f32::ceil` followed by an exact `as i32`. */
  function Ceil(x: real): (r: int)
    ensures r as real - 1.0 < x <= r as real
  {
    -((-x).Floor)
  }

  /** `f32::trunc`: rounds toward zero. */
  function Trunc(x: real): (r: int)
    ensures 0.0 <= x ==> 0 <= r && r as real <= x < r as real + 1.0
    ensures x < 0.0 ==> r <= 0 && r as real - 1.0 < x <= r as real
  {
    if x >= 0.0 then x.Floor else -((-x).Floor)
  }

  /**
    Rust's `f32::fract`, `x - x.trunc()`. Unlike the GLSL `fract`, it keeps
    the sign of its argument, so it ranges over (-1, 1) and not [0, 1).
   */
  function Fract(x: real): (r: real)
    ensures -1.0 < r < 1.0
    ensures 0.0 <= x ==> 0.0 <= r
    ensures x < 0.0 ==> r <= 0.0
    ensures (x - r).Floor as real == x - r
  {
    x - Trunc(x) as real
  }

  /**
    The saturating `as u8` cast of an `f32`: truncate toward zero, then
    saturate to [0, 255]. (NaN, which also maps to 0, does not arise over reals.)
   */
  function SatU8(x: real): (r: Byte)
    ensures x <= 0.0 ==> r == 0
    ensures 255.0 <= x ==> r == 255
    ensures 0.0 <= x < 256.0 ==> r as real <= x < r as real + 1.0
    ensures r as real <= Max(x, 0.0)
  {
    if x <= 0.0 then 0 else if x >= 255.0 then 255 else x.Floor
  }

  /** The cast is monotone, so it preserves every bound a blend satisfies. */
  lemma SatU8Monotone(x: real, y: real)
    requires x <= y
    ensures SatU8(x) <= SatU8(y)
  {
  }

  /** A whole channel value survives the cast unchanged. */
  lemma SatU8OfByte(n: Byte)
    ensures SatU8(n as real) == n
  {
  }

  /**
    The three spellings the shaders use before `as u8` — none, `.min(255.0)`
    and `.clamp(0.0, 255.0)` — give the same byte.
   */
  lemma SatU8Saturates(x: real)
    ensures SatU8(Min(x, 255.0)) == SatU8(x)
    ensures SatU8(Clamp(x, 0.0, 255.0)) == SatU8(x)
  {
  }

  lemma MulPos(a: real, b: real)
    requires 0.0 < a && 0.0 < b
    ensures 0.0 < a * b
  {
  }

  lemma MulNonneg(a: real, b: real)
    requires 0.0 <= a && 0.0 <= b
    ensures 0.0 <= a * b
  {
  }

  /** Multiplying by a factor in [0, 1] does not increase a non-negative value. */
  lemma MulAtMost(a: real, t: real)
    requires 0.0 <= a && 0.0 <= t <= 1.0
    ensures 0.0 <= a * t <= a
  {
    MulNonneg(a, t);
    MulNonneg(a, 1.0 - t);
  }

  lemma PositiveFactor(x: real, b: real)
    requires 0.0 < b && 0.0 < x * b
    ensures 0.0 < x
  {
  }

  lemma DivBelowOne(a: real, b: real)
    requires 0.0 < b && a < b
    ensures a / b < 1.0
  {
    var q := a / b;
    assert q * b == a;
    assert (1.0 - q) * b == b - a;
    PositiveFactor(1.0 - q, b);
  }

  /** b^n for a natural exponent. */
  function Pow(b: real, n: nat): (r: real)
    ensures 0.0 < b ==> 0.0 < r
  {
    if n == 0 then 1.0 else b * Pow(b, n - 1)
  }

  lemma {:induction false} PowProduct(a: real, b: real, n: nat)
    ensures Pow(a, n) * Pow(b, n) == Pow(a * b, n)
  {
    if n > 0 {
      PowProduct(a, b, n - 1);
      var pa, pb := Pow(a, n - 1), Pow(b, n - 1);
      assert Pow(a, n) == a * pa && Pow(b, n) == b * pb;
      assert (a * pa) * (b * pb) == (a * b) * (pa * pb);
    }
  }
}
