/** The diffuse-plus-ambient lighting and the additive glows of the planet shaders. */
module Lighting {
  import opened Numeric
  import opened Colors

  /**
    `(n · l).max(0) * kd + ambient`, capped by `.min(cap)`: never below the
    ambient term, never above the cap, and exactly the ambient term on the
    side facing away from the light.
   */
  function Intensity(kd: real, ambient: real, cap: real, ndotl: real): (i: real)
    requires 0.0 <= kd && ambient <= cap
    ensures ambient <= i <= cap
    ensures ndotl <= 0.0 ==> i == ambient
    ensures 0.0 <= ndotl ==> i == Min(ndotl * kd + ambient, cap)
  {
    MulNonneg(Max(ndotl, 0.0), kd);
    Min(Max(ndotl, 0.0) * kd + ambient, cap)
  }

  /**
    The lit colour: the surface colour scaled by the intensity and cast
    back channel by channel, whichever of `as u8`, `.min(255) as u8` or
    `.clamp(0, 255) as u8` a shader writes (they agree).
   */
  function Lit(c: Color, kd: real, ambient: real, cap: real, ndotl: real): Color
    requires 0.0 <= kd && ambient <= cap
  {
    Scale(c, Intensity(kd, ambient, cap, ndotl))
  }

  /** With a non-negative ambient term and a cap of 1, lighting only darkens. */
  lemma LitDarkens(c: Color, kd: real, ambient: real, ndotl: real)
    requires 0.0 <= kd && 0.0 <= ambient <= 1.0
    ensures AtMost(Lit(c, kd, ambient, 1.0, ndotl), c)
  {
  }

  /** More light never darkens a lit surface. */
  lemma LitMonotone(c: Color, kd: real, ambient: real, cap: real, d1: real, d2: real)
    requires 0.0 <= kd && ambient <= cap && d1 <= d2
    ensures AtMost(Lit(c, kd, ambient, cap, d1), Lit(c, kd, ambient, cap, d2))
  {
    var i1, i2 := Intensity(kd, ambient, cap, d1), Intensity(kd, ambient, cap, d2);
    assert Max(d1, 0.0) <= Max(d2, 0.0);
    assert Max(d1, 0.0) * kd <= Max(d2, 0.0) * kd by {
      MulNonneg(Max(d2, 0.0) - Max(d1, 0.0), kd);
    }
    ScaleMonotone(c, i1, i2);
  }

  /** One channel of an additive glow: `(x + g * f).min(255) as u8`. */
  function GlowByte(x: Byte, g: Byte, f: real): (y: Byte)
    ensures 0.0 <= f ==> x <= y
    ensures f <= 0.0 ==> y <= x
    ensures 0.0 <= f ==> y as real <= x as real + g as real * f
  {
    var v := x as real + g as real * f;
    if 0.0 <= f then
      MulNonneg(g as real, f);
      SatU8OfByte(x);
      SatU8Monotone(x as real, v);
      SatU8Saturates(v);
      Cap(v)
    else
      MulNonneg(g as real, -f);
      SatU8OfByte(x);
      SatU8Monotone(v, x as real);
      SatU8Saturates(v);
      Cap(v)
  }

  /** An additive glow of colour g with strength f, each channel capped at 255. */
  function Glow(c: Color, g: Color, f: real): (d: Color)
    ensures 0.0 <= f ==> AtMost(c, d)
  {
    Color(GlowByte(c.r, g.r, f), GlowByte(c.g, g.g, f), GlowByte(c.b, g.b, f))
  }
}
