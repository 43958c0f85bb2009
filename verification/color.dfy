/** The 8-bit-per-channel RGB colour with its packing, blending and scaling. */
module Colors {
  import opened Numeric

  datatype Color = Color(r: Byte, g: Byte, b: Byte)

  const White := Color(255, 255, 255)

  /** The sentinel for an unknown shader selector. */
  const Magenta := Color(255, 0, 255)

  const Black := Color(0, 0, 0)

  /**
    `to_hex`: `(r << 16) | (g << 8) | b`. The three shifted bytes occupy
    disjoint bit ranges, so the bitwise or is the sum written here.
   */
  function ToHex(c: Color): (h: U32)
    ensures h < 0x100_0000
    ensures h / 0x1_0000 == c.r
    ensures (h / 0x100) % 0x100 == c.g
    ensures h % 0x100 == c.b
  {
    Place(c.r * 0x100 + c.g, c.b);
    Place(c.r, c.g);
    PlaceHigh(c.r, c.g * 0x100 + c.b);
    c.r * 0x1_0000 + c.g * 0x100 + c.b
  }

  /** A byte appended below q: dividing by 0x100 gives q back and the remainder is the byte. */
  lemma Place(q: int, low: Byte)
    ensures (q * 0x100 + low) / 0x100 == q && (q * 0x100 + low) % 0x100 == low
  {
  }

  lemma PlaceHigh(q: int, low: int)
    requires 0 <= low < 0x1_0000
    ensures (q * 0x1_0000 + low) / 0x1_0000 == q
  {
  }

  /** Reads the three channels back out of a packed 24-bit value. */
  function FromHex(h: int): Color
    requires 0 <= h < 0x100_0000
  {
    Color(h / 0x1_0000, (h / 0x100) % 0x100, h % 0x100)
  }

  lemma HexRoundTrip(c: Color)
    ensures FromHex(ToHex(c)) == c
  {
  }

  /** Packing is onto the 24-bit range: every such value is some colour's code. */
  lemma HexRoundTripBack(h: int)
    requires 0 <= h < 0x100_0000
    ensures ToHex(FromHex(h)) == h
  {
  }

  lemma BlackIsZero()
    ensures ToHex(Black) == 0
  {
  }

  lemma HexExample()
    ensures ToHex(Color(18, 52, 86)) == 0x123456
  {
  }

  /** Each channel of c is at most the matching channel of d. */
  predicate AtMost(c: Color, d: Color) {
    c.r <= d.r && c.g <= d.g && c.b <= d.b
  }

  predicate ChannelBetween(x: int, a: int, b: int) {
    MinInt(a, b) <= x <= MaxInt(a, b)
  }

  /** Every channel of c lies between the matching channels of a and b. */
  predicate Between(c: Color, a: Color, b: Color) {
    ChannelBetween(c.r, a.r, b.r) && ChannelBetween(c.g, a.g, b.g) && ChannelBetween(c.b, a.b, b.b)
  }

  /** What the saturating `as u8` cast makes of the real value v. */
  predicate Saturated(x: Byte, v: real) {
    && (v <= 0.0 ==> x == 0)
    && (255.0 <= v ==> x == 255)
    && (0.0 <= v < 256.0 ==> x as real <= v < x as real + 1.0)
  }

  /** `a * (1 - t) + b * t` over the reals. */
  function Interp(a: real, b: real, t: real): real {
    a * (1.0 - t) + b * t
  }

  /** One channel of `a * (1 - t) + b * t`, cast back with `as u8`. */
  function BlendChannel(a: Byte, b: Byte, t: real): (x: Byte)
    ensures 0.0 <= t <= 1.0 ==> ChannelBetween(x, a, b)
    ensures 0.0 <= t <= 1.0 ==> Truncates(x, Interp(a as real, b as real, t))
    ensures t == 0.0 ==> x == a
    ensures t == 1.0 ==> x == b
  {
    BlendFacts(a, b, t);
    SatU8(Interp(a as real, b as real, t))
  }

  lemma BlendFacts(a: Byte, b: Byte, t: real)
    ensures var x := SatU8(Interp(a as real, b as real, t));
      && (0.0 <= t <= 1.0 ==> ChannelBetween(x, a, b))
      && (0.0 <= t <= 1.0 ==> Truncates(x, Interp(a as real, b as real, t)))
      && (t == 0.0 ==> x == a)
      && (t == 1.0 ==> x == b)
  {
    if 0.0 <= t <= 1.0 {
      BlendBetween(a, b, t);
      BlendRange(a, b, t);
    }
    EndPoints(a as real, b as real);
    SatU8OfByte(a);
    SatU8OfByte(b);
  }

  lemma EndPoints(p: real, q: real)
    ensures Interp(p, q, 0.0) == p && Interp(p, q, 1.0) == q
  {
  }

  lemma BlendBetween(a: Byte, b: Byte, t: real)
    requires 0.0 <= t <= 1.0
    ensures ChannelBetween(SatU8(Interp(a as real, b as real, t)), a, b)
  {
    Interpolate(a as real, b as real, t);
    SaturatedBetween(Interp(a as real, b as real, t), a, b);
  }

  /** A convex combination of two reals lies between them. */
  lemma Interpolate(p: real, q: real, t: real)
    requires 0.0 <= t <= 1.0
    ensures Min(p, q) <= Interp(p, q, t) <= Max(p, q)
  {
    assert Interp(p, q, t) == p + (q - p) * t;
    if p <= q {
      MulNonneg(q - p, t);
      MulNonneg(q - p, 1.0 - t);
    } else {
      MulNonneg(p - q, t);
      MulNonneg(p - q, 1.0 - t);
    }
  }

  /** A value between two bytes casts to a byte between them. */
  lemma SaturatedBetween(v: real, a: Byte, b: Byte)
    requires Min(a as real, b as real) <= v <= Max(a as real, b as real)
    ensures ChannelBetween(SatU8(v), a, b)
  {
    var lo, hi := MinInt(a, b), MaxInt(a, b);
    SatU8Monotone(lo as real, v);
    SatU8Monotone(v, hi as real);
    SatU8OfByte(lo);
    SatU8OfByte(hi);
  }

  /** A blend of two channel values with a factor in [0, 1] lies in [0, 255]. */
  lemma BlendRange(a: Byte, b: Byte, t: real)
    requires 0.0 <= t <= 1.0
    ensures 0.0 <= Interp(a as real, b as real, t) <= 255.0
  {
    Interpolate(a as real, b as real, t);
  }

  /**
    The blend every shader layer writes inline: each channel of
    `a * (1 - t) + b * t`, cast with `as u8`. The factor is not clamped.
   */
  function Mix(a: Color, b: Color, t: real): (c: Color)
    ensures 0.0 <= t <= 1.0 ==> Between(c, a, b)
    ensures t == 0.0 ==> c == a
    ensures t == 1.0 ==> c == b
  {
    Color(BlendChannel(a.r, b.r, t), BlendChannel(a.g, b.g, t), BlendChannel(a.b, b.b, t))
  }

  /** `Color::lerp`: the factor is clamped to [0, 1] first, then each channel is blended and cast. */
  function Lerp(a: Color, b: Color, t: real): (c: Color)
    ensures t <= 0.0 ==> c == a
    ensures 1.0 <= t ==> c == b
    ensures Between(c, a, b)
  {
    Mix(a, b, Clamp(t, 0.0, 1.0))
  }

  /** x is v rounded toward zero. */
  predicate Truncates(x: Byte, v: real) {
    x as real <= v < x as real + 1.0
  }

  /** Halfway from black to white truncates 127.5 to 127. */
  lemma LerpMidGrey()
    ensures Lerp(Black, White, 0.5) == Color(127, 127, 127)
  {
    assert BlendChannel(0, 255, 0.5) == SatU8(127.5) == 127;
  }

  /** `.min(255.0) as u8`: the cap and the saturating cast together. */
  function Cap(v: real): (y: Byte)
    ensures Saturated(y, v)
  {
    SatU8Saturates(v);
    SatU8(Min(v, 255.0))
  }

  /**
    `Color::scale`: each channel times the factor, capped at 255 by `min`,
    then cast with `as u8` (which also sends negative products to 0).
   */
  function Scale(c: Color, factor: real): (s: Color)
    ensures factor <= 0.0 ==> s == Black
    ensures factor == 1.0 ==> s == c
    ensures 0.0 <= factor <= 1.0 ==> AtMost(s, c)
  {
    Color(ScaleByte(c.r, factor), ScaleByte(c.g, factor), ScaleByte(c.b, factor))
  }

  /** One channel of `scale`. */
  function ScaleByte(x: Byte, factor: real): (y: Byte)
    ensures Saturated(y, x as real * factor)
    ensures factor <= 0.0 ==> y == 0
    ensures factor == 1.0 ==> y == x
    ensures 0.0 <= factor <= 1.0 ==> y <= x
  {
    ScaleFacts(x, factor);
    Cap(x as real * factor)
  }

  lemma ScaleFacts(x: Byte, factor: real)
    ensures var y := Cap(x as real * factor);
      && (factor <= 0.0 ==> y == 0)
      && (factor == 1.0 ==> y == x)
      && (0.0 <= factor <= 1.0 ==> y <= x)
  {
    var v := x as real * factor;
    if factor <= 0.0 {
      MulNonneg(x as real, -factor);
    } else if factor <= 1.0 {
      MulAtMost(x as real, factor);
      CapAtMost(v, x);
    }
  }

  lemma CapAtMost(v: real, x: Byte)
    requires v <= x as real
    ensures Cap(v) <= x
  {
    SatU8Saturates(v);
    SatU8Monotone(v, x as real);
    SatU8OfByte(x);
  }

  /** A larger factor never darkens a channel. */
  lemma ScaleMonotone(c: Color, f1: real, f2: real)
    requires f1 <= f2
    ensures AtMost(Scale(c, f1), Scale(c, f2))
  {
    ScaleByteMonotone(c.r, f1, f2);
    ScaleByteMonotone(c.g, f1, f2);
    ScaleByteMonotone(c.b, f1, f2);
  }

  lemma ScaleByteMonotone(x: Byte, f1: real, f2: real)
    requires f1 <= f2
    ensures ScaleByte(x, f1) <= ScaleByte(x, f2)
  {
    var v1, v2 := x as real * f1, x as real * f2;
    assert v1 <= v2 by { MulNonneg(x as real, f2 - f1); }
    assert ScaleByte(x, f1) == SatU8(v1) by { SatU8Saturates(v1); }
    assert ScaleByte(x, f2) == SatU8(v2) by { SatU8Saturates(v2); }
    SatU8Monotone(v1, v2);
  }
}
