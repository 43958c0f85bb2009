/**
  The starfield backdrop: the direction-to-pixel map with its clamp, the
  brightness a star draws from its hash, and the packing of a star's colour
  into a 24-bit framebuffer value.
 */
module Skybox {
  import opened Numeric
  import opened Vectors
  import opened Transcendental
  import opened Colors
  import opened Hashing

  /**
    `direction_to_pixel`: latitude and longitude of the direction become
    texture coordinates, truncated toward zero by `as i32`, then clamped to
    the screen. `clamp(0, width as i32 - 1)` panics unless the screen is at
    least one pixel wide, hence the precondition.
   */
  function DirectionToPixel(m: Math, dir: Vec3, width: real, height: real): (p: (int, int))
    requires 1 <= Trunc(width) && 1 <= Trunc(height)
    ensures 0 <= p.0 <= Trunc(width) - 1 && 0 <= p.1 <= Trunc(height) - 1
    ensures var x := Trunc((m.atan2(dir.z, dir.x) + Pi) / (2.0 * Pi) * width);
      && (0 <= x <= Trunc(width) - 1 ==> p.0 == x)
      && (x < 0 ==> p.0 == 0)
      && (Trunc(width) - 1 < x ==> p.0 == Trunc(width) - 1)
    ensures var y := Trunc((1.0 - (m.asin(dir.y) + Pi / 2.0) / Pi) * height);
      && (0 <= y <= Trunc(height) - 1 ==> p.1 == y)
      && (y < 0 ==> p.1 == 0)
      && (Trunc(height) - 1 < y ==> p.1 == Trunc(height) - 1)
  {
    var phi := m.asin(dir.y);
    var theta := m.atan2(dir.z, dir.x);
    var u := (theta + Pi) / (2.0 * Pi);
    var v := (phi + Pi / 2.0) / Pi;
    (ClampInt(Trunc(u * width), 0, Trunc(width) - 1), ClampInt(Trunc((1.0 - v) * height), 0, Trunc(height) - 1))
  }

  /** `u32::MAX`. */
  const MaxWord: real := 4294967295.0

  /**
    A star's brightness `(hash3 / u32::MAX) * 0.8 + 0.2`, scaled to a byte by
    `(brightness * 255.0) as u8`: never darker than 51.
   */
  function StarBrightness(hash3: U32): (b: Byte)
    ensures 51 <= b
    ensures hash3 == 0xFFFF_FFFF ==> b == 255
  {
    var t := hash3 as real / MaxWord;
    assert 0.0 <= t <= 1.0 by { DivAtMostOne(hash3 as real, MaxWord); }
    var v := (t * 0.8 + 0.2) * 255.0;
    SatU8Monotone(51.0, v);
    SatU8OfByte(51);
    SatU8(v)
  }

  lemma DivAtMostOne(a: real, d: real)
    requires 0.0 <= a <= d && 0.0 < d
    ensures 0.0 <= a / d <= 1.0
  {
  }

  /** The three kinds of star, by `hash4 % 100`: 10 % blue, 10 % red, the rest white. */
  datatype Kind = Blue | Red | WhiteStar

  function KindOf(hash4: U32): (k: Kind)
    ensures k == Blue <==> hash4 % 100 < 10
    ensures k == Red <==> 10 <= hash4 % 100 < 20
  {
    if hash4 % 100 < 10 then Blue else if hash4 % 100 < 20 then Red else WhiteStar
  }

  /** `if hash4 % 100 < 5 { 2 } else { 1 }`: the side of a star's square in pixels. */
  function StarSize(hash4: U32): (n: nat)
    ensures n == 1 || n == 2
    ensures n == 2 ==> KindOf(hash4) == Blue
  {
    if hash4 % 100 < 5 then 2 else 1
  }

  /**
    The blue-star channels exactly as the code computes them:
    `150 + b / 2` and `180 + b / 3` are `u8` additions, which overflow
    (a panic in a debug build) unless b is at most 211. The precondition
    is that domain.
   */
  function BlueStarAsWritten(b: Byte): (hex: U32)
    requires 150 + b / 2 <= 255 && 180 + b / 3 <= 255
    ensures hex / 0x1_0000 == 150 + b / 2
    ensures (hex / 0x100) % 0x100 == 180 + b / 3
    ensures hex % 0x100 == b
  {
    ToHex(Color(150 + b / 2, 180 + b / 3, b))
  }

  /** The overflow-free domain of the blue-star formula is exactly b <= 211. */
  lemma BlueStarDomain(b: Byte)
    ensures 150 + b / 2 <= 255 && 180 + b / 3 <= 255 <==> b <= 211
    ensures 150 + b / 2 > 255 <==> 212 <= b
    ensures 180 + b / 3 > 255 <==> 228 <= b
  {
  }

  /**
    The same formula with the wrapping `u8` addition of a release build:
    the channel falls back by 256.
   */
  function BlueStarWrapping(b: Byte): (hex: U32) {
    ToHex(Color((150 + b / 2) % 256, (180 + b / 3) % 256, b))
  }

  /**
    The brightest hash value gives brightness 255, outside the domain: the
    blue formula overflows there, and a wrapping build paints the brightest
    blue stars almost pure blue, (21, 9, 255), darker in red and green than
    the dimmest blue star. Since `hash` is a permutation, some seed has that
    hash.
   */
  lemma BlueStarOverflowReachable()
    ensures StarBrightness(0xFFFF_FFFF) == 255
    ensures !(150 + 255 / 2 <= 255)
    ensures FromHex(BlueStarWrapping(255)) == Color(21, 9, 255)
  {
    HexRoundTrip(Color(21, 9, 255));
  }

  /** The brightest hash value is the hash of some seed: the one `Unhash` gives. */
  lemma BrightestHashReachable()
    ensures Hash(Unhash(0xFFFF_FFFF)) == 0xFFFF_FFFF
  {
    HashRoundTrip(0xFFFF_FFFF);
  }

  /** The evidently intended blue star: each channel saturates at 255 instead of overflowing. */
  function BlueStar(b: Byte): (c: Color)
    ensures 150 <= c.r && 180 <= c.g && c.b == b
    ensures b <= 211 ==> ToHex(c) == BlueStarAsWritten(b)
  {
    Color(MinInt(150 + b / 2, 255), MinInt(180 + b / 3, 255), b)
  }

  /** A brighter blue star is at least as bright in every channel. */
  lemma BlueStarMonotone(b1: Byte, b2: Byte)
    requires b1 <= b2
    ensures AtMost(BlueStar(b1), BlueStar(b2))
  {
  }

  /** The colour of a star of the given kind and brightness. */
  function StarColor(kind: Kind, b: Byte): (c: Color)
    ensures kind == Blue ==> c == BlueStar(b)
    ensures kind == Red ==> c.r == b && c.g <= c.r && c.b <= c.g
    ensures kind == WhiteStar ==> c.r == b && c.g == b && c.b == b
  {
    match kind
    case Blue => BlueStar(b)
    case Red => Color(b, b / 2, b / 3)
    case WhiteStar => Color(b, b, b)
  }

  /**
    The packed colour a star writes: the corrected blue formula, the red and
    white ones as written; every value fits in 24 bits and its low byte is
    the brightness.
   */
  function StarHex(hash3: U32, hash4: U32): (hex: U32)
    ensures hex < 0x100_0000
    ensures hex % 0x100 == StarBrightness(hash3) || KindOf(hash4) == Red
    ensures FromHex(hex) == StarColor(KindOf(hash4), StarBrightness(hash3))
  {
    HexRoundTrip(StarColor(KindOf(hash4), StarBrightness(hash3)));
    ToHex(StarColor(KindOf(hash4), StarBrightness(hash3)))
  }
}
