/**
  The value-noise functions: a sine/fract hash of a point, its fractal sum
  over octaves, and the four compositions the planet shaders sample.
 */
module Noise {
  import opened Numeric
  import opened Vectors
  import opened Transcendental

  /** `fract(sin(p · (127.1, 311.7, 74.7)) * 43758.5453)` with Rust's signed `fract`. */
  function Hash(m: Math, p: Vec3): (h: real)
    ensures -1.0 < h < 1.0
    ensures 0.0 <= m.sin(p.x * 127.1 + p.y * 311.7 + p.z * 74.7) ==> 0.0 <= h
  {
    var s := m.sin(p.x * 127.1 + p.y * 311.7 + p.z * 74.7);
    assert 0.0 <= s ==> 0.0 <= s * 43758.5453;
    Fract(s * 43758.5453)
  }

  /**
    `noise_3d`: `|2 * hash - 1|`. Because the hash lies in (-1, 1) and not in
    [0, 1), the noise lies in [0, 3); it exceeds 1 exactly when the hash is negative.
   */
  function Noise3D(m: Math, p: Vec3): (n: real)
    ensures 0.0 <= n < 3.0
    ensures n <= 1.0 <==> 0.0 <= Hash(m, p)
  {
    Abs(Hash(m, p) * 2.0 - 1.0)
  }

  /**
    Wherever the sine of the point's dot product is -0.5 (the sine takes
    that value at infinitely many arguments), the product is -21879.27265,
    its signed `fract` is negative and the noise is 1.5453, above the
    [0, 1] the name suggests.
   */
  lemma NoiseAboveOne(m: Math, p: Vec3)
    requires m.sin(p.x * 127.1 + p.y * 311.7 + p.z * 74.7) == -0.5
    ensures Noise3D(m, p) > 1.0
  {
    assert Hash(m, p) == Fract(-21879.27265);
    assert Trunc(-21879.27265) == -21879;
  }

  /** At the origin, where the sine is 0, the hash is 0 and the noise is exactly 1. */
  lemma NoiseAtOrigin(m: Math)
    requires m.sin(0.0) == 0.0
    ensures Noise3D(m, Origin) == 1.0
  {
    assert Origin.x * 127.1 + Origin.y * 311.7 + Origin.z * 74.7 == 0.0;
  }

  /** Octave i of the fractal sum: noise at p · 4^i, weighted by 0.5^i. */
  function Octave(m: Math, p: Vec3, i: nat): (o: real)
    ensures 0.0 <= o
  {
    MulNonneg(Noise3D(m, Scaled(p, Pow(4.0, i))), Pow(0.5, i));
    Noise3D(m, Scaled(p, Pow(4.0, i))) * Pow(0.5, i)
  }

  /** The first n octaves added up. */
  function Partial(m: Math, p: Vec3, n: nat): (s: real)
    ensures 0.0 <= s
  {
    if n == 0 then 0.0 else Partial(m, p, n - 1) + Octave(m, p, n - 1)
  }

  /**
    `fractal_noise`: the octave sum clamped to [0, 1]; an empty loop
    (`octaves <= 0`) leaves the sum at 0.
   */
  function FractalNoise(m: Math, p: Vec3, octaves: int): (r: real)
    ensures 0.0 <= r <= 1.0
    ensures octaves <= 0 ==> r == 0.0
  {
    Clamp(if octaves <= 0 then 0.0 else Partial(m, p, octaves), 0.0, 1.0)
  }

  /**
    The loop of `fractal_noise` as written: the point and the frequency both
    double on every pass and the amplitude halves. It computes the octave sum
    of `FractalNoise`, which places octave i at p · 4^i with weight 0.5^i.
   */
  method FractalNoiseLoop(m: Math, p0: Vec3, octaves: int) returns (r: real)
    ensures r == FractalNoise(m, p0, octaves)
  {
    var value, amplitude, frequency, p := 0.0, 1.0, 1.0, p0;
    var n := if octaves <= 0 then 0 else octaves;
    var i := 0;
    while i < n
      invariant 0 <= i <= n
      invariant p == Scaled(p0, Pow(2.0, i))
      invariant frequency == Pow(2.0, i) && amplitude == Pow(0.5, i)
      invariant value == Partial(m, p0, i)
    {
      value, amplitude, frequency, p := Pass(m, p0, i, value, amplitude, frequency, p);
      i := i + 1;
    }
    r := Clamp(value, 0.0, 1.0);
  }

  /** One pass of the loop of `fractal_noise`: it adds octave i and moves on to octave i + 1. */
  method Pass(m: Math, p0: Vec3, i: nat, value: real, amplitude: real, frequency: real, p: Vec3)
    returns (value': real, amplitude': real, frequency': real, p': Vec3)
    requires p == Scaled(p0, Pow(2.0, i))
    requires frequency == Pow(2.0, i) && amplitude == Pow(0.5, i)
    requires value == Partial(m, p0, i)
    ensures p' == Scaled(p0, Pow(2.0, i + 1))
    ensures frequency' == Pow(2.0, i + 1) && amplitude' == Pow(0.5, i + 1)
    ensures value' == Partial(m, p0, i + 1)
  {
    OctaveStep(p0, i);
    var octave := Noise3D(m, Scaled(p, frequency)) * amplitude;
    OctaveAt(m, p0, i, Scaled(p, frequency), amplitude);
    value' := value + octave;
    frequency' := frequency * 2.0;
    amplitude' := amplitude * 0.5;
    p' := Scaled(p, 2.0);
  }

  /** One pass of the loop: sampling at the doubled point times the doubled frequency is sampling at 4^i. */
  lemma OctaveStep(p0: Vec3, i: nat)
    ensures Scaled(Scaled(p0, Pow(2.0, i)), Pow(2.0, i)) == Scaled(p0, Pow(4.0, i))
    ensures Scaled(Scaled(p0, Pow(2.0, i)), 2.0) == Scaled(p0, Pow(2.0, i + 1))
    ensures Pow(2.0, i) * 2.0 == Pow(2.0, i + 1) && Pow(0.5, i) * 0.5 == Pow(0.5, i + 1)
  {
    ScaledTwice(p0, Pow(2.0, i), Pow(2.0, i));
    PowProduct(2.0, 2.0, i);
    ScaledTwice(p0, Pow(2.0, i), 2.0);
  }

  /** Noise at p0 · 4^i weighted by 0.5^i is octave i. */
  lemma OctaveAt(m: Math, p0: Vec3, i: nat, q: Vec3, weight: real)
    requires q == Scaled(p0, Pow(4.0, i)) && weight == Pow(0.5, i)
    ensures Noise3D(m, q) * weight == Octave(m, p0, i)
  {
  }

  /** With one octave the clamp only caps the raw noise at 1. */
  lemma OneOctave(m: Math, p: Vec3)
    ensures FractalNoise(m, p, 1) == Min(Noise3D(m, p), 1.0)
  {
    assert Scaled(p, Pow(4.0, 0)) == p;
    assert Partial(m, p, 1) == Noise3D(m, p);
  }

  /** `continent_noise`: 0.7 of a two-octave sample plus 0.3 of a three-octave one. */
  function ContinentNoise(m: Math, p: Vec3): (r: real)
    ensures 0.0 <= r <= 1.0
  {
    var large := FractalNoise(m, Scaled(p, 0.6), 2) * 0.7;
    var medium := FractalNoise(m, Scaled(p, 1.2), 3) * 0.3;
    Clamp(large + medium, 0.0, 1.0)
  }

  /** The final clamp of `continent_noise` never bites: the weights 0.7 and 0.3 add up to 1. */
  lemma ContinentClampInert(m: Math, p: Vec3)
    ensures ContinentNoise(m, p)
      == FractalNoise(m, Scaled(p, 0.6), 2) * 0.7 + FractalNoise(m, Scaled(p, 1.2), 3) * 0.3
  {
  }

  /** `cloud_noise`: a four-octave base plus 0.3 of a two-octave detail, drifting with time. */
  function CloudNoise(m: Math, p: Vec3, time: real): (r: real)
    ensures 0.0 <= r <= 1.0
  {
    var moving := Add(p, Vec3(time * 0.02, 0.0, time * 0.01));
    var base := FractalNoise(m, Scaled(moving, 1.5), 4);
    var detail := FractalNoise(m, Scaled(moving, 4.0), 2) * 0.3;
    Clamp(base + detail, 0.0, 1.0)
  }

  /** `sun_noise`: one five-octave sample at an animated point. */
  function SunNoise(m: Math, p: Vec3, time: real): (r: real)
    ensures 0.0 <= r <= 1.0
  {
    var animated := Add(p, Vec3(time * 0.5, time * 0.3, time * 0.2));
    FractalNoise(m, Scaled(animated, 4.0), 5)
  }

  /** `gas_bands`: latitude stripes `sin(8y + 0.2t) / 2 + 1/2` plus 0.3 of a turbulence sample. */
  function GasBands(m: Math, p: Vec3, time: real): (r: real)
    ensures 0.0 <= r <= 1.0
  {
    var bands := m.sin(p.y * 8.0 + time * 0.2) * 0.5 + 0.5;
    var turbulence := FractalNoise(m, Add(Scaled(p, 2.0), Vec3(time * 0.1, 0.0, 0.0)), 3);
    Clamp(bands + turbulence * 0.3, 0.0, 1.0)
  }

  /** For a valid sine the stripes alone lie in [0, 1], so the bands clamp only caps the turbulence. */
  lemma GasBandsStripes(m: Math, p: Vec3, time: real)
    requires Valid(m)
    ensures 0.0 <= m.sin(p.y * 8.0 + time * 0.2) * 0.5 + 0.5 <= 1.0
    ensures m.sin(p.y * 8.0 + time * 0.2) * 0.5 + 0.5 <= GasBands(m, p, time)
  {
  }
}
