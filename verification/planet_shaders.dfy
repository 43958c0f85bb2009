/**
  The eight fragment shaders. Each one computes an unlit surface colour
  as a base colour with a fixed sequence of gated layers over it, then
  lights it. Noise, trigonometry, `normalize` and `powf` come from the
  `Math` bundle, so only their range facts are used.
 */
module PlanetShaders {
  import opened Numeric
  import opened Vectors
  import opened Transcendental
  import opened Colors
  import opened Noise
  import opened Layers
  import opened Lighting

  /** The direction every shader takes as the viewer's. */
  const ViewDir := Vec3(0.0, 0.0, 1.0)

  /** `1 - |n · view|`: 0 where the surface faces the viewer, 1 at the silhouette. */
  function Fresnel(normal: Vec3): (f: real)
    ensures f <= 1.0
    ensures Norm2(normal) <= 1.0 ==> 0.0 <= f
  {
    if Norm2(normal) <= 1.0 then
      ComponentBound(normal);
      1.0 - Abs(Dot(normal, ViewDir))
    else
      1.0 - Abs(Dot(normal, ViewDir))
  }

  /**
    The rim glow `fresnel.powf(exponent) * weight` of the corona and the
    atmospheres: in [0, weight] for a normal of length at most one.
   */
  function Rim(m: Math, normal: Vec3, exponent: real, weight: real): real {
    m.powf(Fresnel(normal), exponent) * weight
  }

  lemma RimBound(m: Math, normal: Vec3, exponent: real, weight: real)
    requires Valid(m) && Norm2(normal) <= 1.0 && 1.0 <= exponent && 0.0 <= weight
    ensures 0.0 <= Rim(m, normal, exponent, weight) <= weight
  {
    var f := Fresnel(normal);
    assert 0.0 <= f <= 1.0;
    var p := m.powf(f, exponent);
    assert 0.0 <= p <= f;
    MulAtMost(weight, p);
    assert Rim(m, normal, exponent, weight) == p * weight;
  }

  /** The diffuse cosine n · normalize(l) that most shaders light with. */
  function Facing(m: Math, normal: Vec3, lightDir: Vec3): real {
    Dot(normal, m.normalize(lightDir))
  }

  // ===== Earth =====

  const Ocean := Color(0, 50, 150)
  const GreenLand := Color(20, 160, 40)
  const BrownLand := Color(220, 150, 60)

  /** Polar ice: only above latitude 0.8, at most 0.9. */
  function EarthIce(latitude: real): (f: real)
    ensures 0.0 <= f <= 0.9
    ensures 0.0 < f <==> 0.8 < latitude
  {
    ClampedRamp(latitude, 0.8, 0.2, 0.9)
  }

  /**
    The trigonometric relief of one continent. X and Z are the point's x and
    z shifted by the continent's offsets; three broad patterns weighted 0.5,
    0.35 and 0.15 are followed by two coast terms and one fine term.
   */
  datatype Relief = Relief(
    ox: real, oz: real,
    a1: real, b1: real,
    y2: real, z2: real, x2: real,
    z3: real, y3: real, x3: real,
    c1x: real, c1z: real, c1w: real,
    c2x: real, c2z: real, c2y: real, c2w: real,
    fx: real, fz: real, fw: real)

  function Density(m: Math, r: Relief, p: Vec3): real {
    var x, z := p.x + r.ox, p.z + r.oz;
    var pattern1 := m.sin(x * r.a1) * m.cos(z * r.b1);
    var pattern2 := m.cos(p.y * r.y2 + z * r.z2) * m.sin(x * r.x2);
    var pattern3 := m.sin(z * r.z3) * m.cos(p.y * r.y3 + x * r.x3);
    var coast1 := m.sin(x * r.c1x) * m.cos(z * r.c1z) * r.c1w;
    var coast2 := m.sin(x * r.c2x + p.z * r.c2z) * m.cos(p.y * r.c2y) * r.c2w;
    var fine := m.sin(x * r.fx) * m.cos(z * r.fz) * r.fw;
    pattern1 * 0.5 + pattern2 * 0.35 + pattern3 * 0.15 + coast1 + coast2 + fine
  }

  /** Continent 1 is the only one whose second coast term also depends on z. */
  const Africa := Relief(0.0, 0.0, 2.0, 1.5, 1.0, 2.5, 1.8, 2.2, 1.5, 1.3,
    8.0, 10.0, 0.2, 12.0, 8.0, 15.0, 0.15, 25.0, 30.0, 0.08)
  const SouthAmerica := Relief(-1.5, 0.8, 2.1, 1.6, 0.9, 2.3, 1.9, 2.4, 1.4, 1.6,
    9.0, 11.0, 0.18, 13.0, 0.0, 16.0, 0.14, 26.0, 31.0, 0.07)
  const NorthAmerica := Relief(0.8, -1.2, 1.9, 1.7, 1.1, 2.1, 2.0, 2.3, 1.6, 1.5,
    8.5, 10.5, 0.19, 12.5, 0.0, 15.5, 0.16, 24.0, 29.0, 0.09)
  const Australia := Relief(1.2, 1.5, 2.2, 1.8, 0.8, 2.4, 1.85, 2.6, 1.3, 1.7,
    9.5, 11.5, 0.17, 13.5, 0.0, 14.5, 0.14, 27.0, 32.0, 0.08)
  const Eurasia := Relief(-0.5, -0.6, 1.95, 1.65, 1.05, 2.15, 2.05, 2.35, 1.55, 1.45,
    8.8, 10.8, 0.185, 12.8, 0.0, 15.8, 0.155, 25.5, 30.5, 0.075)
  const EmptyZone := Relief(0.3, 0.5, 2.15, 1.75, 0.95, 2.35, 1.88, 2.55, 1.35, 1.65,
    9.2, 11.2, 0.175, 13.2, 0.0, 14.8, 0.145, 26.5, 31.5, 0.08)

  function GreenDensity(m: Math, p: Vec3): real {
    Max(Max(Density(m, SouthAmerica, p), Density(m, NorthAmerica, p)), Density(m, Eurasia, p))
  }

  function BrownDensity(m: Math, p: Vec3): real {
    Max(Max(Density(m, Africa, p), Density(m, Australia, p)), Density(m, EmptyZone, p))
  }

  /**
    A continent factor: zero at latitude 0.7 and above (the pole mask) and
    where the density is at most 0.1; otherwise the clamped slope, weighted
    0.95 above 0.2 and 0.65 below.
   */
  function Continent(density: real, latitude: real): (f: real)
    ensures 0.0 <= f <= 0.95
    ensures 0.7 <= latitude ==> f == 0.0
    ensures 0.0 < f <==> 0.1 < density && latitude < 0.7
  {
    var poleMask := if latitude < 0.7 then 1.0 else 0.0;
    if density > 0.10 && poleMask > 0.5 then
      var factor := Clamp((density - 0.10) / 0.90, 0.0, 1.0);
      if factor > 0.2 then factor * 0.95 else factor * 0.65
    else
      0.0
  }

  /**
    The 0.65 branch never reaches the layer's 0.15 gate: a continent is
    drawn exactly where its density exceeds 0.28 away from the poles.
   */
  lemma ContinentDrawn(density: real, latitude: real)
    ensures Continent(density, latitude) > 0.15 <==> 0.28 < density && latitude < 0.7
  {
  }

  function EarthCloud(density: real): (f: real)
    ensures 0.0 <= f <= 0.5
    ensures 0.0 < f <==> 0.6 < density
  {
    ClampedRamp(density, 0.6, 0.4, 0.5)
  }

  /** Ice, green land, brown land and clouds, in that order. */
  function EarthLayers(m: Math, sphere: Vec3, time: real): seq<Layer> {
    var latitude := Abs(sphere.y);
    [ Layer(EarthIce(latitude), White, 0.1),
      Layer(Continent(GreenDensity(m, sphere), latitude), GreenLand, 0.15),
      Layer(Continent(BrownDensity(m, sphere), latitude), BrownLand, 0.15),
      Layer(EarthCloud(CloudNoise(m, sphere, time)), White, 0.15) ]
  }

  function EarthSurface(m: Math, worldPos: Vec3, time: real): Color {
    Composite(Ocean, EarthLayers(m, m.normalize(worldPos), time))
  }

  function EarthShader(m: Math, worldPos: Vec3, normal: Vec3, lightDir: Vec3, time: real): Color {
    Lit(EarthSurface(m, worldPos, time), 0.7, 0.5, 1.0, Facing(m, normal, lightDir))
  }

  /** Every Earth colour lies in the box spanned by ocean, land, ice and cloud colours. */
  lemma EarthInPalette(m: Math, worldPos: Vec3, time: real)
    ensures InBox(EarthSurface(m, worldPos, time), Color(0, 50, 40), White)
  {
    var layers := EarthLayers(m, m.normalize(worldPos), time);
    CompositeInBox(Ocean, layers, Color(0, 50, 40), White);
  }

  /** Near the poles neither land layer is applied, whatever the relief. */
  lemma EarthPolesHaveNoLand(m: Math, worldPos: Vec3, time: real)
    requires 0.7 <= Abs(m.normalize(worldPos).y)
    ensures !Active(EarthLayers(m, m.normalize(worldPos), time)[1])
    ensures !Active(EarthLayers(m, m.normalize(worldPos), time)[2])
  {
  }

  lemma EarthLitDarkens(m: Math, worldPos: Vec3, normal: Vec3, lightDir: Vec3, time: real)
    ensures AtMost(EarthShader(m, worldPos, normal, lightDir, time), EarthSurface(m, worldPos, time))
  {
    LitDarkens(EarthSurface(m, worldPos, time), 0.7, 0.5, Facing(m, normal, lightDir));
  }

  // ===== Sun =====

  const Core := Color(255, 255, 100)
  const Hot := Color(255, 150, 50)
  const Flare := Color(255, 50, 0)
  const SunSpot := Color(150, 80, 20)
  const CoronaColor := Color(255, 200, 100)

  /** Core below 0.3, flare from 0.7, and a blend from core toward hot in between. */
  function SunBase(turbulence: real): (c: Color)
    ensures turbulence < 0.3 ==> c == Core
    ensures 0.7 <= turbulence ==> c == Flare
    ensures 0.3 <= turbulence < 0.7 ==> Between(c, Core, Hot)
  {
    if turbulence < 0.3 then Core
    else if turbulence < 0.7 then Mix(Core, Hot, (turbulence - 0.3) / 0.4)
    else Flare
  }

  /** Sunspots only where the spot noise exceeds 0.8, with weight at most 0.5. */
  function SunSpotFactor(n: real): (f: real)
    ensures 0.0 <= f
    ensures 0.0 < f <==> 0.8 < n
    ensures n <= 1.0 ==> f <= 0.5
  {
    Ramp(n, 0.8, 0.2, 0.5)
  }

  function SunSurface(m: Math, worldPos: Vec3, time: real): Color {
    var spots := SunSpotFactor(FractalNoise(m, Scaled(worldPos, 1.5), 3));
    Apply(SunBase(SunNoise(m, worldPos, time)), Layer(spots, SunSpot, 0.0))
  }

  /** The corona is added, never blended: a positive factor only brightens, capped at 255. */
  function WithCorona(c: Color, factor: real): (d: Color)
    ensures AtMost(c, d)
    ensures factor <= 0.0 ==> d == c
  {
    if factor > 0.0 then Glow(c, CoronaColor, factor) else c
  }

  /** `sin(3t) * 0.1 + 0.9`, which stays in [0.8, 1]. */
  function Pulse(m: Math, time: real): real {
    m.sin(time * 3.0) * 0.1 + 0.9
  }

  lemma PulseRange(m: Math, time: real)
    requires Valid(m)
    ensures 0.8 <= Pulse(m, time) <= 1.0
  {
  }

  /** The sun has no diffuse term: the light direction is not used. */
  function SunShader(m: Math, worldPos: Vec3, normal: Vec3, lightDir: Vec3, time: real): Color {
    Scale(WithCorona(SunSurface(m, worldPos, time), Rim(m, normal, 2.0, 0.6)), Pulse(m, time))
  }

  /** The pulse only dims the glowing surface. */
  lemma SunPulseDims(m: Math, worldPos: Vec3, normal: Vec3, lightDir: Vec3, time: real)
    requires Valid(m)
    ensures AtMost(SunShader(m, worldPos, normal, lightDir, time),
                   WithCorona(SunSurface(m, worldPos, time), Rim(m, normal, 2.0, 0.6)))
  {
  }

  /** Before the corona, the sun stays between its spot colour and its core colour. */
  lemma SunInPalette(m: Math, worldPos: Vec3, time: real)
    ensures InBox(SunSurface(m, worldPos, time), Color(150, 50, 0), Color(255, 255, 100))
  {
    var lo, hi := Color(150, 50, 0), Color(255, 255, 100);
    var base := SunBase(SunNoise(m, worldPos, time));
    assert InBox(base, lo, hi);
    CompositeInBox(base, [Layer(SunSpotFactor(FractalNoise(m, Scaled(worldPos, 1.5), 3)), SunSpot, 0.0)], lo, hi);
  }

  // ===== Gas giant =====

  const Band1 := Color(200, 150, 100)
  const Band2 := Color(150, 100, 80)
  const Band3 := Color(100, 80, 120)
  const StormColor := Color(220, 200, 180)
  const RedSpot := Color(180, 80, 60)
  const GasHaze := Color(200, 180, 160)
  const GreatSpotCenter := Vec3(0.3, 0.0, 0.0)

  /** The base is exactly one of the three band colours, split at 0.33 and 0.66. */
  function BandColor(pattern: real): (c: Color)
    ensures c == Band1 <==> pattern < 0.33
    ensures c == Band2 <==> 0.33 <= pattern < 0.66
    ensures c == Band3 <==> 0.66 <= pattern
  {
    if pattern < 0.33 then Band1 else if pattern < 0.66 then Band2 else Band3
  }

  function Storm(turbulence: real): (f: real)
    ensures 0.0 <= f
    ensures 0.0 < f <==> 0.7 < turbulence
    ensures turbulence <= 1.0 ==> f <= 0.4
  {
    Ramp(turbulence, 0.7, 0.3, 0.4)
  }

  /** The great spot reaches only points within 0.3 of (0.3, 0, 0). */
  function GreatSpot(m: Math, p: Vec3): (f: real)
    ensures 0.0 <= f
    ensures 0.0 < f <==> Distance(m, p, GreatSpotCenter) < 0.3
  {
    Radial(Distance(m, p, GreatSpotCenter), 0.3, 0.7)
  }

  /** With a true square root the spot covers exactly the ball of radius 0.3 around its centre. */
  lemma GreatSpotReach(m: Math, p: Vec3)
    requires Valid(m)
    ensures GreatSpot(m, p) <= 0.7
    ensures 0.0 < GreatSpot(m, p) ==> Norm2(Sub(p, GreatSpotCenter)) < 0.09
  {
    if 0.0 < GreatSpot(m, p) {
      DistanceBelow(m, p, GreatSpotCenter, 0.3);
    }
  }

  function GasGiantLayers(m: Math, worldPos: Vec3, normal: Vec3, time: real): seq<Layer> {
    var turbulence := FractalNoise(m, Add(Scaled(worldPos, 2.0), Vec3(time * 0.1, 0.0, 0.0)), 4);
    [ Layer(Storm(turbulence), StormColor, 0.0),
      Layer(GreatSpot(m, worldPos), RedSpot, 0.0),
      Layer(Rim(m, normal, 4.0, 0.3), GasHaze, 0.0) ]
  }

  function GasGiantSurface(m: Math, worldPos: Vec3, normal: Vec3, time: real): Color {
    Composite(BandColor(GasBands(m, worldPos, time)), GasGiantLayers(m, worldPos, normal, time))
  }

  /** The gas giant lights with the light direction as given, without normalising it. */
  function GasGiantShader(m: Math, worldPos: Vec3, normal: Vec3, lightDir: Vec3, time: real): Color {
    Lit(GasGiantSurface(m, worldPos, normal, time), 0.8, 0.3, 1.0, Dot(normal, lightDir))
  }

  lemma GasGiantInPalette(m: Math, worldPos: Vec3, normal: Vec3, time: real)
    requires Valid(m) && Norm2(normal) <= 1.0
    ensures InBox(GasGiantSurface(m, worldPos, normal, time), Color(100, 80, 60), Color(220, 200, 180))
  {
    var layers := GasGiantLayers(m, worldPos, normal, time);
    CompositeInBox(BandColor(GasBands(m, worldPos, time)), layers, Color(100, 80, 60), Color(220, 200, 180));
  }

  lemma GasGiantLitDarkens(m: Math, worldPos: Vec3, normal: Vec3, lightDir: Vec3, time: real)
    ensures AtMost(GasGiantShader(m, worldPos, normal, lightDir, time), GasGiantSurface(m, worldPos, normal, time))
  {
    LitDarkens(GasGiantSurface(m, worldPos, normal, time), 0.8, 0.3, Dot(normal, lightDir));
  }

  // ===== Mars =====

  const BaseRed := Color(193, 68, 14)
  const OrangeTint := Color(220, 100, 40)
  const MarsIceColor := Color(245, 240, 235)
  const MarsCraterColor := Color(120, 50, 30)
  const CanyonColor := Color(140, 55, 25)
  const Basalt := Color(100, 45, 25)
  const DuneColor := Color(210, 95, 35)
  const DustColor := Color(210, 120, 70)

  /** The orange tint: present exactly where the variation noise exceeds 0.5, limited to 0.4. */
  function Variation(n: real): (f: real)
    ensures 0.0 <= f <= 0.4
    ensures 0.0 < f <==> 0.5 < n
  {
    if n > 0.5 then Min((n - 0.5) * 2.0, 0.4) else 0.0
  }

  function MarsIce(latitude: real): (f: real)
    ensures 0.0 <= f <= 0.85
    ensures 0.0 < f <==> 0.75 < latitude
  {
    ClampedRamp(latitude, 0.75, 0.25, 0.85)
  }

  /** Canyons only near the equator: zero wherever the latitude is 0.4 or more. */
  function Canyon(n: real, latitude: real): (f: real)
    ensures 0.0 <= f
    ensures 0.4 <= latitude ==> f == 0.0
    ensures 0.0 < f <==> 0.65 < n && latitude < 0.4
    ensures n <= 1.0 ==> f <= 0.4
  {
    var mask := if latitude < 0.4 then 1.0 else 0.0;
    if n > 0.65 && mask > 0.5 then Ramp(n, 0.65, 0.35, 0.4) else 0.0
  }

  /** Volcanic regions never form under ice: zero wherever the ice factor is at least 0.1. */
  function Volcanic(n: real, detail: real, ice: real): (f: real)
    ensures 0.0 <= f
    ensures 0.1 <= ice ==> f == 0.0
    ensures 0.0 < f <==> 0.6 < n && 0.55 < detail && ice < 0.1
    ensures n <= 1.0 && detail <= 1.0 ==> f <= 0.5
  {
    if n > 0.6 && detail > 0.55 && ice < 0.1 then Joint(n, 0.6, 0.4, detail, 0.55, 0.45, 0.5) else 0.0
  }

  /** Variation, ice, craters, canyons, volcanic basalt, dunes and dust, in that order. */
  function MarsLayers(m: Math, sphere: Vec3, time: real): seq<Layer> {
    var latitude := Abs(sphere.y);
    var ice := MarsIce(latitude);
    var crater := Joint(FractalNoise(m, Scaled(sphere, 8.0), 3), 0.8, 0.2,
      FractalNoise(m, Add(Scaled(sphere, 12.0), Vec3(100.0, 100.0, 100.0)), 2), 0.75, 0.25, 0.35);
    var volcanic := Volcanic(FractalNoise(m, Scaled(sphere, 2.5), 4),
      FractalNoise(m, Add(Scaled(sphere, 5.0), Vec3(50.0, 50.0, 50.0)), 2), ice);
    var dust := FractalNoise(m, Add(Scaled(sphere, 1.5), Vec3(time * 0.03, 0.0, time * 0.02)), 4);
    [ Layer(Variation(FractalNoise(m, Scaled(sphere, 1.5), 3)), OrangeTint, 0.0),
      Layer(ice, MarsIceColor, 0.1),
      Layer(crater, MarsCraterColor, 0.05),
      Layer(Canyon(FractalNoise(m, Scaled(sphere, 3.0), 4), latitude), CanyonColor, 0.1),
      Layer(volcanic, Basalt, 0.15),
      Layer(Ramp(FractalNoise(m, Scaled(sphere, 15.0), 3), 0.7, 0.3, 0.2), DuneColor, 0.05),
      Layer(Ramp(dust, 0.75, 0.25, 0.2), DustColor, 0.08) ]
  }

  function MarsSurface(m: Math, worldPos: Vec3, time: real): Color {
    Composite(BaseRed, MarsLayers(m, m.normalize(worldPos), time))
  }

  function MarsShader(m: Math, worldPos: Vec3, normal: Vec3, lightDir: Vec3, time: real): Color {
    Lit(MarsSurface(m, worldPos, time), 0.75, 0.35, 1.0, Facing(m, normal, lightDir))
  }

  lemma MarsInPalette(m: Math, worldPos: Vec3, time: real)
    ensures InBox(MarsSurface(m, worldPos, time), Color(100, 45, 14), Color(245, 240, 235))
  {
    var layers := MarsLayers(m, m.normalize(worldPos), time);
    CompositeInBox(BaseRed, layers, Color(100, 45, 14), Color(245, 240, 235));
  }

  lemma MarsLitDarkens(m: Math, worldPos: Vec3, normal: Vec3, lightDir: Vec3, time: real)
    ensures AtMost(MarsShader(m, worldPos, normal, lightDir, time), MarsSurface(m, worldPos, time))
  {
    LitDarkens(MarsSurface(m, worldPos, time), 0.75, 0.35, Facing(m, normal, lightDir));
  }

  // ===== Mercury =====

  const DarkBrown := Color(90, 50, 20)
  const OrangeBrown := Color(180, 90, 40)
  const BrightOrange := Color(230, 140, 50)
  const YellowTone := Color(255, 190, 80)
  const MercuryCraterColor := Color(50, 30, 15)

  /**
    The four-tone palette. Each band blends its two tones with the noise
    value itself as the factor, not with the position inside the band.
   */
  function MercuryBase(n: real): (c: Color)
    ensures n < 0.3 ==> c == DarkBrown
    ensures 0.3 <= n < 0.55 ==> Between(c, DarkBrown, OrangeBrown)
    ensures 0.55 <= n < 0.8 ==> Between(c, OrangeBrown, BrightOrange)
    ensures 0.8 <= n <= 1.0 ==> Between(c, BrightOrange, YellowTone)
  {
    if n < 0.3 then DarkBrown
    else if n < 0.55 then Mix(DarkBrown, OrangeBrown, n)
    else if n < 0.8 then Mix(OrangeBrown, BrightOrange, n)
    else Mix(BrightOrange, YellowTone, n)
  }

  function MercuryCrater(n: real): (f: real)
    ensures 0.0 <= f
    ensures 0.0 < f <==> 0.75 < n
    ensures n <= 1.0 ==> f <= 0.75
  {
    if n > 0.75 then (n - 0.75) * 3.0 else 0.0
  }

  function MercuryNoise(m: Math, sphere: Vec3, time: real): (n: real)
    ensures 0.0 <= n <= 1.0
  {
    var base := FractalNoise(m, Scaled(sphere, 1.5), 5);
    var detail := FractalNoise(m, Add(Scaled(sphere, 10.0), Vec3(time * 0.05, 0.0, 0.0)), 3);
    Clamp(base * 0.7 + detail * 0.3, 0.0, 1.0)
  }

  /** The crater blend is applied unconditionally. */
  function MercurySurface(m: Math, worldPos: Vec3, time: real): Color {
    var sphere := m.normalize(worldPos);
    Mix(MercuryBase(MercuryNoise(m, sphere, time)), MercuryCraterColor,
      MercuryCrater(FractalNoise(m, Scaled(sphere, 20.0), 4)))
  }

  /** Without a gate the crater blend still behaves as a layer gated at 0: a zero factor is an exact no-op. */
  lemma MercuryCraterUngated(c: Color, n: real)
    ensures Mix(c, MercuryCraterColor, MercuryCrater(n)) == Apply(c, Layer(MercuryCrater(n), MercuryCraterColor, 0.0))
  {
  }

  function MercuryShader(m: Math, worldPos: Vec3, normal: Vec3, lightDir: Vec3, time: real): Color {
    Lit(MercurySurface(m, worldPos, time), 0.85, 0.25, 1.0, Dot(normal, lightDir))
  }

  lemma MercuryInPalette(m: Math, worldPos: Vec3, time: real)
    ensures InBox(MercurySurface(m, worldPos, time), MercuryCraterColor, YellowTone)
  {
    var sphere := m.normalize(worldPos);
    var base := MercuryBase(MercuryNoise(m, sphere, time));
    assert InBox(base, MercuryCraterColor, YellowTone);
    var f := MercuryCrater(FractalNoise(m, Scaled(sphere, 20.0), 4));
    BetweenInBox(Mix(base, MercuryCraterColor, f), base, MercuryCraterColor, MercuryCraterColor, YellowTone);
  }

  lemma MercuryLitDarkens(m: Math, worldPos: Vec3, normal: Vec3, lightDir: Vec3, time: real)
    ensures AtMost(MercuryShader(m, worldPos, normal, lightDir, time), MercurySurface(m, worldPos, time))
  {
    LitDarkens(MercurySurface(m, worldPos, time), 0.85, 0.25, Dot(normal, lightDir));
  }

  // ===== Moon =====

  const MareGrey := Color(80, 80, 80)
  const CraterWhite := Color(245, 245, 240)
  const WarmWhite := Color(255, 253, 248)
  const SpecularGlow := Color(20, 20, 20)

  /** A named mare: a dark disc of the given radius and peak weight. */
  datatype Mare = Mare(center: Vec3, radius: real, weight: real)

  const Tranquillitatis := Mare(Vec3(0.3, 0.1, 0.2), 0.15, 0.9)
  const Imbrium := Mare(Vec3(-0.2, 0.05, 0.25), 0.12, 0.85)
  const Serenitatis := Mare(Vec3(0.15, -0.08, 0.3), 0.1, 0.8)
  const Procellarum := Mare(Vec3(-0.35, 0.0, 0.1), 0.2, 0.7)

  function MareFactor(m: Math, sphere: Vec3, mare: Mare): (f: real)
    requires 0.0 < mare.radius && 0.0 < mare.weight
    ensures 0.0 <= f
  {
    Radial(Distance(m, sphere, mare.center), mare.radius, mare.weight)
  }

  /** All maria and noise spots together, capped at 1. */
  function TotalDark(m: Math, sphere: Vec3): (f: real)
    ensures 0.0 <= f <= 1.0
  {
    var spot1 := Ramp(FractalNoise(m, Scaled(sphere, 2.0), 4), 0.7, 0.3, 0.6);
    var spot2 := Ramp(FractalNoise(m, Add(Scaled(sphere, 4.0), Vec3(50.0, 0.0, 50.0)), 3), 0.75, 0.25, 0.5);
    var spot3 := Ramp(FractalNoise(m, Add(Scaled(sphere, 8.0), Vec3(100.0, 100.0, 0.0)), 2), 0.8, 0.2, 0.4);
    Min(MareFactor(m, sphere, Tranquillitatis) + MareFactor(m, sphere, Imbrium)
      + MareFactor(m, sphere, Serenitatis) + MareFactor(m, sphere, Procellarum)
      + spot1 + spot2 + spot3, 1.0)
  }

  /** Subtle craters, then the maria, then a warm tone. */
  function MoonLayers(m: Math, sphere: Vec3): seq<Layer> {
    var crater := Joint(FractalNoise(m, Scaled(sphere, 10.0), 3), 0.8, 0.2,
      FractalNoise(m, Add(Scaled(sphere, 20.0), Vec3(200.0, 0.0, 200.0)), 2), 0.7, 0.3, 0.3);
    [ Layer(crater, CraterWhite, 0.05),
      Layer(TotalDark(m, sphere), MareGrey, 0.1),
      Layer(Ramp(FractalNoise(m, Scaled(sphere, 1.5), 2), 0.6, 0.4, 1.0), WarmWhite, 0.0) ]
  }

  function MoonSurface(m: Math, worldPos: Vec3): Color {
    Composite(White, MoonLayers(m, m.normalize(worldPos)))
  }

  /** The high-albedo lighting: diffuse 1.1, ambient 0.6, capped at 1.2 instead of 1. */
  function MoonLit(m: Math, worldPos: Vec3, normal: Vec3, lightDir: Vec3): Color {
    Lit(MoonSurface(m, worldPos), 1.1, 0.6, 1.2, Facing(m, normal, lightDir))
  }

  /** `max(n · h, 0)^32 * 0.3` for the half vector between the light and the viewer. */
  function Specular(m: Math, normal: Vec3, lightDir: Vec3): real {
    var half := m.normalize(Add(m.normalize(lightDir), ViewDir));
    m.powf(Max(Dot(normal, half), 0.0), 32.0) * 0.3
  }

  lemma SpecularBound(m: Math, normal: Vec3, lightDir: Vec3)
    requires Valid(m) && Norm2(normal) <= 1.0
    ensures 0.0 <= Specular(m, normal, lightDir) <= 0.3
  {
    var half := m.normalize(Add(m.normalize(lightDir), ViewDir));
    DotBound(normal, half);
    MulAtMost(0.3, m.powf(Max(Dot(normal, half), 0.0), 32.0));
  }

  function MoonShader(m: Math, worldPos: Vec3, normal: Vec3, lightDir: Vec3, time: real): Color {
    var lit := MoonLit(m, worldPos, normal, lightDir);
    var s := Specular(m, normal, lightDir);
    if s > 0.1 then Glow(lit, SpecularGlow, s) else lit
  }

  /**
    The highlight only appears where the specular term exceeds 0.1, and it
    adds at most 20 * 0.3 = 6 to a channel.
   */
  lemma MoonSpecularBound(m: Math, worldPos: Vec3, normal: Vec3, lightDir: Vec3, time: real)
    requires Valid(m) && Norm2(normal) <= 1.0
    ensures var lit, c := MoonLit(m, worldPos, normal, lightDir), MoonShader(m, worldPos, normal, lightDir, time);
      && AtMost(lit, c)
      && c.r <= lit.r + 6 && c.g <= lit.g + 6 && c.b <= lit.b + 6
      && (Specular(m, normal, lightDir) <= 0.1 ==> c == lit)
  {
    var lit := MoonLit(m, worldPos, normal, lightDir);
    var s := Specular(m, normal, lightDir);
    SpecularBound(m, normal, lightDir);
    if s > 0.1 {
      SpecularByte(lit.r, s);
      SpecularByte(lit.g, s);
      SpecularByte(lit.b, s);
    }
  }

  lemma SpecularByte(x: Byte, s: real)
    requires 0.0 <= s <= 0.3
    ensures x <= GlowByte(x, 20, s) <= x + 6
  {
  }

  lemma MoonInPalette(m: Math, worldPos: Vec3)
    ensures InBox(MoonSurface(m, worldPos), MareGrey, White)
  {
    CompositeInBox(White, MoonLayers(m, m.normalize(worldPos)), MareGrey, White);
  }

  // ===== Neptune =====

  const DeepBlue := Color(30, 60, 150)
  const BrightBlue := Color(80, 120, 220)
  const MethaneBlue := Color(40, 100, 200)
  const DarkSpotColor := Color(20, 40, 100)
  const WhiteCloud := Color(200, 220, 255)
  const SwirlColor := Color(60, 90, 180)
  const RingColor := Color(70, 100, 180)
  const NeptuneHaze := Color(100, 150, 255)
  const DarkSpotCenter := Vec3(0.4, 0.2, 0.0)

  /** Stripes masked to the equator: nothing at |latitude| of 0.5 or more, never above 0.7. */
  function BandIntensity(m: Math, latitude: real, time: real): (f: real)
    ensures 0.5 <= Abs(latitude) ==> f == 0.0
  {
    var pattern := m.sin(latitude * 12.0 + time * 0.1) * 0.5 + 0.5;
    pattern * Max(1.0 - Abs(latitude) * 2.0, 0.0) * 0.7
  }

  lemma BandIntensityRange(m: Math, latitude: real, time: real)
    requires Valid(m)
    ensures 0.0 <= BandIntensity(m, latitude, time) <= 0.7
  {
    var pattern := m.sin(latitude * 12.0 + time * 0.1) * 0.5 + 0.5;
    var mask := Max(1.0 - Abs(latitude) * 2.0, 0.0);
    MulAtMost(pattern, mask);
    MulAtMost(0.7, pattern * mask);
  }

  /** Methane clouds blend in only above 0.2, and then by at most 0.25. */
  function MethaneBlend(detail1: real, detail2: real): (f: real)
    ensures 0.0 <= f
    ensures 0.0 <= detail1 <= 1.0 && 0.0 <= detail2 <= 1.0 ==> f <= 0.25
  {
    var methane := (detail1 * 0.7 + detail2 * 0.3) * 0.4;
    Ramp(methane, 0.2, 0.8, 1.0)
  }

  /** The faint ring band: only within 1/8 of the equator, never above 0.15. */
  function RingFactor(m: Math, sphere: Vec3, time: real): real {
    var mask := m.powf(Max(1.0 - Abs(sphere.y) * 8.0, 0.0), 2.0);
    mask * Abs(m.sin(sphere.x * 20.0 + time * 0.1)) * 0.15
  }

  lemma RingReach(m: Math, sphere: Vec3, time: real)
    requires Valid(m)
    ensures 0.0 <= RingFactor(m, sphere, time) <= 0.15
    ensures 0.0 < RingFactor(m, sphere, time) ==> Abs(sphere.y) < 0.125
  {
    var base := Max(1.0 - Abs(sphere.y) * 8.0, 0.0);
    var mask := m.powf(base, 2.0);
    var pattern := Abs(m.sin(sphere.x * 20.0 + time * 0.1));
    MulAtMost(mask, pattern);
    MulAtMost(0.15, mask * pattern);
  }

  /** Bands, methane, the dark spot, white clouds, swirls, the ring and the atmosphere, in that order. */
  function NeptuneLayers(m: Math, sphere: Vec3, normal: Vec3, time: real): seq<Layer> {
    var storm1 := FractalNoise(m, Add(Scaled(sphere, 3.0), Vec3(time * 0.05, 0.0, 0.0)), 4);
    var storm2 := FractalNoise(m, Add(Scaled(sphere, 8.0), Vec3(0.0, time * 0.03, 0.0)), 3);
    var cloud1 := FractalNoise(m, Scaled(sphere, 6.0), 3);
    var cloud2 := FractalNoise(m, Add(Scaled(sphere, 12.0), Vec3(time * 0.02, 0.0, 0.0)), 2);
    [ Layer(BandIntensity(m, sphere.y, time), BrightBlue, 0.1),
      Layer(MethaneBlend(cloud1, cloud2), MethaneBlue, 0.0),
      Layer(Radial(Distance(m, sphere, DarkSpotCenter), 0.25, 0.8), DarkSpotColor, 0.1),
      Layer(Ramp(storm1, 0.75, 0.25, 0.6), WhiteCloud, 0.1),
      Layer(Ramp(storm2, 0.7, 0.3, 0.4), SwirlColor, 0.1),
      Layer(RingFactor(m, sphere, time), RingColor, 0.05),
      Layer(Rim(m, normal, 3.0, 0.4), NeptuneHaze, 0.0) ]
  }

  function NeptuneSurface(m: Math, worldPos: Vec3, normal: Vec3, time: real): Color {
    Composite(DeepBlue, NeptuneLayers(m, m.normalize(worldPos), normal, time))
  }

  function NeptuneShader(m: Math, worldPos: Vec3, normal: Vec3, lightDir: Vec3, time: real): Color {
    Lit(NeptuneSurface(m, worldPos, normal, time), 0.6, 0.4, 1.0, Facing(m, normal, lightDir))
  }

  lemma NeptuneInPalette(m: Math, worldPos: Vec3, normal: Vec3, time: real)
    requires Valid(m) && Norm2(normal) <= 1.0
    ensures InBox(NeptuneSurface(m, worldPos, normal, time), Color(20, 40, 100), Color(200, 220, 255))
  {
    var sphere := m.normalize(worldPos);
    var layers := NeptuneLayers(m, sphere, normal, time);
    var lo, hi := Color(20, 40, 100), Color(200, 220, 255);
    BandIntensityRange(m, sphere.y, time);
    RingReach(m, sphere, time);
    RimBound(m, normal, 3.0, 0.4);
    assert 0.0 <= Distance(m, sphere, DarkSpotCenter);
    assert Bounded(layers[0]) && Bounded(layers[1]) && Bounded(layers[2]) && Bounded(layers[3]);
    assert Bounded(layers[4]) && Bounded(layers[5]) && Bounded(layers[6]);
    assert forall i :: 0 <= i < |layers| ==> Bounded(layers[i]) && InBox(layers[i].color, lo, hi);
    CompositeInBox(DeepBlue, layers, lo, hi);
  }

  lemma NeptuneLitDarkens(m: Math, worldPos: Vec3, normal: Vec3, lightDir: Vec3, time: real)
    ensures AtMost(NeptuneShader(m, worldPos, normal, lightDir, time), NeptuneSurface(m, worldPos, normal, time))
  {
    LitDarkens(NeptuneSurface(m, worldPos, normal, time), 0.6, 0.4, Facing(m, normal, lightDir));
  }

  // ===== Spaceship =====

  const Hull := Color(100, 150, 255)
  const Highlight := Color(200, 220, 255)

  /** `(n.y + 1) / 2`, in [0, 1] for a normal of length at most one. */
  function Metallic(normal: Vec3): (f: real)
    ensures Norm2(normal) <= 1.0 ==> 0.0 <= f <= 1.0
  {
    if Norm2(normal) <= 1.0 then
      ComponentBound(normal);
      (normal.y + 1.0) * 0.5
    else
      (normal.y + 1.0) * 0.5
  }

  function SpaceshipSurface(normal: Vec3): Color {
    Apply(Hull, Layer(Metallic(normal), Highlight, 0.7))
  }

  /** The highlight is blended exactly where the normal points upward past y = 0.4. */
  lemma SpaceshipHighlight(normal: Vec3)
    ensures Active(Layer(Metallic(normal), Highlight, 0.7)) <==> 0.4 < normal.y
    ensures normal.y <= 0.4 ==> SpaceshipSurface(normal) == Hull
  {
  }

  function SpaceshipShader(m: Math, worldPos: Vec3, normal: Vec3, lightDir: Vec3, time: real): Color {
    Lit(SpaceshipSurface(normal), 0.8, 0.4, 1.0, Facing(m, normal, lightDir))
  }

  lemma SpaceshipLitDarkens(m: Math, worldPos: Vec3, normal: Vec3, lightDir: Vec3, time: real)
    ensures AtMost(SpaceshipShader(m, worldPos, normal, lightDir, time), SpaceshipSurface(normal))
  {
    LitDarkens(SpaceshipSurface(normal), 0.8, 0.4, Facing(m, normal, lightDir));
  }
}
