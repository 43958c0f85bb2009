# Space travel renderer — a Dafny model of its core

The program is a software renderer for a small solar system, written in Rust.
Each frame it does the following:

- It transforms the vertices of a sphere or a loaded OBJ mesh.
- It rasterises every triangle with edge functions and barycentric weights.
- It colours each covered pixel with one of eight procedural shaders.
- It hands the fragments to a depth-buffered framebuffer.
- Around that it draws a hashed starfield, orbit lines with Bresenham's
  algorithm, and reads the keyboard to steer a ship and control the system.

This project models that core in Dafny. Each module follows one source file or
one group of functions:

| module | models |
|---|---|
| `Numeric`, `Vectors`, `Transcendental` | `f32` arithmetic as `real`, the saturating `as u8` cast, `floor`/`ceil`/`fract`/`as i32`, and the transcendental functions as a parameter |
| `Colors` | `src/color.rs`: packing to `0xRRGGBB`, `lerp`, `scale` |
| `Noise` | `src/noise.rs`: `noise_3d`, `fractal_noise` and its four uses |
| `Hashing` | the starfield's `hash` on `u32` |
| `Layers`, `Lighting` | the blend-if-above-threshold step and the diffuse lighting every planet shader repeats |
| `PlanetShaders` | `src/planet_shaders.rs`: the eight shaders |
| `Matrices`, `VertexStage` | `src/shaders.rs`: the vertex shader and its normal matrix |
| `Raster` | `src/triangle.rs`: culling, bounding box, scan and fragment emission |
| `Render` | `render_object`: vertex pass, index grouping, framebuffer writes |
| `Sphere` | `create_sphere` |
| `Overlay` | `world_to_screen` and `draw_line` |
| `Skybox` | `direction_to_pixel` and the star colours |
| `StarWitness` | one of the program's own stars, evaluated through `hash`, that overflows the blue-star formula |
| `Controls` | `handle_input` and the start state |
| `OrbitCamera` | `src/camera.rs` |
| `ObjLoader` | `src/obj.rs` |

The abstractions are:

- **Floating point.** An `f32` is a `real`. Casts that truncate or saturate are
  written out: `SatU8` for `as u8`, and `Trunc` for `as i32` and `as usize`.
- **Integers.** `u32` values are naturals below 2^32. The wrapping operations
  of `hash` and the `u32` arithmetic of the OBJ indices are written as
  reduction modulo 2^32.
- **Transcendental functions.** `sin`, `cos`, `sqrt`, `powf`, `asin`, `atan2`
  and `normalize` come in one `Math` value that every operation takes as a
  parameter. `Valid(m)` states the range facts that some lemmas use, for
  example that `sin` lies in [-1, 1] and that a magnitude is non-negative.
  Everything else holds for any such functions.
- **Matrix inversion.** The matrix inverse of `nalgebra` is a function
  parameter. `IsInverter` says what it returns.
- **Parsers.** The float and `usize` parsers of the OBJ loader are function
  parameters as well.

## Model

| member | source | states |
|---|---|---|
| Numeric.Clamp | src/color.rs:29 | `clamp` lands in [lo, hi]. It returns x unchanged inside the range and the nearer bound outside it. |
| Numeric.ClampInt | src/main.rs:244 | The integer `clamp` of `direction_to_pixel` lands in [lo, hi] and leaves values already inside unchanged. |
| Numeric.SatU8 | src/color.rs:31-33 | `as u8` on a float gives 0 at or below zero and 255 at or above 255. In between it gives the integer part. It never exceeds the non-negative part of its input. |
| Numeric.SatU8Monotone | src/color.rs:40-42 | The cast preserves order. |
| Numeric.SatU8OfByte | src/color.rs:31-33 | Casting a channel value that is already a whole byte gives it back. |
| Numeric.SatU8Saturates | src/color.rs:40-42 | The `.min(255.0)` of `scale` and the `.clamp(0.0, 255.0)` of the shaders change nothing the saturating cast would not already do. |
| Numeric.Floor | src/triangle.rs:75-76 | `floor`: the greatest integer at or below x. |
| Numeric.Ceil | src/triangle.rs:77-78 | `ceil`: the least integer at or above x. |
| Numeric.Trunc | src/main.rs:241-242 | `as i32` truncates toward zero, from below for a positive value and from above for a negative one. |
| Numeric.Fract | src/noise.rs:8 | `fract` is x minus its integer part. It lies in (-1, 1) and has the sign of x. |
| Numeric.PowProduct | src/noise.rs:18-21 | (a^n)(b^n) = (ab)^n. This is why doubling the frequency and the point together scales the octave's sample point by 4^n. |
| Colors.ToHex | src/color.rs:19-21 | The packed word is below 2^24. Its top byte is r, its middle byte g and its low byte b. |
| Colors.HexRoundTrip | src/color.rs:19-21 | Unpacking the packed word gives the colour back, so `to_hex` is injective. |
| Colors.HexRoundTripBack | src/color.rs:19-21 | Every 24-bit word is the packing of exactly one colour. |
| Colors.BlackIsZero | src/color.rs:15-17 | `Color::black()` packs to 0. |
| Colors.HexExample | src/color.rs:19-21 | (18, 52, 86) packs to 0x123456. |
| Colors.BlendChannel | src/color.rs:31-33 | A blended channel lies between its two end channels for t in [0, 1]. It is the truncation of a(1 - t) + bt, and t = 0 and t = 1 give the ends. |
| Colors.Interpolate | src/color.rs:31 | a(1 - t) + bt lies between a and b for t in [0, 1]. |
| Colors.Mix | src/planet_shaders.rs:21-28 | The unclamped channel blend the shaders write puts every channel between the two colours' channels for t in [0, 1], and t = 0 and t = 1 give the two colours. |
| Colors.Lerp | src/color.rs:28-35 | `lerp` clamps t first. So every result lies channel-wise between a and b for any t, t ≤ 0 gives a and t ≥ 1 gives b. |
| Colors.LerpMidGrey | src/color.rs:28-35 | Halfway from black to white is (127, 127, 127): 127.5 truncates. |
| Colors.Cap | src/color.rs:40-42 | `.min(255.0) as u8` gives the saturated truncation of v. |
| Colors.Scale | src/color.rs:38-44 | A factor ≤ 0 gives black and factor 1 gives c. A factor in [0, 1] never brightens a channel. |
| Colors.ScaleByte | src/color.rs:40 | One channel of `scale` is the saturated truncation of x·factor. It is 0 for a factor ≤ 0, x for factor 1, and at most x for a factor in [0, 1]. |
| Colors.ScaleMonotone | src/color.rs:38-44 | A larger factor never gives a darker channel. |
| Hashing.XorShift | src/main.rs:223 | `x ^= x >> 16` keeps the upper 16 bits. It xors the lower half with the upper half. |
| Hashing.XorShiftInvolution | src/main.rs:223 | The xor-shift by 16 undoes itself. |
| Hashing.ScrambleInvertible | src/main.rs:224 | `wrapping_mul(0x45d9f3b)` is undone on both sides by multiplying by 0x119de1f3 modulo 2^32. |
| Hashing.HashRoundTrip | src/main.rs:221-229 | `hash` is a permutation of the 32-bit words, inverted on both sides by its steps in reverse order. |
| Hashing.HashInjective | src/main.rs:221-229 | Distinct seeds give distinct hashes. |
| Hashing.HashZero | src/main.rs:221-229 | Seed 0 hashes to 0. |
| Noise.Hash | src/noise.rs:8 | The hash lies in (-1, 1). It is non-negative whenever the sine it is built from is. |
| Noise.Noise3D | src/noise.rs:3-10 | `noise_3d` lies in [0, 3), not in [0, 1]. It is at most 1 exactly when the hash is non-negative. |
| Noise.NoiseAboveOne | src/noise.rs:8-9 | At any point where the sine of the dot product is -0.5, the product's signed `fract` is negative and `noise_3d` is 1.5453, above 1. |
| Noise.NoiseAtOrigin | src/noise.rs:8-9 | At the origin the sine is 0, so the hash is 0 and `noise_3d` is exactly 1. |
| Noise.Octave | src/noise.rs:18 | One octave's contribution is non-negative. |
| Noise.Partial | src/noise.rs:17-22 | The accumulated sum after any number of octaves is non-negative. |
| Noise.FractalNoise | src/noise.rs:12-25 | `fractal_noise` lies in [0, 1]. With no octave, including a negative count, it is 0. |
| Noise.FractalNoiseLoop | src/noise.rs:12-25 | The loop, which doubles the frequency and the point and halves the amplitude, computes the clamped sum of octave i sampled at p·4^i with weight 2^-i. |
| Noise.Pass | src/noise.rs:18-21 | One pass of the loop keeps the frequency at 2^i, the amplitude at 2^-i and the point at p·2^i, and adds octave i. |
| Noise.OneOctave | src/noise.rs:12-25 | With one octave, `fractal_noise` is `noise_3d` capped at 1. |
| Noise.ContinentNoise | src/noise.rs:27-32 | `continent_noise` lies in [0, 1]. |
| Noise.ContinentClampInert | src/noise.rs:29-31 | Its final clamp never acts: the weights 0.7 and 0.3 of two values in [0, 1] already stay within [0, 1]. |
| Noise.CloudNoise | src/noise.rs:34-40 | `cloud_noise` lies in [0, 1]. |
| Noise.SunNoise | src/noise.rs:42-45 | `sun_noise` lies in [0, 1]. |
| Noise.GasBands | src/noise.rs:47-51 | `gas_bands` lies in [0, 1]. |
| Noise.GasBandsStripes | src/noise.rs:48-50 | The sine stripe lies in [0, 1]. Turbulence only adds to it, up to the clamp. |
| Layers.Apply | src/planet_shaders.rs:21-28 | A layer whose factor does not pass its gate leaves the colour alone. One that passes, with a factor in [0, 1], blends every channel between the colour and the layer's colour. |
| Layers.CompositeInBox | src/planet_shaders.rs:135-172 | If the base and every layer colour lie in a channel box, and every factor is in [0, 1], then the shader's result lies in that box. |
| Layers.CompositeAppend | src/planet_shaders.rs:135-172 | Layering xs then ys is layering ys over the result of xs. |
| Layers.CompositeInactive | src/planet_shaders.rs:135-172 | With no layer passing its gate, the base colour comes out unchanged. |
| Layers.Ramp | src/planet_shaders.rs:607-623 | `if n > lo { (n - lo) / width * weight }` is positive exactly above the threshold. It is at most `weight` while n stays within `width` of it. |
| Layers.ClampedRamp | src/planet_shaders.rs:14-18 | The ramp with its slope clamped to [0, 1] stays in [0, weight]. It is positive exactly above the threshold. |
| Layers.Radial | src/planet_shaders.rs:731-735 | The spot falloff is positive exactly inside the radius. It is at most the weight for a non-negative distance. |
| Layers.Joint | src/planet_shaders.rs:633-637 | The product of two ramps is positive exactly when both noises pass their thresholds. It is at most the weight while both stay within their widths. |
| Lighting.Intensity | src/planet_shaders.rs:176-178 | The intensity lies between the ambient term and its cap. It is the ambient term for a surface facing away from the light, and ndotl·kd + ambient capped otherwise. |
| Lighting.LitDarkens | src/planet_shaders.rs:176-184 | With a cap of 1, lighting never brightens a channel. |
| Lighting.LitMonotone | src/planet_shaders.rs:176-184 | A surface facing the light more squarely is never darker. |
| Lighting.GlowByte | src/planet_shaders.rs:699-701 | Adding a glow with a non-negative factor never darkens a channel. It adds at most g·f. |
| Lighting.Glow | src/planet_shaders.rs:233-241 | An added corona or specular glow never darkens the colour. |
| PlanetShaders.Fresnel | src/planet_shaders.rs:229 | 1 - abs(n·view) is at most 1. It is non-negative for a normal of length at most 1. |
| PlanetShaders.RimBound | src/planet_shaders.rs:229-230 | The rim term fresnel^k·w lies in [0, w]. |
| PlanetShaders.EarthIce | src/planet_shaders.rs:14-18 | The ice factor lies in [0, 0.9]. It is positive exactly above latitude 0.8. |
| PlanetShaders.Continent | src/planet_shaders.rs:107-128 | A continent factor lies in [0, 0.95]. It is positive exactly when the density passes 0.1 away from the poles, and it is zero at latitude 0.7 and above. |
| PlanetShaders.ContinentDrawn | src/planet_shaders.rs:107-152 | Land is painted, that is the factor passes 0.15, exactly when the density exceeds 0.28 and the latitude is below 0.7. |
| PlanetShaders.EarthCloud | src/planet_shaders.rs:157-161 | The cloud factor lies in [0, 0.5]. It is positive exactly above density 0.6. |
| PlanetShaders.EarthInPalette | src/planet_shaders.rs:6-172 | The unlit Earth colour lies between (0, 50, 40) and white, channel by channel. |
| PlanetShaders.EarthPolesHaveNoLand | src/planet_shaders.rs:33 | At latitude 0.7 and above, neither continent layer is painted. |
| PlanetShaders.EarthLitDarkens | src/planet_shaders.rs:176-184 | The lit Earth is never brighter than its unlit colour. |
| PlanetShaders.SunBase | src/planet_shaders.rs:195-207 | Turbulence below 0.3 gives the core colour and 0.7 or more gives the flare colour. In between the colour lies between core and hot. |
| PlanetShaders.SunSpotFactor | src/planet_shaders.rs:210-215 | The spot factor is positive exactly above noise 0.8. It is at most 0.5 for noise in range. |
| PlanetShaders.WithCorona | src/planet_shaders.rs:233-241 | The corona never darkens a channel. A non-positive factor leaves the colour unchanged. |
| PlanetShaders.PulseRange | src/planet_shaders.rs:244 | The pulse lies in [0.8, 1]. |
| PlanetShaders.SunPulseDims | src/planet_shaders.rs:246-250 | The pulsed sun is never brighter than its surface with the corona. |
| PlanetShaders.SunInPalette | src/planet_shaders.rs:195-225 | The sun's surface before the corona lies between (150, 50, 0) and (255, 255, 100). |
| PlanetShaders.BandColor | src/planet_shaders.rs:260-266 | Each of the three band colours is chosen exactly on its interval of the band pattern. |
| PlanetShaders.Storm | src/planet_shaders.rs:269-273 | The storm factor is positive exactly above turbulence 0.7. It is at most 0.4 in range. |
| PlanetShaders.GreatSpot | src/planet_shaders.rs:288-293 | The great spot is positive exactly within distance 0.3 of its centre. |
| PlanetShaders.GreatSpotReach | src/planet_shaders.rs:288-293 | The spot's weight is at most 0.7. Where it is positive, the point lies strictly inside the sphere of radius 0.3 around the centre. |
| PlanetShaders.GasGiantInPalette | src/planet_shaders.rs:253-318 | The unlit gas giant lies between (100, 80, 60) and (220, 200, 180). |
| PlanetShaders.GasGiantLitDarkens | src/planet_shaders.rs:320-328 | Lighting never brightens the gas giant. |
| PlanetShaders.Variation | src/planet_shaders.rs:341-351 | The colour variation lies in [0, 0.4]. It is positive exactly above noise 0.5. |
| PlanetShaders.MarsIce | src/planet_shaders.rs:354-369 | The polar ice lies in [0, 0.85]. It is positive exactly above latitude 0.75. |
| PlanetShaders.Canyon | src/planet_shaders.rs:397-420 | Canyons appear exactly where the noise passes 0.65 below latitude 0.4. They are at most 0.4 in range. |
| PlanetShaders.Volcanic | src/planet_shaders.rs:425-441 | Volcanic areas appear exactly where both noises pass their thresholds off the ice. They are at most 0.5 in range. |
| PlanetShaders.MarsInPalette | src/planet_shaders.rs:331-479 | Unlit Mars lies between (100, 45, 14) and (245, 240, 235). |
| PlanetShaders.MarsLitDarkens | src/planet_shaders.rs:483-491 | Lighting never brightens Mars. |
| PlanetShaders.MercuryBase | src/planet_shaders.rs:510-530 | The palette ramps through dark brown, orange-brown, bright orange and yellow. Each segment lies between its two end colours. |
| PlanetShaders.MercuryCrater | src/planet_shaders.rs:534-541 | The crater factor is positive exactly above noise 0.75. It is at most 0.75 in range. |
| PlanetShaders.MercuryNoise | src/planet_shaders.rs:501 | The combined noise lies in [0, 1]. |
| PlanetShaders.MercuryCraterUngated | src/planet_shaders.rs:534-541 | The crater blend is applied without a gate: it is a layer whose gate is 0. |
| PlanetShaders.MercuryInPalette | src/planet_shaders.rs:495-541 | Unlit Mercury lies between the crater colour and the yellow tone. |
| PlanetShaders.MercuryLitDarkens | src/planet_shaders.rs:543-551 | Lighting never brightens Mercury. |
| PlanetShaders.MareFactor | src/planet_shaders.rs:573-605 | A mare's darkening factor is non-negative. |
| PlanetShaders.TotalDark | src/planet_shaders.rs:626-627 | The summed darkening, capped at 1, lies in [0, 1]. |
| PlanetShaders.SpecularBound | src/planet_shaders.rs:694 | The specular term lies in [0, 0.3]. |
| PlanetShaders.SpecularByte | src/planet_shaders.rs:699-701 | A specular of at most 0.3 adds at most 6 to a channel and never takes anything away. |
| PlanetShaders.MoonSpecularBound | src/planet_shaders.rs:681-705 | The moon's final colour is its lit colour plus at most 6 per channel, never less. |
| PlanetShaders.MoonInPalette | src/planet_shaders.rs:556-677 | The moon's unlit colour lies between mare grey (80, 80, 80) and white. |
| PlanetShaders.BandIntensity | src/planet_shaders.rs:721-722 | The bands vanish at latitude 0.5 and beyond. |
| PlanetShaders.BandIntensityRange | src/planet_shaders.rs:718-722 | The band intensity lies in [0, 0.7]. |
| PlanetShaders.MethaneBlend | src/planet_shaders.rs:754-778 | The methane cloud blend is non-negative. It is at most 0.25 for details in [0, 1]. |
| PlanetShaders.RingReach | src/planet_shaders.rs:811-823 | The ring factor lies in [0, 0.15]. It is positive only within 0.125 of the equator. |
| PlanetShaders.NeptuneInPalette | src/planet_shaders.rs:708-838 | Unlit Neptune lies between (20, 40, 100) and (200, 220, 255). |
| PlanetShaders.NeptuneLitDarkens | src/planet_shaders.rs:842-850 | Lighting never brightens Neptune. |
| PlanetShaders.Metallic | src/planet_shaders.rs:863 | (n.y + 1) / 2 lies in [0, 1] for a normal of length at most 1. |
| PlanetShaders.SpaceshipHighlight | src/planet_shaders.rs:863-874 | The metallic highlight is painted exactly when n.y > 0.4. Otherwise the hull colour is kept. |
| PlanetShaders.SpaceshipLitDarkens | src/planet_shaders.rs:878-886 | Lighting never brightens the ship. |
| Matrices.Transform | src/shaders.rs:13-16 | A 4x4 matrix times a vector: each component is the dot product of the matrix row, read column-major, with the vector. |
| Matrices.TransposeInvolution | src/shaders.rs:37 | Transposing twice gives the matrix back. |
| Matrices.StorageBlock | src/shaders.rs:32-36 | `Mat3::new` on the storage entries 0-2, 4-6 and 8-10 builds the transpose of the model matrix's upper-left block. |
| Matrices.NormalMatrix | src/shaders.rs:37 | The normal matrix is the inverse of the storage block's transpose, that is of the upper-left block itself. A singular block gives the identity. |
| Matrices.NormalMatrixInverts | src/shaders.rs:37 | The block times the normal matrix is the identity when the block is invertible. A singular block gives the identity. |
| Matrices.ZeroMatrixFallsBack | src/shaders.rs:37 | The zero model matrix leaves normals untransformed. |
| Matrices.DiagonalNormalMatrix | src/shaders.rs:37-38 | Scaling by (sx, sy, sz) gives the normal matrix diag(1/sx, 1/sy, 1/sz). |
| VertexStage.Divisor | src/shaders.rs:19 | The divisor is w floored at 0.001. |
| VertexStage.Ndc | src/shaders.rs:20-22 | Normalised coordinates times the divisor give the projected x, y and z back. |
| VertexStage.ToScreen | src/shaders.rs:25-27 | NDC [-1, 1] maps onto [0, width] and, with y flipped, onto [0, height]. Depth lands in [0, 1] exactly for NDC z in [-1, 1]. |
| VertexStage.ScreenRoundTrip | src/shaders.rs:25-27 | The viewport map is invertible for a non-empty screen. |
| VertexStage.VertexShader | src/shaders.rs:5-48 | The object-space fields pass through unchanged. A point whose NDC x and y lie in [-1, 1] lands within [0, width] × [0, height]. Screen depth lies in [0, 1] exactly when NDC depth lies in [-1, 1]. The normal is the normalised product with the normal matrix. |
| VertexStage.AffineSkipsDivide | src/shaders.rs:18-22 | With affine model and view-projection matrices, as the orthographic camera gives, w is 1 and the divide changes nothing. |
| Raster.EdgeSum | src/triangle.rs:89-99 | The three sub-triangle edge values add up to the triangle's edge value, so the weights sum to one. |
| Raster.EdgeAntisymmetric | src/triangle.rs:97-99 | Swapping two vertices negates the edge function. |
| Raster.Barycentric | src/triangle.rs:89-95 | The three weights sum to 1 when the area passed is the triangle's own edge value. |
| Raster.Convex | src/triangle.rs:65 | A depth interpolated with non-negative weights lies between the smallest and largest vertex depth. |
| Raster.BoundingBox | src/triangle.rs:74-87 | The box is clamped to columns 0-1199 and rows 0-799. |
| Raster.BoundingBoxExact | src/triangle.rs:74-87 | A pixel is in the box exactly when it is on screen and between the floor of the smallest and the ceiling of the largest vertex coordinate. |
| Raster.Classify | src/triangle.rs:13-37 | The culling checks run in order: all behind, all beyond, off-screen box, degenerate area, back-facing. Each verdict is given exactly when every earlier check passes and its own check fires. A triangle is drawn exactly when it passes all of them, and then its area is at least 0.1. |
| Raster.OffScreenCoversNothing | src/triangle.rs:20-25 | The off-screen test only saves work. The box is already clamped to the screen, so a box that fails the test covers no pixel. |
| Raster.WindingExamples | src/triangle.rs:28-37 | With y pointing down, (0,0), (4,0), (0,4) runs clockwise on screen. Its area is -16 and it is culled as back-facing. Its counter-clockwise reverse is drawn, so the kept face is counter-clockwise on screen. |
| Raster.Shade | src/triangle.rs:50-63 | The moon flag overrides the shader id. Ids 0-6 select the earth, sun, gas giant, Mars, Mercury, Neptune and ship shaders, and any other id paints magenta. |
| Raster.Weights | src/triangle.rs:41-42 | The weights of a drawable triangle sum to 1 at any pixel. |
| Raster.Depth | src/triangle.rs:65 | A fragment's depth lies between the vertex depths. |
| Raster.Cell | src/triangle.rs:41-66 | A pixel yields at most one fragment. It yields one exactly when its centre's weights are all non-negative, and that fragment sits at the pixel with an in-range depth. |
| Raster.RowFacts | src/triangle.rs:40-67 | A scanned row comes out left to right, within its span, with in-range depths. |
| Raster.RowsFacts | src/triangle.rs:39-69 | The rows come out top to bottom, each left to right, inside the box. |
| Raster.FragmentsFacts | src/triangle.rs:8-72 | A culled triangle yields nothing. A drawn one yields fragments in scan order, on screen, with depths between the vertex depths. |
| Raster.RowHas | src/triangle.rs:40-67 | A row holds a fragment at a pixel exactly when the pixel is in the row's span and inside the triangle. |
| Raster.RowsHas | src/triangle.rs:39-69 | The scan holds a fragment at a pixel exactly when the pixel is in the scanned rows and columns and inside the triangle. |
| Raster.FragmentsExact | src/triangle.rs:8-72 | A drawn triangle covers exactly the pixels of its clamped bounding box whose centres have non-negative weights. |
| Raster.ScanRow | src/triangle.rs:40-68 | The inner loop emits exactly the row's fragments. |
| Raster.Triangle | src/triangle.rs:8-72 | `triangle` returns exactly the fragments of the model: nothing when culled, otherwise ordered and on screen. |
| Render.UsizeCast | src/main.rs:482-483 | `as usize` gives 0 for a non-positive value and the integer part otherwise. |
| Render.Sink | src/main.rs:481-489 | Every write is inside the framebuffer and a 24-bit colour. Every fragment that lands on screen is written, and every write comes from such a fragment. |
| Render.SinkAppend | src/main.rs:481-489 | Sinking one more fragment appends its write exactly when it lands. |
| Render.Draw | src/main.rs:481-489 | The fragment loop writes exactly the sink of the fragments. |
| Render.GroupsBelow | src/main.rs:468-474 | Every group that is drawn names three existing vertices. |
| Render.GroupsBelowExact | src/main.rs:468-474 | A triangle is drawn exactly when some complete triple below the bound names it with every index in range. |
| Render.GroupsExact | src/main.rs:468-474 | The drawn triangles are exactly the complete, in-range triples of the index list. |
| Render.GroupsBelowPrefix | src/main.rs:469 | Indices after the groups considered do not affect them. |
| Render.TrailingIgnored | src/main.rs:469 | One or two trailing indices that do not complete a triple are ignored. |
| Render.OutOfRangeSkipped | src/main.rs:474 | A triple with an index past the vertex list is skipped. |
| Render.EveryGroupUsed | src/main.rs:474 | With every index in range, every complete triple is drawn. |
| Render.FullyDrawn | src/main.rs:468-474 | An in-range index list whose length is a multiple of 3 draws a third as many triangles as it has indices. |
| Render.Transformed | src/main.rs:462-466 | Vertex k of the transformed list is the vertex shader applied to vertex k. |
| Render.TriangleWrites | src/main.rs:474-489 | A triangle's writes are on screen and 24-bit. A triangle with an out-of-range index writes nothing. |
| Render.AllWritesFrom | src/main.rs:468-492 | A write occurs exactly when some drawn triangle produces it. |
| Render.WritesBelowAreAllWrites | src/main.rs:468-492 | Looping over the index triples writes exactly the writes of the drawn triangles, in order. |
| Render.TransformAll | src/main.rs:462-466 | The vertex loop computes the transformed list. |
| Render.RenderObject | src/main.rs:461-493 | `render_object` writes exactly the on-screen fragments of the rasterised, in-range triangles, in index order. Every write is in bounds. |
| Render.DrawGroups | src/main.rs:468-492 | The triangle loop writes exactly the writes of all complete triples. |
| Render.LoopCovers | src/main.rs:468 | `step_by(3)` visits exactly ceil(len / 3) start positions. |
| Render.DrawGroup | src/main.rs:469-491 | One pass draws the triple's triangle when it is complete and in range, and writes nothing otherwise. |
| Sphere.GridIndexInverse | src/main.rs:179-198 | Vertex lat·(s + 1) + lon is found again by division and remainder. |
| Sphere.GridIndexBound | src/main.rs:202 | Every grid position indexes one of the (s + 1)² vertices. |
| Sphere.NextRing | src/main.rs:203 | `second` is the same meridian on the next ring. |
| Sphere.SphereVertices | src/main.rs:179-198 | The vertex loops produce (s + 1)² vertices. The vertex at grid position (lat, lon) has polar angle lat·π/s and azimuth lon·2π/s. |
| Sphere.CellCorners | src/main.rs:202-211 | A cell's two triangles are made from its four grid corners. |
| Sphere.RingCellsLength | src/main.rs:201-212 | Six indices per cell. |
| Sphere.RingsBelowLength | src/main.rs:200-213 | 6·s indices per ring of cells. |
| Sphere.CellBound | src/main.rs:202-211 | Every index of a cell names an existing vertex. |
| Sphere.RingCellsBound | src/main.rs:201-212 | Every index of a ring names an existing vertex. |
| Sphere.RingsBelowBound | src/main.rs:200-213 | Every index of the first rings names an existing vertex. |
| Sphere.SphereIndicesShape | src/main.rs:200-213 | The sphere has 6·s² indices, each below (s + 1)². |
| Sphere.CreateIndices | src/main.rs:200-213 | The index loops, in `u32`, produce exactly the model's index list when (s + 1)² fits in 32 bits. |
| Sphere.EmitCell | src/main.rs:202-211 | One inner pass appends the cell's six indices. |
| Sphere.SphereFullyDrawn | src/main.rs:200-213 | `render_object` draws all 2·s² of the sphere's triangles. |
| Overlay.WorldToScreen | src/main.rs:339-360 | A point is rejected exactly when w ≤ 0 or its NDC x or y leaves [-1, 1]. An accepted point lands on screen with NDC depth. |
| Overlay.WorldToScreenAgrees | src/main.rs:339-360 | Where w ≥ 0.001, an accepted point lands where the vertex stage would put it. |
| Overlay.Toward | src/main.rs:367-368 | The step is +1 exactly when the end lies ahead, and -1 otherwise, equal ends included. |
| Overlay.Dist | src/main.rs:365-366 | The distance steps from the start in the step direction reach the end. |
| Overlay.OnScreen | src/main.rs:374-376 | Exactly the visited pixels inside the framebuffer are written, at depth 0.999. |
| Overlay.Step | src/main.rs:382-390 | One Bresenham step moves x, y or both by one toward the end and keeps the error term exact. |
| Overlay.DrawLine | src/main.rs:362-392 | The line starts at (x0, y0) and moves at most one pixel per step in each coordinate, always toward the end and inside the endpoints' box. It takes the full horizontal and vertical step counts, visiting between max(dx, dy) + 1 and dx + dy + 1 pixels for the absolute differences dx and dy. It writes exactly the on-screen ones. |
| Overlay.Walk | src/main.rs:372-391 | The loop after the first plot keeps the walk's shape on every pass and leaves it standing on (x1, y1). |
| Overlay.WalkedEnds | src/main.rs:377-379 | A walk that has taken both full step counts ends at (x1, y1), where the loop stops. |
| Overlay.Advance | src/main.rs:373-391 | One pass of the loop plots the current pixel and advances toward the end without passing it. |
| Overlay.Plot | src/main.rs:374-376 | A pixel is written exactly when it is in the framebuffer. |
| Skybox.DirectionToPixel | src/main.rs:232-245 | The pixel is the truncated equirectangular position clamped to the screen. |
| Skybox.StarBrightness | src/main.rs:300-304 | The brightness byte is at least 51. It is 255 for the largest hash. |
| Skybox.KindOf | src/main.rs:305-320 | A star is blue exactly for hash4 % 100 < 10 and red for 10-19. |
| Skybox.StarSize | src/main.rs:301 | A star is 1 or 2 pixels wide. Only blue stars are large. |
| Skybox.BlueStarAsWritten | src/main.rs:305-309 | Where the `u8` sums do not overflow, the blue star word is (150 + b/2, 180 + b/3, b). |
| Skybox.BlueStarDomain | src/main.rs:307-308 | The blue-star sums fit in a byte exactly for brightness ≤ 211. |
| Skybox.BlueStarOverflowReachable | src/main.rs:300-309 | The brightest hash gives brightness 255, where 150 + b/2 overflows. With wrapping the colour would come out (21, 9, 255), almost pure blue. |
| StarWitness.BrightnessHash | src/main.rs:221-229 | hash(16347), the brightness hash of star 4, is 3708719243. |
| StarWitness.KindHash | src/main.rs:221-229 | hash(16348), the kind hash of star 4, is 3705045606. |
| StarWitness.StarFourBrightBlue | src/main.rs:255-309 | Star 4 (seed 4 · 1000 + 12345) is a blue star of brightness 227, above the 211 the blue formula can take. |
| StarWitness.StarFourColors | src/main.rs:305-309 | At brightness 227, 150 + 227/2 = 263 does not fit a `u8`. Wrapping paints (7, 255, 227), while the saturating colour is (255, 255, 227). |
| Skybox.BrightestHashReachable | src/main.rs:221-229 | Some `u32` seed hashes to 0xFFFFFFFF. This does not say that one of the program's star seeds does. |
| Skybox.BlueStar | src/main.rs:305-309 | The corrected blue star keeps its red at least 150 and its green at least 180, and agrees with the code wherever the code does not overflow. |
| Skybox.BlueStarMonotone | src/main.rs:305-309 | A brighter blue star is never darker in any channel. |
| Skybox.StarColor | src/main.rs:305-320 | Red stars fade from the red channel to the blue one, and white stars are grey. Blue stars use the intended saturating formula Skybox.BlueStar. The code as written is Skybox.BlueStarAsWritten, which agrees with it up to brightness 211. |
| Skybox.StarHex | src/main.rs:300-320 | The star word is a 24-bit colour that unpacks to Skybox.StarColor, so blue stars are packed with the intended saturating formula. The code as written is Skybox.BlueStarAsWritten. |
| Controls.Start | src/main.rs:547-549 | The system starts at speed 1, running, with orbits shown. |
| Controls.MoveSpeed | src/main.rs:694-696 | The move speed is 24 with Left Shift held and 8 otherwise. |
| Controls.Turn | src/main.rs:714-731 | Two opposite keys cancel. One alone turns by the step in its direction. |
| Controls.Push | src/main.rs:700-711 | Two opposite movement keys cancel. |
| Controls.Steer | src/main.rs:700-711 | Without unpaired movement keys the velocity is unchanged. |
| Controls.NewSpeed | src/main.rs:747-754 | Minus never lets the speed drop below 0.1. Equal adds 0.1. Equal and Minus in the same frame cancel when the speed is at least 0.1. |
| Controls.HandleInput | src/main.rs:693-755 | The pitch stays within ±π/2.5 and yaw and roll follow their keys. Space toggles pause and O toggles the orbits. The speed follows `NewSpeed`. |
| Controls.IdleFrame | src/main.rs:693-755 | A frame without keys changes nothing when the pitch is already within ±π/2.5. |
| Controls.PausedParity | src/main.rs:737-740 | After any run the pause state is the start state flipped once per Space press. |
| Controls.OrbitsParity | src/main.rs:742-745 | The orbit display flips once per O press. |
| Controls.RunBounds | src/main.rs:733-754 | From the start state the speed never drops below 0.1. After any frame the pitch is within its limit. |
| Controls.SpeedUpThenDown | src/main.rs:747-754 | At a speed of at least 0.1, Equal in one frame and Minus in the next give the speed back. |
| OrbitCamera.New | src/camera.rs:20-33 | The camera starts aimed at the origin with the aspect ratio width / height, its distance and pitch within their limits. |
| OrbitCamera.UpdatePosition | src/camera.rs:56-63 | Only the position changes. It moves onto the sphere given by the distance and the two angles. |
| OrbitCamera.Rotate | src/camera.rs:65-73 | The yaw accumulates and the pitch is clamped to [-1.5, 1.5]. The camera stays on its orbit with everything else kept. |
| OrbitCamera.Zoom | src/camera.rs:75-79 | The distance is clamped to [200, 3000]. The camera stays on its orbit. |
| OrbitCamera.SetTarget | src/camera.rs:81-84 | The camera follows the new target at the same offset. |
| OrbitCamera.UpdateAspectRatio | src/camera.rs:86-88 | Only the aspect ratio changes. |
| OrbitCamera.SetTargetTranslates | src/camera.rs:81-84 | Moving the target translates an orbiting camera by the same displacement. |
| OrbitCamera.ZoomInOut | src/camera.rs:75-79 | A zoom that stays within the limits is undone by the opposite zoom. |
| OrbitCamera.RotateByZero | src/camera.rs:65-73 | Rotating by zero leaves an orbiting camera with a legal pitch unchanged. |
| OrbitCamera.RotatePastLimit | src/camera.rs:65-73 | A pitch pushed past the limit sticks at the limit. |
| ObjLoader.Split | src/obj.rs:51 | `split('/')` yields at least one piece, none containing a slash. |
| ObjLoader.SplitJoin | src/obj.rs:51 | Joining the pieces with slashes gives the token back. |
| ObjLoader.Fetch | src/obj.rs:54 | `get(k - 1).unwrap_or(default)` gives entry k - 1 when it exists and the default otherwise. |
| ObjLoader.Optional | src/obj.rs:55-67 | A missing or empty texture or normal field gives the default. A present one must parse, and a zero index underflows. |
| ObjLoader.CornerDefaults | src/obj.rs:55-67 | A corner token with no texture or normal piece gets the default normal (0, 1, 0) and the default texture coordinates (0, 0). |
| ObjLoader.Corner | src/obj.rs:51-69 | An unparsable position index is an error and index 0 underflows. A built vertex takes its position from the table, and its normal and texture coordinates are what ObjLoader.Optional gives for fields 2 and 1. It is black, with its transformed fields equal to its object-space ones. |
| ObjLoader.Push | src/obj.rs:69-70 | Pushing appends the vertex and its `u32` index `len - 1`. The subtraction underflows exactly when the new length is 0 modulo 2^32. |
| ObjLoader.Triple | src/obj.rs:31-42 | A `v` or `vn` line succeeds exactly when all three numbers parse. |
| ObjLoader.Pair | src/obj.rs:43-47 | A `vt` line succeeds exactly when both numbers parse. |
| ObjLoader.PushCounted | src/obj.rs:69-70 | A successful push keeps the index list equal to 0, 1, 2, … and leaves the tables alone. |
| ObjLoader.AddCornerCounted | src/obj.rs:50-71 | Each corner adds one vertex and keeps the indices counting. |
| ObjLoader.FaceShape | src/obj.rs:48-72 | A face adds three vertices and indices n, n + 1, n + 2. |
| ObjLoader.Line | src/obj.rs:24-74 | Empty, unknown and short lines change nothing. Data lines leave the mesh alone. A face adds one well-indexed triangle. |
| ObjLoader.FaceUsesThreeCorners | src/obj.rs:50 | Corners after the third are ignored. |
| ObjLoader.Lines | src/obj.rs:22-75 | A successful parse leaves a well-indexed mesh. |
| ObjLoader.FailureIsFinal | src/obj.rs:32-63 | Once a line fails, `?` returns: later lines do not matter. |
| ObjLoader.Load | src/obj.rs:12-80 | Loading succeeds exactly when every line does. The mesh then has one index per vertex, the indices are 0, 1, 2, … and there is a multiple of three of them. |
| ObjLoader.LoadLines | src/obj.rs:22-79 | The line loop computes `Load`. |
| ObjLoader.Arrays | src/obj.rs:82-84 | The arrays are copies of the mesh. |
| ObjLoader.LoadedMeshFullyDrawn | src/obj.rs:69-70 | `render_object` draws every triangle of a loaded mesh. |

## Left out

- Window, input events, framebuffer storage and `println!`: I/O. The frame loop, the orbit simulation of `main` and the depth test inside `Framebuffer::point` are not part of this model.
- `SpaceshipCamera`: its forward and right vectors are parameters of `Controls.HandleInput`, and its motion integration is not modelled.
- The starfield's projection of star directions and the star footprint loop: floating-point screen geometry around the modelled hash, brightness and colour.
- `render_orbit_line`: it composes `world_to_screen` and `draw_line`, which are modelled.
- `look_at`, `ortho` and `perspective` from `nalgebra_glm`, and the inversion algorithm of `try_inverse`: foreign code. The inverse is a parameter constrained by `IsInverter`.
- `Vertex::new` is in `src/vertex.rs`, which is not part of this model. It is assumed to set the colour to black and the transformed fields to the object-space ones.
- `f32` rounding, NaN and infinities: every float is an exact real.
- `usize` width: `usize` values are unbounded naturals.
- The text of the float and integer parsers: they are parameters.
- Reading the file and splitting lines on whitespace: the loader takes the lines already split into words.
- The value of `noise_3d` beyond its shape: `sin` is a parameter, so no property depends on the particular hash constants.
- The call from `render_object` into `triangle`: `Render.DrawGroups` is stated for any rasteriser passed in as a function, and `Render.RenderObject` passes `Raster.Fragments`.
- Render.UsizeCast: `as usize` of NaN is 0 in Rust, but NaN does not arise with exact reals.
- ObjLoader.Corner: a zero index underflows `usize` (a panic in a debug build, a wrap-around in release). The model reports it as the `Underflow` outcome and does not continue with the wrapped index.
- ObjLoader.Push: the same for `vertices.len() as u32 - 1` when the length is a multiple of 2^32.
- OrbitCamera.New: the start position (0, 500, 1000) is not on the orbit its angles and distance describe, so no `OnOrbit` is claimed until the first rotation, zoom or target change.
- OrbitCamera.New, OrbitCamera.UpdateAspectRatio: require a non-zero height. In `f32` a zero height gives an infinite or NaN ratio.
- Sphere.SphereVertices: requires at least one segment. With zero segments the angles are 0/0, a NaN in `f32`.
- Overlay.DrawLine: does not model `i32` overflow of `x1 - x0` or `2 * err` for endpoints near the `i32` limits. Orbit points come from screen coordinates.
- Skybox.StarBrightness: `u32::MAX as f32` rounds to 2^32 in `f32`. The model divides by 4294967295 exactly, so the brightest hash gives exactly 255.
- Matrices.NormalMatrix: the usual normal matrix is the inverse-transpose of the model matrix. The code at src/shaders.rs:31-36 inverts the transpose of the storage block, which is the upper-left block itself, so normals are multiplied by the plain inverse. The model follows the code.
- Noise.Noise3D: the bound [0, 1] that the noise functions are used with does not hold for `noise_3d` itself. `fract` of a negative product is negative, so the value reaches up to 3. The model states [0, 3). The clamp in `fractal_noise` keeps every caller within [0, 1].

## Findings

| source | as written | input that shows it | evidently intended | confidence | as-written member | corrected member |
|---|---|---|---|---|---|---|
| src/main.rs:305-309 | `150 + star_brightness / 2` and `180 + star_brightness / 3` are `u8` additions, which overflow for brightness ≥ 212 and ≥ 228. A debug build panics. A release build wraps the red channel, and above 227 the green one too, so the brightest blue stars lose their red and green. | A blue star (hash4 % 100 < 10) overflows when hash3 is at least about 0.79 · u32::MAX, so that the brightness reaches 212. One of the program's own stars does this. Star 4 has seed 16345, hash3 = hash(16347) = 3708719243 and hash4 = hash(16348) = 3705045606, so hash4 % 100 = 6. Its brightness is 227 (227.15 before truncation), 150 + 113 = 263 > 255, and wrapping gives (7, 255, 227). Shown by StarWitness.StarFourBrightBlue and StarWitness.StarFourColors. At the brightest hash, Skybox.BlueStarOverflowReachable gives (21, 9, 255). | A bright blue-white star: the sums computed in `u32`, or saturated, so red ≥ 150 and green ≥ 180 grow with brightness. | high; not executed | Skybox.BlueStarAsWritten | Skybox.BlueStar |
