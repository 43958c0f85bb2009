/**
  The rasteriser: culling, the clamped bounding box, edge functions and
  barycentric weights, the row-major pixel scan that turns one screen-space
  triangle into fragments, and the choice of fragment shader.
 */
module Raster {
  import opened Numeric
  import opened Vectors
  import opened Transcendental
  import opened Colors
  import opened VertexStage
  import opened PlanetShaders

  /** The last pixel column and row the rasteriser ever emits: the 1200 x 800 screen, hard-coded. */
  const LastColumn := 1199
  const LastRow := 799

  datatype Fragment = Fragment(x: real, y: real, color: Color, depth: real)

  /**
    `edge_function(a, b, c)`: twice the signed area of the triangle a, b, c.
    It is positive when c lies on one side of the directed edge a→b and
    negative on the other.
   */
  function Edge(a: Vec3, b: Vec3, c: Vec3): real {
    (c.x - a.x) * (b.y - a.y) - (c.y - a.y) * (b.x - a.x)
  }

  /** The three sub-triangles at any point p add up to the whole triangle. */
  lemma EdgeSum(a: Vec3, b: Vec3, c: Vec3, p: Vec3)
    ensures Edge(b, c, p) + Edge(c, a, p) + Edge(a, b, p) == Edge(a, b, c)
  {
  }

  /** Swapping two vertices flips the sign of the area. */
  lemma EdgeAntisymmetric(a: Vec3, b: Vec3, c: Vec3)
    ensures Edge(b, a, c) == -Edge(a, b, c)
  {
  }

  /** `barycentric_coordinates`: each sub-triangle's area over the whole area. */
  function Barycentric(p: Vec3, a: Vec3, b: Vec3, c: Vec3, area: real): (w: (real, real, real))
    requires area != 0.0
    ensures area == Edge(a, b, c) ==> w.0 + w.1 + w.2 == 1.0
  {
    EdgeSum(a, b, c, p);
    SumDivided(Edge(b, c, p), Edge(c, a, p), Edge(a, b, p), area);
    (Edge(b, c, p) / area, Edge(c, a, p) / area, Edge(a, b, p) / area)
  }

  lemma SumDivided(x: real, y: real, z: real, k: real)
    requires k != 0.0
    ensures x / k + y / k + z / k == (x + y + z) / k
    ensures k / k == 1.0
  {
  }

  /** A weighted sum with non-negative weights adding up to one lies between the smallest and the largest value. */
  lemma Convex(z1: real, z2: real, z3: real, w1: real, w2: real, w3: real)
    requires 0.0 <= w1 && 0.0 <= w2 && 0.0 <= w3 && w1 + w2 + w3 == 1.0
    ensures Min(Min(z1, z2), z3) <= z1 * w1 + z2 * w2 + z3 * w3 <= Max(Max(z1, z2), z3)
  {
    var lo, hi := Min(Min(z1, z2), z3), Max(Max(z1, z2), z3);
    MulNonneg(z1 - lo, w1);
    MulNonneg(z2 - lo, w2);
    MulNonneg(z3 - lo, w3);
    MulNonneg(hi - z1, w1);
    MulNonneg(hi - z2, w2);
    MulNonneg(hi - z3, w3);
    assert z1 * w1 + z2 * w2 + z3 * w3 - lo == (z1 - lo) * w1 + (z2 - lo) * w2 + (z3 - lo) * w3;
    assert hi - (z1 * w1 + z2 * w2 + z3 * w3) == (hi - z1) * w1 + (hi - z2) * w2 + (hi - z3) * w3;
  }

  /** An inclusive range of pixel columns and rows. */
  datatype Box = Box(minX: int, minY: int, maxX: int, maxY: int)

  predicate Covers(box: Box, x: int, y: int) {
    box.minX <= x <= box.maxX && box.minY <= y <= box.maxY
  }

  /**
    `calculate_bounding_box`: the floor of the smallest and the ceiling of
    the largest coordinate, then clamped to the screen.
   */
  function BoundingBox(a: Vec3, b: Vec3, c: Vec3): (box: Box)
    ensures 0 <= box.minX && 0 <= box.minY && box.maxX <= LastColumn && box.maxY <= LastRow
  {
    Box(MaxInt(Floor(Min(Min(a.x, b.x), c.x)), 0),
        MaxInt(Floor(Min(Min(a.y, b.y), c.y)), 0),
        MinInt(Ceil(Max(Max(a.x, b.x), c.x)), LastColumn),
        MinInt(Ceil(Max(Max(a.y, b.y), c.y)), LastRow))
  }

  /**
    The box scanned is exactly the on-screen part of the triangle's integer
    hull: a pixel is in it iff it is on the screen and between the floor of
    the smallest and the ceiling of the largest coordinate.
   */
  lemma BoundingBoxExact(a: Vec3, b: Vec3, c: Vec3, x: int, y: int)
    ensures Covers(BoundingBox(a, b, c), x, y) <==>
      && 0 <= x <= LastColumn && 0 <= y <= LastRow
      && Floor(Min(Min(a.x, b.x), c.x)) <= x <= Ceil(Max(Max(a.x, b.x), c.x))
      && Floor(Min(Min(a.y, b.y), c.y)) <= y <= Ceil(Max(Max(a.y, b.y), c.y))
  {
  }

  /** Why a triangle is dropped before the scan, in the order the checks are made. */
  datatype Verdict = Nearer | Farther | OffScreen | Degenerate | BackFacing | Drawn

  /** All three vertices lie in front of the near plane. */
  predicate AllNearer(a: Vec3, b: Vec3, c: Vec3) {
    a.z < 0.0 && b.z < 0.0 && c.z < 0.0
  }

  /** All three vertices lie beyond the far plane. */
  predicate AllFarther(a: Vec3, b: Vec3, c: Vec3) {
    a.z > 1.0 && b.z > 1.0 && c.z > 1.0
  }

  /** The off-screen test on the clamped box, with the screen size 1200 x 800 written as the code writes it. */
  predicate OffScreenBox(box: Box) {
    box.maxX < 0 || box.minX > 1200 || box.maxY < 0 || box.minY > 800
  }

  /**
    `triangle`'s early returns. Each verdict is given exactly when every
    earlier test passes and its own test fires; a triangle is drawn exactly
    when it passes all of them.
   */
  function Classify(a: Vec3, b: Vec3, c: Vec3): (v: Verdict)
    ensures v == Nearer <==> AllNearer(a, b, c)
    ensures v == Farther <==> !AllNearer(a, b, c) && AllFarther(a, b, c)
    ensures v == OffScreen <==> !AllNearer(a, b, c) && !AllFarther(a, b, c) && OffScreenBox(BoundingBox(a, b, c))
    ensures v == Drawn <==>
      && !AllNearer(a, b, c)
      && !AllFarther(a, b, c)
      && !OffScreenBox(BoundingBox(a, b, c))
      && 0.1 <= Edge(a, b, c)
    ensures Edge(a, b, c) < 0.0 ==> v != Drawn
    ensures -0.1 < Edge(a, b, c) < 0.1 ==> v != Drawn
  {
    var box := BoundingBox(a, b, c);
    var area := Edge(a, b, c);
    if a.z < 0.0 && b.z < 0.0 && c.z < 0.0 then Nearer
    else if a.z > 1.0 && b.z > 1.0 && c.z > 1.0 then Farther
    else if box.maxX < 0 || box.minX > 1200 || box.maxY < 0 || box.minY > 800 then OffScreen
    else if Abs(area) < 0.1 then Degenerate
    else if area < 0.0 then BackFacing
    else Drawn
  }

  /**
    The off-screen test only saves work: because the box is already clamped
    to the screen, a box that fails it covers no pixel, so the scan would
    have produced nothing either.
   */
  lemma OffScreenCoversNothing(a: Vec3, b: Vec3, c: Vec3, x: int, y: int)
    requires OffScreenBox(BoundingBox(a, b, c))
    ensures !Covers(BoundingBox(a, b, c), x, y)
  {
  }

  /**
    With y pointing down, (0, 0), (4, 0), (0, 4) runs clockwise on the
    screen: its area is negative and it is culled as back-facing. Its
    counter-clockwise reverse is kept.
   */
  lemma WindingExamples()
    ensures Edge(Vec3(0.0, 0.0, 0.5), Vec3(4.0, 0.0, 0.5), Vec3(0.0, 4.0, 0.5)) == -16.0
    ensures Classify(Vec3(0.0, 0.0, 0.5), Vec3(4.0, 0.0, 0.5), Vec3(0.0, 4.0, 0.5)) == BackFacing
    ensures Classify(Vec3(0.0, 0.0, 0.5), Vec3(0.0, 4.0, 0.5), Vec3(4.0, 0.0, 0.5)) == Drawn
  {
  }

  /** The shader chosen for a fragment: the moon flag wins, then the shader id; an unknown id gives magenta. */
  function Shade(m: Math, u: Uniforms, worldPos: Vec3, normal: Vec3, lightDir: Vec3): (c: Color)
    ensures u.isMoon ==> c == MoonShader(m, worldPos, normal, lightDir, u.time)
    ensures !u.isMoon && u.currentShader == 0 ==> c == EarthShader(m, worldPos, normal, lightDir, u.time)
    ensures !u.isMoon && u.currentShader == 1 ==> c == SunShader(m, worldPos, normal, lightDir, u.time)
    ensures !u.isMoon && u.currentShader == 2 ==> c == GasGiantShader(m, worldPos, normal, lightDir, u.time)
    ensures !u.isMoon && u.currentShader == 3 ==> c == MarsShader(m, worldPos, normal, lightDir, u.time)
    ensures !u.isMoon && u.currentShader == 4 ==> c == MercuryShader(m, worldPos, normal, lightDir, u.time)
    ensures !u.isMoon && u.currentShader == 5 ==> c == NeptuneShader(m, worldPos, normal, lightDir, u.time)
    ensures !u.isMoon && u.currentShader == 6 ==> c == SpaceshipShader(m, worldPos, normal, lightDir, u.time)
    ensures !u.isMoon && u.currentShader > 6 ==> c == Magenta
  {
    if u.isMoon then MoonShader(m, worldPos, normal, lightDir, u.time)
    else
      match u.currentShader
      case 0 => EarthShader(m, worldPos, normal, lightDir, u.time)
      case 1 => SunShader(m, worldPos, normal, lightDir, u.time)
      case 2 => GasGiantShader(m, worldPos, normal, lightDir, u.time)
      case 3 => MarsShader(m, worldPos, normal, lightDir, u.time)
      case 4 => MercuryShader(m, worldPos, normal, lightDir, u.time)
      case 5 => NeptuneShader(m, worldPos, normal, lightDir, u.time)
      case 6 => SpaceshipShader(m, worldPos, normal, lightDir, u.time)
      case _ => Magenta
  }

  /** One triangle after the vertex stage, with what its fragments need. */
  datatype Setup = Setup(m: Math, v1: Vertex, v2: Vertex, v3: Vertex, u: Uniforms)
  {
    function A(): Vec3 { v1.transformedPosition }
    function B(): Vec3 { v2.transformedPosition }
    function C(): Vec3 { v3.transformedPosition }
    function Area(): real { Edge(A(), B(), C()) }
  }

  /** The setups that pass every culling check. */
  predicate Drawable(s: Setup) {
    Classify(s.A(), s.B(), s.C()) == Drawn
  }

  function Blend3(p: Vec3, q: Vec3, r: Vec3, w: (real, real, real)): Vec3 {
    Add(Add(Scaled(p, w.0), Scaled(q, w.1)), Scaled(r, w.2))
  }

  /** The barycentric weights of the centre of pixel (x, y); they add up to one. */
  function Weights(s: Setup, x: real, y: real): (w: (real, real, real))
    requires Drawable(s)
    ensures w.0 + w.1 + w.2 == 1.0
  {
    Barycentric(Vec3(x + 0.5, y + 0.5, 0.0), s.A(), s.B(), s.C(), s.Area())
  }

  predicate Inside(w: (real, real, real)) {
    w.0 >= 0.0 && w.1 >= 0.0 && w.2 >= 0.0
  }

  /** The interpolated depth of a point inside the triangle lies between the vertex depths. */
  function Depth(s: Setup, w: (real, real, real)): (d: real)
    requires Inside(w) && w.0 + w.1 + w.2 == 1.0
    ensures Min(Min(s.A().z, s.B().z), s.C().z) <= d <= Max(Max(s.A().z, s.B().z), s.C().z)
  {
    Convex(s.A().z, s.B().z, s.C().z, w.0, w.1, w.2);
    s.A().z * w.0 + s.B().z * w.1 + s.C().z * w.2
  }

  /**
    The colour of a point inside the triangle: the world position and the
    transformed normal interpolated with its weights, the light shining
    along -z, and the shader the uniforms select.
   */
  function Shading(s: Setup, w: (real, real, real)): Color {
    var worldPos := Blend3(s.v1.position, s.v2.position, s.v3.position, w);
    var normal := s.m.normalize(Blend3(s.v1.transformedNormal, s.v2.transformedNormal, s.v3.transformedNormal, w));
    var lightDir := s.m.normalize(Vec3(0.0, 0.0, -1.0));
    Shade(s.m, s.u, worldPos, normal, lightDir)
  }

  /** The fragment of pixel (x, y), if its centre lies inside the triangle. */
  function Cell(s: Setup, x: int, y: int): (f: seq<Fragment>)
    requires Drawable(s)
    ensures |f| <= 1
    ensures |f| == 1 <==> Inside(Weights(s, x as real, y as real))
    ensures |f| == 1 ==> f[0].x == x as real && f[0].y == y as real
    ensures |f| == 1 ==>
      Min(Min(s.A().z, s.B().z), s.C().z) <= f[0].depth <= Max(Max(s.A().z, s.B().z), s.C().z)
  {
    var w := Weights(s, x as real, y as real);
    if Inside(w) then [Fragment(x as real, y as real, Shading(s, w), Depth(s, w))] else []
  }

  /** Row y, columns x0 up to but excluding x, left to right. */
  function Row(s: Setup, y: int, x0: int, x: int): seq<Fragment>
    requires Drawable(s)
    decreases x - x0
  {
    if x <= x0 then [] else Row(s, y, x0, x - 1) + Cell(s, x - 1, y)
  }

  /** Rows y0 up to but excluding y, top to bottom, each over columns box.minX..box.maxX. */
  function Rows(s: Setup, box: Box, y0: int, y: int): seq<Fragment>
    requires Drawable(s)
    decreases y - y0
  {
    if y <= y0 then [] else Rows(s, box, y0, y - 1) + Row(s, y - 1, box.minX, box.maxX + 1)
  }

  /** The fragments of the triangle, as the scan produces them. */
  function Fragments(s: Setup): seq<Fragment> {
    if Drawable(s) then
      var box := BoundingBox(s.A(), s.B(), s.C());
      Rows(s, box, box.minY, box.maxY + 1)
    else
      []
  }

  /** Scan order: rows top to bottom, and left to right within a row. */
  predicate Before(f: Fragment, g: Fragment) {
    f.y < g.y || (f.y == g.y && f.x < g.x)
  }

  predicate Ordered(fs: seq<Fragment>) {
    forall i, j :: 0 <= i < j < |fs| ==> Before(fs[i], fs[j])
  }

  /**
    Every fragment of a range of cells lies in that range, its pixel centre
    is inside the triangle, its colour is the shading at that centre and its
    depth is the interpolated depth there, between the vertex depths.
   */
  predicate Within(s: Setup, fs: seq<Fragment>, box: Box)
    requires Drawable(s)
  {
    forall k :: 0 <= k < |fs| ==>
      && box.minX as real <= fs[k].x <= box.maxX as real
      && box.minY as real <= fs[k].y <= box.maxY as real
      && Inside(Weights(s, fs[k].x, fs[k].y))
      && fs[k].color == Shading(s, Weights(s, fs[k].x, fs[k].y))
      && fs[k].depth == Depth(s, Weights(s, fs[k].x, fs[k].y))
      && Min(Min(s.A().z, s.B().z), s.C().z) <= fs[k].depth <= Max(Max(s.A().z, s.B().z), s.C().z)
  }

  lemma {:induction false} RowFacts(s: Setup, y: int, x0: int, x: int)
    requires Drawable(s)
    ensures Ordered(Row(s, y, x0, x))
    ensures Within(s, Row(s, y, x0, x), Box(x0, y, x - 1, y))
    decreases x - x0
  {
    if x > x0 {
      RowFacts(s, y, x0, x - 1);
      var prefix, last := Row(s, y, x0, x - 1), Cell(s, x - 1, y);
      assert Row(s, y, x0, x) == prefix + last;
      forall k | 0 <= k < |prefix|
        ensures prefix[k].x <= (x - 2) as real && prefix[k].y == y as real
      {
      }
    }
  }

  lemma {:induction false} RowsFacts(s: Setup, box: Box, y0: int, y: int)
    requires Drawable(s)
    ensures Ordered(Rows(s, box, y0, y))
    ensures Within(s, Rows(s, box, y0, y), Box(box.minX, y0, box.maxX, y - 1))
    decreases y - y0
  {
    if y > y0 {
      RowsFacts(s, box, y0, y - 1);
      RowFacts(s, y - 1, box.minX, box.maxX + 1);
      var prefix, last := Rows(s, box, y0, y - 1), Row(s, y - 1, box.minX, box.maxX + 1);
      forall k | 0 <= k < |prefix|
        ensures prefix[k].y <= (y - 2) as real
      {
      }
    }
  }

  /**
    The scan's guarantees: nothing for a culled triangle; otherwise every
    fragment is on the 1200 x 800 screen, within the clamped box, between
    the vertex depths, and the fragments come in strict row-major order,
    so no pixel is produced twice.
   */
  lemma FragmentsFacts(s: Setup)
    ensures !Drawable(s) ==> Fragments(s) == []
    ensures Ordered(Fragments(s))
    ensures Drawable(s) ==> Within(s, Fragments(s), Box(0, 0, LastColumn, LastRow))
  {
    if Drawable(s) {
      var box := BoundingBox(s.A(), s.B(), s.C());
      RowsFacts(s, box, box.minY, box.maxY + 1);
    }
  }

  /** Some fragment of fs is at pixel (x, y). */
  predicate Has(fs: seq<Fragment>, x: int, y: int) {
    exists k :: 0 <= k < |fs| && fs[k].x == x as real && fs[k].y == y as real
  }

  lemma HasAppend(fs: seq<Fragment>, gs: seq<Fragment>, x: int, y: int)
    ensures Has(fs + gs, x, y) <==> Has(fs, x, y) || Has(gs, x, y)
  {
    if Has(fs + gs, x, y) {
      var k :| 0 <= k < |fs + gs| && (fs + gs)[k].x == x as real && (fs + gs)[k].y == y as real;
      if k >= |fs| {
        assert gs[k - |fs|] == (fs + gs)[k];
      }
    }
    if Has(gs, x, y) {
      var k :| 0 <= k < |gs| && gs[k].x == x as real && gs[k].y == y as real;
      assert (fs + gs)[|fs| + k] == gs[k];
    }
    if Has(fs, x, y) {
      var k :| 0 <= k < |fs| && fs[k].x == x as real && fs[k].y == y as real;
      assert (fs + gs)[k] == fs[k];
    }
  }

  lemma {:induction false} RowHas(s: Setup, y: int, x0: int, x: int, px: int, py: int)
    requires Drawable(s)
    ensures Has(Row(s, y, x0, x), px, py) <==> py == y && x0 <= px < x && Inside(Weights(s, px as real, py as real))
    decreases x - x0
  {
    if x > x0 {
      RowHas(s, y, x0, x - 1, px, py);
      HasAppend(Row(s, y, x0, x - 1), Cell(s, x - 1, y), px, py);
      if Has(Cell(s, x - 1, y), px, py) {
        assert px == x - 1 && py == y;
      }
      if py == y && px == x - 1 && Inside(Weights(s, px as real, py as real)) {
        assert Cell(s, x - 1, y)[0].x == px as real;
      }
    }
  }

  lemma {:induction false} RowsHas(s: Setup, box: Box, y0: int, y: int, px: int, py: int)
    requires Drawable(s)
    ensures Has(Rows(s, box, y0, y), px, py) <==>
      y0 <= py < y && box.minX <= px <= box.maxX && Inside(Weights(s, px as real, py as real))
    decreases y - y0
  {
    if y > y0 {
      RowsHas(s, box, y0, y - 1, px, py);
      RowHas(s, y - 1, box.minX, box.maxX + 1, px, py);
      HasAppend(Rows(s, box, y0, y - 1), Row(s, y - 1, box.minX, box.maxX + 1), px, py);
    }
  }

  /**
    Completeness of the scan: a pixel gets a fragment exactly when it is in
    the clamped bounding box and its centre is inside the triangle (on or
    off an edge: a zero weight still counts as inside).
   */
  lemma FragmentsExact(s: Setup, x: int, y: int)
    requires Drawable(s)
    ensures Has(Fragments(s), x, y) <==>
      Covers(BoundingBox(s.A(), s.B(), s.C()), x, y) && Inside(Weights(s, x as real, y as real))
  {
    var box := BoundingBox(s.A(), s.B(), s.C());
    RowsHas(s, box, box.minY, box.maxY + 1, x, y);
  }

  /** One row of the scan: columns first..last of row y, left to right. */
  method ScanRow(s: Setup, y: int, first: int, last: int) returns (row: seq<Fragment>)
    requires Drawable(s)
    ensures row == Row(s, y, first, last + 1)
  {
    row := [];
    if last < first {
      return;
    }
    var x := first;
    while x <= last
      invariant first <= x <= last + 1
      invariant row == Row(s, y, first, x)
      decreases last + 1 - x
    {
      row := row + Cell(s, x, y);
      x := x + 1;
    }
  }

  /**
    `triangle`: the culling checks, then for each row of the box and each
    column of the row, the fragment of that pixel if its centre is inside.
   */
  method Triangle(s: Setup) returns (fragments: seq<Fragment>)
    ensures fragments == Fragments(s)
    ensures !Drawable(s) ==> fragments == []
    ensures Ordered(fragments)
    ensures Drawable(s) ==> Within(s, fragments, Box(0, 0, LastColumn, LastRow))
  {
    FragmentsFacts(s);
    fragments := [];
    if !Drawable(s) {
      return;
    }
    var box := BoundingBox(s.A(), s.B(), s.C());
    if box.maxY < box.minY {
      return;
    }
    var y := box.minY;
    while y <= box.maxY
      invariant box.minY <= y <= box.maxY + 1
      invariant fragments == Rows(s, box, box.minY, y)
      decreases box.maxY + 1 - y
    {
      var row := ScanRow(s, y, box.minX, box.maxX);
      fragments := fragments + row;
      y := y + 1;
    }
  }
}
