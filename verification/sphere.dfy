/**
  `create_sphere`: a latitude/longitude grid of (s + 1) x (s + 1) vertices,
  ring by ring, and two triangles for each of the s x s grid cells, written
  six indices per cell in row-major order.
 */
module Sphere {
  import opened Numeric
  import opened Vectors
  import opened Transcendental
  import opened VertexStage
  import opened Render

  /** The position of grid vertex (lat, lon) in the vertex list: rings of s + 1 vertices. */
  function GridIndex(s: nat, lat: nat, lon: nat): nat {
    lat * (s + 1) + lon
  }

  /** A grid position within its ring is found again by division. */
  lemma GridIndexInverse(s: nat, lat: nat, lon: nat)
    requires lon <= s
    ensures GridIndex(s, lat, lon) / (s + 1) == lat && GridIndex(s, lat, lon) % (s + 1) == lon
  {
    DivUnique(GridIndex(s, lat, lon), s + 1, lat, lon);
  }

  /** Euclidean division has one quotient and one remainder. */
  lemma DivUnique(x: int, d: int, q: int, r: int)
    requires 0 <= r < d && x == q * d + r
    ensures x / d == q && x % d == r
  {
    var k := q - x / d;
    assert k * d == x % d - r;
    if k >= 1 {
      MulMonotone(1, k, d);
    }
  }

  /** Every grid vertex exists: the grid has (s + 1)² vertices. */
  lemma GridIndexBound(s: nat, lat: nat, lon: nat)
    requires lat <= s && lon <= s
    ensures GridIndex(s, lat, lon) < (s + 1) * (s + 1)
  {
    assert lat * (s + 1) <= s * (s + 1) by {
      MulMonotone(lat, s, s + 1);
    }
  }

  lemma MulMonotone(a: int, b: int, c: nat)
    requires a <= b
    ensures a * c <= b * c
  {
  }

  /** The next ring starts s + 1 positions further on. */
  lemma NextRing(s: nat, lat: nat, lon: nat)
    ensures GridIndex(s, lat + 1, lon) == GridIndex(s, lat, lon) + s + 1
  {
  }

  /**
    The vertex at ring lat (polar angle lat·π/s) and meridian lon
    (azimuth lon·2π/s), with its normalised position as normal and
    texture coordinates (0, 0).
   */
  function GridVertex(m: Math, radius: real, s: nat, lat: nat, lon: nat): Vertex
    requires 1 <= s
  {
    var theta := lat as real * Pi / s as real;
    var phi := lon as real * 2.0 * Pi / s as real;
    var position := Vec3(
      radius * m.sin(theta) * m.cos(phi),
      radius * m.cos(theta),
      radius * m.sin(theta) * m.sin(phi));
    NewVertex(position, m.normalize(position), Vec2(0.0, 0.0))
  }

  /**
    The vertex loops of `create_sphere`: (s + 1)² vertices, ring by ring,
    vertex k being grid vertex (k / (s + 1), k % (s + 1)). With no segment
    the angles would divide by zero (NaN in `f32`); the model needs one.
   */
  method SphereVertices(m: Math, radius: real, s: nat) returns (vs: seq<Vertex>)
    requires 1 <= s
    ensures |vs| == (s + 1) * (s + 1)
    ensures forall lat: nat, lon: nat :: lat <= s && lon <= s ==>
      GridIndex(s, lat, lon) < |vs| && vs[GridIndex(s, lat, lon)] == GridVertex(m, radius, s, lat, lon)
  {
    vs := [];
    for lat := 0 to s + 1
      invariant |vs| == GridIndex(s, lat, 0)
      invariant forall k :: 0 <= k < |vs| ==> vs[k] == VertexAt(m, radius, s, k)
    {
      for lon := 0 to s + 1
        invariant |vs| == GridIndex(s, lat, lon)
        invariant forall k :: 0 <= k < |vs| ==> vs[k] == VertexAt(m, radius, s, k)
      {
        GridIndexInverse(s, lat, lon);
        vs := vs + [GridVertex(m, radius, s, lat, lon)];
      }
      NextRing(s, lat, 0);
    }
    assert GridIndex(s, s + 1, 0) == (s + 1) * (s + 1);
    forall lat: nat, lon: nat | lat <= s && lon <= s
      ensures GridIndex(s, lat, lon) < |vs| && vs[GridIndex(s, lat, lon)] == GridVertex(m, radius, s, lat, lon)
    {
      GridIndexBound(s, lat, lon);
      GridIndexInverse(s, lat, lon);
    }
  }

  /** Vertex k of the list, read as a grid position. */
  function VertexAt(m: Math, radius: real, s: nat, k: nat): Vertex
    requires 1 <= s
  {
    GridVertex(m, radius, s, k / (s + 1), k % (s + 1))
  }

  /**
    The six indices of cell (lat, lon): `first` and `first + 1` on ring
    lat, `second = first + s + 1` and `second + 1` on ring lat + 1.
   */
  function Cell(s: nat, lat: nat, lon: nat): seq<nat> {
    var first := GridIndex(s, lat, lon);
    var second := first + s + 1;
    [first, second, first + 1, second, second + 1, first + 1]
  }

  /**
    The two triangles of a cell are (lat, lon), (lat + 1, lon), (lat, lon + 1)
    and (lat + 1, lon), (lat + 1, lon + 1), (lat, lon + 1): the four corners
    of the grid cell, each triangle with both rings.
   */
  lemma CellCorners(s: nat, lat: nat, lon: nat)
    ensures Cell(s, lat, lon) == [
      GridIndex(s, lat, lon), GridIndex(s, lat + 1, lon), GridIndex(s, lat, lon + 1),
      GridIndex(s, lat + 1, lon), GridIndex(s, lat + 1, lon + 1), GridIndex(s, lat, lon + 1)]
  {
    NextRing(s, lat, lon);
    NextRing(s, lat, lon + 1);
  }

  /** The indices of the first n cells of ring lat. */
  function RingCells(s: nat, lat: nat, n: nat): seq<nat> {
    if n == 0 then [] else RingCells(s, lat, n - 1) + Cell(s, lat, n - 1)
  }

  /** The indices of the cells of the first n rings. */
  function RingsBelow(s: nat, n: nat): seq<nat> {
    if n == 0 then [] else RingsBelow(s, n - 1) + RingCells(s, n - 1, s)
  }

  /** The index list `create_sphere` returns for s segments. */
  function SphereIndices(s: nat): seq<nat> {
    RingsBelow(s, s)
  }

  /** Six indices per cell. */
  lemma {:induction false} RingCellsLength(s: nat, lat: nat, n: nat)
    ensures |RingCells(s, lat, n)| == 6 * n
  {
    if n > 0 {
      RingCellsLength(s, lat, n - 1);
    }
  }

  lemma {:induction false} RingsBelowLength(s: nat, n: nat)
    ensures |RingsBelow(s, n)| == 6 * s * n
  {
    if n > 0 {
      RingsBelowLength(s, n - 1);
      RingCellsLength(s, n - 1, s);
    }
  }

  /** Every index of a cell of the grid names a grid vertex. */
  lemma CellBound(s: nat, lat: nat, lon: nat)
    requires lat < s && lon < s
    ensures forall i <- Cell(s, lat, lon) :: i < (s + 1) * (s + 1)
  {
    CellCorners(s, lat, lon);
    GridIndexBound(s, lat + 1, lon + 1);
    GridIndexBound(s, lat, lon + 1);
    GridIndexBound(s, lat + 1, lon);
    GridIndexBound(s, lat, lon);
  }

  lemma {:induction false} RingCellsBound(s: nat, lat: nat, n: nat)
    requires lat < s && n <= s
    ensures forall i <- RingCells(s, lat, n) :: i < (s + 1) * (s + 1)
  {
    if n > 0 {
      RingCellsBound(s, lat, n - 1);
      CellBound(s, lat, n - 1);
    }
  }

  lemma {:induction false} RingsBelowBound(s: nat, n: nat)
    requires n <= s
    ensures forall i <- RingsBelow(s, n) :: i < (s + 1) * (s + 1)
  {
    if n > 0 {
      RingsBelowBound(s, n - 1);
      RingCellsBound(s, n - 1, s);
    }
  }

  /** `create_sphere` yields 6·s² indices, each naming one of the (s + 1)² vertices. */
  lemma SphereIndicesShape(s: nat)
    ensures |SphereIndices(s)| == 6 * (s * s)
    ensures forall i <- SphereIndices(s) :: i < (s + 1) * (s + 1)
  {
    RingsBelowLength(s, s);
    RingsBelowBound(s, s);
  }

  /**
    The index loops of `create_sphere`. The indices are `u32`, and so is
    the arithmetic on them, which overflows (a panic in a debug build)
    unless the (s + 1)² vertex positions fit in 32 bits.
   */
  method CreateIndices(s: nat) returns (indices: seq<U32>)
    requires (s + 1) * (s + 1) <= 0x1_0000_0000
    ensures indices == SphereIndices(s)
    ensures |indices| == 6 * (s * s)
  {
    SphereIndicesShape(s);
    indices := [];
    for lat := 0 to s
      invariant indices == RingsBelow(s, lat)
    {
      for lon := 0 to s
        invariant indices == RingsBelow(s, lat) + RingCells(s, lat, lon)
      {
        indices := EmitCell(s, lat, lon, indices);
      }
    }
  }

  /** One pass of the inner index loop: the six indices of cell (lat, lon) appended. */
  method EmitCell(s: nat, lat: nat, lon: nat, indices: seq<U32>) returns (indices': seq<U32>)
    requires (s + 1) * (s + 1) <= 0x1_0000_0000
    requires lat < s && lon < s
    requires indices == RingsBelow(s, lat) + RingCells(s, lat, lon)
    ensures indices' == RingsBelow(s, lat) + RingCells(s, lat, lon + 1)
  {
    CellBound(s, lat, lon);
    var cell := Cell(s, lat, lon);
    assert cell[4] in cell;
    var first: U32 := GridIndex(s, lat, lon);
    var second: U32 := first + s + 1;
    var six: seq<U32> := [first, second, first + 1, second, second + 1, first + 1];
    assert six == cell;
    indices' := indices + six;
    AppendAssoc(RingsBelow(s, lat), RingCells(s, lat, lon), cell);
  }

  lemma AppendAssoc<T>(a: seq<T>, b: seq<T>, c: seq<T>)
    ensures (a + b) + c == a + (b + c)
  {
  }

  /** `render_object` draws every one of the sphere's 2·s² triangles: none is skipped as out of range. */
  lemma SphereFullyDrawn(indices: seq<U32>, s: nat)
    requires indices == SphereIndices(s)
    ensures |Groups(indices, (s + 1) * (s + 1))| == 2 * (s * s)
  {
    SphereIndicesShape(s);
    var cells := s * s;
    assert |indices| == 6 * cells;
    FullyDrawn(indices, (s + 1) * (s + 1));
  }
}
