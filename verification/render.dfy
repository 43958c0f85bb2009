/**
  `render_object`: every vertex through the vertex stage, the index list
  read in groups of three, each complete group whose indices all name a
  vertex rasterised, and each fragment that lands on the framebuffer
  written there with its packed colour and depth.
 */
module Render {
  import opened Numeric
  import opened Vectors
  import opened Transcendental
  import opened Colors
  import opened Matrices
  import opened VertexStage
  import opened Raster

  /** `as usize` on a float, which saturates: negatives become 0 and fractions are cut off. */
  function UsizeCast(v: real): (n: nat)
    ensures v <= 0.0 ==> n == 0
    ensures 0.0 <= v ==> n as real <= v < n as real + 1.0
  {
    if v <= 0.0 then 0 else v.Floor
  }

  /** A framebuffer write: `set_current_color(color)` then `point(x, y, depth)`. */
  datatype Point = Point(x: nat, y: nat, color: U32, depth: real)

  /** The write a fragment asks for. */
  function PointOf(f: Fragment): Point {
    Point(UsizeCast(f.x), UsizeCast(f.y), ToHex(f.color), f.depth)
  }

  /** A fragment lands on a width x height framebuffer. */
  predicate Lands(f: Fragment, width: nat, height: nat) {
    UsizeCast(f.x) < width && UsizeCast(f.y) < height
  }

  /**
    The writes for a run of fragments: exactly the fragments that land on
    the framebuffer, in order. Nothing outside the framebuffer is written.
   */
  function Sink(fs: seq<Fragment>, width: nat, height: nat): (ps: seq<Point>)
    ensures |ps| <= |fs|
    ensures forall p <- ps :: p.x < width && p.y < height && p.color < 0x100_0000
    ensures forall f <- fs :: Lands(f, width, height) ==> PointOf(f) in ps
    ensures forall p <- ps :: exists f <- fs :: Lands(f, width, height) && p == PointOf(f)
  {
    if fs == [] then []
    else
      var f := fs[|fs| - 1];
      var rest := Sink(fs[..|fs| - 1], width, height);
      assert fs == fs[..|fs| - 1] + [f];
      if Lands(f, width, height) then rest + [PointOf(f)] else rest
  }

  lemma SinkAppend(fs: seq<Fragment>, f: Fragment, width: nat, height: nat)
    ensures Sink(fs + [f], width, height)
      == Sink(fs, width, height) + (if Lands(f, width, height) then [PointOf(f)] else [])
  {
    assert (fs + [f])[..|fs + [f]| - 1] == fs;
  }

  /** The inner loop over one triangle's fragments. */
  method Draw(fs: seq<Fragment>, width: nat, height: nat) returns (ps: seq<Point>)
    ensures ps == Sink(fs, width, height)
  {
    ps := [];
    for k := 0 to |fs|
      invariant ps == Sink(fs[..k], width, height)
    {
      SinkAppend(fs[..k], fs[k], width, height);
      assert fs[..k + 1] == fs[..k] + [fs[k]];
      var x, y := UsizeCast(fs[k].x), UsizeCast(fs[k].y);
      if x < width && y < height {
        ps := ps + [Point(x, y, ToHex(fs[k].color), fs[k].depth)];
      }
    }
    assert fs[..|fs|] == fs;
  }

  /** Three vertex indices. */
  datatype Tri = Tri(i1: nat, i2: nat, i3: nat)

  /** The indices of group h, the one starting at position 3h. */
  function GroupAt(indices: seq<U32>, h: nat): Tri
    requires 3 * h + 2 < |indices|
  {
    Tri(indices[3 * h], indices[3 * h + 1], indices[3 * h + 2])
  }

  /** Group h is drawn: it is complete and each of its indices names one of the n vertices. */
  predicate Used(indices: seq<U32>, n: nat, h: nat) {
    && 3 * h + 2 < |indices|
    && indices[3 * h] < n && indices[3 * h + 1] < n && indices[3 * h + 2] < n
  }

  /** The triangles drawn from the first g groups, in order. */
  function GroupsBelow(indices: seq<U32>, n: nat, g: nat): (ts: seq<Tri>)
    ensures forall t <- ts :: t.i1 < n && t.i2 < n && t.i3 < n
  {
    if g == 0 then []
    else GroupsBelow(indices, n, g - 1) + (if Used(indices, n, g - 1) then [GroupAt(indices, g - 1)] else [])
  }

  /** `(0..len).step_by(3)` visits ceil(len / 3) group starts. */
  function GroupCount(len: nat): nat {
    (len + 2) / 3
  }

  /** The triangles `render_object` draws for n vertices. */
  function Groups(indices: seq<U32>, n: nat): seq<Tri> {
    GroupsBelow(indices, n, GroupCount(|indices|))
  }

  /** A triangle is drawn exactly when it is a used group among the first g. */
  lemma {:induction false} GroupsBelowExact(indices: seq<U32>, n: nat, g: nat, t: Tri)
    ensures t in GroupsBelow(indices, n, g) <==> exists h :: 0 <= h < g && Used(indices, n, h) && t == GroupAt(indices, h)
  {
    if g > 0 {
      GroupsBelowExact(indices, n, g - 1, t);
    }
  }

  /** The drawn triangles are the used groups. */
  lemma GroupsExact(indices: seq<U32>, n: nat, t: Tri)
    ensures t in Groups(indices, n) <==> exists h: nat :: Used(indices, n, h) && t == GroupAt(indices, h)
  {
    GroupsBelowExact(indices, n, GroupCount(|indices|), t);
    forall h: nat | Used(indices, n, h)
      ensures h < GroupCount(|indices|)
    {
    }
  }

  /** Groups inside a prefix are read the same whatever follows it. */
  lemma {:induction false} GroupsBelowPrefix(indices: seq<U32>, tail: seq<U32>, n: nat, g: nat)
    requires 3 * g <= |indices|
    ensures GroupsBelow(indices + tail, n, g) == GroupsBelow(indices, n, g)
  {
    if g > 0 {
      GroupsBelowPrefix(indices, tail, n, g - 1);
      var h := g - 1;
      if 3 * h + 2 < |indices| {
        assert (indices + tail)[3 * h] == indices[3 * h];
        assert (indices + tail)[3 * h + 1] == indices[3 * h + 1];
        assert (indices + tail)[3 * h + 2] == indices[3 * h + 2];
      }
    }
  }

  /** A trailing group of one or two indices draws nothing. */
  lemma TrailingIgnored(indices: seq<U32>, tail: seq<U32>, n: nat)
    requires |indices| % 3 == 0 && |tail| < 3
    ensures Groups(indices + tail, n) == Groups(indices, n)
  {
    var g := |indices| / 3;
    GroupsBelowPrefix(indices, tail, n, g);
    if tail != [] {
      assert GroupCount(|indices + tail|) == g + 1;
      assert !Used(indices + tail, n, g);
    } else {
      assert indices + tail == indices;
    }
  }

  /** A group naming a vertex that does not exist is skipped. */
  lemma OutOfRangeSkipped(indices: seq<U32>, n: nat, h: nat)
    requires 3 * h + 2 < |indices|
    requires indices[3 * h] >= n || indices[3 * h + 1] >= n || indices[3 * h + 2] >= n
    ensures GroupAt(indices, h) !in Groups(indices, n)
  {
    GroupsExact(indices, n, GroupAt(indices, h));
  }

  /** A complete index list whose every index names a vertex has every group used. */
  lemma {:induction false} EveryGroupUsed(indices: seq<U32>, n: nat, g: nat)
    requires 3 * g <= |indices|
    requires forall i <- indices :: i < n
    ensures |GroupsBelow(indices, n, g)| == g
  {
    if g > 0 {
      EveryGroupUsed(indices, n, g - 1);
      var h := g - 1;
      assert indices[3 * h] in indices && indices[3 * h + 1] in indices && indices[3 * h + 2] in indices;
      assert Used(indices, n, h);
    }
  }

  /** A list of whole triangles whose every index names one of the n vertices is drawn completely. */
  lemma FullyDrawn(indices: seq<U32>, n: nat)
    requires |indices| % 3 == 0
    requires forall i <- indices :: i < n
    ensures |Groups(indices, n)| == |indices| / 3
  {
    EveryGroupUsed(indices, n, |indices| / 3);
  }

  /** Every vertex through the vertex stage, in order. */
  function Transformed(m: Math, inverse: Mat3 -> Option<Mat3>, vs: seq<Vertex>, u: Uniforms): (ts: seq<Vertex>)
    ensures |ts| == |vs|
    ensures forall k :: 0 <= k < |vs| ==> ts[k] == VertexShader(m, inverse, vs[k], u)
  {
    seq(|vs|, k requires 0 <= k < |vs| => VertexShader(m, inverse, vs[k], u))
  }

  /**
    The rasteriser `render_object` hands each triangle to, as a function of
    the triangle's setup. The group loop below is correct for any such
    function; `RenderObject` instantiates it with `Raster.Fragments`, the
    model of `triangle`, which `Raster.Triangle` computes.
   */
  type Rasteriser = Setup -> seq<Fragment>

  /**
    The writes of one triangle of transformed vertices; a triangle naming a
    vertex that does not exist is never handed to the rasteriser.
   */
  function TriangleWrites(raster: Rasteriser, m: Math, u: Uniforms, ts: seq<Vertex>, width: nat, height: nat, t: Tri): (ps: seq<Point>)
    ensures forall p <- ps :: p.x < width && p.y < height && p.color < 0x100_0000
    ensures !(t.i1 < |ts| && t.i2 < |ts| && t.i3 < |ts|) ==> ps == []
  {
    if t.i1 < |ts| && t.i2 < |ts| && t.i3 < |ts| then Sink(raster(Setup(m, ts[t.i1], ts[t.i2], ts[t.i3], u)), width, height)
    else []
  }

  /** How one triangle is drawn: its writes on a width x height framebuffer. */
  function Drawer(raster: Rasteriser, m: Math, u: Uniforms, ts: seq<Vertex>, width: nat, height: nat): Tri -> seq<Point> {
    t => TriangleWrites(raster, m, u, ts, width, height, t)
  }

  /** The writes of a run of triangles, one triangle after another. */
  function AllWrites(draw: Tri -> seq<Point>, tris: seq<Tri>): seq<Point> {
    if tris == [] then []
    else AllWrites(draw, tris[..|tris| - 1]) + draw(tris[|tris| - 1])
  }

  lemma AllWritesAppend(draw: Tri -> seq<Point>, tris: seq<Tri>, t: Tri)
    ensures AllWrites(draw, tris + [t]) == AllWrites(draw, tris) + draw(t)
  {
    assert (tris + [t])[..|tris + [t]| - 1] == tris;
  }

  /** Every write of a run of triangles is a write of one of them, and each of their writes is made. */
  lemma {:induction false} AllWritesFrom(draw: Tri -> seq<Point>, tris: seq<Tri>, p: Point)
    ensures p in AllWrites(draw, tris) <==> exists t <- tris :: p in draw(t)
  {
    if tris != [] {
      var init, last := tris[..|tris| - 1], tris[|tris| - 1];
      AllWritesFrom(draw, init, p);
      assert tris == init + [last];
    }
  }

  /**
    The writes of the first g index groups, group by group: a used group
    adds its triangle's writes, any other group adds nothing.
   */
  function WritesBelow(draw: Tri -> seq<Point>, indices: seq<U32>, n: nat, g: nat): seq<Point> {
    if g == 0 then []
    else WritesBelow(draw, indices, n, g - 1) + (if Used(indices, n, g - 1) then draw(GroupAt(indices, g - 1)) else [])
  }

  /** Group by group, the writes are those of the drawn triangles in order. */
  lemma {:induction false} WritesBelowAreAllWrites(draw: Tri -> seq<Point>, indices: seq<U32>, n: nat, g: nat)
    ensures WritesBelow(draw, indices, n, g) == AllWrites(draw, GroupsBelow(indices, n, g))
  {
    if g > 0 {
      WritesBelowAreAllWrites(draw, indices, n, g - 1);
      var before := GroupsBelow(indices, n, g - 1);
      if Used(indices, n, g - 1) {
        AllWritesAppend(draw, before, GroupAt(indices, g - 1));
      } else {
        assert before + [] == before;
      }
    }
  }

  /** The vertex loop of `render_object`. */
  method TransformAll(m: Math, inverse: Mat3 -> Option<Mat3>, vs: seq<Vertex>, u: Uniforms) returns (ts: seq<Vertex>)
    ensures ts == Transformed(m, inverse, vs, u)
  {
    ts := [];
    for k := 0 to |vs|
      invariant |ts| == k
      invariant forall j :: 0 <= j < k ==> ts[j] == VertexShader(m, inverse, vs[j], u)
    {
      ts := ts + [VertexShader(m, inverse, vs[k], u)];
    }
  }

  /**
    `render_object`: the writes are those of the used index groups in
    order, each triangle's fragments filtered to the framebuffer. Every
    write is on the framebuffer, carries a 24-bit colour and comes from one
    of the drawn triangles.
   */
  method RenderObject(m: Math, inverse: Mat3 -> Option<Mat3>, u: Uniforms, vertices: seq<Vertex>,
                      indices: seq<U32>, width: nat, height: nat) returns (writes: seq<Point>)
    ensures var ts := Transformed(m, inverse, vertices, u);
      writes == AllWrites(Drawer(Fragments, m, u, ts, width, height), Groups(indices, |vertices|))
    ensures forall p <- writes :: p.x < width && p.y < height && p.color < 0x100_0000
  {
    var ts := TransformAll(m, inverse, vertices, u);
    var draw := Drawer(Fragments, m, u, ts, width, height);
    writes := DrawGroups(Fragments, m, u, ts, indices, width, height);
    WritesBelowAreAllWrites(draw, indices, |ts|, GroupCount(|indices|));
    forall p <- writes
      ensures p.x < width && p.y < height && p.color < 0x100_0000
    {
      AllWritesFrom(draw, Groups(indices, |ts|), p);
    }
  }

  /** The group loop of `render_object` over already transformed vertices. */
  method DrawGroups(raster: Rasteriser, m: Math, u: Uniforms, ts: seq<Vertex>, indices: seq<U32>, width: nat, height: nat)
    returns (writes: seq<Point>)
    ensures writes == WritesBelow(Drawer(raster, m, u, ts, width, height), indices, |ts|, GroupCount(|indices|))
  {
    writes := [];
    var k, g := 0, 0;
    while k < |indices|
      invariant k == 3 * g && k <= |indices| + 2
      invariant writes == WritesBelow(Drawer(raster, m, u, ts, width, height), indices, |ts|, g)
    {
      var ps := DrawGroup(raster, m, u, ts, indices, k, g, width, height);
      writes := writes + ps;
      k, g := k + 3, g + 1;
    }
    LoopCovers(|indices|, g);
  }

  /** The group loop stops after exactly ceil(len / 3) passes. */
  lemma LoopCovers(len: nat, g: nat)
    requires len <= 3 * g <= len + 2
    ensures g == GroupCount(len)
  {
  }

  /** One pass of the group loop: group g, starting at index position k, drawn if it is used. */
  method DrawGroup(raster: Rasteriser, m: Math, u: Uniforms, ts: seq<Vertex>, indices: seq<U32>, k: nat, g: nat, width: nat, height: nat)
    returns (ps: seq<Point>)
    requires k == 3 * g
    ensures Used(indices, |ts|, g) ==> ps == TriangleWrites(raster, m, u, ts, width, height, GroupAt(indices, g))
    ensures !Used(indices, |ts|, g) ==> ps == []
  {
    ps := [];
    if k + 2 < |indices| {
      var i1, i2, i3 := indices[k], indices[k + 1], indices[k + 2];
      if i1 < |ts| && i2 < |ts| && i3 < |ts| {
        var fragments := raster(Setup(m, ts[i1], ts[i2], ts[i3], u));
        ps := Draw(fragments, width, height);
      }
    }
  }
}
