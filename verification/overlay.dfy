/**
  What the renderer draws on top of the rasterised scene: the projection of
  a world point straight to the screen, which rejects points behind the
  camera or outside the view, and the integer line walk used for orbits.
 */
module Overlay {
  import opened Numeric
  import opened Vectors
  import opened Matrices
  import opened VertexStage

  /**
    `world_to_screen`: the point is projected with w = 1; a non-positive w
    or an x or y outside [-1, 1] after the divide rejects it. Unlike the
    vertex stage there is no 0.001 guard on w and depth stays the raw
    NDC z.
   */
  function WorldToScreen(vp: Mat4, p: Vec3, width: real, height: real): (r: Option<Vec3>)
    ensures var q := Transform(vp, Vec4(p.x, p.y, p.z, 1.0));
      r.None? <==> q.w <= 0.0 || !(-1.0 <= q.x / q.w <= 1.0) || !(-1.0 <= q.y / q.w <= 1.0)
    ensures r.Some? && 0.0 <= width ==> 0.0 <= r.value.x <= width
    ensures r.Some? && 0.0 <= height ==> 0.0 <= r.value.y <= height
    ensures var q := Transform(vp, Vec4(p.x, p.y, p.z, 1.0));
      r.Some? ==> r.value.z * q.w == q.z
  {
    var q := Transform(vp, Vec4(p.x, p.y, p.z, 1.0));
    if q.w <= 0.0 then None
    else
      var nx, ny, nz := q.x / q.w, q.y / q.w, q.z / q.w;
      if nx < -1.0 || nx > 1.0 || ny < -1.0 || ny > 1.0 then None
      else
        var tx, ty := (nx + 1.0) * 0.5, (1.0 - ny) * 0.5;
        FractionOf(tx, width);
        FractionOf(ty, height);
        Some(Vec3(tx * width, ty * height, nz))
  }

  /**
    Where w is at least the vertex stage's 0.001 floor, an accepted point
    lands on the same screen x and y as the vertex stage puts it.
   */
  lemma WorldToScreenAgrees(vp: Mat4, p: Vec3, width: real, height: real)
    requires Transform(vp, Vec4(p.x, p.y, p.z, 1.0)).w >= 0.001
    ensures var q := Transform(vp, Vec4(p.x, p.y, p.z, 1.0));
      var s := ToScreen(Ndc(q), width, height);
      WorldToScreen(vp, p, width, height).Some? ==>
        WorldToScreen(vp, p, width, height).value == Vec3(s.x, s.y, Ndc(q).z)
  {
  }

  /** An integer pixel position. */
  datatype Pixel = Pixel(x: int, y: int)

  /** A framebuffer write: `point(x, y, depth)` after `set_current_color`. */
  datatype Write = Write(x: int, y: int, depth: real)

  /** The depth every line pixel is written at. */
  const LineDepth: real := 0.999

  /** The unit step from `from` toward `to`: 1 when `to` is larger, otherwise -1. */
  function Toward(from: int, to: int): (s: int)
    ensures s == 1 || s == -1
    ensures from < to <==> s == 1
  {
    if from < to then 1 else -1
  }

  /** Between the two coordinates, inclusive, in whichever order they come. */
  predicate Within(v: int, a: int, b: int) {
    a <= v <= b || b <= v <= a
  }

  /** One move of the walk: each axis stays or moves one unit in its direction, and at least one moves. */
  predicate Move(p: Pixel, q: Pixel, sx: int, sy: int) {
    && (q.x == p.x || q.x == p.x + sx)
    && (q.y == p.y || q.y == p.y + sy)
    && p != q
  }

  /** Every pixel of the walk is one move from the one before it. */
  predicate Moves(ps: seq<Pixel>, sx: int, sy: int) {
    forall k :: 0 <= k < |ps| - 1 ==> Move(ps[k], ps[k + 1], sx, sy)
  }

  /** Every pixel of the walk lies in the box spanned by the two endpoints. */
  predicate InSpan(ps: seq<Pixel>, x0: int, y0: int, x1: int, y1: int) {
    forall p <- ps :: Within(p.x, x0, x1) && Within(p.y, y0, y1)
  }

  lemma MovesAppend(ps: seq<Pixel>, p: Pixel, sx: int, sy: int)
    requires Moves(ps, sx, sy)
    requires |ps| > 0 ==> Move(ps[|ps| - 1], p, sx, sy)
    ensures Moves(ps + [p], sx, sy)
  {
    var qs := ps + [p];
    forall k | 0 <= k < |qs| - 1
      ensures Move(qs[k], qs[k + 1], sx, sy)
    {
      if k < |ps| - 1 {
        assert qs[k] == ps[k] && qs[k + 1] == ps[k + 1];
      }
    }
  }

  lemma InSpanAppend(ps: seq<Pixel>, p: Pixel, x0: int, y0: int, x1: int, y1: int)
    requires InSpan(ps, x0, y0, x1, y1)
    requires Within(p.x, x0, x1) && Within(p.y, y0, y1)
    ensures InSpan(ps + [p], x0, y0, x1, y1)
  {
  }

  /** The writes for the visited pixels that lie on a width x height framebuffer, in visiting order. */
  function OnScreen(ps: seq<Pixel>, width: int, height: int): (ws: seq<Write>)
    ensures |ws| <= |ps|
    ensures forall w <- ws :: 0 <= w.x < width && 0 <= w.y < height && w.depth == LineDepth
    ensures forall w <- ws :: Pixel(w.x, w.y) in ps
    ensures forall p <- ps :: 0 <= p.x < width && 0 <= p.y < height ==> Write(p.x, p.y, LineDepth) in ws
  {
    if ps == [] then []
    else
      var p := ps[|ps| - 1];
      var rest := OnScreen(ps[..|ps| - 1], width, height);
      assert ps == ps[..|ps| - 1] + [p];
      if 0 <= p.x < width && 0 <= p.y < height then rest + [Write(p.x, p.y, LineDepth)] else rest
  }

  lemma OnScreenAppend(ps: seq<Pixel>, p: Pixel, width: int, height: int)
    ensures OnScreen(ps + [p], width, height)
      == OnScreen(ps, width, height) + (if 0 <= p.x < width && 0 <= p.y < height then [Write(p.x, p.y, LineDepth)] else [])
  {
    assert (ps + [p])[..|ps + [p]| - 1] == ps;
  }

  /**
    k * n as repeated addition. The walk's error term is stated with it, so
    that the loop reasoning stays linear; `TimesIsProduct` connects it to
    multiplication where that is needed.
   */
  function Times(k: int, n: nat): int {
    if n == 0 then 0 else Times(k, n - 1) + k
  }

  lemma {:induction false} TimesIsProduct(k: int, n: nat)
    ensures Times(k, n) == k * n
  {
    if n > 0 {
      TimesIsProduct(k, n - 1);
    }
  }

  /** The error term after i steps in x and j steps in y: a * (1 + j) - b * (1 + i). */
  function Error(a: int, b: int, i: nat, j: nat): int {
    Times(a, 1 + j) - Times(b, 1 + i)
  }

  lemma ErrorSteps(a: int, b: int, i: nat, j: nat)
    ensures Error(a, b, i + 1, j) == Error(a, b, i, j) - b
    ensures Error(a, b, i, j + 1) == Error(a, b, i, j) + a
  {
  }

  /** With x stuck at its target, the error term never asks for an x step. */
  lemma NoStepPastX(a: nat, b: int, j: nat)
    requires j < b
    ensures 2 * Error(a, b, a, j) < -b
  {
    TimesIsProduct(a, 1 + j);
    TimesIsProduct(b, 1 + a);
    MulLe(a, 1 + j, b);
    assert a * (1 + j) <= a * b;
    assert b * (1 + a) == b + a * b;
  }

  /** With y stuck at its target, the error term never asks for a y step. */
  lemma NoStepPastY(a: int, b: nat, i: nat)
    requires i < a
    ensures 2 * Error(a, b, i, b) > a
  {
    TimesIsProduct(a, 1 + b);
    TimesIsProduct(b, 1 + i);
    MulLe(b, 1 + i, a);
    assert b * (1 + i) <= a * b;
    assert a * (1 + b) == a + a * b;
  }

  lemma MulLe(k: int, m: int, n: int)
    requires 0 <= k && m <= n
    ensures k * m <= k * n
  {
  }

  /** The coordinate k unit steps from `from` toward `to`. */
  function Coord(from: int, to: int, k: int): int {
    if from < to then from + k else from - k
  }

  lemma CoordStep(from: int, to: int, k: int)
    ensures Coord(from, to, k + 1) == Coord(from, to, k) + Toward(from, to)
  {
  }

  /** `(to - from).abs()`: the number of unit steps from `from` to `to`. */
  function Dist(from: int, to: int): (d: nat)
    ensures Coord(from, to, d) == to
    ensures Coord(from, to, 0) == from
  {
    if from < to then to - from else from - to
  }

  lemma CoordWithin(from: int, to: int, k: int)
    requires 0 <= k <= Dist(from, to)
    ensures Within(Coord(from, to, k), from, to)
  {
  }

  /**
    One pass of the loop's stepping part, on the step counts: with `e2`
    twice the error, x steps when `e2 >= dy` and y steps when `e2 <= dx`,
    the error absorbing each. Away from the target at least one coordinate
    steps and neither passes its target.
   */
  method Step(a: nat, b: nat, i: nat, j: nat, err: int) returns (ni: nat, nj: nat, nerr: int)
    requires 0 <= i <= a && 0 <= j <= b && (i != a || j != b)
    requires err == Error(a, b, i, j)
    ensures ni == i || ni == i + 1
    ensures nj == j || nj == j + 1
    ensures ni != i || nj != j
    ensures ni <= a && nj <= b
    ensures nerr == Error(a, b, ni, nj)
  {
    var dx: int, dy: int := a, -(b as int);
    var e2 := 2 * err;
    ErrorSteps(a, b, i, j);
    if i == a {
      NoStepPastX(a, b, j);
    }
    if j == b {
      NoStepPastY(a, b, i);
    }
    ni, nj, nerr := i, j, err;
    if e2 >= dy {
      nerr := nerr + dy;
      ni := i + 1;
    }
    if e2 <= dx {
      ErrorSteps(a, b, ni, j);
      nerr := nerr + dx;
      nj := j + 1;
    }
  }

  /**
    `draw_line`: Bresenham's walk from (x0, y0) to (x1, y1). It returns the
    pixels visited in order and the writes made for the ones on the
    framebuffer. The walk starts and ends at the endpoints, moves each
    coordinate by at most one toward its target per step, never leaves the
    box between the endpoints, and takes between max(|dx|, |dy|) and
    |dx| + |dy| steps.
   */
  method DrawLine(x0: int, y0: int, x1: int, y1: int, width: int, height: int)
    returns (visited: seq<Pixel>, writes: seq<Write>)
    ensures Walked(visited, x0, y0, x1, y1, Dist(x0, x1), Dist(y0, y1))
    ensures writes == OnScreen(visited, width, height)
  {
    visited, writes := Plot([], [], Pixel(x0, y0), width, height);
    visited, writes := Walk(x0, y0, x1, y1, width, height, visited, writes);
  }

  /**
    The loop of `draw_line`, entered just after the first plot: it steps
    and plots until it stands on the target, keeping the walk's shape.
   */
  method Walk(x0: int, y0: int, x1: int, y1: int, width: int, height: int, visited: seq<Pixel>, writes: seq<Write>)
    returns (visited': seq<Pixel>, writes': seq<Write>)
    requires visited == [Pixel(x0, y0)] && writes == OnScreen(visited, width, height)
    ensures Walked(visited', x0, y0, x1, y1, Dist(x0, x1), Dist(y0, y1))
    ensures writes' == OnScreen(visited', width, height)
  {
    var a, b := Dist(x0, x1), Dist(y0, y1);
    var err: int := a as int - b;
    TimesIsProduct(a, 1);
    TimesIsProduct(b, 1);
    var x, y := x0, y0;
    var i: nat, j: nat := 0, 0;
    visited', writes' := visited, writes;
    while !(x == x1 && y == y1)
      invariant 0 <= i <= a && 0 <= j <= b
      invariant x == Coord(x0, x1, i) && y == Coord(y0, y1, j)
      invariant err == Error(a, b, i, j)
      invariant Walked(visited', x0, y0, x1, y1, i, j)
      invariant writes' == OnScreen(visited', width, height)
      decreases (a - i) + (b - j)
    {
      i, j, err, x, y, visited', writes' := Advance(x0, y0, x1, y1, width, height, i, j, err, visited', writes');
    }
  }

  /**
    The walk so far: it starts at (x0, y0), stands at the pixel i steps in
    x and j steps in y along, moves only toward the target and stays in the
    box, with one visited pixel per pass.
   */
  predicate Walked(visited: seq<Pixel>, x0: int, y0: int, x1: int, y1: int, i: nat, j: nat) {
    && 1 <= |visited|
    && visited[0] == Pixel(x0, y0)
    && visited[|visited| - 1] == Pixel(Coord(x0, x1, i), Coord(y0, y1, j))
    && MaxInt(i, j) + 1 <= |visited| <= i + j + 1
    && Moves(visited, Toward(x0, x1), Toward(y0, y1))
    && InSpan(visited, x0, y0, x1, y1)
  }

  /** A walk of the full step counts stands on the target: `draw_line` ends at (x1, y1). */
  lemma WalkedEnds(visited: seq<Pixel>, x0: int, y0: int, x1: int, y1: int)
    requires Walked(visited, x0, y0, x1, y1, Dist(x0, x1), Dist(y0, y1))
    ensures visited[|visited| - 1] == Pixel(x1, y1)
  {
  }

  /** One pass of the loop away from the target: step, move the coordinates with the counts, plot. */
  method Advance(x0: int, y0: int, x1: int, y1: int, width: int, height: int, i: nat, j: nat, err: int,
                 visited: seq<Pixel>, writes: seq<Write>)
    returns (ni: nat, nj: nat, nerr: int, x: int, y: int, visited': seq<Pixel>, writes': seq<Write>)
    requires i <= Dist(x0, x1) && j <= Dist(y0, y1) && (i != Dist(x0, x1) || j != Dist(y0, y1))
    requires err == Error(Dist(x0, x1), Dist(y0, y1), i, j)
    requires Walked(visited, x0, y0, x1, y1, i, j)
    requires writes == OnScreen(visited, width, height)
    ensures i <= ni <= Dist(x0, x1) && j <= nj <= Dist(y0, y1) && i + j < ni + nj
    ensures x == Coord(x0, x1, ni) && y == Coord(y0, y1, nj)
    ensures nerr == Error(Dist(x0, x1), Dist(y0, y1), ni, nj)
    ensures Walked(visited', x0, y0, x1, y1, ni, nj)
    ensures writes' == OnScreen(visited', width, height)
  {
    x, y := Coord(x0, x1, i), Coord(y0, y1, j);
    ni, nj, nerr := Step(Dist(x0, x1), Dist(y0, y1), i, j, err);
    CoordStep(x0, x1, i);
    CoordStep(y0, y1, j);
    if ni == i + 1 {
      x := x + Toward(x0, x1);
    }
    if nj == j + 1 {
      y := y + Toward(y0, y1);
    }
    CoordWithin(x0, x1, ni);
    CoordWithin(y0, y1, nj);
    MovesAppend(visited, Pixel(x, y), Toward(x0, x1), Toward(y0, y1));
    InSpanAppend(visited, Pixel(x, y), x0, y0, x1, y1);
    visited', writes' := Plot(visited, writes, Pixel(x, y), width, height);
  }

  /** The plotting part of one pass: the pixel is visited, and written only when it lies on the framebuffer. */
  method Plot(visited: seq<Pixel>, writes: seq<Write>, p: Pixel, width: int, height: int)
    returns (visited': seq<Pixel>, writes': seq<Write>)
    requires writes == OnScreen(visited, width, height)
    ensures visited' == visited + [p]
    ensures writes' == OnScreen(visited', width, height)
    ensures 0 <= p.x < width && 0 <= p.y < height ==> writes' == writes + [Write(p.x, p.y, LineDepth)]
    ensures !(0 <= p.x < width && 0 <= p.y < height) ==> writes' == writes
  {
    OnScreenAppend(visited, p, width, height);
    writes' := writes;
    if 0 <= p.x < width && 0 <= p.y < height {
      writes' := writes + [Write(p.x, p.y, LineDepth)];
    }
    visited' := visited + [p];
  }
}
