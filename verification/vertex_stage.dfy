/**
  The per-vertex stage: the model and view-projection transforms, the
  perspective divide with its guarded divisor, the map from normalised
  device coordinates to the screen, and the normal transform.
 */
module VertexStage {
  import opened Numeric
  import opened Vectors
  import opened Transcendental
  import opened Colors
  import opened Matrices

  /**
    A mesh vertex: the object-space fields read from the mesh, and the two
    fields the vertex stage fills in.
   */
  datatype Vertex = Vertex(
    position: Vec3,
    normal: Vec3,
    texCoords: Vec2,
    color: Color,
    transformedPosition: Vec3,
    transformedNormal: Vec3)

  /**
    `Vertex::new`. Its source file is not part of this model; the vertex is
    taken to start black, with the transformed fields equal to the
    object-space position and normal.
   */
  function NewVertex(position: Vec3, normal: Vec3, texCoords: Vec2): Vertex {
    Vertex(position, normal, texCoords, Black, position, normal)
  }

  /** What the renderer hands to every stage for one object. */
  datatype Uniforms = Uniforms(
    modelMatrix: Mat4,
    viewProjection: Mat4,
    time: real,
    currentShader: U32,
    isMoon: bool,
    screenWidth: real,
    screenHeight: real)

  /** The clip-space position: the point with w = 1, through the model matrix, then the view-projection. */
  function Projected(u: Uniforms, p: Vec3): Vec4 {
    Transform(u.viewProjection, Transform(u.modelMatrix, Vec4(p.x, p.y, p.z, 1.0)))
  }

  /** `w.max(0.001)`: the divide never uses a divisor below 0.001. */
  function Divisor(w: real): (d: real)
    ensures 0.001 <= d
    ensures 0.001 <= w ==> d == w
    ensures w < 0.001 ==> d == 0.001
  {
    Max(w, 0.001)
  }

  /** Normalised device coordinates: each clip coordinate divided by the guarded w. */
  function Ndc(q: Vec4): (n: Vec3)
    ensures n.x * Divisor(q.w) == q.x && n.y * Divisor(q.w) == q.y && n.z * Divisor(q.w) == q.z
  {
    var w := Divisor(q.w);
    Vec3(q.x / w, q.y / w, q.z / w)
  }

  /**
    NDC to the screen: x from [-1, 1] onto [0, width], y flipped onto
    [height, 0], and z from [-1, 1] onto [0, 1].
   */
  function ToScreen(n: Vec3, width: real, height: real): (s: Vec3)
    ensures 0.0 <= width && -1.0 <= n.x <= 1.0 ==> 0.0 <= s.x <= width
    ensures 0.0 <= height && -1.0 <= n.y <= 1.0 ==> 0.0 <= s.y <= height
    ensures n.x == -1.0 ==> s.x == 0.0
    ensures n.x == 1.0 ==> s.x == width
    ensures n.y == 1.0 ==> s.y == 0.0
    ensures n.y == -1.0 ==> s.y == height
    ensures 0.0 <= s.z <= 1.0 <==> -1.0 <= n.z <= 1.0
  {
    var tx, ty := (n.x + 1.0) * 0.5, (1.0 - n.y) * 0.5;
    FractionOf(tx, width);
    FractionOf(ty, height);
    Vec3(tx * width, ty * height, (n.z + 1.0) * 0.5)
  }

  lemma FractionOf(t: real, size: real)
    ensures 0.0 <= size && 0.0 <= t <= 1.0 ==> 0.0 <= t * size <= size
  {
    if 0.0 <= size && 0.0 <= t <= 1.0 {
      MulAtMost(size, t);
    }
  }

  /** Reading a screen position back into NDC. */
  function FromScreen(s: Vec3, width: real, height: real): Vec3
    requires width != 0.0 && height != 0.0
  {
    Vec3(s.x / width * 2.0 - 1.0, 1.0 - s.y / height * 2.0, s.z * 2.0 - 1.0)
  }

  /** The screen map loses nothing on a non-degenerate screen. */
  lemma ScreenRoundTrip(n: Vec3, width: real, height: real)
    requires width != 0.0 && height != 0.0
    ensures FromScreen(ToScreen(n, width, height), width, height) == n
  {
    var s := ToScreen(n, width, height);
    Cancel((n.x + 1.0) * 0.5, width);
    Cancel((1.0 - n.y) * 0.5, height);
  }

  lemma Cancel(t: real, k: real)
    requires k != 0.0
    ensures t * k / k == t
  {
  }

  /**
    `vertex_shader`: the object-space fields pass through and only the two
    transformed fields are new. A point inside the NDC cube lands on the
    screen, with depth in [0, 1].
   */
  function VertexShader(m: Math, inverse: Mat3 -> Option<Mat3>, v: Vertex, u: Uniforms): (r: Vertex)
    ensures r.position == v.position && r.normal == v.normal
    ensures r.texCoords == v.texCoords && r.color == v.color
    ensures 0.0 <= r.transformedPosition.z <= 1.0 <==> -1.0 <= Ndc(Projected(u, v.position)).z <= 1.0
    ensures var n := Ndc(Projected(u, v.position));
      && (0.0 <= u.screenWidth && -1.0 <= n.x <= 1.0 ==> 0.0 <= r.transformedPosition.x <= u.screenWidth)
      && (0.0 <= u.screenHeight && -1.0 <= n.y <= 1.0 ==> 0.0 <= r.transformedPosition.y <= u.screenHeight)
    ensures r.transformedNormal == m.normalize(Apply3(NormalMatrix(inverse, u.modelMatrix), v.normal))
  {
    var screen := ToScreen(Ndc(Projected(u, v.position)), u.screenWidth, u.screenHeight);
    var normal := m.normalize(Apply3(NormalMatrix(inverse, u.modelMatrix), v.normal));
    v.(transformedPosition := screen, transformedNormal := normal)
  }

  /** The last row of an affine matrix is (0, 0, 0, 1), so it keeps w = 1. */
  predicate Affine(m: Mat4) {
    m[3] == 0.0 && m[7] == 0.0 && m[11] == 0.0 && m[15] == 1.0
  }

  /**
    With an orthographic projection and an affine model matrix, w stays 1,
    the guard never fires and NDC are the clip coordinates themselves.
   */
  lemma AffineSkipsDivide(u: Uniforms, p: Vec3)
    requires Affine(u.modelMatrix) && Affine(u.viewProjection)
    ensures Projected(u, p).w == 1.0
    ensures Ndc(Projected(u, p)) == Vec3(Projected(u, p).x, Projected(u, p).y, Projected(u, p).z)
  {
    var q := Transform(u.modelMatrix, Vec4(p.x, p.y, p.z, 1.0));
    assert q.w == 1.0;
  }
}
