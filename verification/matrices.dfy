/**
  The matrix arithmetic the vertex stage needs: 4x4 matrices stored column
  by column as nalgebra stores them, and 3x3 matrices written row by row as
  `Mat3::new` takes its arguments. Inversion itself is a parameter.
 */
module Matrices {
  import opened Numeric
  import opened Vectors

  /** The sixteen entries of a 4x4 matrix in column-major order: entry (row, col) is at `col * 4 + row`. */
  type Mat4 = s: seq<real> | |s| == 16
    witness [0.0, 0.0, 0.0, 0.0, 0.0, 0.0, 0.0, 0.0, 0.0, 0.0, 0.0, 0.0, 0.0, 0.0, 0.0, 0.0]

  function Entry4(m: Mat4, row: nat, col: nat): real
    requires row < 4 && col < 4
  {
    m[col * 4 + row]
  }

  /** `m * v` for a column vector v: component `row` is row `row` of m dotted with v. */
  function Transform(m: Mat4, v: Vec4): (r: Vec4)
    ensures r.x == Entry4(m, 0, 0) * v.x + Entry4(m, 0, 1) * v.y + Entry4(m, 0, 2) * v.z + Entry4(m, 0, 3) * v.w
    ensures r.y == Entry4(m, 1, 0) * v.x + Entry4(m, 1, 1) * v.y + Entry4(m, 1, 2) * v.z + Entry4(m, 1, 3) * v.w
    ensures r.z == Entry4(m, 2, 0) * v.x + Entry4(m, 2, 1) * v.y + Entry4(m, 2, 2) * v.z + Entry4(m, 2, 3) * v.w
    ensures r.w == Entry4(m, 3, 0) * v.x + Entry4(m, 3, 1) * v.y + Entry4(m, 3, 2) * v.z + Entry4(m, 3, 3) * v.w
  {
    Vec4(
      m[0] * v.x + m[4] * v.y + m[8] * v.z + m[12] * v.w,
      m[1] * v.x + m[5] * v.y + m[9] * v.z + m[13] * v.w,
      m[2] * v.x + m[6] * v.y + m[10] * v.z + m[14] * v.w,
      m[3] * v.x + m[7] * v.y + m[11] * v.z + m[15] * v.w)
  }

  /** A 3x3 matrix given row by row. */
  datatype Mat3 = Mat3(
    a: real, b: real, c: real,
    d: real, e: real, f: real,
    g: real, h: real, i: real)

  const Identity3 := Mat3(1.0, 0.0, 0.0, 0.0, 1.0, 0.0, 0.0, 0.0, 1.0)

  function Transpose(m: Mat3): Mat3 {
    Mat3(m.a, m.d, m.g, m.b, m.e, m.h, m.c, m.f, m.i)
  }

  lemma TransposeInvolution(m: Mat3)
    ensures Transpose(Transpose(m)) == m
  {
  }

  function Mul(x: Mat3, y: Mat3): Mat3 {
    Mat3(
      x.a * y.a + x.b * y.d + x.c * y.g, x.a * y.b + x.b * y.e + x.c * y.h, x.a * y.c + x.b * y.f + x.c * y.i,
      x.d * y.a + x.e * y.d + x.f * y.g, x.d * y.b + x.e * y.e + x.f * y.h, x.d * y.c + x.e * y.f + x.f * y.i,
      x.g * y.a + x.h * y.d + x.i * y.g, x.g * y.b + x.h * y.e + x.i * y.h, x.g * y.c + x.h * y.f + x.i * y.i)
  }

  function Apply3(m: Mat3, v: Vec3): Vec3 {
    Vec3(m.a * v.x + m.b * v.y + m.c * v.z, m.d * v.x + m.e * v.y + m.f * v.z, m.g * v.x + m.h * v.y + m.i * v.z)
  }

  function Det(m: Mat3): real {
    m.a * (m.e * m.i - m.f * m.h) - m.b * (m.d * m.i - m.f * m.g) + m.c * (m.d * m.h - m.e * m.g)
  }

  /**
    What `Mat3::try_inverse` is taken to satisfy (its algorithm is not part
    of this model): it fails exactly on a zero determinant, and otherwise
    returns a right inverse.
   */
  ghost predicate IsInverter(inverse: Mat3 -> Option<Mat3>) {
    forall m: Mat3 ::
      && (inverse(m).None? <==> Det(m) == 0.0)
      && (inverse(m).Some? ==> Mul(m, inverse(m).value) == Identity3)
  }

  /** The upper-left 3x3 block of a 4x4 matrix, as a mathematician writes it. */
  function UpperLeft(m: Mat4): Mat3 {
    Mat3(Entry4(m, 0, 0), Entry4(m, 0, 1), Entry4(m, 0, 2),
         Entry4(m, 1, 0), Entry4(m, 1, 1), Entry4(m, 1, 2),
         Entry4(m, 2, 0), Entry4(m, 2, 1), Entry4(m, 2, 2))
  }

  /**
    `Mat3::new(m[0], m[1], m[2], m[4], m[5], m[6], m[8], m[9], m[10])`:
    linear indexing reads the storage column by column, while `Mat3::new`
    fills rows, so this is the transpose of the upper-left block.
   */
  function StorageBlock(m: Mat4): (s: Mat3)
    ensures s == Transpose(UpperLeft(m))
  {
    Mat3(m[0], m[1], m[2], m[4], m[5], m[6], m[8], m[9], m[10])
  }

  /**
    The normal matrix: the storage block transposed back, then inverted,
    falling back to the identity when that inverse does not exist.
   */
  function NormalMatrix(inverse: Mat3 -> Option<Mat3>, m: Mat4): (n: Mat3)
    ensures inverse(UpperLeft(m)).None? ==> n == Identity3
    ensures inverse(UpperLeft(m)).Some? ==> n == inverse(UpperLeft(m)).value
  {
    TransposeInvolution(UpperLeft(m));
    match inverse(Transpose(StorageBlock(m)))
    case Some(inv) => inv
    case None => Identity3
  }

  /**
    With a correct inverter the normal matrix inverts the upper-left block
    itself (not its inverse-transpose), or is the identity when that block
    is singular.
   */
  lemma NormalMatrixInverts(inverse: Mat3 -> Option<Mat3>, m: Mat4)
    requires IsInverter(inverse)
    ensures Det(UpperLeft(m)) == 0.0 ==> NormalMatrix(inverse, m) == Identity3
    ensures Det(UpperLeft(m)) != 0.0 ==> Mul(UpperLeft(m), NormalMatrix(inverse, m)) == Identity3
  {
    var b := UpperLeft(m);
    assert inverse(b).None? <==> Det(b) == 0.0;
    assert inverse(b).Some? ==> Mul(b, inverse(b).value) == Identity3;
  }

  /** The zero matrix is singular, so it takes the identity fallback. */
  lemma ZeroMatrixFallsBack(inverse: Mat3 -> Option<Mat3>)
    requires IsInverter(inverse)
    ensures NormalMatrix(inverse, [0.0, 0.0, 0.0, 0.0, 0.0, 0.0, 0.0, 0.0, 0.0, 0.0, 0.0, 0.0, 0.0, 0.0, 0.0, 0.0]) == Identity3
  {
    var m: Mat4 := [0.0, 0.0, 0.0, 0.0, 0.0, 0.0, 0.0, 0.0, 0.0, 0.0, 0.0, 0.0, 0.0, 0.0, 0.0, 0.0];
    assert UpperLeft(m) == Mat3(0.0, 0.0, 0.0, 0.0, 0.0, 0.0, 0.0, 0.0, 0.0);
    NormalMatrixInverts(inverse, m);
  }

  /**
    For a model matrix whose block is a diagonal scaling, the normal matrix
    scales by the reciprocals: a sphere stretched along x gets normals
    shrunk along x.
   */
  lemma DiagonalNormalMatrix(inverse: Mat3 -> Option<Mat3>, sx: real, sy: real, sz: real)
    requires IsInverter(inverse)
    requires sx != 0.0 && sy != 0.0 && sz != 0.0
    ensures NormalMatrix(inverse, [sx, 0.0, 0.0, 0.0, 0.0, sy, 0.0, 0.0, 0.0, 0.0, sz, 0.0, 0.0, 0.0, 0.0, 1.0])
      == Mat3(1.0 / sx, 0.0, 0.0, 0.0, 1.0 / sy, 0.0, 0.0, 0.0, 1.0 / sz)
  {
    var m: Mat4 := [sx, 0.0, 0.0, 0.0, 0.0, sy, 0.0, 0.0, 0.0, 0.0, sz, 0.0, 0.0, 0.0, 0.0, 1.0];
    var b := UpperLeft(m);
    assert b == Mat3(sx, 0.0, 0.0, 0.0, sy, 0.0, 0.0, 0.0, sz);
    DiagonalDet(sx, sy, sz);
    NormalMatrixInverts(inverse, m);
    DiagonalInverse(sx, sy, sz, NormalMatrix(inverse, m));
  }

  lemma DiagonalDet(sx: real, sy: real, sz: real)
    requires sx != 0.0 && sy != 0.0 && sz != 0.0
    ensures Det(Mat3(sx, 0.0, 0.0, 0.0, sy, 0.0, 0.0, 0.0, sz)) != 0.0
  {
    var b := Mat3(sx, 0.0, 0.0, 0.0, sy, 0.0, 0.0, 0.0, sz);
    assert Det(b) == sx * (sy * sz) by { assert Det(b) == sx * (sy * sz - 0.0 * 0.0); }
    MulNonzero(sy, sz);
    MulNonzero(sx, sy * sz);
  }

  /** The only right inverse of a diagonal scaling scales by the reciprocals. */
  lemma DiagonalInverse(sx: real, sy: real, sz: real, n: Mat3)
    requires sx != 0.0 && sy != 0.0 && sz != 0.0
    requires Mul(Mat3(sx, 0.0, 0.0, 0.0, sy, 0.0, 0.0, 0.0, sz), n) == Identity3
    ensures n == Mat3(1.0 / sx, 0.0, 0.0, 0.0, 1.0 / sy, 0.0, 0.0, 0.0, 1.0 / sz)
  {
    var p := Mul(Mat3(sx, 0.0, 0.0, 0.0, sy, 0.0, 0.0, 0.0, sz), n);
    assert p.a == sx * n.a && p.b == sx * n.b && p.c == sx * n.c;
    assert p.d == sy * n.d && p.e == sy * n.e && p.f == sy * n.f;
    assert p.g == sz * n.g && p.h == sz * n.h && p.i == sz * n.i;
    Reciprocal(sx, n.a, 1.0);
    Reciprocal(sx, n.b, 0.0);
    Reciprocal(sx, n.c, 0.0);
    Reciprocal(sy, n.d, 0.0);
    Reciprocal(sy, n.e, 1.0);
    Reciprocal(sy, n.f, 0.0);
    Reciprocal(sz, n.g, 0.0);
    Reciprocal(sz, n.h, 0.0);
    Reciprocal(sz, n.i, 1.0);
  }

  lemma MulNonzero(a: real, b: real)
    requires a != 0.0 && b != 0.0
    ensures a * b != 0.0
  {
  }

  lemma Reciprocal(s: real, x: real, t: real)
    requires s != 0.0 && s * x == t
    ensures x == t / s
  {
  }
}
