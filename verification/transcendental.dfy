/**
  The transcendental and library calls the renderer makes (`sin`, `cos`,
  `sqrt`, `powf`, `normalize`, `asin`, `atan2`) are not modelled by their
  values. They are passed around as one bundle of functions, and the only
  facts used about them are the range facts collected in `Valid`.
 */
module Transcendental {
  import opened Numeric
  import opened Vectors

  datatype Math = Math(
    sin: real -> real,
    cos: real -> real,
    sqrt: real -> real,
    powf: (real, real) -> real,
    normalize: Vec3 -> Vec3,
    asin: real -> real,
    atan2: (real, real) -> real
  )

  /**
    Range facts of the real functions: sine and cosine lie in [-1, 1], the
    square root of a non-negative number is its non-negative root, a power
    of a base in [0, 1] with exponent at least one stays in [0, base], and a
    normalised vector has length at most one (exactly one unless the input
    was the zero vector).
   */
  ghost predicate Valid(m: Math) {
    && (forall t :: -1.0 <= m.sin(t) <= 1.0)
    && (forall t :: -1.0 <= m.cos(t) <= 1.0)
    && (forall t :: 0.0 <= t ==> 0.0 <= m.sqrt(t) && m.sqrt(t) * m.sqrt(t) == t)
    && (forall b, e :: 0.0 <= b <= 1.0 && 1.0 <= e ==> 0.0 <= m.powf(b, e) <= b)
    && (forall v :: Norm2(m.normalize(v)) <= 1.0)
  }

  /** `(a - b).magnitude()`. */
  function Distance(m: Math, a: Vec3, b: Vec3): real {
    m.sqrt(Norm2(Sub(a, b)))
  }

  lemma MulStrict(s: real, r: real)
    requires 0.0 <= s < r
    ensures s * s < r * r
  {
    MulPos(r - s, r + s);
    assert r * r - s * s == (r - s) * (r + s);
  }

  /** A distance below r means a squared Euclidean distance below r². */
  lemma DistanceBelow(m: Math, a: Vec3, b: Vec3, r: real)
    requires Valid(m)
    requires 0.0 <= r
    requires Distance(m, a, b) < r
    ensures Norm2(Sub(a, b)) < r * r
  {
    var d2 := Norm2(Sub(a, b));
    var s := m.sqrt(d2);
    assert 0.0 <= s && s * s == d2 && s < r;
    MulStrict(s, r);
  }
}
