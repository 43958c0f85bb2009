/**
  The orbit camera: it sits on a sphere around its target, at a distance
  and two angles. Rotating keeps the vertical angle within ±1.5 radians,
  zooming keeps the distance within [200, 3000], and every change of
  angle, distance or target places the camera back on its sphere.
 */
module OrbitCamera {
  import opened Numeric
  import opened Vectors
  import opened Transcendental

  datatype Camera = Camera(
    position: Vec3,
    target: Vec3,
    up: Vec3,
    fov: real,
    aspectRatio: real,
    near: real,
    far: real,
    distance: real,
    horizontal: real,
    vertical: real)

  const MinPitch: real := -1.5
  const MaxPitch: real := 1.5
  const MinDistance: real := 200.0
  const MaxDistance: real := 3000.0

  /** `35.0_f32.to_radians()`. */
  const Fov: real := 35.0 * Pi / 180.0

  /**
    `Camera::new`: the fixed start values and the aspect ratio of the
    window. A zero height would give an infinite or NaN ratio in `f32`;
    the model needs a non-zero height for its division.
   */
  function New(width: real, height: real): (c: Camera)
    requires height != 0.0
    ensures c.target == Origin && c.up == Vec3(0.0, 1.0, 0.0)
    ensures c.aspectRatio * height == width
    ensures MinDistance <= c.distance <= MaxDistance && MinPitch <= c.vertical <= MaxPitch
    ensures c.near < c.far
  {
    Camera(Vec3(0.0, 500.0, 1000.0), Origin, Vec3(0.0, 1.0, 0.0), Fov, width / height, 0.1, 5000.0, 1200.0, 0.0, 0.3)
  }

  /** The camera's offset from its target: spherical coordinates with radius `distance`. */
  function Offset(m: Math, distance: real, horizontal: real, vertical: real): Vec3 {
    Vec3(
      distance * m.cos(vertical) * m.cos(horizontal),
      distance * m.sin(vertical),
      distance * m.cos(vertical) * m.sin(horizontal))
  }

  /** The camera sits where its distance and angles put it relative to its target. */
  predicate OnOrbit(m: Math, c: Camera) {
    c.position == Add(c.target, Offset(m, c.distance, c.horizontal, c.vertical))
  }

  /** `update_position`: only the position moves, onto the orbit. */
  function UpdatePosition(m: Math, c: Camera): (r: Camera)
    ensures OnOrbit(m, r)
    ensures r.(position := c.position) == c
  {
    c.(position := Add(c.target, Offset(m, c.distance, c.horizontal, c.vertical)))
  }

  /**
    `rotate`: the horizontal angle accumulates without wrapping, the
    vertical angle is clamped to [-1.5, 1.5]; distance, target and the
    projection settings are kept.
   */
  function Rotate(m: Math, c: Camera, deltaHorizontal: real, deltaVertical: real): (r: Camera)
    ensures MinPitch <= r.vertical <= MaxPitch
    ensures r.horizontal == c.horizontal + deltaHorizontal
    ensures MinPitch <= c.vertical + deltaVertical <= MaxPitch ==> r.vertical == c.vertical + deltaVertical
    ensures c.vertical + deltaVertical < MinPitch ==> r.vertical == MinPitch
    ensures MaxPitch < c.vertical + deltaVertical ==> r.vertical == MaxPitch
    ensures r.distance == c.distance && r.target == c.target
    ensures Settings(r) == Settings(c)
    ensures OnOrbit(m, r)
  {
    var turned := c.(horizontal := c.horizontal + deltaHorizontal,
                     vertical := Clamp(c.vertical + deltaVertical, MinPitch, MaxPitch));
    UpdatePosition(m, turned)
  }

  /** `zoom`: the distance moves by delta, clamped to [200, 3000]; angles, target and settings are kept. */
  function Zoom(m: Math, c: Camera, delta: real): (r: Camera)
    ensures MinDistance <= r.distance <= MaxDistance
    ensures MinDistance <= c.distance + delta <= MaxDistance ==> r.distance == c.distance + delta
    ensures c.distance + delta < MinDistance ==> r.distance == MinDistance
    ensures MaxDistance < c.distance + delta ==> r.distance == MaxDistance
    ensures r.horizontal == c.horizontal && r.vertical == c.vertical && r.target == c.target
    ensures Settings(r) == Settings(c)
    ensures OnOrbit(m, r)
  {
    UpdatePosition(m, c.(distance := Clamp(c.distance + delta, MinDistance, MaxDistance)))
  }

  /** `set_target`: a new target, the camera following it at the same offset. */
  function SetTarget(m: Math, c: Camera, target: Vec3): (r: Camera)
    ensures r.target == target
    ensures r.position == Add(target, Offset(m, c.distance, c.horizontal, c.vertical))
    ensures r.distance == c.distance && r.horizontal == c.horizontal && r.vertical == c.vertical
    ensures Settings(r) == Settings(c)
  {
    UpdatePosition(m, c.(target := target))
  }

  /** `update_aspect_ratio`: the ratio becomes width / height, nothing else changes. */
  function UpdateAspectRatio(c: Camera, width: real, height: real): (r: Camera)
    requires height != 0.0
    ensures r.aspectRatio * height == width
    ensures r.(aspectRatio := c.aspectRatio) == c
  {
    c.(aspectRatio := width / height)
  }

  /** The projection settings a camera carries, which no orbit operation touches. */
  function Settings(c: Camera): (real, real, real, Vec3) {
    (c.fov, c.near, c.far, c.up)
  }

  /** Moving the target moves the camera by the same displacement when it was already on its orbit. */
  lemma SetTargetTranslates(m: Math, c: Camera, target: Vec3)
    requires OnOrbit(m, c)
    ensures SetTarget(m, c, target).position == Add(c.position, Sub(target, c.target))
  {
  }

  /** Zooming twice clamps once: the second zoom starts from the clamped distance. */
  lemma ZoomInOut(m: Math, c: Camera, delta: real)
    requires MinDistance <= c.distance <= MaxDistance
    requires MinDistance <= c.distance + delta <= MaxDistance
    ensures Zoom(m, Zoom(m, c, delta), -delta).distance == c.distance
  {
  }

  /** Rotating by zero leaves a camera on its orbit unchanged once its pitch is within the limits. */
  lemma RotateByZero(m: Math, c: Camera)
    requires OnOrbit(m, c) && MinPitch <= c.vertical <= MaxPitch
    ensures Rotate(m, c, 0.0, 0.0) == c
  {
  }

  /** A pitch pushed past a limit stays at the limit: the clamp is sticky, not wrapping. */
  lemma RotatePastLimit(m: Math, c: Camera, deltaVertical: real)
    requires MaxPitch <= c.vertical + deltaVertical
    ensures Rotate(m, c, 0.0, deltaVertical).vertical == MaxPitch
    ensures Rotate(m, Rotate(m, c, 0.0, deltaVertical), 0.0, deltaVertical).vertical == MaxPitch || deltaVertical < 0.0
  {
  }
}
