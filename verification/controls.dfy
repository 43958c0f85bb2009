/**
  `handle_input`: one frame of keyboard handling. The movement keys push the
  ship's velocity along its forward and right vectors, the arrow keys and
  Q/E turn it, the pitch is clamped to ±π/2.5, Space and O toggle pause and
  the orbit display, and +/- change the system speed, which never drops
  below 0.1 through the Minus key.
 */
module Controls {
  import opened Numeric
  import opened Vectors

  /**
    The keys one frame reads. The toggles are fresh presses
    (`is_key_pressed` with `KeyRepeat::No`); the others are held keys.
   */
  datatype Keys = Keys(
    w: bool, s: bool, a: bool, d: bool,
    up: bool, down: bool, left: bool, right: bool, q: bool, e: bool,
    shift: bool,
    space: bool, o: bool,
    equal: bool, minus: bool)

  /** No key at all. */
  const NoKeys := Keys(false, false, false, false, false, false, false, false, false, false, false, false, false, false, false)

  /** What `handle_input` reads and writes: the ship's velocity and rotation, and the three system controls. */
  datatype State = State(velocity: Vec3, rotation: Vec3, globalSpeed: real, paused: bool, showOrbits: bool)

  const RotationSpeed: real := 0.03
  const PitchLimit: real := Pi / 2.5
  const SpeedStep: real := 0.1
  const MinSpeed: real := 0.1

  /** The system controls `main` starts with: full speed, running, orbits shown. */
  function Start(velocity: Vec3, rotation: Vec3): (st: State)
    ensures st.globalSpeed == 1.0 && !st.paused && st.showOrbits
  {
    State(velocity, rotation, 1.0, false, true)
  }

  /** `8.0 * turbo_multiplier`: three times faster while Left Shift is held. */
  function MoveSpeed(k: Keys): (r: real)
    ensures k.shift <==> r == 24.0
    ensures !k.shift <==> r == 8.0
  {
    8.0 * (if k.shift then 3.0 else 1.0)
  }

  /** A pair of opposite held keys: the first adds the step, then the second takes it away. */
  function Turn(x: real, plus: bool, minus: bool, step: real): (r: real)
    ensures plus == minus ==> r == x
    ensures plus && !minus ==> r == x + step
    ensures !plus && minus ==> r == x - step
  {
    var raised := if plus then x + step else x;
    if minus then raised - step else raised
  }

  /** The same pair of keys on a vector: W/S along forward, D/A along right. */
  function Push(v: Vec3, plus: bool, minus: bool, dir: Vec3, speed: real): (r: Vec3)
    ensures plus == minus ==> r == v
  {
    var raised := if plus then Add(v, Scaled(dir, speed)) else v;
    if minus then Sub(raised, Scaled(dir, speed)) else raised
  }

  /** The new velocity: W/S along `forward`, D/A along `right`, in the order the code tests them. */
  function Steer(k: Keys, forward: Vec3, right: Vec3, v: Vec3): (r: Vec3)
    ensures k.w == k.s && k.a == k.d ==> r == v
  {
    Push(Push(v, k.w, k.s, forward, MoveSpeed(k)), k.d, k.a, right, MoveSpeed(k))
  }

  /** The system speed after the +/- keys: Equal adds 0.1, then Minus takes 0.1 off with a floor of 0.1. */
  function NewSpeed(k: Keys, speed: real): (r: real)
    ensures k.minus ==> MinSpeed <= r
    ensures MinSpeed <= speed ==> MinSpeed <= r
    ensures !k.minus ==> r == (if k.equal then speed + SpeedStep else speed)
    ensures k.minus && !k.equal ==> r == Max(speed - SpeedStep, MinSpeed)
    ensures k.minus && k.equal && MinSpeed <= speed ==> r == speed
  {
    var raised := if k.equal then speed + SpeedStep else speed;
    if k.minus then Max(raised - SpeedStep, MinSpeed) else raised
  }

  /**
    `handle_input`. The forward and right vectors of the ship are
    computed by the camera from its rotation before the call; they are
    parameters here.
   */
  function HandleInput(k: Keys, forward: Vec3, right: Vec3, st: State): (r: State)
    ensures -PitchLimit <= r.rotation.x <= PitchLimit
    ensures var pitch := Turn(st.rotation.x, k.up, k.down, RotationSpeed);
      -PitchLimit <= pitch <= PitchLimit ==> r.rotation.x == pitch
    ensures r.rotation.y == Turn(st.rotation.y, k.left, k.right, RotationSpeed)
    ensures r.rotation.z == Turn(st.rotation.z, k.q, k.e, RotationSpeed)
    ensures r.velocity == Steer(k, forward, right, st.velocity)
    ensures r.paused <==> st.paused != k.space
    ensures r.showOrbits <==> st.showOrbits != k.o
    ensures r.globalSpeed == NewSpeed(k, st.globalSpeed)
  {
    var pitch := Turn(st.rotation.x, k.up, k.down, RotationSpeed);
    var rotation := Vec3(
      Clamp(pitch, -PitchLimit, PitchLimit),
      Turn(st.rotation.y, k.left, k.right, RotationSpeed),
      Turn(st.rotation.z, k.q, k.e, RotationSpeed));
    State(
      Steer(k, forward, right, st.velocity),
      rotation,
      NewSpeed(k, st.globalSpeed),
      if k.space then !st.paused else st.paused,
      if k.o then !st.showOrbits else st.showOrbits)
  }

  /** A frame without keys changes nothing once the pitch is inside its limits. */
  lemma IdleFrame(forward: Vec3, right: Vec3, st: State)
    requires -PitchLimit <= st.rotation.x <= PitchLimit
    ensures HandleInput(NoKeys, forward, right, st) == st
  {
  }

  /** One frame of input: the keys and the ship's two direction vectors at that frame. */
  datatype Frame = Frame(keys: Keys, forward: Vec3, right: Vec3)

  /** The state after a run of frames, oldest first. */
  function Run(frames: seq<Frame>, st: State): State {
    if frames == [] then st
    else
      var f := frames[|frames| - 1];
      HandleInput(f.keys, f.forward, f.right, Run(frames[..|frames| - 1], st))
  }

  /** The number of frames in which Space was pressed. */
  function SpacePresses(frames: seq<Frame>): nat {
    if frames == [] then 0
    else SpacePresses(frames[..|frames| - 1]) + (if frames[|frames| - 1].keys.space then 1 else 0)
  }

  /** The number of frames in which O was pressed. */
  function OrbitPresses(frames: seq<Frame>): nat {
    if frames == [] then 0
    else OrbitPresses(frames[..|frames| - 1]) + (if frames[|frames| - 1].keys.o then 1 else 0)
  }

  /** After any run, the system is paused exactly when Space was pressed an odd number of times from the start state. */
  lemma {:induction false} PausedParity(frames: seq<Frame>, st: State)
    ensures Run(frames, st).paused <==> (st.paused <==> SpacePresses(frames) % 2 == 0)
  {
    if frames != [] {
      PausedParity(frames[..|frames| - 1], st);
    }
  }

  /** Likewise the orbit display follows the parity of the O presses. */
  lemma {:induction false} OrbitsParity(frames: seq<Frame>, st: State)
    ensures Run(frames, st).showOrbits <==> (st.showOrbits <==> OrbitPresses(frames) % 2 == 0)
  {
    if frames != [] {
      OrbitsParity(frames[..|frames| - 1], st);
    }
  }

  /**
    From the start state, whatever keys are pressed, the system speed stays
    at least 0.1, and after at least one frame the pitch is within ±π/2.5.
   */
  lemma {:induction false} RunBounds(frames: seq<Frame>, velocity: Vec3, rotation: Vec3)
    ensures MinSpeed <= Run(frames, Start(velocity, rotation)).globalSpeed
    ensures frames != [] ==> -PitchLimit <= Run(frames, Start(velocity, rotation)).rotation.x <= PitchLimit
  {
    if frames != [] {
      RunBounds(frames[..|frames| - 1], velocity, rotation);
    }
  }

  /** Holding Equal for one frame and Minus for the next gives the speed back. */
  lemma SpeedUpThenDown(forward: Vec3, right: Vec3, st: State)
    requires MinSpeed <= st.globalSpeed
    ensures var up := NoKeys.(equal := true);
      var down := NoKeys.(minus := true);
      HandleInput(down, forward, right, HandleInput(up, forward, right, st)).globalSpeed == st.globalSpeed
  {
  }
}
