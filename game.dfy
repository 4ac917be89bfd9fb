/**
 * The input callbacks and per-frame updates of src/main.cpp: the global
 * `step`, `multiplier`, `camera_mode`, mouse flags and angles, and the
 * `Game` fields that `modify_env` and `game_loop` advance each frame.
 */
module Game {
  import opened Geometry
  import opened Wrappers
  import opened Objects
  import opened Models
  import opened Factories

  /** The keys `keyboardControls` distinguishes; every other key code is `OtherKey`. */
  datatype Key = KeyW | KeyA | KeyS | KeyD | KeyR | KeyF | LeftShift | RightShift | F2 | F3 | Escape | OtherKey

  /** `GLFW_PRESS`, `GLFW_RELEASE`, `GLFW_REPEAT`. */
  datatype Action = Press | Release | Repeat

  datatype MouseButton = LeftButton | RightButton | OtherButton

  /** `enum class CameraMode` (src/Camera.h). */
  datatype CameraMode = FirstPerson | ThirdPerson

  datatype KeyEvent = KeyEvent(key: Key, action: Action)

  /** `forward`, `left` and `up`, with `scale` = 1. */
  const Forward := Vec3(0.0, 0.0, -1.0)
  const Left := Vec3(-1.0, 0.0, 0.0)
  const Up := Vec3(0.0, 1.0, 0.0)

  /** `M_PI_2f32`: the single-precision value of pi/2. */
  const HalfPi: real := 1.57079637050628662109375

  /** `glm::clamp(v, lo, hi)`. */
  function Clamp(v: real, lo: real, hi: real): (r: real)
    requires lo <= hi
    ensures lo <= r <= hi
    ensures lo <= v <= hi ==> r == v
    ensures v < lo ==> r == lo
    ensures hi < v ==> r == hi
  {
    Min(Max(v, lo), hi)
  }

  /** A press adds the key's direction, a release takes it away. */
  function Toggle(step: Vec3, direction: Vec3, action: Action): Vec3 {
    match action
    case Press => Add(step, direction)
    case Release => Sub(step, direction)
    case Repeat => step
  }

  /** `step` after one key event. */
  function StepAfter(step: Vec3, e: KeyEvent): Vec3 {
    match e.key
    case KeyW => Toggle(step, Forward, e.action)
    case KeyA => Toggle(step, Left, e.action)
    case KeyS => Toggle(step, Neg(Forward), e.action)
    case KeyD => Toggle(step, Neg(Left), e.action)
    case KeyR => Toggle(step, Up, e.action)
    case KeyF => Toggle(step, Neg(Up), e.action)
    case _ => step
  }

  const ShiftKeys: set<Key> := {LeftShift, RightShift}

  predicate IsShift(k: Key) {
    k == LeftShift || k == RightShift
  }

  /** `multiplier` after one key event. */
  function MultiplierAfter(multiplier: real, e: KeyEvent): real {
    if IsShift(e.key) && e.action == Press then multiplier * 2.0
    else if IsShift(e.key) && e.action == Release then multiplier / 2.0
    else multiplier
  }

  /** `camera_mode` after one key event. */
  function ModeAfter(mode: CameraMode, e: KeyEvent): CameraMode {
    if e.key == F2 && e.action == Press then FirstPerson
    else if e.key == F3 && e.action == Press then ThirdPerson
    else mode
  }

  /** Pressing and then releasing the same key leaves `step` and `multiplier` as they were. */
  lemma PressReleaseRestores(step: Vec3, multiplier: real, k: Key)
    ensures StepAfter(StepAfter(step, KeyEvent(k, Press)), KeyEvent(k, Release)) == step
    ensures MultiplierAfter(MultiplierAfter(multiplier, KeyEvent(k, Press)), KeyEvent(k, Release)) == multiplier
  {
  }

  /** S undoes W, D undoes A, F undoes R. */
  lemma OppositeKeysCancel(step: Vec3)
    ensures StepAfter(StepAfter(step, KeyEvent(KeyW, Press)), KeyEvent(KeyS, Press)) == step
    ensures StepAfter(StepAfter(step, KeyEvent(KeyA, Press)), KeyEvent(KeyD, Press)) == step
    ensures StepAfter(StepAfter(step, KeyEvent(KeyR, Press)), KeyEvent(KeyF, Press)) == step
  {
  }

  /** A repeat, or a key the callback does not list, changes none of the three. */
  lemma IgnoredEventsChangeNothing(step: Vec3, multiplier: real, mode: CameraMode, e: KeyEvent)
    requires e.action == Repeat || e.key == OtherKey || e.key == Escape
    ensures StepAfter(step, e) == step && MultiplierAfter(multiplier, e) == multiplier && ModeAfter(mode, e) == mode
  {
  }

  /** F2 selects first person and F3 third person on a press; releases change nothing. */
  lemma CameraModeKeys(mode: CameraMode)
    ensures ModeAfter(mode, KeyEvent(F2, Press)) == FirstPerson
    ensures ModeAfter(mode, KeyEvent(F3, Press)) == ThirdPerson
    ensures ModeAfter(mode, KeyEvent(F2, Release)) == mode && ModeAfter(mode, KeyEvent(F3, Release)) == mode
  {
  }

  /** `step` after a sequence of key events. */
  function ReplaySteps(step: Vec3, events: seq<KeyEvent>): Vec3 {
    if |events| == 0 then step else StepAfter(ReplaySteps(step, events[..|events| - 1]), events[|events| - 1])
  }

  /** `multiplier` after a sequence of key events. */
  function ReplayMultiplier(multiplier: real, events: seq<KeyEvent>): real {
    if |events| == 0 then multiplier
    else MultiplierAfter(ReplayMultiplier(multiplier, events[..|events| - 1]), events[|events| - 1])
  }

  /** +1 for a press of one of `keys`, -1 for a release, 0 otherwise. */
  function Count(e: KeyEvent, keys: set<Key>): int {
    if e.key !in keys then 0 else if e.action == Press then 1 else if e.action == Release then -1 else 0
  }

  /** Presses minus releases of `keys` in `events`. */
  function Net(events: seq<KeyEvent>, keys: set<Key>): int {
    if |events| == 0 then 0 else Net(events[..|events| - 1], keys) + Count(events[|events| - 1], keys)
  }

  /**
   * `step` only depends on how often each movement key was pressed and
   * released, not on the order: it is the start value plus the net count
   * of each key times its direction. So once every pressed key has been
   * released, `step` is back where it started.
   */
  lemma {:induction false} ReplayStepsIsNetSum(step: Vec3, events: seq<KeyEvent>)
    ensures ReplaySteps(step, events)
         == Vec3(step.x - (Net(events, {KeyA}) - Net(events, {KeyD})) as real,
                 step.y + (Net(events, {KeyR}) - Net(events, {KeyF})) as real,
                 step.z - (Net(events, {KeyW}) - Net(events, {KeyS})) as real)
  {
    if |events| > 0 {
      ReplayStepsIsNetSum(step, events[..|events| - 1]);
    }
  }

  /** 2 to an integer power. */
  function Pow2(z: int): (r: real)
    ensures r > 0.0
    decreases if z < 0 then -z else z
  {
    if z == 0 then 1.0 else if z > 0 then 2.0 * Pow2(z - 1) else Pow2(z + 1) / 2.0
  }

  /** `m` doubled `z` times (halved when `z` is negative). */
  function ScaleByPow2(m: real, z: int): real
    decreases if z < 0 then -z else z
  {
    if z == 0 then m else if z > 0 then 2.0 * ScaleByPow2(m, z - 1) else ScaleByPow2(m, z + 1) / 2.0
  }

  lemma {:induction false} ScaleByPow2Step(m: real, z: int)
    ensures ScaleByPow2(m, z + 1) == 2.0 * ScaleByPow2(m, z)
    decreases if z < 0 then -z else z
  {
    if z < -1 {
      ScaleByPow2Step(m, z + 1);
    }
  }

  /** Doubling `z` times is multiplying by 2^z. */
  lemma {:induction false} ScaleByPow2IsProduct(m: real, z: int)
    ensures ScaleByPow2(m, z) == m * Pow2(z)
    decreases if z < 0 then -z else z
  {
    if z > 0 {
      ScaleByPow2IsProduct(m, z - 1);
      assert m * (2.0 * Pow2(z - 1)) == 2.0 * (m * Pow2(z - 1));
    } else if z < 0 {
      ScaleByPow2IsProduct(m, z + 1);
      assert m * (Pow2(z + 1) / 2.0) == (m * Pow2(z + 1)) / 2.0;
    }
  }

  /**
   * `multiplier` is its start value doubled once per shift press and
   * halved once per shift release, whichever of the two shift keys:
   * start * 2^(presses - releases).
   */
  lemma {:induction false} ReplayMultiplierIsPower(multiplier: real, events: seq<KeyEvent>)
    ensures ReplayMultiplier(multiplier, events) == ScaleByPow2(multiplier, Net(events, ShiftKeys))
  {
    if |events| > 0 {
      var n := |events| - 1;
      var z := Net(events[..n], ShiftKeys);
      ReplayMultiplierIsPower(multiplier, events[..n]);
      ScaleByPow2Step(multiplier, z);
      ScaleByPow2Step(multiplier, z - 1);
    }
  }

  /** The same, as a product: start * 2^(presses - releases). */
  lemma ReplayMultiplierIsProduct(multiplier: real, events: seq<KeyEvent>)
    ensures ReplayMultiplier(multiplier, events) == multiplier * Pow2(Net(events, ShiftKeys))
  {
    ReplayMultiplierIsPower(multiplier, events);
    ScaleByPow2IsProduct(multiplier, Net(events, ShiftKeys));
  }

  /** `smooth_step += 0.05f * (step - smooth_step)`, one component. */
  function Smooth(s: real, target: real): real {
    s + 0.05 * (target - s)
  }

  /**
   * Each frame closes 5% of the gap to the target: the new gap is 0.95
   * times the old, with the same sign, so the value never overshoots.
   */
  lemma SmoothClosesGap(s: real, target: real)
    ensures target - Smooth(s, target) == 0.95 * (target - s)
    ensures s <= target ==> s <= Smooth(s, target) <= target
    ensures target <= s ==> target <= Smooth(s, target) <= s
  {
  }

  /** `n` frames of smoothing towards a fixed target. */
  function SmoothN(s: real, target: real, n: nat): real {
    if n == 0 then s else Smooth(SmoothN(s, target, n - 1), target)
  }

  function Pow(b: real, n: nat): real {
    if n == 0 then 1.0 else b * Pow(b, n - 1)
  }

  /** After `n` frames with `step` held, the gap is 0.95^n times the initial gap. */
  lemma {:induction false} SmoothNGap(s: real, target: real, n: nat)
    ensures target - SmoothN(s, target, n) == Pow(0.95, n) * (target - s)
  {
    if n > 0 {
      SmoothNGap(s, target, n - 1);
      SmoothClosesGap(SmoothN(s, target, n - 1), target);
      assert Pow(0.95, n) * (target - s) == 0.95 * (Pow(0.95, n - 1) * (target - s));
    }
  }

  /** `speed_multiplier += 0.0001f`, `n` times. */
  function SpeedAfter(m: real, n: nat): real {
    if n == 0 then m else SpeedAfter(m, n - 1) + 0.0001
  }

  /** The speed multiplier grows linearly: 1 + n / 10000 after `n` frames. */
  lemma {:induction false} SpeedAfterLinear(m: real, n: nat)
    ensures SpeedAfter(m, n) == m + n as real * 0.0001
  {
    if n > 0 {
      SpeedAfterLinear(m, n - 1);
    }
  }

  /** The globals the GLFW callbacks read and write. */
  class Controls {
    var mx: real
    var my: real
    var permitMouseMove: bool
    var yaw: real
    var pitch: real
    var shoot: bool
    var multiplier: real
    var step: Vec3
    var cameraMode: CameraMode
    /** `glfwSetWindowShouldClose(window, GLFW_TRUE)` has been called. */
    var shouldClose: bool

    /** The globals' initial values. */
    constructor ()
      ensures mx == 0.0 && my == 0.0 && !permitMouseMove && yaw == 0.0 && pitch == 0.0 && !shoot
      ensures multiplier == 0.1 && step == Zero && cameraMode == ThirdPerson && !shouldClose
    {
      mx, my := 0.0, 0.0;
      permitMouseMove := false;
      yaw, pitch := 0.0, 0.0;
      shoot := false;
      multiplier := 0.1;
      step := Zero;
      cameraMode := ThirdPerson;
      shouldClose := false;
    }

    /** `mouseMove`: angles follow the cursor only while the left button is held; yaw is clamped. */
    method MouseMove(xpos: real, ypos: real)
      modifies this`yaw, this`pitch, this`mx, this`my
      ensures mx == 0.01 * xpos && my == 0.01 * ypos
      ensures -HalfPi <= yaw <= HalfPi || (!permitMouseMove && yaw == old(yaw))
      ensures permitMouseMove ==> yaw == Clamp(old(yaw) + (old(my) - my), -HalfPi, HalfPi)
                                  && pitch == old(pitch) + (old(mx) - mx)
      ensures !permitMouseMove ==> yaw == old(yaw) && pitch == old(pitch)
    {
      var x1 := 0.01 * xpos;
      var y1 := 0.01 * ypos;
      if permitMouseMove {
        yaw := Clamp(yaw + (my - y1), -HalfPi, HalfPi);
        pitch := pitch + (mx - x1);
      }
      mx := x1;
      my := y1;
    }

    /** `mouseButton`: left press/release grants/withdraws mouse look; right press sets `shoot`. */
    method MouseButtonEvent(button: MouseButton, action: Action)
      modifies this`permitMouseMove, this`shoot
      ensures permitMouseMove == (if button == LeftButton && action == Press then true
                                  else if button == LeftButton && action == Release then false
                                  else old(permitMouseMove))
      ensures shoot == (old(shoot) || (button == RightButton && action == Press))
    {
      if button == LeftButton {
        if action == Press {
          permitMouseMove := true;
        } else if action == Release {
          permitMouseMove := false;
        }
      } else if button == RightButton {
        if action == Press {
          shoot := true;
        }
      }
    }

    /** `keyboardControls`. */
    method KeyboardControls(key: Key, action: Action)
      modifies this`step, this`multiplier, this`cameraMode, this`shouldClose
      ensures step == StepAfter(old(step), KeyEvent(key, action))
      ensures multiplier == MultiplierAfter(old(multiplier), KeyEvent(key, action))
      ensures cameraMode == ModeAfter(old(cameraMode), KeyEvent(key, action))
      ensures shouldClose == (old(shouldClose) || key == Escape)
    {
      match key
      case KeyW =>
        if action == Press { step := Add(step, Forward); } else if action == Release { step := Sub(step, Forward); }
      case KeyA =>
        if action == Press { step := Add(step, Left); } else if action == Release { step := Sub(step, Left); }
      case KeyS =>
        if action == Press { step := Sub(step, Forward); } else if action == Release { step := Add(step, Forward); }
      case KeyD =>
        if action == Press { step := Sub(step, Left); } else if action == Release { step := Add(step, Left); }
      case KeyR =>
        if action == Press { step := Add(step, Up); } else if action == Release { step := Sub(step, Up); }
      case KeyF =>
        if action == Press { step := Sub(step, Up); } else if action == Release { step := Add(step, Up); }
      case LeftShift =>
        if action == Press { multiplier := multiplier * 2.0; } else if action == Release { multiplier := multiplier / 2.0; }
      case RightShift =>
        if action == Press { multiplier := multiplier * 2.0; } else if action == Release { multiplier := multiplier / 2.0; }
      case F2 =>
        if action == Press { cameraMode := FirstPerson; }
      case F3 =>
        if action == Press { cameraMode := ThirdPerson; }
      case Escape =>
        shouldClose := true;
      case OtherKey =>
    }
  }

  /** `struct Camera` (src/Camera.h): the parts `modify_env` sets. `rot` holds the Euler angles (yaw, pitch). */
  class Camera {
    var position: Vec3
    var rot: Vec2
    var mode: CameraMode

    constructor ()
      ensures position == Zero && mode == ThirdPerson
    {
      position := Zero;
      rot := Vec2(0.0, 0.0);
      mode := ThirdPerson;
    }

    method Move(v: Vec3)
      modifies this`position
      ensures position == Add(old(position), v)
    {
      position := Add(position, v);
    }
  }

  /** The scalar and model state of `class Game` that the shown code updates. */
  class GameState {
    const camera: Camera
    const laserRechargeRate: int
    var score: int
    var mainShipHp: real
    var mainShip: Model
    var enemies: seq<Model>
    var smoothStep: Vec3
    var enemiesSpeed: Vec3
    var particlesState: Vec3
    var speedMultiplier: real
    var cameraShift: Vec3

    /**
     * `Game()` followed by the non-GL part of `init()`: the main ship is
     * a copy of the E-45 template and `init_objects` places the two
     * initial enemies.
     */
    constructor (factory: ModelFactory)
      requires factory.Valid()
      ensures score == 0 && mainShipHp == 100.0 && laserRechargeRate == 15
      ensures smoothStep == Zero && enemiesSpeed == Zero && particlesState == Zero && speedMultiplier == 1.0
      ensures fresh(camera) && camera.position == Zero && camera.mode == ThirdPerson
      ensures fresh(mainShip) && SameAsset(mainShip, factory.modelBuffer[E45Aircraft])
      ensures mainShip.CurrentPose() == factory.modelBuffer[E45Aircraft].CurrentPose()
      ensures InitialEnemies(enemies, factory)
    {
      camera := new Camera();
      laserRechargeRate := 15;
      score := 0;
      mainShipHp := 100.0;
      smoothStep := Zero;
      enemiesSpeed := Zero;
      particlesState := Zero;
      speedMultiplier := 1.0;
      cameraShift := Zero;
      var ship := factory.GetModel(E45Aircraft);
      DefaultArgumentsKeepPose(factory.modelBuffer[E45Aircraft].CurrentPose());
      mainShip := ship.value;
      enemies := [];
      new;
      InitObjects(factory);
    }

    /** `init_objects`: a Venator at (0, 0, -50) and an asteroid at (10, 5, -35), in that order. */
    method InitObjects(factory: ModelFactory)
      requires factory.Valid() && enemies == []
      modifies this`enemies
      ensures InitialEnemies(enemies, factory)
    {
      var first := factory.GetModel(Repvenator, Vec3(0.0, 0.0, -50.0));
      enemies := enemies + [first.value];
      var second := factory.GetModel(Asteroid1, Vec3(10.0, 5.0, -35.0));
      enemies := enemies + [second.value];
    }

    /**
     * `modify_env` without the view matrices and the cursor query:
     * smoothing, camera shift, camera mode and angles, camera move.
     */
    method ModifyEnv(controls: Controls)
      modifies this`smoothStep, this`cameraShift, camera`mode, camera`rot, camera`position
      ensures smoothStep == Vec3(Smooth(old(smoothStep).x, controls.step.x),
                                 Smooth(old(smoothStep).y, controls.step.y),
                                 Smooth(old(smoothStep).z, controls.step.z))
      ensures cameraShift == Scale(controls.multiplier, smoothStep)
      ensures camera.mode == controls.cameraMode && camera.rot == Vec2(controls.yaw, controls.pitch)
      ensures camera.position == Add(old(camera.position), cameraShift)
    {
      smoothStep := Add(smoothStep, Scale(0.05, Sub(controls.step, smoothStep)));
      cameraShift := Scale(controls.multiplier, smoothStep);
      camera.mode := controls.cameraMode;
      camera.rot := Vec2(controls.yaw, controls.pitch);
      camera.Move(cameraShift);
    }

    /** One pass of `game_loop`'s game logic: `modify_env`, then the ship, particles and speed. */
    method Frame(controls: Controls)
      modifies this`smoothStep, this`cameraShift, camera`mode, camera`rot, camera`position
      modifies mainShip`worldPos, this`particlesState, this`speedMultiplier
      ensures smoothStep == Vec3(Smooth(old(smoothStep).x, controls.step.x),
                                 Smooth(old(smoothStep).y, controls.step.y),
                                 Smooth(old(smoothStep).z, controls.step.z))
      ensures camera.mode == controls.cameraMode && camera.rot == Vec2(controls.yaw, controls.pitch)
      ensures cameraShift == Scale(controls.multiplier, smoothStep)
      ensures mainShip.worldPos == Add(old(mainShip.worldPos), cameraShift)
      ensures camera.position == Add(old(camera.position), cameraShift)
      ensures particlesState == Add(old(particlesState), Scale(old(speedMultiplier), enemiesSpeed))
      ensures speedMultiplier == old(speedMultiplier) + 0.0001
    {
      ModifyEnv(controls);
      mainShip.Move(cameraShift);
      particlesState := Add(particlesState, Scale(speedMultiplier, enemiesSpeed));
      speedMultiplier := speedMultiplier + 0.0001;
    }
  }

  /** The two enemies `init_objects` places, as copies of their templates. */
  ghost predicate InitialEnemies(enemies: seq<Model>, factory: ModelFactory)
    reads factory, factory.modelBuffer.Values, set k | 0 <= k < |enemies| :: enemies[k]
    requires factory.Valid()
  {
    && |enemies| == 2
    && SameAsset(enemies[0], factory.modelBuffer[Repvenator])
    && enemies[0].CurrentPose() == PoseAfterGetModel(factory.modelBuffer[Repvenator].CurrentPose(), Vec3(0.0, 0.0, -50.0), Zero, 1.0)
    && SameAsset(enemies[1], factory.modelBuffer[Asteroid1])
    && enemies[1].CurrentPose() == PoseAfterGetModel(factory.modelBuffer[Asteroid1].CurrentPose(), Vec3(10.0, 5.0, -35.0), Zero, 1.0)
  }
}
