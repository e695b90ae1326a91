/**
 * The session globals of src/main.cpp and what the GLUT callbacks keyDown,
 * keyUp, mouse and display do to them, as values.  The galaxy enters as the
 * planets a digit key aims at and as the two proximity readings a frame
 * takes; class Sessions.Session is proved to follow these functions.
 */
module SessionModel {
  import opened MathEnv
  import opened Geometry
  import opened CameraModel
  import opened Orbits
  import opened SolarModel

  /** struct ControlStates: one flag per movement the display step dispatches. */
  datatype Controls = Controls(forward: bool, backward: bool, left: bool, right: bool, yawLeft: bool, yawRight: bool)

  const Released := Controls(false, false, false, false, false, false)

  /** The globals the callbacks read and write, the camera among them. */
  datatype Globals = Globals(
    controls: Controls,
    time: real,
    timeSpeed: real,
    starshipView: bool,
    showOrbits: bool,
    planetSelected: int,
    fellDown: bool,
    camera: CameraState)

  /** The static initialisers and init: the clock at 2.552 with a tenth per
      frame, both views on, planet 1 selected, all controls released. */
  const StartTime := 2.552
  const StartTimeSpeed := 0.1
  const Start := Globals(Released, StartTime, StartTimeSpeed, true, true, 1, false, Initial)

  /** Both proximity tests count as contact below this clearance. */
  const ContactDistance := 0.001

  // ---------------------------------------------------------------------
  // keyDown, keyUp, mouse.

  /** keyDown receives an unsigned char. */
  predicate IsByte(key: char)
  {
    key as int < 256
  }

  /** '1' to '9': the keys that select a planet. */
  predicate IsPlanetKey(key: char)
  {
    '0' < key <= '9'
  }

  /** The keys whose press sets, and whose release clears, a control flag. */
  predicate IsMovementKey(key: char)
  {
    key == 'w' || key == 's' || key == 'a' || key == 'd'
  }

  /** The flag a movement key drives: forward, backward, yawLeft, yawRight. */
  function Held(c: Controls, key: char): bool
    requires IsMovementKey(key)
  {
    if key == 'w' then c.forward
    else if key == 's' then c.backward
    else if key == 'a' then c.yawLeft
    else c.yawRight
  }

  /** getPlanetPosition(i): the planet's position scaled by distanceScale. */
  function PlanetTarget(planets: seq<PlanetBody>, i: int, env: Env): Vec3
    requires 0 <= i < |planets|
  {
    Scale(planets[i].body.pose.position, env.distanceScale)
  }

  /** A digit that hasPlanet accepts leads to pointAt, which normalizes twice:
      both lengths must be nonzero. */
  predicate CanSelect(g: Globals, key: char, planets: seq<PlanetBody>, env: Env)
  {
    IsByte(key)
    && (IsPlanetKey(key) && HasPlanetIndex(|planets|, key as int) ==>
          CanPointAt(g.camera, PlanetTarget(planets, key as int - 48, env), env))
  }

  /** The switch of keyDown.  'p' and 'b' only write files; 'n' (loadModel)
      is excluded. */
  function Switch(g: Globals, key: char): (r: Globals)
    requires key != 'n'
    ensures r.controls.left == g.controls.left && r.controls.right == g.controls.right
    ensures key != 't' ==> r.fellDown == g.fellDown
    ensures r.time == g.time && r.planetSelected == g.planetSelected
  {
    if key == '-' then g.(timeSpeed := g.timeSpeed / 2.0)
    else if key == '=' then g.(timeSpeed := g.timeSpeed * 2.0)
    else if key == 'u' then g.(starshipView := !g.starshipView)
    else if key == 'o' then g.(showOrbits := !g.showOrbits)
    else if key == ',' then g.(camera := SlowDown(g.camera))
    else if key == '.' then g.(camera := SpeedUp(g.camera))
    else if key == 'w' then g.(controls := g.controls.(forward := true))
    else if key == 's' then g.(controls := g.controls.(backward := true))
    else if key == 'a' then g.(controls := g.controls.(yawLeft := true))
    else if key == 'd' then g.(controls := g.controls.(yawRight := true))
    else if key == 't' then g.(fellDown := false, camera := Reset(g.camera))
    else g
  }

  /** keyDown(key): a digit aims the camera at that planet, or returns at
      once when hasPlanet rejects it; every other key goes to the switch,
      which has no case for a digit. */
  function KeyDown(g: Globals, key: char, planets: seq<PlanetBody>, env: Env): (r: Globals)
    requires key != 'n' && CanSelect(g, key, planets, env)
    ensures r.controls.left == g.controls.left && r.controls.right == g.controls.right
    ensures key != 't' ==> r.fellDown == g.fellDown
    ensures r.time == g.time
  {
    if IsPlanetKey(key) then
      if HasPlanetIndex(|planets|, key as int) then
        var i := key as int - 48;
        g.(camera := PointAt(g.camera, PlanetTarget(planets, i, env), env), planetSelected := i)
      else
        g
    else
      Switch(g, key)
  }

  /** keyUp(key): the release of a movement key clears its flag. */
  function KeyUp(g: Globals, key: char): (r: Globals)
    ensures r.(controls := g.controls) == g
    ensures r.controls.left == g.controls.left && r.controls.right == g.controls.right
  {
    if key == 'w' then g.(controls := g.controls.(forward := false))
    else if key == 's' then g.(controls := g.controls.(backward := false))
    else if key == 'a' then g.(controls := g.controls.(yawLeft := false))
    else if key == 'd' then g.(controls := g.controls.(yawRight := false))
    else g
  }

  /** mouse(x, y): setMouse with the pixel coordinates converted to float. */
  function Mouse(g: Globals, x: int, y: int, env: Env): (r: Globals)
    ensures r.(camera := g.camera) == g
    ensures r.camera.(mouseLeftRight := g.camera.mouseLeftRight, mouseUpDown := g.camera.mouseUpDown) == g.camera
  {
    g.(camera := SetMouse(g.camera, x as real, y as real, env))
  }

  // ---------------------------------------------------------------------
  // display.

  /** What a frame does after advancing the time: stay on the crash screen,
      swap in a new galaxy (the canonical one when rand() % 6 == 0) or fly. */
  datatype Frame = Crashed | Swapped(canonical: bool) | Flying

  /** The decision of display, from the latch, the two clearances and the
      rand() drawn after reseeding. */
  function FrameOutcome(fellDown: bool, minDistance: real, involveDistance: real, xixi: int): (f: Frame)
    ensures f == Crashed <==> fellDown || minDistance < ContactDistance
    ensures f.Swapped? <==> !fellDown && minDistance >= ContactDistance && involveDistance < ContactDistance
    ensures f.Swapped? ==> (f.canonical <==> xixi % 6 == 0)
  {
    if fellDown || minDistance < ContactDistance then Crashed
    else if involveDistance < ContactDistance then Swapped(xixi % 6 == 0)
    else Flying
  }

  /** The four translation ifs at the end of display, in their order. */
  function Moves(c: Controls, cam: CameraState, env: Env): (r: CameraState)
    ensures r.(position := cam.position) == cam
    ensures !c.forward && !c.backward && !c.left && !c.right ==> r.position == cam.position
  {
    var c1 := if c.forward then MoveForward(cam, env) else cam;
    var c2 := if c.backward then MoveBackward(c1, env) else c1;
    var c3 := if c.left then MoveLeft(c2, env) else c2;
    if c.right then MoveRight(c3, env) else c3
  }

  /** The two turning ifs that follow them. */
  function Yaws(c: Controls, cam: CameraState, env: Env): (r: CameraState)
    ensures r.(forward := cam.forward, right := cam.right) == cam
    ensures !c.yawLeft && !c.yawRight ==> r == cam
  {
    var c5 := if c.yawLeft then YawLeft(cam, env) else cam;
    if c.yawRight then YawRight(c5, env) else c5
  }

  /** The six ifs at the end of display: the moves, then the turns. */
  function Dispatch(c: Controls, cam: CameraState, env: Env): (r: CameraState)
    ensures r.(position := cam.position, forward := cam.forward, right := cam.right) == cam
    ensures !c.forward && !c.backward && !c.left && !c.right ==> r.position == cam.position
    ensures !c.yawLeft && !c.yawRight ==> r.forward == cam.forward && r.right == cam.right
  {
    Yaws(c, Moves(c, cam, env), env)
  }

  /** The galaxy a wormhole passage swaps in: the canonical system when the
      first rand() after reseeding is a multiple of 6, else the drawn one. */
  function SwapLayout(rands: seq<int>): (l: Layout)
    requires |rands| > 0 && (rands[0] % 6 != 0 ==> Generate(rands).Some?)
    ensures rands[0] % 6 == 0 ==> l == CanonicalLayout
    ensures rands[0] % 6 != 0 ==> Some(l) == Generate(rands)
  {
    if rands[0] % 6 == 0 then CanonicalLayout else Generate(rands).value
  }

  /** The rest of display once the clock has advanced: contact latches the
      crash and freezes the camera; a swap resets the camera before the
      dispatch. */
  function Decide(g: Globals, minDistance: real, involveDistance: real, xixi: int, env: Env): (r: Globals)
    ensures r.(fellDown := g.fellDown, camera := g.camera) == g
    ensures r.fellDown <==> g.fellDown || minDistance < ContactDistance
  {
    match FrameOutcome(g.fellDown, minDistance, involveDistance, xixi)
    case Crashed => g.(fellDown := true)
    case Swapped(_) => g.(camera := Dispatch(g.controls, Reset(g.camera), env))
    case Flying => g.(camera := Dispatch(g.controls, g.camera, env))
  }

  /** display on the globals: the time always advances, then the decision. */
  function Display(g: Globals, minDistance: real, involveDistance: real, xixi: int, env: Env): (r: Globals)
    ensures r.time == g.time + g.timeSpeed
    ensures r.(time := g.time, fellDown := g.fellDown, camera := g.camera) == g
    ensures r.fellDown <==> g.fellDown || minDistance < ContactDistance
  {
    Decide(g.(time := g.time + g.timeSpeed), minDistance, involveDistance, xixi, env)
  }

  // ---------------------------------------------------------------------
  // Properties of the callbacks.

  /** A movement key press sets exactly its own flag. */
  lemma MovementKeyDown(g: Globals, key: char, planets: seq<PlanetBody>, env: Env)
    requires IsMovementKey(key)
    ensures CanSelect(g, key, planets, env)
    ensures var r := KeyDown(g, key, planets, env);
      && Held(r.controls, key)
      && (forall k :: IsMovementKey(k) && k != key ==> Held(r.controls, k) == Held(g.controls, k))
      && r.controls.left == g.controls.left && r.controls.right == g.controls.right
      && r.(controls := g.controls) == g
  {
    if key == 'w' {
    } else if key == 's' {
    } else if key == 'a' {
    } else {
    }
  }

  /** Its release clears exactly that flag. */
  lemma MovementKeyUp(g: Globals, key: char)
    requires IsMovementKey(key)
    ensures var r := KeyUp(g, key);
      && !Held(r.controls, key)
      && (forall k :: IsMovementKey(k) && k != key ==> Held(r.controls, k) == Held(g.controls, k))
      && r.controls.left == g.controls.left && r.controls.right == g.controls.right
  {
    if key == 'w' {
    } else if key == 's' {
    } else if key == 'a' {
    } else {
    }
  }

  /** Press and release of a movement key that was not held leave the globals
      as they were. */
  lemma PressThenRelease(g: Globals, key: char, planets: seq<PlanetBody>, env: Env)
    requires IsMovementKey(key) && !Held(g.controls, key)
    ensures CanSelect(g, key, planets, env)
    ensures KeyUp(KeyDown(g, key, planets, env), key) == g
  {
    if key == 'w' {
    } else if key == 's' {
    } else if key == 'a' {
    } else {
    }
  }

  /** Every other key release changes nothing. */
  lemma OtherKeyUp(g: Globals, key: char)
    requires !IsMovementKey(key)
    ensures KeyUp(g, key) == g
  {
  }

  /** '=' then '-', or '-' then '=', give back the time speed exactly. */
  lemma TimeSpeedRestored(g: Globals, planets: seq<PlanetBody>, env: Env)
    ensures CanSelect(g, '=', planets, env) && CanSelect(g, '-', planets, env)
    ensures var d := KeyDown(g, '=', planets, env);
      CanSelect(d, '-', planets, env) && KeyDown(d, '-', planets, env) == g
    ensures var h := KeyDown(g, '-', planets, env);
      CanSelect(h, '=', planets, env) && KeyDown(h, '=', planets, env) == g
    ensures KeyDown(g, '=', planets, env).timeSpeed == 2.0 * g.timeSpeed
  {
  }

  /** 'u' and 'o' each flip one view flag, so pressing one twice is no change. */
  lemma TogglesTwice(g: Globals, key: char, planets: seq<PlanetBody>, env: Env)
    requires key == 'u' || key == 'o'
    ensures CanSelect(g, key, planets, env)
    ensures var r := KeyDown(g, key, planets, env);
      && (key == 'u' ==> r == g.(starshipView := !g.starshipView))
      && (key == 'o' ==> r == g.(showOrbits := !g.showOrbits))
      && CanSelect(r, key, planets, env) && KeyDown(r, key, planets, env) == g
  {
  }

  /** A digit hasPlanet rejects changes nothing; an accepted digit selects an
      existing planet and aims the camera at its scaled position, touching
      nothing else. */
  lemma DigitKey(g: Globals, key: char, planets: seq<PlanetBody>, env: Env)
    requires IsPlanetKey(key) && CanSelect(g, key, planets, env)
    ensures var r := KeyDown(g, key, planets, env);
      && (!HasPlanetIndex(|planets|, key as int) ==> r == g)
      && (HasPlanetIndex(|planets|, key as int) ==>
            var i := key as int - 48;
            && 0 < i < |planets| && r.planetSelected == i
            && r.camera == PointAt(g.camera, PlanetTarget(planets, i, env), env)
            && r.(camera := g.camera, planetSelected := g.planetSelected) == g)
  {
  }

  /** With the ten planets of the canonical system every digit '1'..'9' is
      accepted, and the digit names the planet it selects. */
  lemma CanonicalDigitsAccepted(key: char)
    requires IsPlanetKey(key)
    ensures HasPlanetIndex(|CanonicalPlanets|, key as int)
    ensures 1 <= key as int - 48 <= 9 < |CanonicalPlanets|
  {
  }

  /** 't' clears the crash latch and resets the camera, and nothing else. */
  lemma ResetKey(g: Globals, planets: seq<PlanetBody>, env: Env)
    ensures CanSelect(g, 't', planets, env)
    ensures var r := KeyDown(g, 't', planets, env);
      !r.fellDown && r.camera == Reset(g.camera) && r.(fellDown := g.fellDown, camera := g.camera) == g
  {
  }

  /** ',' and '.' are slowDown and speedUp, which keep the speed inside the
      band the initial 0.005 can reach. */
  lemma SpeedKeys(g: Globals, planets: seq<PlanetBody>, env: Env)
    requires SpeedInBand(g.camera)
    ensures CanSelect(g, ',', planets, env) && CanSelect(g, '.', planets, env)
    ensures KeyDown(g, ',', planets, env) == g.(camera := SlowDown(g.camera))
    ensures KeyDown(g, '.', planets, env) == g.(camera := SpeedUp(g.camera))
    ensures SpeedInBand(KeyDown(g, ',', planets, env).camera) && SpeedInBand(KeyDown(g, '.', planets, env).camera)
  {
    SpeedBandInvariant(g.camera);
  }

  /** Nothing held, nothing moves. */
  lemma DispatchReleased(cam: CameraState, env: Env)
    ensures Dispatch(Released, cam, env) == cam
  {
  }

  /** Holding forward and backward together (and nothing else) cancels out. */
  lemma {:induction false} ForwardAndBackwardCancel(cam: CameraState, env: Env)
    ensures Dispatch(Released.(forward := true, backward := true), cam, env) == cam
  {
    BackwardUndoesForward(cam, env);
  }

  /** A frame in the crashed state, or one that makes contact, only advances
      the time and sets the latch: no movement and no swap. */
  lemma CrashedFrame(g: Globals, minDistance: real, involveDistance: real, xixi: int, env: Env)
    requires g.fellDown || minDistance < ContactDistance
    ensures Display(g, minDistance, involveDistance, xixi, env) == g.(time := g.time + g.timeSpeed, fellDown := true)
  {
  }

  /** A frame through the wormhole resets the camera before dispatching; one
      without contact dispatches from the camera as it was. */
  lemma FlyingFrames(g: Globals, minDistance: real, involveDistance: real, xixi: int, env: Env)
    requires !g.fellDown && minDistance >= ContactDistance
    ensures var r := Display(g, minDistance, involveDistance, xixi, env);
      && !r.fellDown
      && (involveDistance < ContactDistance ==> r.camera == Dispatch(g.controls, Reset(g.camera), env))
      && (involveDistance >= ContactDistance ==> r.camera == Dispatch(g.controls, g.camera, env))
  {
  }

  // ---------------------------------------------------------------------
  // Runs of events from the start.

  /** One callback invocation.  A key press carries the planets of the galaxy
      at that moment; a redraw carries the two clearances display measures
      and the rand() value after reseeding. */
  datatype Event =
    | KeyPress(key: char, planets: seq<PlanetBody>)
    | KeyRelease(key: char)
    | MouseMove(x: int, y: int)
    | Redraw(minDistance: real, involveDistance: real, xixi: int)

  /** The events the model gives a meaning to: a byte key other than 'n', and
      an accepted digit only when the camera can point at that planet. */
  predicate Enabled(g: Globals, e: Event, env: Env)
  {
    e.KeyPress? ==> e.key != 'n' && CanSelect(g, e.key, e.planets, env)
  }

  function Step(g: Globals, e: Event, env: Env): Globals
    requires Enabled(g, e, env)
  {
    match e
    case KeyPress(key, planets) => KeyDown(g, key, planets, env)
    case KeyRelease(key) => KeyUp(g, key)
    case MouseMove(x, y) => Mouse(g, x, y, env)
    case Redraw(minDistance, involveDistance, xixi) => Display(g, minDistance, involveDistance, xixi, env)
  }

  /** The globals after a run of events, or None when one is not enabled. */
  function Run(g: Globals, es: seq<Event>, env: Env): Option<Globals>
    decreases |es|
  {
    if es == [] then Some(g)
    else if Enabled(g, es[0], env) then Run(Step(g, es[0], env), es[1..], env)
    else None
  }

  /** What holds in every state reachable from the start: left and right are
      never held (no key sets them), the time speed stays positive (it is
      only halved and doubled), the camera speed stays in its band and the
      turn speed stays 0.01 (only reset writes it). */
  predicate Steady(g: Globals)
  {
    && !g.controls.left && !g.controls.right
    && g.timeSpeed > 0.0
    && SpeedInBand(g.camera)
    && g.camera.turnSpeed == InitialTurnSpeed
  }

  lemma {:induction false} DispatchKeepsSpeeds(c: Controls, cam: CameraState, env: Env)
    ensures Dispatch(c, cam, env).speed == cam.speed && Dispatch(c, cam, env).turnSpeed == cam.turnSpeed
  {
    var r := Dispatch(c, cam, env);
    assert r.(position := cam.position, forward := cam.forward, right := cam.right) == cam;
  }

  lemma {:induction false} KeyDownKeepsSteady(g: Globals, key: char, planets: seq<PlanetBody>, env: Env)
    requires Steady(g) && key != 'n' && CanSelect(g, key, planets, env)
    ensures Steady(KeyDown(g, key, planets, env))
  {
    SpeedBandInvariant(g.camera);
    if !IsPlanetKey(key) {
      var r := Switch(g, key);
      assert r.camera == g.camera || r.camera == SlowDown(g.camera) || r.camera == SpeedUp(g.camera)
        || r.camera == Reset(g.camera);
    }
  }

  lemma {:induction false} DisplayKeepsSteady(g: Globals, minDistance: real, involveDistance: real, xixi: int, env: Env)
    requires Steady(g)
    ensures Steady(Display(g, minDistance, involveDistance, xixi, env))
  {
    SpeedBandInvariant(g.camera);
    DispatchKeepsSpeeds(g.controls, Reset(g.camera), env);
    DispatchKeepsSpeeds(g.controls, g.camera, env);
  }

  lemma {:induction false} StepKeepsSteady(g: Globals, e: Event, env: Env)
    requires Steady(g) && Enabled(g, e, env)
    ensures Steady(Step(g, e, env))
  {
    match e
    case KeyPress(key, planets) => KeyDownKeepsSteady(g, key, planets, env);
    case KeyRelease(key) =>
    case MouseMove(x, y) =>
    case Redraw(minDistance, involveDistance, xixi) => DisplayKeepsSteady(g, minDistance, involveDistance, xixi, env);
  }

  /** Every run from the start ends in a steady state: in particular the
      sideways flags are never held, so display never calls left or right. */
  lemma {:induction false} RunsStaySteady(g: Globals, es: seq<Event>, env: Env)
    requires Steady(g)
    ensures Run(g, es, env).Some? ==> Steady(Run(g, es, env).value)
    decreases |es|
  {
    if es != [] && Enabled(g, es[0], env) {
      StepKeepsSteady(g, es[0], env);
      RunsStaySteady(Step(g, es[0], env), es[1..], env);
    }
  }

  lemma StartIsSteady()
    ensures Steady(Start)
  {
    SpeedBandInvariant(Initial);
  }

  /** In a steady state a redraw moves the clock strictly forward. */
  lemma RedrawAdvancesClock(g: Globals, minDistance: real, involveDistance: real, xixi: int, env: Env)
    requires Steady(g)
    ensures Display(g, minDistance, involveDistance, xixi, env).time > g.time
  {
  }

  predicate IsResetPress(e: Event)
  {
    e.KeyPress? && e.key == 't'
  }

  /** Once crashed, only a 't' press brings the session back: every run
      without one keeps the latch set. */
  lemma {:induction false} CrashIsLatched(g: Globals, es: seq<Event>, env: Env)
    requires g.fellDown
    requires forall i :: 0 <= i < |es| ==> !IsResetPress(es[i])
    ensures Run(g, es, env).Some? ==> Run(g, es, env).value.fellDown
    decreases |es|
  {
    if es != [] && Enabled(g, es[0], env) {
      var h := Step(g, es[0], env);
      assert h.fellDown;
      assert forall i :: 0 <= i < |es[1..]| ==> es[1..][i] == es[i + 1];
      CrashIsLatched(h, es[1..], env);
    }
  }
}
