/**
 * The globals of src/main.cpp as one object: the control flags, the clock,
 * the view flags, the selected planet, the crash latch, the global camera
 * and the galaxy pointer.  Each callback is a method proved to move View()
 * as the matching function of SessionModel says, and to keep the steady
 * state that every run from the start keeps.
 */
module Sessions {
  import opened MathEnv
  import opened Geometry
  import opened Orbits
  import opened SolarModel
  import opened CameraModel
  import opened Cameras
  import opened SolarSystems
  import opened SessionModel

  class Session {
    var controls: Controls
    var time: real
    var timeSpeed: real
    var starshipView: bool
    var showOrbits: bool
    var planetSelected: int
    var fellDown: bool

    /** The global Camera object, and the SolarSystem the galaxy pointer
        designates; display replaces the latter on a wormhole passage. */
    const camera: Camera
    var galaxy: SolarSystem

    predicate Valid()
      reads this, camera, camera.forwardVec, camera.rightVec, camera.upVec, camera.position, galaxy
    {
      camera.Valid() && galaxy.Valid() && Steady(View())
    }

    /** The globals as a value. */
    function View(): Globals
      reads this, camera, camera.forwardVec, camera.rightVec, camera.upVec, camera.position
      requires camera.Valid()
    {
      Globals(controls, time, timeSpeed, starshipView, showOrbits, planetSelected, fellDown, camera.State())
    }

    /** The static initialisers and init: the canonical galaxy, the clock at
        2.552 with a step of 0.1, both views on, planet 1 selected, no
        control held, the camera as constructed. */
    constructor ()
      ensures Valid() && View() == Start && galaxy.Layout() == CanonicalLayout
      ensures fresh(galaxy) && fresh(camera)
    {
      camera := new Camera();
      galaxy := new SolarSystem();
      controls := Released;
      time := 2.552;
      timeSpeed := 0.1;
      starshipView := true;
      showOrbits := true;
      planetSelected := 1;
      fellDown := false;
      new;
      StartIsSteady();
    }

    /** keyDown: a digit goes through hasPlanet (returning at once when it
        fails), getPlanetPosition and pointAt; then the switch on the key.
        The galaxy is only read. */
    method KeyDown(key: char, env: Env)
      requires Valid() && key != 'n' && CanSelect(View(), key, galaxy.planets, env)
      modifies this, camera, camera.forwardVec, camera.rightVec, camera.upVec, camera.position
      ensures Valid() && galaxy == old(galaxy)
      ensures View() == SessionModel.KeyDown(old(View()), key, galaxy.planets, env)
    {
      StepKeepsSteady(View(), KeyPress(key, galaxy.planets), env);
      if '0' < key <= '9' {
        var has := galaxy.HasPlanet(key as int);
        if !has {
          return;
        }
        SelectPlanet(key as int - 48, env);
      }
      SwitchKey(key);
    }

    /** The digit branch of keyDown once hasPlanet has accepted the planet. */
    method SelectPlanet(index: int, env: Env)
      requires camera.Valid() && 0 <= index < |galaxy.planets|
      requires CanPointAt(camera.State(), PlanetTarget(galaxy.planets, index, env), env)
      modifies this, camera.forwardVec, camera.rightVec, camera.upVec
      ensures camera.Valid() && galaxy == old(galaxy)
      ensures View() == old(View()).(camera := PointAt(old(camera.State()), PlanetTarget(galaxy.planets, index, env), env),
                                     planetSelected := index)
    {
      var vec := new real[3];
      galaxy.GetPlanetPosition(index, vec, env);
      camera.PointAt(vec, env);
      planetSelected := index;
    }

    /** The switch of keyDown; a digit has no case in it. */
    method SwitchKey(key: char)
      requires camera.Valid() && key != 'n'
      modifies this, camera, camera.forwardVec, camera.rightVec, camera.upVec, camera.position
      ensures camera.Valid() && galaxy == old(galaxy)
      ensures View() == Switch(old(View()), key)
    {
      match key {
        case '-' => timeSpeed := timeSpeed / 2.0;
        case '=' => timeSpeed := timeSpeed * 2.0;
        case 'u' => starshipView := !starshipView;
        case 'o' => showOrbits := !showOrbits;
        case ',' => camera.SlowDown();
        case '.' => camera.SpeedUp();
        case 'w' => controls := controls.(forward := true);
        case 's' => controls := controls.(backward := true);
        case 'a' => controls := controls.(yawLeft := true);
        case 'd' => controls := controls.(yawRight := true);
        case 't' =>
          fellDown := false;
          camera.Reset();
        case _ =>
      }
    }

    /** keyUp: the release of a movement key clears its flag. */
    method KeyUp(key: char)
      requires Valid()
      modifies this
      ensures Valid() && galaxy == old(galaxy)
      ensures View() == SessionModel.KeyUp(old(View()), key)
    {
      match key {
        case 'w' => controls := controls.(forward := false);
        case 's' => controls := controls.(backward := false);
        case 'a' => controls := controls.(yawLeft := false);
        case 'd' => controls := controls.(yawRight := false);
        case _ =>
      }
    }

    /** mouse: setMouse with the pointer coordinates. */
    method Mouse(x: int, y: int, env: Env)
      requires Valid()
      modifies camera
      ensures Valid()
      ensures View() == SessionModel.Mouse(old(View()), x, y, env)
    {
      camera.SetMouse(x as real, y as real, env);
    }

    /** The six ifs that end display. */
    method DispatchControls(env: Env)
      requires camera.Valid()
      modifies camera.position, camera.forwardVec, camera.rightVec
      ensures camera.Valid() && camera.State() == Dispatch(controls, old(camera.State()), env)
    {
      DispatchMoves(env);
      DispatchYaws(env);
    }

    method DispatchMoves(env: Env)
      requires camera.Valid()
      modifies camera.position
      ensures camera.Valid() && camera.State() == Moves(controls, old(camera.State()), env)
    {
      ghost var c0 := camera.State();
      ghost var c1 := if controls.forward then MoveForward(c0, env) else c0;
      ghost var c2 := if controls.backward then MoveBackward(c1, env) else c1;
      if controls.forward {
        camera.Forward(env);
      }
      assert camera.State() == c1;
      if controls.backward {
        camera.Backward(env);
      }
      assert camera.State() == c2;
      if controls.left {
        camera.Left(env);
      }
      if controls.right {
        camera.Right(env);
      }
    }

    method DispatchYaws(env: Env)
      requires camera.Valid()
      modifies camera.forwardVec, camera.rightVec
      ensures camera.Valid() && camera.State() == Yaws(controls, old(camera.State()), env)
    {
      if controls.yawLeft {
        camera.YawLeft(env);
      }
      if controls.yawRight {
        camera.YawRight(env);
      }
    }

    /** The start of display: the clock advances by timeSpeed, the galaxy
        to the new time, and both clearances are taken from the camera. */
    method AdvanceFrame(env: Env) returns (minDistance: real, involveDistance: real)
      requires camera.Valid() && galaxy.Valid()
      modifies this, galaxy
      ensures camera.Valid() && galaxy.Valid() && galaxy == old(galaxy)
      ensures View() == old(View()).(time := old(time) + old(timeSpeed)) && time == old(time) + old(timeSpeed)
      ensures galaxy.State() == AdvanceSystem(old(galaxy.State()), time, env)
      ensures minDistance == PlanetProximity(galaxy.State(), camera.State().position, env)
      ensures involveDistance == WormholeProximity(galaxy.State(), camera.State().position, env)
    {
      time := time + timeSpeed;
      galaxy.CalculatePositions(time, env);
      minDistance := galaxy.TestDistanceWithPlanet(camera, env);
      involveDistance := galaxy.TestDistanceWithWormhole(camera, env);
    }

    /** The wormhole branch of display: a new galaxy, canonical when the first
        rand() after reseeding is a multiple of 6, and the camera reset. */
    method PassWormhole(rands: seq<int>)
      requires camera.Valid() && RandStream(rands) && |rands| > 0
      requires rands[0] % 6 != 0 ==> Generate(rands).Some?
      modifies this, camera, camera.forwardVec, camera.rightVec, camera.upVec, camera.position
      ensures camera.Valid() && galaxy.Valid() && fresh(galaxy)
      ensures galaxy.Layout() == SwapLayout(rands)
      ensures View() == old(View()).(camera := CameraModel.Reset(old(camera.State())))
    {
      var xixi := rands[0];
      if xixi % 6 == 0 {
        galaxy := new SolarSystem();
      } else {
        galaxy := new SolarSystem.Random(0, rands);
      }
      camera.Reset();
    }

    /** The end of display once the clock and the galaxy have advanced:
        latch a crash and stop, or on a wormhole passage replace the galaxy
        and reset the camera; then dispatch. */
    method FinishFrame(minDistance: real, involveDistance: real, rands: seq<int>, env: Env)
      requires camera.Valid() && galaxy.Valid() && RandStream(rands) && |rands| > 0
      requires rands[0] % 6 != 0 ==> Generate(rands).Some?
      modifies this, camera, camera.forwardVec, camera.rightVec, camera.upVec, camera.position
      ensures camera.Valid() && galaxy.Valid()
      ensures View() == Decide(old(View()), minDistance, involveDistance, rands[0], env)
      ensures match FrameOutcome(old(fellDown), minDistance, involveDistance, rands[0])
        case Swapped(_) =>
          fresh(galaxy) && galaxy.Layout() == SwapLayout(rands)
        case _ => galaxy == old(galaxy) && galaxy.State() == old(galaxy.State())
    {
      if minDistance < 0.001 {
        fellDown := true;
      }
      if fellDown {
        return;
      }
      FlyOn(involveDistance, rands, env);
    }

    /** A frame without a crash: through the wormhole first when its
        clearance is below 0.001, then the dispatch. */
    method FlyOn(involveDistance: real, rands: seq<int>, env: Env)
      requires camera.Valid() && galaxy.Valid() && RandStream(rands) && |rands| > 0
      requires rands[0] % 6 != 0 ==> Generate(rands).Some?
      modifies this, camera, camera.forwardVec, camera.rightVec, camera.upVec, camera.position
      ensures camera.Valid() && galaxy.Valid()
      ensures involveDistance < ContactDistance ==>
        && fresh(galaxy) && galaxy.Layout() == SwapLayout(rands)
        && View() == old(View()).(camera := Dispatch(controls, CameraModel.Reset(old(camera.State())), env))
      ensures involveDistance >= ContactDistance ==>
        galaxy == old(galaxy) && View() == old(View()).(camera := Dispatch(controls, old(camera.State()), env))
    {
      if involveDistance < 0.001 {
        PassWormhole(rands);
        ghost var layout := galaxy.Layout();
        DispatchControls(env);
        assert galaxy.Layout() == layout;
      } else {
        DispatchControls(env);
      }
    }

    /** display: advance the clock and the galaxy, take both clearances from
        the camera where it is, then decide.  `rands` is the rand() sequence
        after srand((int)time): its first value decides the swap, and
        SolarSystem(0) reseeds with the same seed and draws from the start
        again. */
    method Display(env: Env, rands: seq<int>)
      requires Valid() && RandStream(rands) && |rands| > 0
      requires rands[0] % 6 != 0 ==> Generate(rands).Some?
      modifies this, galaxy, camera, camera.forwardVec, camera.rightVec, camera.upVec, camera.position
      ensures Valid()
      ensures var advanced := AdvanceSystem(old(galaxy.State()), old(time) + old(timeSpeed), env);
        var minDistance := PlanetProximity(advanced, old(camera.State()).position, env);
        var involveDistance := WormholeProximity(advanced, old(camera.State()).position, env);
        var outcome := FrameOutcome(old(fellDown), minDistance, involveDistance, rands[0]);
        && View() == SessionModel.Display(old(View()), minDistance, involveDistance, rands[0], env)
        && (outcome.Swapped? ==>
              fresh(galaxy) && galaxy.Layout() == SwapLayout(rands))
        && (!outcome.Swapped? ==> galaxy == old(galaxy) && galaxy.State() == advanced)
    {
      ghost var g, system := View(), galaxy.State();
      var minDistance, involveDistance := AdvanceFrame(env);
      ghost var advanced := galaxy.State();
      assert time == g.time + g.timeSpeed;
      assert advanced == AdvanceSystem(system, time, env);
      assert g.camera.position == camera.State().position;
      StepKeepsSteady(g, Redraw(minDistance, involveDistance, rands[0]), env);
      FinishFrame(minDistance, involveDistance, rands, env);
      assert View() == SessionModel.Display(g, minDistance, involveDistance, rands[0], env);
      if !FrameOutcome(g.fellDown, minDistance, involveDistance, rands[0]).Swapped? {
        assert galaxy.State() == advanced;
      }
    }
  }
}
