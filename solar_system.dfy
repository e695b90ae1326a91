/**
 * The SolarSystem class of src/solarsystem.cpp: the vectors of planets and
 * wormholes, filled by the two constructors through addPlanet, addMoon and
 * addWormhole, advanced by calculatePositions and searched by the two
 * proximity tests.  std::vector<Planet> and std::vector<Wormhole> hold their
 * elements by value, so the fields are sequences of body values; push_back
 * copies a freshly constructed Planet, Moon or Wormhole object into them, and
 * an element is updated by the function its class's method is proved to
 * compute.
 */
module SolarSystems {
  import opened MathEnv
  import opened Geometry
  import opened Vectors
  import opened Orbits
  import opened Bodies
  import opened SolarModel
  import opened Cameras

  /** getPosition on a body value: the position scaled into `vec`. */
  method GetBodyPosition(b: Body, vec: array<real>, env: Env)
    requires vec.Length == 3
    modifies vec
    ensures Of(vec) == Scale(b.pose.position, env.distanceScale)
  {
    vec[0] := b.pose.position.x * env.distanceScale;
    vec[1] := b.pose.position.y * env.distanceScale;
    vec[2] := b.pose.position.z * env.distanceScale;
  }

  /** The copy of camera.position both proximity tests start with. */
  method CopyPosition(camera: Camera) returns (position: array<real>)
    requires camera.Valid()
    ensures fresh(position) && position.Length == 3 && Of(position) == camera.State().position
  {
    position := new real[3];
    for i := 0 to 3
      invariant forall j :: 0 <= j < i ==> position[j] == camera.position[j]
    {
      position[i] := camera.position[i];
    }
  }

  /** The distance loop of both tests: the library square root of the summed
      squared component differences. */
  method CentreDistance(pos: array<real>, position: array<real>, env: Env) returns (distance: real)
    requires pos.Length == 3 && position.Length == 3
    ensures distance == env.sqrt(SquaredDistance(Of(pos), Of(position)))
  {
    distance := 0.0;
    for j := 0 to 3
      invariant distance == SquaresUpTo(Of(pos), Of(position), j)
    {
      SquaresStep(Of(pos), Of(position), j, pos[j], position[j]);
      distance := distance + (pos[j] - position[j]) * (pos[j] - position[j]);
    }
    SquaresUpToThree(Of(pos), Of(position));
    distance := env.sqrt(distance);
  }

  /** `int index = rand() % 12; while (flag[index]) index = rand() % 12;`
      reading from rands[k]: the drawn index and the next unread position. */
  method DrawTextureIndex(flag: array<bool>, rands: seq<int>, k: nat, ghost used: set<int>) returns (index: int, next: nat)
    requires flag.Length == FlagSlots && forall i :: 0 <= i < FlagSlots ==> (flag[i] <==> i in used)
    requires DrawIndex(FlagSlots, rands, k, used).Picked?
    ensures DrawIndex(FlagSlots, rands, k, used) == Picked(index, next)
    ensures 0 <= index < FlagSlots && !flag[index]
  {
    index := rands[k] % IndexModulus;
    next := k + 1;
    while flag[index]
      invariant 0 <= index < FlagSlots && next <= |rands|
      invariant RetryIndex(FlagSlots, rands, next, index, used) == DrawIndex(FlagSlots, rands, k, used)
      decreases |rands| - next
    {
      index := rands[next] % IndexModulus;
      next := next + 1;
    }
  }

  /** `distance = (rand() + 1000) * (rand() + 1000)`, redrawn while outside
      [57910000, 120000000]: the accepted increment and the next unread
      position. */
  method DrawIncrement(rands: seq<int>, k: nat) returns (distance: int, next: nat)
    requires DrawDistance(rands, k).Some?
    ensures DrawDistance(rands, k) == Some((distance, next))
  {
    distance := (rands[k] + 1000) * (rands[k + 1] + 1000);
    next := k + 2;
    while distance < MinIncrement || distance > MaxIncrement
      invariant next <= |rands| && RetryDistance(rands, next, distance) == DrawDistance(rands, k)
      decreases |rands| - next
    {
      distance := (rands[next] + 1000) * (rands[next + 1] + 1000);
      next := next + 2;
    }
  }

  class SolarSystem {
    /** std::vector<Planet> planets and std::vector<Wormhole> wormholes. */
    var planets: seq<PlanetBody>
    var wormholes: seq<Body>

    /** Every body can be advanced: no period is zero. */
    predicate Valid()
      reads this
    {
      SystemTimed(State())
    }

    function State(): System
      reads this
    {
      System(planets, wormholes)
    }

    /** The constructor parameters of every body. */
    function Layout(): Layout
      reads this
    {
      LayoutOf(State())
    }

    /** SolarSystem(): the ten planets from the sun to Pluto with their real
        distances and periods, the Earth's moon and the wormhole. */
    constructor ()
      ensures Valid() && Layout() == CanonicalLayout
    {
      planets := [];
      wormholes := [];
      new;
      AddPlanet(0.0, 1.0, 500.0, 695500.0, SunTexture);
      AddPlanet(57910000.0, 88.0, 58.6, 2440.0, MercuryTexture);
      AddPlanet(108200000.0, 224.65, 243.0, 6052.0, VenusTexture);
      AddPlanet(149600000.0, 365.0, 1.0, 6371.0, EarthTexture);
      AddPlanet(227939100.0, 686.0, 1.03, 3389.0, MarsTexture);
      AddPlanet(778500000.0, 4332.0, 0.4139, 69911.0, JupiterTexture);
      AddPlanet(1433000000.0, 10759.0, 0.44375, 58232.0, SaturnTexture);
      AddPlanet(2877000000.0, 30685.0, 0.718056, 25362.0, UranusTexture);
      AddPlanet(4503000000.0, 60188.0, 0.6713, 24622.0, NeptuneTexture);
      AddPlanet(5906380000.0, 90616.0, 6.39, 1137.0, PlutoTexture);
      assert PlanetLayouts(planets) == CanonicalPlanets[3 := PlanetLayout(CanonicalPlanets[3].orbit, [])];
      AddMoon(3, 7000000.0, 27.3, 27.3, 1738.0, MoonTexture);
      assert Layout().planets[3].moons == [EarthMoon];
      assert Layout().planets == CanonicalPlanets;
      AddWormhole(130000000.0, 13000000000.0, 0.0130, 13000.0, WormholeTexture);
    }

    /** SolarSystem(mode): empty unless mode is 0; otherwise the sun, the
        drawn planets and the wormhole, drawing from the rand() values
        `rands` in order.  The flag array has the 12 slots the draws need. */
    constructor Random(mode: int, rands: seq<int>)
      requires RandStream(rands)
      requires mode == 0 ==> Generate(rands).Some?
      ensures Valid()
      ensures mode != 0 ==> planets == [] && wormholes == []
      ensures mode == 0 ==> Layout() == Generate(rands).value
    {
      planets := [];
      wormholes := [];
      new;
      if mode != 0 {
        return;
      }
      var flag := new bool[FlagSlots];
      for i := 0 to FlagSlots
        invariant planets == [] && wormholes == []
        invariant forall j :: 0 <= j < i ==> !flag[j]
      {
        flag[i] := false;
      }
      flag[0] := true;

      var k: nat := 0;
      var sunIndex := rands[k] % 3;
      k := k + 1;
      AddPlanet(0.0, 1.0, 500.0, 695500.0, SunPicTexture(sunIndex));
      var solarSize: nat := rands[k] % 5 + 5;
      k := k + 1;
      var distanceFromSun := 0.0;
      assert PlanetLayouts(planets) == [SunLayout(rands[0] % 3)];
      AddRandomPlanets(flag, rands, k, solarSize, distanceFromSun, {0});

      AddWormhole(130000000.0, 13000000000.0, 0.0130, 13000.0, WormholeTexture);
    }

    /** The `while (solar_size--)` loop of SolarSystem(int mode): `solarSize`
        planets drawn from rands[k..] and appended, starting from the running
        distance `distanceFromSun`, with `flag` marking the texture indices
        `used` so far. */
    method AddRandomPlanets(flag: array<bool>, rands: seq<int>, k: nat, solarSize: nat, distanceFromSun: real,
                            ghost used: set<int>)
      requires Valid() && RandStream(rands)
      requires flag.Length == FlagSlots && forall i :: 0 <= i < FlagSlots ==> (flag[i] <==> i in used)
      requires GenPlanets(rands, k, solarSize, used, distanceFromSun, PlanetLayouts(planets)).Some?
      modifies this, flag
      ensures Valid() && wormholes == old(wormholes)
      ensures old(GenPlanets(rands, k, solarSize, used, distanceFromSun, PlanetLayouts(planets))).value.0 == PlanetLayouts(planets)
    {
      ghost var target := GenPlanets(rands, k, solarSize, used, distanceFromSun, PlanetLayouts(planets));
      var k, solarSize, distanceFromSun := k, solarSize, distanceFromSun;
      ghost var used := used;
      while solarSize > 0
        invariant Valid() && wormholes == old(wormholes)
        invariant forall i :: 0 <= i < FlagSlots ==> (flag[i] <==> i in used)
        invariant target.Some? && GenPlanets(rands, k, solarSize, used, distanceFromSun, PlanetLayouts(planets)) == target
        decreases solarSize
      {
        ghost var acc := PlanetLayouts(planets);
        solarSize := solarSize - 1;
        var index, k1 := DrawTextureIndex(flag, rands, k, used);
        var total, next := AddDrawnPlanet(rands, k1, distanceFromSun, index);
        GenPlanetsStep(rands, k, solarSize, used, distanceFromSun, acc, index, k1, total, next, PlanetLayouts(planets));
        distanceFromSun := total;
        k := next;
        flag[index] := true;
        used := used + {index};
      }
    }

    /** One turn of the generation loop after the texture index: the
        increment drawn from rands[k..], the running distance advanced by it
        and the planet added, with the radius range of the first planet after
        the sun or of the later ones. */
    method AddDrawnPlanet(rands: seq<int>, k: nat, distanceFromSun: real, index: int) returns (total: real, next: nat)
      requires Valid()
      requires RandStream(rands) && DrawDistance(rands, k).Some? && DrawDistance(rands, k).value.1 + 3 <= |rands|
      modifies this
      ensures Valid() && wormholes == old(wormholes)
      ensures var dk := DrawDistance(rands, k).value;
        && total == distanceFromSun + dk.0 as real && next == dk.1 + 3
        && PlanetLayouts(planets) == old(PlanetLayouts(planets)) + [DrawnPlanet(rands, dk.1, total, distanceFromSun < 0.001, index)]
    {
      if distanceFromSun < 0.001 {
        var distance, k2 := DrawIncrement(rands, k);
        total := distanceFromSun + distance as real;
        AddPlanet(total, (rands[k2] % 1000 + 100) as real, (rands[k2 + 1] + 1000) as real / 8000.0,
                  (rands[k2 + 2] % 1500 + 3000) as real, OtherPlanetTexture(index));
        next := k2 + 3;
      } else {
        var distance, k2 := DrawIncrement(rands, k);
        total := distanceFromSun + distance as real;
        AddPlanet(total, (rands[k2] % 1000 + 100) as real, (rands[k2 + 1] + 1000) as real / 8000.0,
                  (rands[k2 + 2] % 20000 + 5000) as real, OtherPlanetTexture(index));
        next := k2 + 3;
      }
    }

    /** calculatePositions: every planet (and through it every moon), then
        every wormhole, advanced to the same time. */
    method CalculatePositions(time: real, env: Env)
      requires Valid()
      modifies this
      ensures Valid() && State() == AdvanceSystem(old(State()), time, env)
    {
      for i := 0 to |planets|
        invariant |planets| == |old(planets)| && wormholes == old(wormholes)
        invariant forall j :: 0 <= j < i ==> planets[j] == AdvancePlanet(old(planets[j]), time, env)
        invariant forall j :: i <= j < |planets| ==> planets[j] == old(planets[j])
      {
        planets := planets[i := AdvancePlanet(planets[i], time, env)];
      }
      for i := 0 to |wormholes|
        invariant |planets| == |old(planets)| && |wormholes| == |old(wormholes)|
        invariant forall j :: 0 <= j < |planets| ==> planets[j] == AdvancePlanet(old(planets[j]), time, env)
        invariant forall j :: 0 <= j < i ==> wormholes[j] == Advance(old(wormholes[j]), time, env)
        invariant forall j :: i <= j < |wormholes| ==> wormholes[j] == old(wormholes[j])
      {
        wormholes := wormholes[i := Advance(wormholes[i], time, env)];
      }
      assert planets == AdvanceSystem(old(State()), time, env).planets;
      assert wormholes == AdvanceSystem(old(State()), time, env).wormholes;
      AdvanceSystemIdempotent(old(State()), time, env);
    }

    /** addPlanet: a new planet with these parameters and no moons appended;
        every other body is untouched. */
    method AddPlanet(distanceFromSun: real, orbitTime: real, rotationTime: real, radius: real, textureHandle: Texture)
      requires Valid()
      requires orbitTime != 0.0 && rotationTime != 0.0
      modifies this
      ensures Valid()
      ensures |planets| == |old(planets)| + 1 && wormholes == old(wormholes)
      ensures planets == old(planets) + [PlanetBody(Body(Orbit(distanceFromSun, orbitTime, rotationTime, radius, textureHandle), planets[|old(planets)|].body.pose), [])]
      ensures PlanetLayouts(planets) == PlanetLayouts(old(planets)) + [PlanetLayout(Orbit(distanceFromSun, orbitTime, rotationTime, radius, textureHandle), [])]
    {
      var p := new Planet(distanceFromSun, orbitTime, rotationTime, radius, textureHandle);
      planets := planets + [p.State()];
      assert PlanetLayouts(planets) == PlanetLayouts(old(planets)) + [PlanetLayoutOf(p.State())];
    }

    /** addWormhole: a new wormhole with these parameters appended. */
    method AddWormhole(distanceFromSun: real, orbitTime: real, rotationTime: real, radius: real, textureHandle: Texture)
      requires Valid()
      requires orbitTime != 0.0 && rotationTime != 0.0
      modifies this
      ensures Valid()
      ensures |wormholes| == |old(wormholes)| + 1 && wormholes[..|old(wormholes)|] == old(wormholes) && planets == old(planets)
      ensures wormholes[|old(wormholes)|].orbit == Orbit(distanceFromSun, orbitTime, rotationTime, radius, textureHandle)
      ensures Layout() == Orbits.Layout(old(Layout()).planets,
                                        old(Layout()).wormholes + [Orbit(distanceFromSun, orbitTime, rotationTime, radius, textureHandle)])
    {
      var w := new Wormhole(distanceFromSun, orbitTime, rotationTime, radius, textureHandle);
      wormholes := wormholes + [w.State()];
      assert Layout().wormholes == old(Layout()).wormholes + [w.Params()];
    }

    /** addMoon: a new moon appended to planets[planetIndex]; every other
        planet, that planet's own body and every wormhole are untouched. */
    method AddMoon(planetIndex: int, distanceFromPlanet: real, orbitTime: real, rotationTime: real, radius: real,
                   textureHandle: Texture)
      requires Valid() && 0 <= planetIndex < |planets|
      requires orbitTime != 0.0 && rotationTime != 0.0
      modifies this
      ensures Valid()
      ensures |planets| == |old(planets)| && wormholes == old(wormholes)
      ensures forall i :: 0 <= i < |planets| && i != planetIndex ==> planets[i] == old(planets[i])
      ensures planets[planetIndex].body == old(planets[planetIndex].body)
      ensures var n := |old(planets[planetIndex].moons)|;
        |planets[planetIndex].moons| == n + 1 && planets[planetIndex].moons[..n] == old(planets[planetIndex].moons)
      ensures Layout() == Orbits.Layout(old(Layout()).planets[planetIndex :=
                                          PlanetLayout(old(Layout()).planets[planetIndex].orbit,
                                                       old(Layout()).planets[planetIndex].moons
                                                         + [Orbit(distanceFromPlanet, orbitTime, rotationTime, radius, textureHandle)])],
                                        old(Layout()).wormholes)
    {
      var m := new Moon(distanceFromPlanet, orbitTime, rotationTime, radius, textureHandle);
      var p := planets[planetIndex];
      var q := PlanetBody(p.body, p.moons + [m.State()]);
      planets := planets[planetIndex := q];
      assert q.moons[..|p.moons|] == p.moons;
      assert Orbits.Orbits(q.moons) == Orbits.Orbits(p.moons) + [m.Params()];
      assert Layout().planets == old(Layout()).planets[planetIndex := PlanetLayoutOf(q)];
    }

    /** getPlanetPosition: the scaled position of planets[index]. */
    method GetPlanetPosition(index: int, vec: array<real>, env: Env)
      requires 0 <= index < |planets| && vec.Length == 3
      modifies vec
      ensures Of(vec) == Scale(planets[index].body.pose.position, env.distanceScale)
    {
      GetBodyPosition(planets[index].body, vec, env);
    }

    /** getRadiusOfPlanet: the unscaled radius of planets[index]. */
    method GetRadiusOfPlanet(index: int) returns (r: real)
      requires 0 <= index < |planets|
      ensures r == Layout().planets[index].orbit.radius
    {
      r := planets[index].body.orbit.radius;
    }

    /** hasPlanet: `index - '0'` converted to the unsigned size type and
        compared with the number of planets. */
    method HasPlanet(index: int) returns (r: bool)
      requires 0 <= index < 256
      ensures r == HasPlanetIndex(|planets|, index)
      ensures 48 <= index ==> (r <==> index < 48 + |planets|)
      ensures |planets| < SizeModulus - 48 ==> (r <==> 48 <= index < 48 + |planets|)
    {
      var x := index - 48;
      r := AsUnsigned(x) < |planets|;
    }

    /** testDistancewithPlanet: the smallest clearance from the camera to a
        planet's surface, each radius clamped to 0.5, starting from 10000. */
    method TestDistanceWithPlanet(camera: Camera, env: Env) returns (minDistance: real)
      requires camera.Valid()
      ensures minDistance == PlanetProximity(State(), camera.State().position, env)
    {
      var position := CopyPosition(camera);
      ghost var cs := PlanetClearances(planets, Of(position), env);
      minDistance := 10000.0;
      for i := 0 to |planets|
        invariant Of(position) == camera.State().position
        invariant minDistance == MinFold(cs[..i])
      {
        var pos := new real[3](_ => 1.0);
        GetBodyPosition(planets[i].body, pos, env);
        var distance := CentreDistance(pos, position, env);
        var radiusScale := planets[i].body.orbit.radius * 0.000005;
        if radiusScale > 0.5 {
          radiusScale := 0.5;
        }
        assert cs[i] == distance - radiusScale;
        MinFoldStep(cs, i);
        if minDistance > distance - radiusScale {
          minDistance := distance - radiusScale;
        }
      }
      assert cs[..|planets|] == cs;
    }

    /** testDistancewithWormhole: the same fold over the wormholes, with the
        radii not clamped. */
    method TestDistanceWithWormhole(camera: Camera, env: Env) returns (minDistance: real)
      requires camera.Valid()
      ensures minDistance == WormholeProximity(State(), camera.State().position, env)
    {
      var position := CopyPosition(camera);
      ghost var cs := WormholeClearances(wormholes, Of(position), env);
      minDistance := 10000.0;
      for i := 0 to |wormholes|
        invariant Of(position) == camera.State().position
        invariant minDistance == MinFold(cs[..i])
      {
        var pos := new real[3](_ => 1.0);
        GetBodyPosition(wormholes[i], pos, env);
        var distance := CentreDistance(pos, position, env);
        var radiusScale := wormholes[i].orbit.radius * 0.000005;
        assert cs[i] == distance - radiusScale;
        MinFoldStep(cs, i);
        if minDistance > distance - radiusScale {
          minDistance := distance - radiusScale;
        }
      }
      assert cs[..|wormholes|] == cs;
    }
  }
}
