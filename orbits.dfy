/**
 * The orbiting bodies of src/planet.cpp, src/moon.cpp and src/wormhole.cpp as
 * values.  The three classes store the same five constructor parameters and
 * compute their pose with the same planar formula, so one Orbit and one Body
 * type serve all three; a planet value also carries its moons.
 */
module Orbits {
  import opened MathEnv
  import opened Geometry

  /** The texture a body is drawn with.  The source passes GL texture handles
      of images loaded once at start-up; a handle is identified here by the
      image it was made from. */
  datatype Texture =
    | SunTexture | MercuryTexture | VenusTexture | EarthTexture | MarsTexture
    | JupiterTexture | SaturnTexture | UranusTexture | NeptuneTexture | PlutoTexture
    | MoonTexture | WormholeTexture
    | OtherPlanetTexture(index: int)
    | SunPicTexture(index: int)

  /** The constructor parameters: distance from the centre (the sun for a
      planet or wormhole, the planet for a moon), orbit and rotation periods,
      radius and texture.  No method changes them after construction. */
  datatype Orbit = Orbit(distance: real, orbitTime: real, rotationTime: real, radius: real, texture: Texture)

  /** What calculatePosition writes: the position and the spin angle in degrees. */
  datatype Pose = Pose(position: Vec3, rotation: real)

  datatype Body = Body(orbit: Orbit, pose: Pose)

  /** A planet with its moons, in the order they were added. */
  datatype PlanetBody = PlanetBody(body: Body, moons: seq<Body>)

  /** The bodies of a solar system, in the order they were added. */
  datatype System = System(planets: seq<PlanetBody>, wormholes: seq<Body>)

  /** The constructor parameters alone: what a freshly built system fixes
      before its first calculatePositions gives the bodies a pose. */
  datatype PlanetLayout = PlanetLayout(orbit: Orbit, moons: seq<Orbit>)

  datatype Layout = Layout(planets: seq<PlanetLayout>, wormholes: seq<Orbit>)

  /** The source's factor for the orbit angle (not quite pi) and the degrees
      of one full spin. */
  const AngleFactor := 3.1419
  const DegreesPerTurn := 360.0

  /** planetSizeScale: bodies are drawn, and tested for proximity, at
      radius * 0.000005. */
  const PlanetSizeScale := 0.000005

  /** Both periods are divisors in calculatePosition. */
  predicate Timed(o: Orbit)
  {
    o.orbitTime != 0.0 && o.rotationTime != 0.0
  }

  /** calculatePosition: the angle time * 3.1419 / orbitTime, the position
      (sin a * d, cos a * d, 0) and the spin time * 360 / rotationTime. */
  function Place(o: Orbit, time: real, env: Env): (p: Pose)
    requires Timed(o)
    ensures p.position.z == 0.0
    ensures p.rotation * o.rotationTime == time * DegreesPerTurn
  {
    var angle := time * AngleFactor / o.orbitTime;
    Pose(Vec3(env.sin(angle) * o.distance, env.cos(angle) * o.distance, 0.0),
         time * DegreesPerTurn / o.rotationTime)
  }

  /** A body after calculatePosition(time): same parameters, new pose. */
  function Advance(b: Body, time: real, env: Env): (r: Body)
    requires Timed(b.orbit)
    ensures r.orbit == b.orbit
  {
    Body(b.orbit, Place(b.orbit, time, env))
  }

  predicate AllTimed(bs: seq<Body>)
  {
    forall i :: 0 <= i < |bs| ==> Timed(bs[i].orbit)
  }

  /** Every body of a sequence advanced to the same time, in order. */
  function AdvanceAll(bs: seq<Body>, time: real, env: Env): (r: seq<Body>)
    requires AllTimed(bs)
    ensures |r| == |bs|
    ensures forall i :: 0 <= i < |bs| ==> r[i] == Advance(bs[i], time, env)
  {
    if bs == [] then [] else AdvanceAll(bs[..|bs| - 1], time, env) + [Advance(bs[|bs| - 1], time, env)]
  }

  predicate PlanetTimed(p: PlanetBody)
  {
    Timed(p.body.orbit) && AllTimed(p.moons)
  }

  /** Planet::calculatePosition: the planet and then each of its moons, all
      with the same time. */
  function AdvancePlanet(p: PlanetBody, time: real, env: Env): (r: PlanetBody)
    requires PlanetTimed(p)
    ensures r.body == Advance(p.body, time, env)
    ensures |r.moons| == |p.moons|
    ensures forall i :: 0 <= i < |p.moons| ==> r.moons[i] == Advance(p.moons[i], time, env)
  {
    PlanetBody(Advance(p.body, time, env), AdvanceAll(p.moons, time, env))
  }

  predicate SystemTimed(s: System)
  {
    (forall i :: 0 <= i < |s.planets| ==> PlanetTimed(s.planets[i])) && AllTimed(s.wormholes)
  }

  /** SolarSystem::calculatePositions: every planet (with its moons) and every
      wormhole advanced to the same time. */
  function AdvanceSystem(s: System, time: real, env: Env): (r: System)
    requires SystemTimed(s)
    ensures |r.planets| == |s.planets| && |r.wormholes| == |s.wormholes|
    ensures forall i :: 0 <= i < |s.planets| ==> r.planets[i] == AdvancePlanet(s.planets[i], time, env)
    ensures r.wormholes == AdvanceAll(s.wormholes, time, env)
  {
    System(AdvancePlanets(s.planets, time, env), AdvanceAll(s.wormholes, time, env))
  }

  function AdvancePlanets(ps: seq<PlanetBody>, time: real, env: Env): (r: seq<PlanetBody>)
    requires forall i :: 0 <= i < |ps| ==> PlanetTimed(ps[i])
    ensures |r| == |ps|
    ensures forall i :: 0 <= i < |ps| ==> r[i] == AdvancePlanet(ps[i], time, env)
  {
    if ps == [] then [] else AdvancePlanets(ps[..|ps| - 1], time, env) + [AdvancePlanet(ps[|ps| - 1], time, env)]
  }

  /** The parameters of every body, without the poses. */
  function Orbits(bs: seq<Body>): (r: seq<Orbit>)
    ensures |r| == |bs| && forall i :: 0 <= i < |bs| ==> r[i] == bs[i].orbit
  {
    seq(|bs|, i requires 0 <= i < |bs| => bs[i].orbit)
  }

  function PlanetLayoutOf(p: PlanetBody): PlanetLayout
  {
    PlanetLayout(p.body.orbit, Orbits(p.moons))
  }

  function LayoutOf(s: System): (r: Layout)
    ensures |r.planets| == |s.planets| && r.wormholes == Orbits(s.wormholes)
    ensures forall i :: 0 <= i < |s.planets| ==> r.planets[i] == PlanetLayoutOf(s.planets[i])
  {
    Layout(PlanetLayouts(s.planets), Orbits(s.wormholes))
  }

  function PlanetLayouts(ps: seq<PlanetBody>): (r: seq<PlanetLayout>)
    ensures |r| == |ps| && forall i :: 0 <= i < |ps| ==> r[i] == PlanetLayoutOf(ps[i])
  {
    seq(|ps|, i requires 0 <= i < |ps| => PlanetLayoutOf(ps[i]))
  }

  /** The orbit lies in the plane z = 0 on the circle of radius `distance`
      around the centre, given sin^2 + cos^2 = 1 at the orbit angle. */
  lemma {:induction false} PlaceOnCircle(o: Orbit, time: real, env: Env)
    requires Timed(o)
    requires TrigAt(env, time * AngleFactor / o.orbitTime)
    ensures var p := Place(o, time, env).position;
      p.z == 0.0 && p.x * p.x + p.y * p.y == o.distance * o.distance
  {
    var angle := time * AngleFactor / o.orbitTime;
    var p := Place(o, time, env).position;
    CircleScalar(env.sin(angle), env.cos(angle), o.distance, p.x, p.y);
  }

  lemma CircleScalar(s: real, c: real, d: real, x: real, y: real)
    requires s * s + c * c == 1.0
    requires x == s * d && y == c * d
    ensures x * x + y * y == d * d
  {
    assert x * x + y * y == (s * s + c * c) * (d * d);
  }

  /** A body at distance 0 (the sun) stays at the centre at every time. */
  lemma PlaceAtCentre(o: Orbit, time: real, env: Env)
    requires Timed(o) && o.distance == 0.0
    ensures Place(o, time, env).position == Zero
  {
  }

  /** The pose depends only on the parameters and the time, so advancing twice
      to the same time is advancing once, for a body, a planet with its moons
      and a whole system. */
  lemma AdvanceIdempotent(b: Body, time: real, env: Env)
    requires Timed(b.orbit)
    ensures Advance(Advance(b, time, env), time, env) == Advance(b, time, env)
  {
  }

  lemma {:induction false} AdvancePlanetIdempotent(p: PlanetBody, time: real, env: Env)
    requires PlanetTimed(p)
    ensures PlanetTimed(AdvancePlanet(p, time, env))
    ensures AdvancePlanet(AdvancePlanet(p, time, env), time, env) == AdvancePlanet(p, time, env)
  {
    var q := AdvancePlanet(p, time, env);
    var r := AdvancePlanet(q, time, env);
    assert r.moons == q.moons;
  }

  lemma {:induction false} AdvanceSystemIdempotent(s: System, time: real, env: Env)
    requires SystemTimed(s)
    ensures SystemTimed(AdvanceSystem(s, time, env))
    ensures AdvanceSystem(AdvanceSystem(s, time, env), time, env) == AdvanceSystem(s, time, env)
  {
    var t := AdvanceSystem(s, time, env);
    forall i | 0 <= i < |t.planets|
      ensures PlanetTimed(t.planets[i])
      ensures AdvancePlanet(t.planets[i], time, env) == t.planets[i]
    {
      AdvancePlanetIdempotent(s.planets[i], time, env);
    }
    var u := AdvanceSystem(t, time, env);
    assert u.planets == t.planets;
    assert u.wormholes == t.wormholes;
  }

  /** calculatePositions never changes a constructor parameter, a moon count
      or a body count: the layout is what it was. */
  lemma {:induction false} AdvanceKeepsLayout(s: System, time: real, env: Env)
    requires SystemTimed(s)
    ensures LayoutOf(AdvanceSystem(s, time, env)) == LayoutOf(s)
  {
    var t := AdvanceSystem(s, time, env);
    forall i | 0 <= i < |s.planets|
      ensures PlanetLayoutOf(t.planets[i]) == PlanetLayoutOf(s.planets[i])
    {
      assert Orbits(t.planets[i].moons) == Orbits(s.planets[i].moons);
    }
    assert LayoutOf(t).planets == LayoutOf(s).planets;
    assert Orbits(t.wormholes) == Orbits(s.wormholes);
  }
}
