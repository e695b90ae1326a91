/**
 * The Moon, Planet and Wormhole classes of src/moon.cpp, src/planet.cpp and
 * src/wormhole.cpp.  The constructor parameters are const fields; the
 * position (the member array float[3] in C++, held here as a Vec3 value
 * field) and the rotation are the fields that calculatePosition overwrites.  Each class is proved to follow Orbits.Advance.
 */
module Bodies {
  import opened MathEnv
  import opened Geometry
  import opened Vectors
  import opened Orbits

  class Moon {
    const distanceFromPlanet: real
    const orbitTime: real
    const rotationTime: real
    const radius: real
    const textureHandle: Texture
    var position: Vec3
    var rotation: real

    function Params(): Orbit
      reads this
    {
      Orbit(distanceFromPlanet, orbitTime, rotationTime, radius, textureHandle)
    }

    predicate Valid()
      reads this
    {
      Timed(Params())
    }

    function State(): Body
      reads this
    {
      Body(Params(), Pose(position, rotation))
    }

    /** Moon(...): stores the parameters; the pose is left unset until the
        first calculatePosition. */
    constructor (distanceFromPlanet: real, orbitTime: real, rotationTime: real, radius: real, textureHandle: Texture)
      requires orbitTime != 0.0 && rotationTime != 0.0
      ensures Valid() && Params() == Orbit(distanceFromPlanet, orbitTime, rotationTime, radius, textureHandle)
    {
      this.distanceFromPlanet := distanceFromPlanet;
      this.orbitTime := orbitTime;
      this.rotationTime := rotationTime;
      this.radius := radius;
      this.textureHandle := textureHandle;
    }

    /** calculatePosition: the position relative to the planet (the planet's
        own position is not added) and the spin. */
    method CalculatePosition(time: real, env: Env)
      requires Valid()
      modifies this
      ensures Valid() && State() == Advance(old(State()), time, env)
    {
      var angle := time * 3.1419 / orbitTime;
      position := Vec3(env.sin(angle) * distanceFromPlanet, env.cos(angle) * distanceFromPlanet, 0.0);
      rotation := time * 360.0 / rotationTime;
    }

    /** getPosition: the position scaled by distanceScale into `vec`. */
    method GetPosition(vec: array<real>, env: Env)
      requires vec.Length == 3
      modifies vec
      ensures Of(vec) == Scale(position, env.distanceScale)
    {
      vec[0] := position.x * env.distanceScale;
      vec[1] := position.y * env.distanceScale;
      vec[2] := position.z * env.distanceScale;
    }

    /** getRadius: the stored radius, not scaled. */
    method GetRadius() returns (r: real)
      ensures r == radius && r == State().orbit.radius
    {
      r := radius;
    }
  }

  class Wormhole {
    const distanceFromSun: real
    const orbitTime: real
    const rotationTime: real
    const radius: real
    const textureHandle: Texture
    var position: Vec3
    var rotation: real

    function Params(): Orbit
      reads this
    {
      Orbit(distanceFromSun, orbitTime, rotationTime, radius, textureHandle)
    }

    predicate Valid()
      reads this
    {
      Timed(Params())
    }

    function State(): Body
      reads this
    {
      Body(Params(), Pose(position, rotation))
    }

    constructor (distanceFromSun: real, orbitTime: real, rotationTime: real, radius: real, textureHandle: Texture)
      requires orbitTime != 0.0 && rotationTime != 0.0
      ensures Valid() && Params() == Orbit(distanceFromSun, orbitTime, rotationTime, radius, textureHandle)
    {
      this.distanceFromSun := distanceFromSun;
      this.orbitTime := orbitTime;
      this.rotationTime := rotationTime;
      this.radius := radius;
      this.textureHandle := textureHandle;
    }

    /** calculatePosition: the same planar formula as a planet's. */
    method CalculatePosition(time: real, env: Env)
      requires Valid()
      modifies this
      ensures Valid() && State() == Advance(old(State()), time, env)
    {
      var angle := time * 3.1419 / orbitTime;
      position := Vec3(env.sin(angle) * distanceFromSun, env.cos(angle) * distanceFromSun, 0.0);
      rotation := time * 360.0 / rotationTime;
    }

    /** renderOrbit: a wormhole draws no orbit line. */
    method RenderOrbit()
      ensures State() == old(State())
    {
    }

    method GetPosition(vec: array<real>, env: Env)
      requires vec.Length == 3
      modifies vec
      ensures Of(vec) == Scale(position, env.distanceScale)
    {
      vec[0] := position.x * env.distanceScale;
      vec[1] := position.y * env.distanceScale;
      vec[2] := position.z * env.distanceScale;
    }

    method GetRadius() returns (r: real)
      ensures r == radius && r == State().orbit.radius
    {
      r := radius;
    }
  }

  /** The states of a sequence of moons, in order. */
  function MoonStates(ms: seq<Moon>): (r: seq<Body>)
    reads ms
    ensures |r| == |ms| && forall i :: 0 <= i < |ms| ==> r[i] == ms[i].State()
  {
    seq(|ms|, i reads ms requires 0 <= i < |ms| => ms[i].State())
  }

  class Planet {
    const distanceFromSun: real
    const orbitTime: real
    const rotationTime: real
    const radius: real
    const textureHandle: Texture
    var position: Vec3
    var rotation: real

    /** std::vector<Moon> moons: the moons, in the order addMoon added them. */
    var moons: seq<Moon>

    /** The planet and its moons. */
    ghost var Repr: set<object>

    function Params(): Orbit
      reads this
    {
      Orbit(distanceFromSun, orbitTime, rotationTime, radius, textureHandle)
    }

    ghost predicate Valid()
      reads this, Repr
    {
      && this in Repr
      && Timed(Params())
      && (forall i :: 0 <= i < |moons| ==> moons[i] in Repr && moons[i].Valid())
      && (forall i, j :: 0 <= i < j < |moons| ==> moons[i] != moons[j])
    }

    function State(): PlanetBody
      reads this, Repr
      requires Valid()
    {
      PlanetBody(Body(Params(), Pose(position, rotation)), MoonStates(moons))
    }

    /** Planet(...): the parameters and no moons. */
    constructor (distanceFromSun: real, orbitTime: real, rotationTime: real, radius: real, textureHandle: Texture)
      requires orbitTime != 0.0 && rotationTime != 0.0
      ensures Valid() && fresh(Repr) && Repr == {this}
      ensures Params() == Orbit(distanceFromSun, orbitTime, rotationTime, radius, textureHandle)
      ensures moons == []
    {
      this.distanceFromSun := distanceFromSun;
      this.orbitTime := orbitTime;
      this.rotationTime := rotationTime;
      this.radius := radius;
      this.textureHandle := textureHandle;
      moons := [];
      Repr := {this};
    }

    /** calculatePosition: the planet's pose, then every moon with the same time. */
    method CalculatePosition(time: real, env: Env)
      requires Valid()
      modifies Repr
      ensures Valid() && Repr == old(Repr) && moons == old(moons)
      ensures State() == AdvancePlanet(old(State()), time, env)
    {
      var angle := time * 3.1419 / orbitTime;
      position := Vec3(env.sin(angle) * distanceFromSun, env.cos(angle) * distanceFromSun, 0.0);
      rotation := time * 360.0 / rotationTime;

      var i := 0;
      while i < |moons|
        invariant 0 <= i <= |moons|
        invariant moons == old(moons) && Repr == old(Repr) && Valid()
        invariant Pose(position, rotation) == Place(Params(), time, env)
        invariant forall j :: 0 <= j < i ==> moons[j].State() == Advance(old(moons[j].State()), time, env)
        invariant forall j :: i <= j < |moons| ==> moons[j].State() == old(moons[j].State())
      {
        moons[i].CalculatePosition(time, env);
        i := i + 1;
      }
      assert MoonStates(moons) == AdvanceAll(old(MoonStates(moons)), time, env);
    }

    /** getPosition: the position scaled by distanceScale into `vec`. */
    method GetPosition(vec: array<real>, env: Env)
      requires vec.Length == 3
      modifies vec
      ensures Of(vec) == Scale(position, env.distanceScale)
    {
      vec[0] := position.x * env.distanceScale;
      vec[1] := position.y * env.distanceScale;
      vec[2] := position.z * env.distanceScale;
    }

    /** getRadius: the stored radius, not scaled. */
    method GetRadius() returns (r: real)
      ensures r == radius && r == Params().radius
    {
      r := radius;
    }

    /** addMoon: one new moon at the end; the other moons and the planet's own
        fields are untouched. */
    method AddMoon(distanceFromPlanet: real, orbitTime: real, rotationTime: real, radius: real, textureHandle: Texture)
      requires Valid()
      requires orbitTime != 0.0 && rotationTime != 0.0
      modifies this
      ensures Valid() && fresh(Repr - old(Repr)) && old(Repr) <= Repr
      ensures position == old(position) && rotation == old(rotation)
      ensures |moons| == |old(moons)| + 1 && moons[..|old(moons)|] == old(moons)
      ensures moons[|old(moons)|].Params() == Orbit(distanceFromPlanet, orbitTime, rotationTime, radius, textureHandle)
      ensures fresh(moons[|old(moons)|])
      ensures MoonStates(moons)[..|old(moons)|] == old(MoonStates(moons))
    {
      var m := new Moon(distanceFromPlanet, orbitTime, rotationTime, radius, textureHandle);
      moons := moons + [m];
      Repr := Repr + {m};
    }
  }
}
