/**
 * What the constructors and queries of src/solarsystem.cpp compute, as
 * values: the canonical layout, the layout the randomised constructor draws
 * from a rand() stream, the min-fold behind the two proximity tests, and the
 * index test of hasPlanet.
 */
module SolarModel {
  import opened MathEnv
  import opened Geometry
  import opened Orbits

  datatype Option<T> = None | Some(value: T)

  // ---------------------------------------------------------------------
  // The canonical system (SolarSystem()).

  /** Distances in km, periods in earth days, radii in km. */
  const CanonicalPlanets: seq<PlanetLayout> := [
    PlanetLayout(Orbit(0.0, 1.0, 500.0, 695500.0, SunTexture), []),
    PlanetLayout(Orbit(57910000.0, 88.0, 58.6, 2440.0, MercuryTexture), []),
    PlanetLayout(Orbit(108200000.0, 224.65, 243.0, 6052.0, VenusTexture), []),
    PlanetLayout(Orbit(149600000.0, 365.0, 1.0, 6371.0, EarthTexture), [EarthMoon]),
    PlanetLayout(Orbit(227939100.0, 686.0, 1.03, 3389.0, MarsTexture), []),
    PlanetLayout(Orbit(778500000.0, 4332.0, 0.4139, 69911.0, JupiterTexture), []),
    PlanetLayout(Orbit(1433000000.0, 10759.0, 0.44375, 58232.0, SaturnTexture), []),
    PlanetLayout(Orbit(2877000000.0, 30685.0, 0.718056, 25362.0, UranusTexture), []),
    PlanetLayout(Orbit(4503000000.0, 60188.0, 0.6713, 24622.0, NeptuneTexture), []),
    PlanetLayout(Orbit(5906380000.0, 90616.0, 6.39, 1137.0, PlutoTexture), [])
  ]

  /** The Earth's moon, added to planet 3. */
  const EarthMoon := Orbit(7000000.0, 27.3, 27.3, 1738.0, MoonTexture)

  /** The one wormhole both constructors add. */
  const WormholeOrbit := Orbit(130000000.0, 13000000000.0, 0.0130, 13000.0, WormholeTexture)

  const CanonicalLayout := Layout(CanonicalPlanets, [WormholeOrbit])

  /** Ten planets and one wormhole; the sun at distance 0; the Earth at
      149600000 km with a 365-day orbit and exactly one moon, 7000000 km out. */
  lemma CanonicalShape()
    ensures |CanonicalLayout.planets| == 10 && |CanonicalLayout.wormholes| == 1
    ensures CanonicalLayout.planets[0].orbit.distance == 0.0
    ensures CanonicalLayout.planets[3].orbit.distance == 149600000.0
    ensures CanonicalLayout.planets[3].orbit.orbitTime == 365.0
    ensures CanonicalLayout.planets[3].moons == [EarthMoon] && EarthMoon.distance == 7000000.0
    ensures forall i :: 0 <= i < 10 && i != 3 ==> CanonicalLayout.planets[i].moons == []
    ensures Ascending(CanonicalLayout.planets)
    ensures LayoutTimed(CanonicalLayout)
  {
  }

  // ---------------------------------------------------------------------
  // The randomised system (SolarSystem(0)).

  /** rand() returns values in [0, RAND_MAX]; RAND_MAX is 32767 on the
      Windows toolchain the program is built with. */
  const RandMax := 32767

  predicate RandStream(rands: seq<int>)
  {
    forall k :: 0 <= k < |rands| ==> 0 <= rands[k] <= RandMax
  }

  /** Texture indices are drawn as rand() % 12; flag[] marks the used ones. */
  const IndexModulus := 12
  const FlagSlots := 12

  /** Each distance increment is rejection-sampled into this band. */
  const MinIncrement := 57910000
  const MaxIncrement := 120000000

  /** The result of drawing a texture index: the index and the position of
      the next unread rand() value, a read of flag[] out of bounds, or the end
      of the stream. */
  datatype IndexDraw = Picked(index: int, next: nat) | FlagOverrun(index: int) | RanOut

  /** `while (flag[index]) index = rand() % 12;` over a flag array with
      `slots` entries, where `used` is the set of flagged indices. */
  function RetryIndex(slots: int, rands: seq<int>, k: nat, index: int, used: set<int>): IndexDraw
    decreases |rands| - k
  {
    if !(0 <= index < slots) then FlagOverrun(index)
    else if index !in used then Picked(index, k)
    else if k >= |rands| then RanOut
    else RetryIndex(slots, rands, k + 1, rands[k] % IndexModulus, used)
  }

  /** `int index = rand() % 12;` followed by the retry loop. */
  function DrawIndex(slots: int, rands: seq<int>, k: nat, used: set<int>): IndexDraw
  {
    if k >= |rands| then RanOut else RetryIndex(slots, rands, k + 1, rands[k] % IndexModulus, used)
  }

  /** One candidate increment: (rand() + 1000) * (rand() + 1000). */
  function Candidate(rands: seq<int>, k: nat): int
    requires k + 2 <= |rands|
  {
    (rands[k] + 1000) * (rands[k + 1] + 1000)
  }

  predicate InBand(d: int)
  {
    MinIncrement <= d <= MaxIncrement
  }

  /** `while (distance < 57910000 || distance > 120000000)` redraw. */
  function RetryDistance(rands: seq<int>, k: nat, d: int): Option<(int, nat)>
    decreases |rands| - k
  {
    if InBand(d) then Some((d, k))
    else if k + 2 > |rands| then None
    else RetryDistance(rands, k + 2, Candidate(rands, k))
  }

  function DrawDistance(rands: seq<int>, k: nat): Option<(int, nat)>
  {
    if k + 2 > |rands| then None else RetryDistance(rands, k + 2, Candidate(rands, k))
  }

  /** The planet addPlanet receives after the distance: orbit rand() % 1000 +
      100, rotation (rand() + 1000) / 8000, radius rand() % 1500 + 3000 for
      the first planet after the sun and rand() % 20000 + 5000 for the others.
      C++ leaves the order of the three rand() calls unspecified; the model
      takes them left to right. */
  function DrawnPlanet(rands: seq<int>, k: nat, distance: real, first: bool, index: int): PlanetLayout
    requires k + 3 <= |rands|
  {
    var radius := if first then rands[k + 2] % 1500 + 3000 else rands[k + 2] % 20000 + 5000;
    PlanetLayout(Orbit(distance, (rands[k] % 1000 + 100) as real, (rands[k + 1] + 1000) as real / 8000.0,
                       radius as real, OtherPlanetTexture(index)), [])
  }

  /** The `while (solar_size--)` loop: `remaining` planets still to add, the
      flagged indices, the running distance from the sun and the planets so
      far.  The result is the planets and the position of the next unread
      rand() value, or None when the stream ends first. */
  function GenPlanets(rands: seq<int>, k: nat, remaining: nat, used: set<int>, distance: real,
                      acc: seq<PlanetLayout>): Option<(seq<PlanetLayout>, nat)>
    decreases remaining
  {
    if remaining == 0 then Some((acc, k))
    else
      match DrawIndex(FlagSlots, rands, k, used)
      case Picked(index, k1) =>
        (match DrawDistance(rands, k1)
         case Some(dk) =>
           if dk.1 + 3 > |rands| then None
           else
             var total := distance + dk.0 as real;
             var p := DrawnPlanet(rands, dk.1, total, distance < 0.001, index);
             GenPlanets(rands, dk.1 + 3, remaining - 1, used + {index}, total, acc + [p])
         case None => None)
      case _ => None
  }

  /** The sun: sunPic[rand() % 3] at the centre. */
  function SunLayout(sunIndex: int): PlanetLayout
  {
    PlanetLayout(Orbit(0.0, 1.0, 500.0, 695500.0, SunPicTexture(sunIndex)), [])
  }

  /** SolarSystem(0): the sun, rand() % 5 + 5 drawn planets, the wormhole.
      None when the stream is too short for the draws. */
  function Generate(rands: seq<int>): Option<Layout>
  {
    if |rands| < 2 then None
    else
      match GenPlanets(rands, 2, rands[1] % 5 + 5, {0}, 0.0, [SunLayout(rands[0] % 3)])
      case Some(r) => Some(Layout(r.0, [WormholeOrbit]))
      case None => None
  }

  // Properties of the drawn layout.

  predicate Increment(a: real, b: real)
  {
    a + MinIncrement as real <= b <= a + MaxIncrement as real
  }

  /** Each planet's distance is the previous one plus an increment in the band. */
  predicate BandedSteps(ps: seq<PlanetLayout>)
  {
    forall i :: 0 <= i < |ps| - 1 ==> Increment(ps[i].orbit.distance, ps[i + 1].orbit.distance)
  }

  /** Each planet is farther out than the one before it. */
  predicate Ascending(ps: seq<PlanetLayout>)
  {
    forall i :: 0 <= i < |ps| - 1 ==> ps[i].orbit.distance < ps[i + 1].orbit.distance
  }

  predicate IsOtherPlanet(p: PlanetLayout)
  {
    p.orbit.texture.OtherPlanetTexture? && 1 <= p.orbit.texture.index < FlagSlots
  }

  /** What every prefix of a drawn layout satisfies. */
  predicate Shape(ps: seq<PlanetLayout>)
  {
    && |ps| >= 1
    && ps[0].orbit.distance == 0.0
    && (forall i :: 0 <= i < |ps| ==> ps[i].moons == [] && Timed(ps[i].orbit) && ps[i].orbit.distance >= 0.0)
    && BandedSteps(ps)
    && (forall i :: 1 <= i < |ps| ==> IsOtherPlanet(ps[i]))
    && (forall i, j :: 1 <= i < j < |ps| ==> ps[i].orbit.texture != ps[j].orbit.texture)
    && (|ps| > 1 ==> 3000.0 <= ps[1].orbit.radius <= 4499.0)
    && (forall i :: 2 <= i < |ps| ==> 5000.0 <= ps[i].orbit.radius <= 24999.0)
  }

  /** The loop invariant of the generation loop: the planets so far have the
      shape, the running distance is the last planet's, and every texture
      index used so far is flagged, as is 0. */
  predicate Prefix(acc: seq<PlanetLayout>, used: set<int>, distance: real)
  {
    && Shape(acc)
    && distance == acc[|acc| - 1].orbit.distance
    && 0 in used
    && (forall i :: 1 <= i < |acc| ==> acc[i].orbit.texture.OtherPlanetTexture? && acc[i].orbit.texture.index in used)
  }

  /** With 12 flag slots every draw stays in bounds, skips 0 and the flagged
      indices, and reads at least one rand() value. */
  lemma {:induction false} RetryIndexPicks(rands: seq<int>, k: nat, index: int, used: set<int>)
    requires RandStream(rands) && 0 in used && 0 <= index < IndexModulus && k <= |rands|
    ensures !RetryIndex(FlagSlots, rands, k, index, used).FlagOverrun?
    ensures var r := RetryIndex(FlagSlots, rands, k, index, used);
      r.Picked? ==> 1 <= r.index < FlagSlots && r.index !in used && k <= r.next <= |rands|
    decreases |rands| - k
  {
    if index in used && k < |rands| {
      RetryIndexPicks(rands, k + 1, rands[k] % IndexModulus, used);
    }
  }

  lemma DrawIndexPicks(rands: seq<int>, k: nat, used: set<int>)
    requires RandStream(rands) && 0 in used
    ensures !DrawIndex(FlagSlots, rands, k, used).FlagOverrun?
    ensures var r := DrawIndex(FlagSlots, rands, k, used);
      r.Picked? ==> 1 <= r.index < FlagSlots && r.index !in used && k < r.next <= |rands|
  {
    if k < |rands| {
      RetryIndexPicks(rands, k + 1, rands[k] % IndexModulus, used);
    }
  }

  /** An accepted increment lies in the band. */
  lemma {:induction false} RetryDistanceInBand(rands: seq<int>, k: nat, d: int)
    ensures var r := RetryDistance(rands, k, d); r.Some? ==> InBand(r.value.0) && k <= r.value.1
    decreases |rands| - k
  {
    if !InBand(d) && k + 2 <= |rands| {
      RetryDistanceInBand(rands, k + 2, Candidate(rands, k));
    }
  }

  lemma DrawDistanceInBand(rands: seq<int>, k: nat)
    ensures var r := DrawDistance(rands, k); r.Some? ==> InBand(r.value.0) && k < r.value.1
  {
    if k + 2 <= |rands| {
      RetryDistanceInBand(rands, k + 2, Candidate(rands, k));
    }
  }

  /** Adding one drawn planet keeps the loop invariant. */
  lemma {:induction false} PrefixStep(rands: seq<int>, k: nat, acc: seq<PlanetLayout>, used: set<int>,
                                      distance: real, index: int, d: int)
    requires RandStream(rands) && k + 3 <= |rands|
    requires Prefix(acc, used, distance)
    requires 1 <= index < FlagSlots && index !in used && InBand(d)
    ensures var total := distance + d as real;
      Prefix(acc + [DrawnPlanet(rands, k, total, distance < 0.001, index)], used + {index}, total)
  {
    var total := distance + d as real;
    var p := DrawnPlanet(rands, k, total, distance < 0.001, index);
    var ps := acc + [p];
    assert |acc| == 1 ==> distance == 0.0;
    assert |acc| > 1 ==> acc[|acc| - 2].orbit.distance >= 0.0 && Increment(acc[|acc| - 2].orbit.distance, distance);
    assert forall i :: 0 <= i < |acc| ==> ps[i] == acc[i];
    assert forall i :: 1 <= i < |acc| ==> ps[i].orbit.texture != p.orbit.texture;
  }

  /** The generation loop keeps the invariant and adds `remaining` planets. */
  lemma {:induction false} GenPlanetsShape(rands: seq<int>, k: nat, remaining: nat, used: set<int>,
                                           distance: real, acc: seq<PlanetLayout>)
    requires RandStream(rands) && Prefix(acc, used, distance)
    requires GenPlanets(rands, k, remaining, used, distance, acc).Some?
    ensures var ps := GenPlanets(rands, k, remaining, used, distance, acc).value.0;
      Shape(ps) && |ps| == |acc| + remaining && ps[..|acc|] == acc
    decreases remaining
  {
    if remaining > 0 {
      DrawIndexPicks(rands, k, used);
      var draw := DrawIndex(FlagSlots, rands, k, used);
      DrawDistanceInBand(rands, draw.next);
      var dk := DrawDistance(rands, draw.next).value;
      var total := distance + dk.0 as real;
      var p := DrawnPlanet(rands, dk.1, total, distance < 0.001, draw.index);
      PrefixStep(rands, dk.1, acc, used, distance, draw.index, dk.0);
      GenPlanetsShape(rands, dk.1 + 3, remaining - 1, used + {draw.index}, total, acc + [p]);
      var ps := GenPlanets(rands, k, remaining, used, distance, acc).value.0;
      assert ps[..|acc| + 1][..|acc|] == ps[..|acc|];
    }
  }

  /** One turn of the generation loop: once the texture index and the
      increment are drawn and the planet appended, the rest of the
      generation starts three rand() values further on, with the index
      flagged and the running distance advanced. */
  lemma GenPlanetsStep(rands: seq<int>, k: nat, remaining: nat, used: set<int>, distance: real,
                       acc: seq<PlanetLayout>, index: int, k1: nat, total: real, next: nat, ps: seq<PlanetLayout>)
    requires GenPlanets(rands, k, remaining + 1, used, distance, acc).Some?
    requires DrawIndex(FlagSlots, rands, k, used) == Picked(index, k1)
    requires DrawDistance(rands, k1).Some?
    requires var dk := DrawDistance(rands, k1).value;
      total == distance + dk.0 as real && next == dk.1 + 3
      && ps == acc + [DrawnPlanet(rands, dk.1, total, distance < 0.001, index)]
    ensures GenPlanets(rands, next, remaining, used + {index}, total, ps) == GenPlanets(rands, k, remaining + 1, used, distance, acc)
  {
  }

  /** SolarSystem(0) builds the sun plus rand() % 5 + 5 planets (6 to 10 in
      all) and one wormhole with the fixed parameters; the sun is
      sunPic[rand() % 3] at distance 0; the later planets have distinct
      texture indices in 1..11, strictly increasing distances, a first radius
      in [3000, 4499] and later radii in [5000, 24999]. */
  lemma {:induction false} GenerateShape(rands: seq<int>)
    requires RandStream(rands) && Generate(rands).Some?
    ensures var l := Generate(rands).value;
      && Shape(l.planets)
      && |l.planets| == rands[1] % 5 + 6 && 6 <= |l.planets| <= 10
      && l.planets[0] == SunLayout(rands[0] % 3)
      && l.wormholes == [WormholeOrbit]
      && LayoutTimed(l)
  {
    var sun := [SunLayout(rands[0] % 3)];
    assert Prefix(sun, {0}, 0.0);
    GenPlanetsShape(rands, 2, rands[1] % 5 + 5, {0}, 0.0, sun);
    var ps := Generate(rands).value.planets;
    assert ps[0] == ps[..1][0];
  }

  /** Steps in the band make the distances ascend. */
  lemma BandedIsAscending(ps: seq<PlanetLayout>)
    requires BandedSteps(ps)
    ensures Ascending(ps)
  {
  }

  /** Ascending distances increase strictly along the whole sequence, not
      only between neighbours. */
  lemma {:induction false} AscendingStrictly(ps: seq<PlanetLayout>, i: int, j: int)
    requires Ascending(ps) && 0 <= i < j < |ps|
    ensures ps[i].orbit.distance < ps[j].orbit.distance
    decreases j - i
  {
    if i + 1 < j {
      AscendingStrictly(ps, i + 1, j);
    }
  }

  /** No rand() draws reach int overflow: the largest candidate increment is
      33767 * 33767, below 2^31 - 1. */
  lemma CandidateFits(rands: seq<int>, k: nat)
    requires RandStream(rands) && k + 2 <= |rands|
    ensures 0 < Candidate(rands, k) <= 33767 * 33767 < 0x7FFF_FFFF
  {
    var a, b := rands[k] + 1000, rands[k + 1] + 1000;
    MulBound(a, b, 33767);
  }

  lemma MulBound(a: int, b: int, m: int)
    requires 0 < a <= m && 0 < b <= m
    ensures 0 < a * b <= m * m
  {
    assert a * b <= m * b;
    assert m * b <= m * m;
  }

  predicate LayoutTimed(l: Layout)
  {
    && (forall i :: 0 <= i < |l.planets| ==>
          (Timed(l.planets[i].orbit) && forall j :: 0 <= j < |l.planets[i].moons| ==> Timed(l.planets[i].moons[j])))
    && (forall i :: 0 <= i < |l.wormholes| ==> Timed(l.wormholes[i]))
  }

  // The texture-index draw as the source writes it.

  /** `bool flag[11]` holds 11 slots, but rand() % 12 can be 11. */
  const FlagSlotsAsWritten := 11

  /** With the source's 11 slots, a rand() value of 11 for the first planet's
      index makes `while (flag[index])` read flag[11], past the end. */
  lemma AsWrittenFlagOverrun()
    ensures DrawIndex(FlagSlotsAsWritten, [0, 0, 11], 2, {0}) == FlagOverrun(11)
    ensures RandStream([0, 0, 11])
  {
  }

  /** With 12 slots (the 11 textures other_planets[1..11] that main.cpp
      loads, plus the reserved slot 0) no draw leaves the array. */
  lemma CorrectedFlagInBounds(rands: seq<int>, k: nat, used: set<int>)
    requires RandStream(rands) && 0 in used
    ensures !DrawIndex(FlagSlots, rands, k, used).FlagOverrun?
  {
    DrawIndexPicks(rands, k, used);
  }

  // ---------------------------------------------------------------------
  // Proximity (testDistancewithPlanet and testDistancewithWormhole).

  /** The minimum starts at 10000. */
  const Sentinel := 10000.0

  /** A planet counts with at most 0.5 of scaled radius. */
  const RadiusClamp := 0.5

  function SquaredDistance(a: Vec3, b: Vec3): real
  {
    Dot(Sub(a, b), Sub(a, b))
  }

  /** Component k of a vector, for the component loop of the two tests. */
  function Coord(v: Vec3, k: int): real
  {
    if k == 0 then v.x else if k == 1 then v.y else v.z
  }

  /** The sum of the first j squared component differences. */
  function SquaresUpTo(a: Vec3, b: Vec3, j: int): real
    decreases j
  {
    if j <= 0 then 0.0 else SquaresUpTo(a, b, j - 1) + (Coord(a, j - 1) - Coord(b, j - 1)) * (Coord(a, j - 1) - Coord(b, j - 1))
  }

  /** One more component of the distance loop. */
  lemma SquaresStep(a: Vec3, b: Vec3, j: int, aj: real, bj: real)
    requires 0 <= j < 3 && aj == Coord(a, j) && bj == Coord(b, j)
    ensures SquaresUpTo(a, b, j + 1) == SquaresUpTo(a, b, j) + (aj - bj) * (aj - bj)
  {
  }

  /** The loop over the three components adds up the squared distance. */
  lemma SquaresUpToThree(a: Vec3, b: Vec3)
    ensures SquaresUpTo(a, b, 3) == SquaredDistance(a, b)
  {
  }

  /** The distance from the camera to a body's surface: the library square
      root of the squared distance to its scaled centre, less its scaled radius. */
  function Clearance(centre: Vec3, camera: Vec3, radiusScale: real, env: Env): real
  {
    env.sqrt(SquaredDistance(centre, camera)) - radiusScale
  }

  function PlanetRadiusScale(radius: real): (r: real)
    ensures r <= RadiusClamp
    ensures radius * PlanetSizeScale <= RadiusClamp ==> r == radius * PlanetSizeScale
  {
    if radius * PlanetSizeScale > RadiusClamp then RadiusClamp else radius * PlanetSizeScale
  }

  function PlanetClearance(p: PlanetBody, camera: Vec3, env: Env): real
  {
    Clearance(Scale(p.body.pose.position, env.distanceScale), camera, PlanetRadiusScale(p.body.orbit.radius), env)
  }

  function WormholeClearance(w: Body, camera: Vec3, env: Env): real
  {
    Clearance(Scale(w.pose.position, env.distanceScale), camera, w.orbit.radius * PlanetSizeScale, env)
  }

  function PlanetClearances(ps: seq<PlanetBody>, camera: Vec3, env: Env): (r: seq<real>)
    ensures |r| == |ps| && forall i :: 0 <= i < |ps| ==> r[i] == PlanetClearance(ps[i], camera, env)
  {
    if ps == [] then [] else PlanetClearances(ps[..|ps| - 1], camera, env) + [PlanetClearance(ps[|ps| - 1], camera, env)]
  }

  function WormholeClearances(ws: seq<Body>, camera: Vec3, env: Env): (r: seq<real>)
    ensures |r| == |ws| && forall i :: 0 <= i < |ws| ==> r[i] == WormholeClearance(ws[i], camera, env)
  {
    if ws == [] then [] else WormholeClearances(ws[..|ws| - 1], camera, env) + [WormholeClearance(ws[|ws| - 1], camera, env)]
  }

  /** The fold of both tests: start at 10000 and take each clearance that is
      smaller than the minimum so far, in order. */
  function MinFold(cs: seq<real>): real
  {
    if cs == [] then Sentinel
    else
      var m := MinFold(cs[..|cs| - 1]);
      if m > cs[|cs| - 1] then cs[|cs| - 1] else m
  }

  /** The fold is the minimum of 10000 and the clearances: no larger than
      any of them, and equal to 10000 or to one of them. */
  lemma {:induction false} MinFoldIsMinimum(cs: seq<real>)
    ensures MinFold(cs) <= Sentinel
    ensures forall i :: 0 <= i < |cs| ==> MinFold(cs) <= cs[i]
    ensures MinFold(cs) == Sentinel || exists i :: 0 <= i < |cs| && MinFold(cs) == cs[i]
  {
    if cs != [] {
      var init := cs[..|cs| - 1];
      MinFoldIsMinimum(init);
      assert forall i :: 0 <= i < |init| ==> init[i] == cs[i];
      if MinFold(init) != Sentinel && MinFold(cs) == MinFold(init) {
        var i :| 0 <= i < |init| && MinFold(init) == init[i];
        assert MinFold(cs) == cs[i];
      }
    }
  }

  /** testDistancewithPlanet: the fold over the planets, radii clamped. */
  function PlanetProximity(s: System, camera: Vec3, env: Env): real
  {
    MinFold(PlanetClearances(s.planets, camera, env))
  }

  /** testDistancewithWormhole: the fold over the wormholes, radii unclamped. */
  function WormholeProximity(s: System, camera: Vec3, env: Env): real
  {
    MinFold(WormholeClearances(s.wormholes, camera, env))
  }

  /** One more clearance moves the fold to the smaller of the two. */
  lemma {:induction false} MinFoldStep(cs: seq<real>, i: int)
    requires 0 <= i < |cs|
    ensures MinFold(cs[..i + 1]) == if MinFold(cs[..i]) > cs[i] then cs[i] else MinFold(cs[..i])
  {
    assert cs[..i + 1][..i] == cs[..i];
  }

  /** With no bodies both tests return the sentinel. */
  lemma ProximityOfEmpty(camera: Vec3, env: Env)
    ensures PlanetProximity(System([], []), camera, env) == Sentinel
    ensures WormholeProximity(System([], []), camera, env) == Sentinel
  {
  }

  /** The clamp makes the planet test never read less than the distance to
      the centre minus 0.5. */
  lemma {:induction false} PlanetProximityBound(s: System, camera: Vec3, env: Env)
    ensures forall i :: 0 <= i < |s.planets| ==>
      PlanetProximity(s, camera, env)
        <= env.sqrt(SquaredDistance(Scale(s.planets[i].body.pose.position, env.distanceScale), camera)) - PlanetRadiusScale(s.planets[i].body.orbit.radius)
    ensures forall i :: 0 <= i < |s.planets| ==>
      PlanetClearance(s.planets[i], camera, env)
        >= env.sqrt(SquaredDistance(Scale(s.planets[i].body.pose.position, env.distanceScale), camera)) - RadiusClamp
  {
    MinFoldIsMinimum(PlanetClearances(s.planets, camera, env));
  }

  // ---------------------------------------------------------------------
  // hasPlanet.

  /** `int x = index - '0'; x < planets.size()` compares an int with an
      unsigned size: a negative x is converted to a huge unsigned value. */
  const SizeModulus := 0x1_0000_0000

  function AsUnsigned(x: int): int
  {
    if x < 0 then x + SizeModulus else x
  }

  /** hasPlanet(index) on a byte: true for the characters '0' up to
      '0' + count - 1, and for no other byte unless the vector is within 48
      of the unsigned range. */
  function HasPlanetIndex(count: nat, index: int): (r: bool)
    requires 0 <= index < 256
    ensures 48 <= index ==> (r <==> index < 48 + count)
    ensures count < SizeModulus - 48 ==> (r <==> 48 <= index < 48 + count)
  {
    AsUnsigned(index - 48) < count
  }
}
