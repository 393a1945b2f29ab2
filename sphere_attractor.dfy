/** The `sphere-attractor` component: a hand-driven attractor of the fluid
    sphere whose strength and radius follow a piecewise rule of the hand's
    distance to the sphere. */
module SphereAttractor {
  import opened Common
  import FluidSphere

  const GrabDistance := 0.6
  const HoverDistance := 0.5
  const TouchDistance := 0.2
  /** The chance per frame of a touching hand starting a ripple. */
  const WaveChance := 0.1

  /** The attractor object shared with the fluid sphere's list. */
  class Attractor {
    var position: Vec3
    var strength: real
    var radius: real

    constructor (r: real)
      ensures position == Origin && strength == 0.0 && radius == r
    {
      position := Origin;
      strength := 0.0;
      radius := r;
    }
  }

  /** Strength and radius after `forceUpdate` with a connected sphere at
      distance `dist` (the previous values are `s` and `r`):
      - pinching within 0.6 grabs with strength 80 and radius 0.8, and
        pinching farther away leaves both as they were;
      - not pinching within 0.2 pushes with strength -50 and radius 0.35;
      - not pinching within 0.5 pulls with `35 * (1 - dist / 0.5)`, which is
        in (0, 21], and radius 0.5;
      - not pinching farther away sets strength 0 and keeps the radius. */
  function Response(dist: real, pinching: bool, s: real, r: real): (sr: (real, real))
    ensures pinching && dist < GrabDistance ==> sr == (80.0, 0.8)
    ensures pinching && dist >= GrabDistance ==> sr == (s, r)
    ensures !pinching && dist < TouchDistance ==> sr == (-50.0, 0.35)
    ensures !pinching && TouchDistance <= dist < HoverDistance ==> 0.0 < sr.0 <= 21.0 && sr.1 == 0.5
    ensures !pinching && dist >= HoverDistance ==> sr == (0.0, r)
    ensures -50.0 <= s <= 80.0 ==> -50.0 <= sr.0 <= 80.0
  {
    if pinching then
      if dist < GrabDistance then (80.0, 0.8) else (s, r)
    else if dist < HoverDistance then
      if dist < TouchDistance then (-50.0, 0.35)
      else
        PullInRange(dist);
        (35.0 * (1.0 - dist / HoverDistance), 0.5)
    else
      (0.0, r)
  }

  lemma PullInRange(dist: real)
    requires TouchDistance <= dist < HoverDistance
    ensures 0.0 < 35.0 * (1.0 - dist / HoverDistance) <= 21.0
  {
    assert dist / HoverDistance == dist * 2.0;
  }

  class SphereAttractor {
    const attractor: Attractor
    var fluidSphere: FluidSphere.FluidSphere?

    /** `init`: strength 0, radius from the schema default 0.5, and no
        sphere until the connection poll finds one. */
    constructor ()
      ensures fresh(attractor) && fluidSphere == null
      ensures attractor.strength == 0.0 && attractor.radius == 0.5
    {
      attractor := new Attractor(0.5);
      fluidSphere := null;
    }

    /** The `setInterval` poll finding the sphere: remember it and register
        the attractor with it (the poll is then cleared). */
    method Connect(sphere: FluidSphere.FluidSphere)
      requires fluidSphere == null
      modifies this`fluidSphere, sphere`attractors
      ensures fluidSphere == sphere
      ensures sphere.attractors == old(sphere.attractors) + [attractor]
    {
      fluidSphere := sphere;
      sphere.AddAttractor(attractor);
    }

    /** `forceUpdate(pos, isPinching)`. `spherePos` is the sphere entity's
        position, `geo.dist` the Euclidean distance, and `draw` the
        `Math.random()` value of the ripple gate. The position is always
        copied; without a sphere nothing else changes. */
    method ForceUpdate(pos: Vec3, isPinching: bool, spherePos: Vec3, geo: Geometry, draw: real)
      requires fluidSphere != null ==> fluidSphere.Valid()
      modifies attractor
      modifies (if fluidSphere != null then {fluidSphere} else {})`waves
      modifies (if fluidSphere != null then {fluidSphere} else {})`touchStrength
      ensures attractor.position == pos
      ensures fluidSphere == null ==>
        attractor.strength == old(attractor.strength) && attractor.radius == old(attractor.radius)
      ensures fluidSphere != null ==>
        (attractor.strength, attractor.radius) ==
        Response(geo.dist(pos, spherePos), isPinching, old(attractor.strength), old(attractor.radius))
      ensures fluidSphere != null ==> fluidSphere.Valid() && fluidSphere.attractors == old(fluidSphere.attractors)
      ensures fluidSphere != null ==>
        if !isPinching && geo.dist(pos, spherePos) < TouchDistance && draw < WaveChance
        then fluidSphere.waves == old(fluidSphere.waves) + [FluidSphere.NewWave(pos, 0.2)]
             && fluidSphere.touchStrength == 1.0
        else fluidSphere.waves == old(fluidSphere.waves) && fluidSphere.touchStrength == old(fluidSphere.touchStrength)
    {
      attractor.position := pos;
      if fluidSphere != null {
        var dist := geo.dist(attractor.position, spherePos);
        if isPinching {
          if dist < GrabDistance {
            attractor.strength := 80.0;
            attractor.radius := 0.8;
          }
        } else {
          if dist < HoverDistance {
            if dist < TouchDistance {
              attractor.strength := -50.0;
              attractor.radius := 0.35;
              if draw < WaveChance {
                fluidSphere.AddWave(attractor.position, 0.2);
              }
            } else {
              var f := 1.0 - dist / HoverDistance;
              attractor.strength := 35.0 * f;
              attractor.radius := 0.5;
            }
          } else {
            attractor.strength := 0.0;
          }
        }
      }
    }
  }
}
