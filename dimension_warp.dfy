/** The `dimension-warp` hyperspace effect: gesture handlers that set the
    slowdown and boost targets, the smoothing of both factors, the audio
    (or fallback) bands, and the recycling of stars and light rays that pass
    the camera. Trigonometry enters as parameters (see the README). */
module DimensionWarp {
  import opened Common

  /** Schema default `speed`. */
  const BaseSpeed := 50.0
  /** A star or ray whose depth exceeds this has passed the camera. */
  const PassedCamera := 50.0
  const SlowdownRate := 0.1
  const BoostRate := 0.15
  const FistSlowdown := 0.05
  const PinchBoost := 3.0

  /** The random values drawn when a star is respawned: `(cosA, sinA)` is
      the point of the unit circle at the drawn angle, `radiusDraw` and
      `depthDraw` the two `Math.random()` values. */
  datatype StarDraw = StarDraw(cosA: real, sinA: real, radiusDraw: real, depthDraw: real)

  predicate ValidDraw(d: StarDraw) {
    d.cosA * d.cosA + d.sinA * d.sinA == 1.0 && 0.0 <= d.radiusDraw < 1.0 && 0.0 <= d.depthDraw < 1.0
  }

  /** One star's move: it advances by `traverse * speed` and, once past the
      camera, respawns at radius 3..43 around the axis and depth
      -250..-200. After the move its depth is never beyond 50. */
  function StarStep(p: Vec3, speed: real, traverse: real, d: StarDraw): (q: Vec3)
    requires ValidDraw(d)
    ensures q.z <= PassedCamera
    ensures p.z + traverse * speed <= PassedCamera ==> q == Vec3(p.x, p.y, p.z + traverse * speed)
    ensures p.z + traverse * speed > PassedCamera ==>
      -250.0 <= q.z < -200.0 && 9.0 <= q.x * q.x + q.y * q.y < 1849.0
  {
    var z := p.z + traverse * speed;
    if z > PassedCamera then
      var radius := d.radiusDraw * 40.0 + 3.0;
      RespawnRadius(d.cosA, d.sinA, radius);
      Vec3(d.cosA * radius, d.sinA * radius, -250.0 + d.depthDraw * 50.0)
    else
      Vec3(p.x, p.y, z)
  }

  lemma RespawnRadius(c: real, s: real, radius: real)
    requires c * c + s * s == 1.0 && 3.0 <= radius < 43.0
    ensures 9.0 <= (c * radius) * (c * radius) + (s * radius) * (s * radius) < 1849.0
  {
    assert (c * radius) * (c * radius) + (s * radius) * (s * radius) == (c * c + s * s) * (radius * radius);
    assert 9.0 <= radius * radius < 1849.0 by {
      assert radius * radius >= 3.0 * radius >= 9.0;
      assert radius * radius < 43.0 * radius <= 43.0 * 43.0;
    }
  }

  /** A light ray: its fixed spawn data and the mesh position. */
  datatype Ray = Ray(speed: real, startX: real, startY: real, zStart: real, length: real, pos: Vec3)

  function Spawn(r: Ray): Vec3 {
    Vec3(r.startX, r.startY, r.zStart + r.length / 2.0)
  }

  /** One ray's move: it advances by `traverse * speed` and, once past the
      camera, returns to its spawn position. */
  function RayStep(r: Ray, traverse: real): (q: Ray)
    ensures q == r.(pos := q.pos)
    ensures r.pos.z + traverse * r.speed > PassedCamera ==> q.pos == Spawn(r)
    ensures r.pos.z + traverse * r.speed <= PassedCamera ==>
      q.pos == Vec3(r.pos.x, r.pos.y, r.pos.z + traverse * r.speed)
    ensures q.pos.z <= Max(PassedCamera, Spawn(r).z)
  {
    var z := r.pos.z + traverse * r.speed;
    if z > PassedCamera then r.(pos := Spawn(r)) else r.(pos := Vec3(r.pos.x, r.pos.y, z))
  }

  /** Rays spawn at depth `zStart + length / 2` with `zStart` up to 50 and
      `length` up to 30, so a spawn can lie beyond the camera. Such a ray,
      once reset, is reset again on every forward frame and never moves. */
  lemma RayBeyondCameraStaysPut(r: Ray, traverse: real)
    requires Spawn(r).z > PassedCamera && r.pos == Spawn(r)
    requires traverse * r.speed >= 0.0
    ensures RayStep(r, traverse) == r
  {
  }

  /** Where the band values come from in a frame. */
  datatype AudioInput =
    | Playing(bands: Option<Bands>)
    /** No playing analyser: the three sine values of the fallback. */
    | Fallback(s1: real, s2: real, s3: real)

  /** The band values of a frame: the analyser's bands scaled by 2, 1.5 and
      1.5 while playing (0 if it has none), otherwise the fallback waves,
      which stay within [0, 0.5], [0, 0.3] and [0, 0.2]. */
  function FrameBands(a: AudioInput): (b: Bands)
    requires a.Fallback? ==> -1.0 <= a.s1 <= 1.0 && -1.0 <= a.s2 <= 1.0 && -1.0 <= a.s3 <= 1.0
    ensures a.Fallback? ==> 0.0 <= b.bass <= 0.5 && 0.0 <= b.mid <= 0.3 && 0.0 <= b.high <= 0.2
    ensures a.Playing? && a.bands.None? ==> b == Bands(0.0, 0.0, 0.0)
    ensures a.Playing? && a.bands.Some? ==>
      b == Bands(a.bands.value.bass * 2.0, a.bands.value.mid * 1.5, a.bands.value.high * 1.5)
  {
    match a
    case Playing(None) => Bands(0.0, 0.0, 0.0)
    case Playing(Some(v)) => Bands(v.bass * 2.0, v.mid * 1.5, v.high * 1.5)
    case Fallback(s1, s2, s3) =>
      Bands((s1 * 0.5 + 0.5) * 0.5, (s2 * 0.5 + 0.5) * 0.3, (s3 * 0.5 + 0.5) * 0.2)
  }

  /** The depth every star and ray moves per unit of speed in one frame:
      `warpSpeed * deltaSeconds / boost` with `warpSpeed` and `deltaSeconds`
      both scaled by the boost. */
  function Traverse(timeDelta: real, bass: real, slowdown: real, boost: real): real
    requires boost != 0.0
  {
    (BaseSpeed + bass * 200.0) * boost * ((timeDelta / 1000.0) * slowdown * boost) / boost
  }

  /** The boost cancels in the division, so the traverse distance scales
      with the boost once (through `deltaSeconds`), not twice. */
  lemma TraverseBoostOnce(timeDelta: real, bass: real, slowdown: real, boost: real)
    requires boost > 0.0
    ensures Traverse(timeDelta, bass, slowdown, boost) == (BaseSpeed + bass * 200.0) * (timeDelta / 1000.0) * slowdown * boost
  {
    var w := BaseSpeed + bass * 200.0;
    var d := (timeDelta / 1000.0) * slowdown * boost;
    assert w * boost * d / boost == w * d;
  }

  class DimensionWarp {
    const starCount: nat
    const positions: array<real>
    const speeds: array<real>
    const rays: array<Ray>
    var hasStars: bool
    var slowdownFactor: real
    var targetSlowdown: real
    var boostFactor: real
    var targetBoost: real

    /** The factors stay positive, which keeps the division by the boost in
        `tick` defined. */
    ghost predicate Valid()
      reads this
    {
      positions.Length == 3 * starCount && speeds.Length == starCount
      && slowdownFactor > 0.0 && boostFactor > 0.0
      && (targetSlowdown == FistSlowdown || targetSlowdown == 1.0)
      && (targetBoost == PinchBoost || targetBoost == 1.0)
    }

    /** `init` with the created star field and rays. */
    constructor (starPositions: seq<real>, starSpeeds: seq<real>, rayList: seq<Ray>)
      requires |starPositions| == 3 * |starSpeeds|
      ensures Valid() && hasStars && starCount == |starSpeeds|
      ensures slowdownFactor == targetSlowdown == boostFactor == targetBoost == 1.0
      ensures positions[..] == starPositions && speeds[..] == starSpeeds && rays[..] == rayList
    {
      starCount := |starSpeeds|;
      positions := new real[|starPositions|](i requires 0 <= i < |starPositions| => starPositions[i]);
      speeds := new real[|starSpeeds|](i requires 0 <= i < |starSpeeds| => starSpeeds[i]);
      rays := new Ray[|rayList|](i requires 0 <= i < |rayList| => rayList[i]);
      hasStars := true;
      slowdownFactor := 1.0;
      targetSlowdown := 1.0;
      boostFactor := 1.0;
      targetBoost := 1.0;
    }

    /** `gesture-fist` on either hand. */
    method Fist()
      requires Valid()
      modifies this`targetSlowdown
      ensures Valid() && targetSlowdown == FistSlowdown
    {
      targetSlowdown := FistSlowdown;
    }

    /** `gesture-fist-end` on either hand. */
    method FistEnd()
      requires Valid()
      modifies this`targetSlowdown
      ensures Valid() && targetSlowdown == 1.0
    {
      targetSlowdown := 1.0;
    }

    /** `pinchstarted` on either hand. */
    method PinchStarted()
      requires Valid()
      modifies this`targetBoost
      ensures Valid() && targetBoost == PinchBoost
    {
      targetBoost := PinchBoost;
    }

    /** `pinchended` on either hand. */
    method PinchEnded()
      requires Valid()
      modifies this`targetBoost
      ensures Valid() && targetBoost == 1.0
    {
      targetBoost := 1.0;
    }

    /** `tick(time, timeDelta)`: nothing without stars; otherwise both
        factors move toward their targets (10% and 15%, never past them),
        and every star and ray advances by the frame's traverse distance
        and is recycled once past the camera. `draws[i]` holds the random
        values star i would use if it respawns. */
    method Tick(timeDelta: real, audio: AudioInput, draws: seq<StarDraw>) returns (traverse: real)
      requires Valid() && |draws| == starCount && forall i :: 0 <= i < starCount ==> ValidDraw(draws[i])
      requires audio.Fallback? ==> -1.0 <= audio.s1 <= 1.0 && -1.0 <= audio.s2 <= 1.0 && -1.0 <= audio.s3 <= 1.0
      modifies this`slowdownFactor, this`boostFactor, positions, rays
      ensures Valid()
      ensures !hasStars ==> slowdownFactor == old(slowdownFactor) && boostFactor == old(boostFactor)
      ensures hasStars ==> slowdownFactor == Approach(old(slowdownFactor), targetSlowdown, SlowdownRate)
      ensures hasStars ==> boostFactor == Approach(old(boostFactor), targetBoost, BoostRate)
      ensures hasStars ==> Between(slowdownFactor, old(slowdownFactor), targetSlowdown)
      ensures hasStars ==> Between(boostFactor, old(boostFactor), targetBoost)
      ensures hasStars ==> traverse == Traverse(timeDelta, FrameBands(audio).bass, slowdownFactor, boostFactor)
      ensures hasStars ==> forall i :: 0 <= i < starCount ==>
        Vec3(positions[3 * i], positions[3 * i + 1], positions[3 * i + 2]) ==
        StarStep(Vec3(old(positions[3 * i]), old(positions[3 * i + 1]), old(positions[3 * i + 2])), speeds[i], traverse, draws[i])
      ensures hasStars ==> forall i :: 0 <= i < starCount ==> positions[3 * i + 2] <= PassedCamera
      ensures hasStars ==> forall i :: 0 <= i < rays.Length ==> rays[i] == RayStep(old(rays[i]), traverse)
    {
      traverse := 0.0;
      if !hasStars {
        return;
      }
      SmoothFactors();
      var deltaSeconds := (timeDelta / 1000.0) * slowdownFactor * boostFactor;
      var bands := FrameBands(audio);
      var warpSpeed := (BaseSpeed + bands.bass * 200.0) * boostFactor;
      traverse := warpSpeed * deltaSeconds / boostFactor;
      MoveStars(traverse, draws);
      MoveRays(traverse);
    }

    /** The two smoothing steps at the start of `tick`. */
    method SmoothFactors()
      requires Valid()
      modifies this`slowdownFactor, this`boostFactor
      ensures Valid()
      ensures slowdownFactor == Approach(old(slowdownFactor), targetSlowdown, SlowdownRate)
      ensures boostFactor == Approach(old(boostFactor), targetBoost, BoostRate)
      ensures Between(slowdownFactor, old(slowdownFactor), targetSlowdown)
      ensures Between(boostFactor, old(boostFactor), targetBoost)
    {
      ApproachBetween(slowdownFactor, targetSlowdown, SlowdownRate);
      ApproachBetween(boostFactor, targetBoost, BoostRate);
      slowdownFactor := slowdownFactor + (targetSlowdown - slowdownFactor) * SlowdownRate;
      boostFactor := boostFactor + (targetBoost - boostFactor) * BoostRate;
    }

    /** The star loop of `tick`. */
    method MoveStars(traverse: real, draws: seq<StarDraw>)
      requires positions.Length == 3 * starCount && speeds.Length == starCount
      requires |draws| == starCount && forall i :: 0 <= i < starCount ==> ValidDraw(draws[i])
      modifies positions
      ensures forall i :: 0 <= i < starCount ==>
        Vec3(positions[3 * i], positions[3 * i + 1], positions[3 * i + 2]) ==
        StarStep(Vec3(old(positions[3 * i]), old(positions[3 * i + 1]), old(positions[3 * i + 2])), speeds[i], traverse, draws[i])
      ensures forall i :: 0 <= i < starCount ==> positions[3 * i + 2] <= PassedCamera
    {
      var i := 0;
      while i < starCount
        invariant 0 <= i <= starCount
        invariant forall j :: 0 <= j < i ==>
          Vec3(positions[3 * j], positions[3 * j + 1], positions[3 * j + 2]) ==
          StarStep(Vec3(old(positions[3 * j]), old(positions[3 * j + 1]), old(positions[3 * j + 2])), speeds[j], traverse, draws[j])
        invariant forall k :: 3 * i <= k < 3 * starCount ==> positions[k] == old(positions[k])
      {
        var q := StarStep(Vec3(positions[3 * i], positions[3 * i + 1], positions[3 * i + 2]), speeds[i], traverse, draws[i]);
        positions[3 * i], positions[3 * i + 1], positions[3 * i + 2] := q.x, q.y, q.z;
        i := i + 1;
      }
    }

    /** The ray loop of `tick`. */
    method MoveRays(traverse: real)
      modifies rays
      ensures forall i :: 0 <= i < rays.Length ==> rays[i] == RayStep(old(rays[i]), traverse)
    {
      var i := 0;
      while i < rays.Length
        invariant 0 <= i <= rays.Length
        invariant forall j :: 0 <= j < i ==> rays[j] == RayStep(old(rays[j]), traverse)
        invariant forall j :: i <= j < rays.Length ==> rays[j] == old(rays[j])
      {
        rays[i] := RayStep(rays[i], traverse);
        i := i + 1;
      }
    }
  }
}
