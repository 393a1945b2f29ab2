/** The CPU particle component `synesthetic-particles`: its inline noise
    permutation, the particle buffers filled at creation, the attractor
    list, the smooth-reset flag, the step cap of `tick`, the per-attractor
    force clamp and the colour clamp. The per-particle integration itself is
    not modelled; see the README. */
module SynestheticParticles {
  import opened Common
  import SimplexNoise

  /** Schema default `noiseSpeed`. */
  const NoiseSpeed := 0.3
  /** Largest simulation step, in seconds (30 frames per second). */
  const MaxStep := 0.033
  /** Largest magnitude of one attractor's force. */
  const MaxForce := 0.5
  /** Offset added to every attractor distance. */
  const DistanceOffset := 0.01
  /** Delay after which a smooth reset switches itself off. */
  const ResetDuration := 3000.0

  // ---------------------------------------------------------------------
  // Inline permutation table

  /** The draws `floor(Math.random() * (i + 1))` of the inline shuffle, one
      per position 1..255 (position 0 draws nothing). */
  predicate DrawsInRange(js: seq<int>) {
    |js| == 256 && forall i :: 0 < i < 256 ==> 0 <= js[i] <= i
  }

  /** The inline Fisher-Yates loop from position `i` down to 1, swapping
      position `k` with the drawn position `js[k]`. */
  function DrawnShuffle(p: seq<int>, js: seq<int>, i: nat): (q: seq<int>)
    requires i < |p| && i < |js|
    requires forall k :: 0 < k <= i ==> 0 <= js[k] <= k
    ensures |q| == |p|
    decreases i
  {
    if i == 0 then p else DrawnShuffle(SimplexNoise.Swap(p, i, js[i]), js, i - 1)
  }

  lemma {:induction false} DrawnShufflePermutes(p: seq<int>, js: seq<int>, i: nat)
    requires i < |p| && i < |js|
    requires forall k :: 0 < k <= i ==> 0 <= js[k] <= k
    ensures multiset(DrawnShuffle(p, js, i)) == multiset(p)
    decreases i
  {
    if i > 0 {
      var q := SimplexNoise.Swap(p, i, js[i]);
      SimplexNoise.SwapPermutes(p, i, js[i]);
      DrawnShufflePermutes(q, js, i - 1);
    }
  }

  /** The table `p` the inline module builds from the identity. */
  function InlineTable(js: seq<int>): seq<int>
    requires DrawsInRange(js)
  {
    DrawnShuffle(SimplexNoise.Identity(256), js, 255)
  }

  /** Whatever the random draws, the inline table is a permutation of
      0..255, so it fits the `Uint8Array` it is stored in. */
  lemma InlineTableIsPermutation(js: seq<int>)
    requires DrawsInRange(js)
    ensures SimplexNoise.IsPermutation(InlineTable(js), 256)
    ensures forall k :: 0 <= k < 256 ==> 0 <= InlineTable(js)[k] < 256
  {
    DrawnShufflePermutes(SimplexNoise.Identity(256), js, 255);
    SimplexNoise.PermutationRange(InlineTable(js), 256);
  }

  /** The module-level initialisation: identity fill, in-place shuffle with
      the given draws, then `perm[i] = p[i & 255]`. */
  method InitPermutation(js: seq<int>) returns (perm: array<int>)
    requires DrawsInRange(js)
    ensures perm.Length == 512
    ensures perm[..] == SimplexNoise.PermTable(InlineTable(js))
    ensures forall i :: 0 <= i < 256 ==> perm[i] == perm[i + 256]
  {
    var p := SimplexNoise.NewIdentity(256);
    ShuffleWithDraws(p, js);
    perm := Periodic(p);
    SimplexNoise.PermPeriodic(p[..]);
  }

  /** The in-place swap loop of the inline shuffle. */
  method ShuffleWithDraws(p: array<int>, js: seq<int>)
    requires p.Length == 256 && DrawsInRange(js)
    modifies p
    ensures p[..] == DrawnShuffle(old(p[..]), js, 255)
  {
    var i := 255;
    while i > 0
      invariant 0 <= i <= 255
      invariant DrawnShuffle(p[..], js, i) == DrawnShuffle(old(p[..]), js, 255)
      decreases i
    {
      ghost var before := p[..];
      var j := js[i];
      p[i], p[j] := p[j], p[i];
      assert p[..] == SimplexNoise.Swap(before, i, j);
      i := i - 1;
    }
  }

  /** `for (let i = 0; i < 512; i++) perm[i] = p[i & 255]`. */
  method Periodic(p: array<int>) returns (perm: array<int>)
    requires p.Length == 256
    ensures perm.Length == 512 && perm[..] == SimplexNoise.PermTable(p[..])
  {
    perm := new int[512];
    var i := 0;
    while i < 512
      invariant 0 <= i <= 512
      invariant forall k :: 0 <= k < i ==> perm[k] == p[k % 256]
    {
      perm[i] := p[i % 256];
      i := i + 1;
    }
    assert perm[..] == SimplexNoise.PermTable(p[..]);
  }

  // ---------------------------------------------------------------------
  // Attractor list

  predicate NoDuplicates<T(==)>(xs: seq<T>) {
    forall i, j :: 0 <= i < j < |xs| ==> xs[i] != xs[j]
  }

  /** `addAttractor`: skip an attractor already listed, else push it. */
  function AddUnique<T(==)>(xs: seq<T>, x: T): (r: seq<T>)
    ensures x in r
    ensures xs <= r && |r| <= |xs| + 1
  {
    if x in xs then xs else xs + [x]
  }

  /** Adding keeps the list free of duplicates, grows it by one exactly when
      the attractor was absent, and adding twice is the same as adding once. */
  lemma AddUniqueKeepsDistinct<T>(xs: seq<T>, x: T)
    requires NoDuplicates(xs)
    ensures NoDuplicates(AddUnique(xs, x))
    ensures |AddUnique(xs, x)| == if x in xs then |xs| else |xs| + 1
    ensures AddUnique(AddUnique(xs, x), x) == AddUnique(xs, x)
  {
    if x !in xs {
      var r := xs + [x];
      forall i, j | 0 <= i < j < |r| ensures r[i] != r[j] {
        if j == |xs| {
          assert r[i] == xs[i];
        }
      }
    }
  }

  /** Removing from a duplicate-free list keeps it duplicate-free. */
  lemma RemoveFirstKeepsDistinct<T>(xs: seq<T>, x: T)
    requires NoDuplicates(xs)
    ensures NoDuplicates(RemoveFirst(xs, x))
  {
    var r := RemoveFirst(xs, x);
    if x in xs {
      var k := IndexOf(xs, x);
      assert r == xs[..k] + xs[k + 1..];
      forall i, j | 0 <= i < j < |r| ensures r[i] != r[j] {
        var i' := if i < k then i else i + 1;
        var j' := if j < k then j else j + 1;
        assert r[i] == xs[i'] && r[j] == xs[j'];
      }
    }
  }

  /** Removing from a duplicate-free list removes the attractor entirely
      and keeps every other one. */
  lemma RemoveFirstRemovesAll<T>(xs: seq<T>, x: T)
    requires NoDuplicates(xs)
    ensures x !in RemoveFirst(xs, x)
    ensures forall y :: y != x ==> (y in RemoveFirst(xs, x) <==> y in xs)
  {
    var r := RemoveFirst(xs, x);
    if x in xs {
      var k := IndexOf(xs, x);
      assert r == xs[..k] + xs[k + 1..];
      forall i | 0 <= i < |r| ensures r[i] != x {
        var i' := if i < k then i else i + 1;
        assert r[i] == xs[i'] && i' != k;
      }
      forall y | y != x ensures y in r <==> y in xs {
        assert multiset(r)[y] == multiset(xs)[y];
      }
    }
  }

  /** Removing an attractor that was just added restores the list. */
  lemma RemoveUndoesAdd<T>(xs: seq<T>, x: T)
    requires x !in xs
    ensures RemoveFirst(AddUnique(xs, x), x) == xs
  {
    var r := xs + [x];
    forall j | 0 <= j < |xs| ensures r[j] != x {
      assert r[j] == xs[j];
    }
    assert r[|xs|] == x;
    assert IndexOf(r, x) == |xs|;
    assert r[..|xs|] == xs;
  }

  // ---------------------------------------------------------------------
  // Step, force and colour rules of `tick`

  /** `Math.min(delta / 1000, 0.033)`. */
  function StepSize(delta: real): (dt: real)
    ensures dt <= MaxStep && dt <= delta / 1000.0
    ensures dt == MaxStep || dt == delta / 1000.0
  {
    Min(delta / 1000.0, MaxStep)
  }

  /** The force of one attractor on a particle at Euclidean distance `gap`:
      none unless `gap + 0.01 < radius`, otherwise the linear falloff
      `strength * (1 - dist / radius) * 0.01` clamped to magnitude 0.5 with
      its sign kept. */
  function AttractorForce(strength: real, gap: real, radius: real): (f: Option<real>)
    requires gap >= 0.0
    ensures f.Some? <==> gap + DistanceOffset < radius
    ensures f.Some? ==> Abs(f.value) <= MaxForce && Abs(f.value) <= Abs(strength) * 0.01
    ensures f.Some? ==> (f.value > 0.0 <==> strength > 0.0) && (f.value < 0.0 <==> strength < 0.0)
  {
    var dist := gap + DistanceOffset;
    if dist < radius then
      var falloff := 1.0 - dist / radius;
      FalloffInUnit(dist, radius);
      var force := strength * falloff * 0.01;
      ScaledForce(strength, falloff);
      Some(ClampMagnitude(force))
    else
      None
  }

  lemma FalloffInUnit(dist: real, radius: real)
    requires 0.0 < dist < radius
    ensures 0.0 < 1.0 - dist / radius < 1.0
  {
    assert (radius - dist) / radius > 0.0;
    assert dist / radius > 0.0;
    assert radius / radius == 1.0;
    assert (radius - dist) / radius == radius / radius - dist / radius;
  }

  /** A falloff in (0, 1) keeps the sign of the strength and shrinks it. */
  lemma ScaledForce(strength: real, falloff: real)
    requires 0.0 < falloff < 1.0
    ensures Abs(strength * falloff * 0.01) <= Abs(strength) * 0.01
    ensures (strength * falloff * 0.01 > 0.0 <==> strength > 0.0)
    ensures (strength * falloff * 0.01 < 0.0 <==> strength < 0.0)
  {
    if strength >= 0.0 {
      ScaleWithin(strength, falloff);
    } else {
      ScaleWithin(-strength, falloff);
    }
  }

  /** `Math.min(Math.abs(force), 0.5) * Math.sign(force)`. */
  function ClampMagnitude(force: real): (c: real)
    ensures Abs(c) == Min(Abs(force), MaxForce)
    ensures (c > 0.0 <==> force > 0.0) && (c < 0.0 <==> force < 0.0)
  {
    if force > 0.0 then Min(force, MaxForce)
    else if force < 0.0 then -Min(-force, MaxForce)
    else 0.0
  }

  /** `(Math.sin(x * 5 + time) + 1) * 0.1` for a sine value in [-1, 1]. */
  function Variation(sine: real): (v: real)
    requires -1.0 <= sine <= 1.0
    ensures 0.0 <= v <= 0.2
  {
    (sine + 1.0) * 0.1
  }

  /** One written colour channel `Math.min(1, base + variation * weight)`:
      never above 1, never darker than the base (up to 1), and equal to the
      unclamped sum when that sum is at most 1. */
  function Channel(base: real, variation: real, weight: real): (c: real)
    requires 0.0 <= variation && 0.0 <= weight
    ensures c <= 1.0
    ensures c >= Min(base, 1.0)
    ensures base + variation * weight <= 1.0 ==> c == base + variation * weight
  {
    Min(1.0, base + variation * weight)
  }

  /** The component: buffers are allocated at `init` and never replaced, so
      they are constant references here; `homePositions` is allocated up
      front and `hasHomes` records whether `createParticles` created it. */
  class ParticleSystem {
    const count: nat
    const positions: array<real>
    const velocities: array<real>
    const colors: array<real>
    const homePositions: array<real>
    const scales: array<real>
    const lifetimes: array<real>
    var hasHomes: bool
    var hasMesh: bool
    var time: real
    var isResetting: bool
    var resetTime: real
    /** `setTimeout` callbacks of `smoothReset` that have not fired yet. */
    var pendingResetTimers: nat
    /** The attractor objects, compared by identity. */
    var attractors: seq<object>

    ghost predicate Valid()
      reads this, colors
    {
      positions.Length == velocities.Length == colors.Length == homePositions.Length == 3 * count
      && scales.Length == lifetimes.Length == count
      && positions != homePositions && positions != velocities && positions != colors
      && homePositions != velocities && homePositions != colors && velocities != colors
      && scales != lifetimes
      && NoDuplicates(attractors)
      && forall k :: 0 <= k < colors.Length ==> colors[k] <= 1.0
    }

    /** `init` up to `createParticles`: zeroed buffers, time 0, no
        attractors, not resetting. */
    constructor (n: nat)
      ensures Valid() && count == n
      ensures time == 0.0 && attractors == [] && !isResetting && !hasMesh && !hasHomes
      ensures pendingResetTimers == 0
    {
      count := n;
      positions := new real[3 * n](_ => 0.0);
      velocities := new real[3 * n](_ => 0.0);
      colors := new real[3 * n](_ => 0.0);
      homePositions := new real[3 * n](_ => 0.0);
      scales := new real[n](_ => 0.0);
      lifetimes := new real[n](_ => 0.0);
      hasHomes := false;
      hasMesh := false;
      time := 0.0;
      isResetting := false;
      resetTime := 0.0;
      pendingResetTimers := 0;
      attractors := [];
    }

    /** Particle `j` sits at `point`, which is also its home, moves at a
        tenth of its radial direction `dir`, and has colour `low`. */
    predicate Written(j: nat, point: Vec3, dir: Vec3, low: Vec3)
      reads this, positions, homePositions, velocities, colors
    {
      3 * j + 2 < positions.Length && 3 * j + 2 < homePositions.Length
      && 3 * j + 2 < velocities.Length && 3 * j + 2 < colors.Length
      && positions[3 * j] == point.x && positions[3 * j + 1] == point.y && positions[3 * j + 2] == point.z
      && homePositions[3 * j] == point.x && homePositions[3 * j + 1] == point.y && homePositions[3 * j + 2] == point.z
      && velocities[3 * j] == dir.x * 0.1 && velocities[3 * j + 1] == dir.y * 0.1 && velocities[3 * j + 2] == dir.z * 0.1
      && colors[3 * j] == low.x && colors[3 * j + 1] == low.y && colors[3 * j + 2] == low.z
    }

    /** `createParticles`. `points[i]` is the sampled shell point, `dirs[i]`
        its radial direction and `low` the initial colour; the scale and
        lifetime draws are the `Math.random()` values. Every home position
        equals its position, scales lie in [0.5, 1) and lifetimes in [0, 10). */
    method CreateParticles(points: seq<Vec3>, dirs: seq<Vec3>, low: Vec3, scaleDraws: seq<real>, lifeDraws: seq<real>)
      requires Valid()
      requires |points| == |dirs| == |scaleDraws| == |lifeDraws| == count
      requires forall i :: 0 <= i < count ==> 0.0 <= scaleDraws[i] < 1.0
      requires forall i :: 0 <= i < count ==> 0.0 <= lifeDraws[i] < 1.0
      requires low.x <= 1.0 && low.y <= 1.0 && low.z <= 1.0
      modifies positions, velocities, colors, homePositions, scales, lifetimes, this`hasHomes, this`hasMesh
      ensures Valid() && hasMesh
      ensures hasHomes == (old(hasHomes) || count > 0)
      ensures forall i :: 0 <= i < count ==> Written(i, points[i], dirs[i], low)
      ensures forall i :: 0 <= i < count ==> scales[i] == 0.5 + scaleDraws[i] * 0.5 && 0.5 <= scales[i] < 1.0
      ensures forall i :: 0 <= i < count ==> lifetimes[i] == lifeDraws[i] * 10.0 && 0.0 <= lifetimes[i] < 10.0
    {
      var i := 0;
      while i < count
        invariant 0 <= i <= count && Valid()
        invariant hasHomes == (old(hasHomes) || i > 0)
        invariant forall j :: 0 <= j < i ==> Written(j, points[j], dirs[j], low)
        invariant forall j :: 0 <= j < i ==> scales[j] == 0.5 + scaleDraws[j] * 0.5 && 0.5 <= scales[j] < 1.0
        invariant forall j :: 0 <= j < i ==> lifetimes[j] == lifeDraws[j] * 10.0 && 0.0 <= lifetimes[j] < 10.0
      {
        WriteParticle(i, points[i], dirs[i], low);
        scales[i] := 0.5 + scaleDraws[i] * 0.5;
        lifetimes[i] := lifeDraws[i] * 10.0;
        hasHomes := true;
        i := i + 1;
      }
      hasMesh := true;
    }

    /** The three-component writes of one particle in `createParticles`. */
    method WriteParticle(i: nat, point: Vec3, dir: Vec3, low: Vec3)
      requires Valid() && i < count
      requires low.x <= 1.0 && low.y <= 1.0 && low.z <= 1.0
      modifies positions, velocities, colors, homePositions
      ensures Valid()
      ensures Written(i, point, dir, low)
      ensures forall k :: 0 <= k < 3 * count && (k < 3 * i || k >= 3 * i + 3) ==>
        positions[k] == old(positions[k]) && homePositions[k] == old(homePositions[k]) &&
        velocities[k] == old(velocities[k]) && colors[k] == old(colors[k])
    {
      positions[3 * i] := point.x;
      positions[3 * i + 1] := point.y;
      positions[3 * i + 2] := point.z;
      homePositions[3 * i] := point.x;
      homePositions[3 * i + 1] := point.y;
      homePositions[3 * i + 2] := point.z;
      velocities[3 * i] := dir.x * 0.1;
      velocities[3 * i + 1] := dir.y * 0.1;
      velocities[3 * i + 2] := dir.z * 0.1;
      colors[3 * i] := low.x;
      colors[3 * i + 1] := low.y;
      colors[3 * i + 2] := low.z;
    }

    /** `smoothReset`: start the homing phase and schedule its end. */
    method SmoothReset()
      modifies this`isResetting, this`resetTime, this`pendingResetTimers
      ensures isResetting && resetTime == 0.0
      ensures pendingResetTimers == old(pendingResetTimers) + 1
    {
      isResetting := true;
      resetTime := 0.0;
      pendingResetTimers := pendingResetTimers + 1;
    }

    /** One `setTimeout` callback of `smoothReset` firing 3000 ms later. It
        clears the flag even when a later `smoothReset` is still within its
        own three seconds. */
    method ResetTimerFires()
      requires pendingResetTimers > 0
      modifies this`isResetting, this`pendingResetTimers
      ensures !isResetting
      ensures pendingResetTimers == old(pendingResetTimers) - 1
    {
      isResetting := false;
      pendingResetTimers := pendingResetTimers - 1;
    }

    /** The legacy instant `reset`: it walks every particle, but the body
        of its loop is empty, so it changes nothing — positions, velocities
        and homes keep their values. */
    method Reset()
      requires Valid()
      ensures positions[..] == old(positions[..]) && velocities[..] == old(velocities[..])
      ensures homePositions[..] == old(homePositions[..])
    {
      var i := 0;
      while i < count
        invariant 0 <= i <= count
      {
        i := i + 1;
      }
    }

    /** `addAttractor`. */
    method AddAttractor(a: object)
      requires Valid()
      modifies this`attractors
      ensures Valid()
      ensures attractors == AddUnique(old(attractors), a)
    {
      AddUniqueKeepsDistinct(attractors, a);
      if a in attractors {
        return;
      }
      attractors := attractors + [a];
    }

    /** `removeAttractor`. */
    method RemoveAttractor(a: object)
      requires Valid()
      modifies this`attractors
      ensures Valid()
      ensures attractors == RemoveFirst(old(attractors), a)
      ensures a !in attractors
    {
      RemoveFirstKeepsDistinct(attractors, a);
      RemoveFirstRemovesAll(attractors, a);
      var idx := IndexOf(attractors, a);
      if idx > -1 {
        attractors := attractors[..idx] + attractors[idx + 1..];
      }
    }

    /** The clock part of `tick`: nothing happens without a mesh; otherwise
        the step is capped at 0.033 s, noise time advances by
        `dt * noiseSpeed`, and during a smooth reset by `dt` more. */
    method Tick(delta: real) returns (dt: real)
      modifies this`time
      ensures !hasMesh ==> time == old(time)
      ensures hasMesh ==> dt == StepSize(delta)
      ensures hasMesh ==> time == old(time) + dt * NoiseSpeed + (if isResetting then dt else 0.0)
    {
      dt := 0.0;
      if !hasMesh {
        return;
      }
      dt := Min(delta / 1000.0, MaxStep);
      time := time + dt * NoiseSpeed;
      if isResetting {
        time := time + dt;
      }
    }

    /** The colour write at the end of the per-particle loop of `tick`:
        `tint` is the lerped (and possibly paint-blended) colour and `sine`
        the value of `Math.sin(x * 5 + time)`. The cap of every colour
        component at 1 is kept. */
    method WriteColour(i: nat, tint: Vec3, sine: real)
      requires Valid() && i < count && -1.0 <= sine <= 1.0
      modifies colors
      ensures Valid()
      ensures colors[3 * i] == Channel(tint.x, Variation(sine), 1.0)
      ensures colors[3 * i + 1] == Channel(tint.y, Variation(sine), 0.5)
      ensures colors[3 * i + 2] == Channel(tint.z, Variation(sine), 0.3)
      ensures forall k :: 0 <= k < 3 * count && (k < 3 * i || k >= 3 * i + 3) ==> colors[k] == old(colors[k])
    {
      var v := Variation(sine);
      colors[3 * i] := Channel(tint.x, v, 1.0);
      colors[3 * i + 1] := Channel(tint.y, v, 0.5);
      colors[3 * i + 2] := Channel(tint.z, v, 0.3);
    }
  }
}
