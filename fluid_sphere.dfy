/** The `fluid-sphere` component: its attractor and wave lists, the touch
    highlight that decays every frame, the radial vertex displacement and
    the per-attractor influence rule. Noise values and the wave ripple
    shape are inputs of the model (see the README). */
module FluidSphere {
  import opened Common

  /** Largest simulation step, in seconds. */
  const MaxStep := 0.05
  /** Schema default `noiseSpeed`. */
  const NoiseSpeed := 0.3
  /** Largest wave intensity. */
  const MaxIntensity := 0.5
  /** Per-frame decay of the touch highlight. */
  const TouchDecay := 0.92

  /** A ripple started at `center`; `time` grows by the frame step and the
      wave is dropped once it exceeds 1. */
  datatype Wave = Wave(center: Vec3, intensity: real, time: real, maxTime: real)

  /** `addWave`'s record. */
  function NewWave(pos: Vec3, intensity: real): (w: Wave)
    ensures w.center == pos && w.time == 0.0 && w.maxTime == 1.0
    ensures w.intensity <= MaxIntensity && w.intensity <= intensity
    ensures intensity <= MaxIntensity ==> w.intensity == intensity
  {
    Wave(pos, Min(intensity, MaxIntensity), 0.0, 1.0)
  }

  /** One wave after `time += dt`. */
  function Aged(w: Wave, dt: real): Wave {
    w.(time := w.time + dt)
  }

  /** The waves left after one frame: each is aged by `dt`, those whose
      time is then above 1 are removed, and the rest keep their order. */
  function Survivors(ws: seq<Wave>, dt: real): (r: seq<Wave>)
    ensures |r| <= |ws|
    ensures forall i :: 0 <= i < |r| ==> r[i].time <= 1.0
  {
    if ws == [] then []
    else
      var a := Aged(ws[0], dt);
      (if a.time > 1.0 then [] else [a]) + Survivors(ws[1..], dt)
  }

  /** A wave whose aged time is at most 1 survives. */
  lemma {:induction false} SurvivorKept(ws: seq<Wave>, dt: real, i: nat)
    requires i < |ws| && ws[i].time + dt <= 1.0
    ensures Aged(ws[i], dt) in Survivors(ws, dt)
    decreases |ws|
  {
    if i > 0 {
      assert ws[1..][i - 1] == ws[i];
      SurvivorKept(ws[1..], dt, i - 1);
    }
  }

  /** Every survivor is the aged copy of a wave whose aged time is at most
      1, so exactly the waves with time above 1 are removed. */
  lemma {:induction false} SurvivorOrigin(ws: seq<Wave>, dt: real, w: Wave)
    requires w in Survivors(ws, dt)
    ensures exists i :: 0 <= i < |ws| && ws[i].time + dt <= 1.0 && w == Aged(ws[i], dt)
    decreases |ws|
  {
    var a := Aged(ws[0], dt);
    if a.time <= 1.0 && w == a {
      assert ws[0].time + dt <= 1.0 && w == Aged(ws[0], dt);
    } else {
      SurvivorOrigin(ws[1..], dt, w);
      var i :| 0 <= i < |ws[1..]| && ws[1..][i].time + dt <= 1.0 && w == Aged(ws[1..][i], dt);
      assert ws[i + 1] == ws[1..][i];
    }
  }

  /** With a non-negative step and non-negative wave times, every survivor
      has lived at least one step and has time at most 1. */
  lemma {:induction false} SurvivorsAgeForward(ws: seq<Wave>, dt: real)
    requires dt >= 0.0
    requires forall i :: 0 <= i < |ws| ==> ws[i].time >= 0.0
    ensures forall i :: 0 <= i < |Survivors(ws, dt)| ==> dt <= Survivors(ws, dt)[i].time <= 1.0
    decreases |ws|
  {
    if ws != [] {
      SurvivorsAgeForward(ws[1..], dt);
    }
  }

  /** The offset per unit of radius of an attractor at squared distance
      `distSq` with squared radius `radSq`; `dist` and `rad` are the square
      roots the source takes. Only attractors strictly inside the radius
      contribute, with an influence in (0, 1]. */
  function Influence(distSq: real, radSq: real, dist: real, rad: real): (f: Option<real>)
    requires dist >= 0.0 && rad >= 0.0 && dist * dist == distSq && rad * rad == radSq
    ensures f.Some? <==> distSq < radSq
    ensures f.Some? ==> 0.0 < f.value <= 1.0
  {
    if distSq < radSq then
      RootsOrdered(dist, rad);
      Some(1.0 - dist / rad)
    else
      None
  }

  /** `dist * dist < rad * rad` with both non-negative gives
      `0 <= dist / rad < 1`. */
  lemma RootsOrdered(dist: real, rad: real)
    requires dist >= 0.0 && rad >= 0.0 && dist * dist < rad * rad
    ensures rad > 0.0 && 0.0 <= dist / rad < 1.0
  {
    assert (rad - dist) * (rad + dist) > 0.0;
    assert rad - dist > 0.0;
    assert (rad - dist) / rad > 0.0;
    assert rad / rad == 1.0;
    assert (rad - dist) / rad == rad / rad - dist / rad;
  }

  /** A vertex set to `o + n * disp` differs from its original only along
      its normal: the offset is parallel to `n`. */
  lemma DisplacedAlongNormal(o: Vec3, n: Vec3, disp: real)
    ensures Cross(Sub(Displaced(o, n, disp), o), n) == Origin
  {
    var d := Sub(Displaced(o, n, disp), o);
    assert d == Vec3(n.x * disp, n.y * disp, n.z * disp);
  }

  function Displaced(o: Vec3, n: Vec3, disp: real): Vec3 {
    Vec3(o.x + n.x * disp, o.y + n.y * disp, o.z + n.z * disp)
  }

  /** Entries 3j, 3j + 1 and 3j + 2 of `a` hold the coordinates of `v`. */
  predicate HoldsAt(a: array<real>, j: nat, v: Vec3)
    reads a
  {
    3 * j + 2 < a.Length && a[3 * j] == v.x && a[3 * j + 1] == v.y && a[3 * j + 2] == v.z
  }

  /** Write the coordinates of `v` at entry group `j`, leaving the rest. */
  method Put(a: array<real>, j: nat, v: Vec3)
    requires 3 * j + 2 < a.Length
    modifies a
    ensures HoldsAt(a, j, v)
    ensures forall k :: 0 <= k < a.Length && (k < 3 * j || 3 * j + 3 <= k) ==> a[k] == old(a[k])
  {
    a[3 * j], a[3 * j + 1], a[3 * j + 2] := v.x, v.y, v.z;
  }

  /** The loop of `createSphere`: store each vertex and its unit normal. */
  method CreateSphere(vertices: seq<Vec3>, geo: Geometry) returns (o: array<real>, nm: array<real>)
    ensures fresh(o) && fresh(nm) && o != nm
    ensures o.Length == nm.Length == 3 * |vertices|
    ensures forall i :: 0 <= i < |vertices| ==>
      o[3 * i] == vertices[i].x && o[3 * i + 1] == vertices[i].y && o[3 * i + 2] == vertices[i].z
    ensures forall i :: 0 <= i < |vertices| ==>
      nm[3 * i] == geo.unit(vertices[i]).x && nm[3 * i + 1] == geo.unit(vertices[i]).y &&
      nm[3 * i + 2] == geo.unit(vertices[i]).z
  {
    o := new real[3 * |vertices|](_ => 0.0);
    nm := new real[3 * |vertices|](_ => 0.0);
    var i := 0;
    while i < |vertices|
      invariant 0 <= i <= |vertices|
      invariant forall j :: 0 <= j < i ==> HoldsAt(o, j, vertices[j]) && HoldsAt(nm, j, geo.unit(vertices[j]))
    {
      Put(o, i, vertices[i]);
      Put(nm, i, geo.unit(vertices[i]));
      i := i + 1;
    }
  }

  class FluidSphere {
    /** Number of vertices of the icosahedron. */
    const vertexCount: nat
    const originals: array<real>
    const normals: array<real>
    /** The geometry's position buffer. */
    const positions: array<real>
    var hasMesh: bool
    var time: real
    var touchStrength: real
    var attractors: seq<object>
    var waves: seq<Wave>

    ghost predicate Valid()
      reads this
    {
      originals.Length == normals.Length == positions.Length == 3 * vertexCount
      && positions != originals && positions != normals
      && touchStrength >= 0.0
    }

    /** `init` and `createSphere`: the originals are the icosahedron's
        vertices and each normal is the vertex scaled to unit length. */
    constructor (vertices: seq<Vec3>, geo: Geometry)
      ensures Valid() && vertexCount == |vertices| && hasMesh
      ensures time == 0.0 && touchStrength == 0.0 && attractors == [] && waves == []
      ensures forall i :: 0 <= i < vertexCount ==>
        originals[3 * i] == vertices[i].x && originals[3 * i + 1] == vertices[i].y && originals[3 * i + 2] == vertices[i].z
      ensures forall i :: 0 <= i < vertexCount ==>
        normals[3 * i] == geo.unit(vertices[i]).x && normals[3 * i + 1] == geo.unit(vertices[i]).y &&
        normals[3 * i + 2] == geo.unit(vertices[i]).z
    {
      vertexCount := |vertices|;
      var o, nm := CreateSphere(vertices, geo);
      originals := o;
      normals := nm;
      positions := new real[3 * |vertices|](_ => 0.0);
      hasMesh := true;
      time := 0.0;
      touchStrength := 0.0;
      attractors := [];
      waves := [];
    }

    /** `addAttractor`: a plain push, with no duplicate check. */
    method AddAttractor(a: object)
      modifies this`attractors
      ensures attractors == old(attractors) + [a]
    {
      attractors := attractors + [a];
    }

    /** `removeAttractor`: the first occurrence, if any, is spliced out. */
    method RemoveAttractor(a: object)
      modifies this`attractors
      ensures attractors == RemoveFirst(old(attractors), a)
    {
      var idx := IndexOf(attractors, a);
      if idx > -1 {
        attractors := attractors[..idx] + attractors[idx + 1..];
      }
    }

    /** `addWave`: a new ripple at `pos` and the touch highlight at full. */
    method AddWave(pos: Vec3, intensity: real)
      requires Valid()
      modifies this`waves, this`touchStrength
      ensures Valid()
      ensures waves == old(waves) + [NewWave(pos, intensity)]
      ensures touchStrength == 1.0
    {
      waves := waves + [Wave(pos, Min(intensity, MaxIntensity), 0.0, 1.0)];
      touchStrength := 1.0;
    }

    /** `tick`. `disp[i]` is vertex i's displacement (noise, attractors and
        ripples summed). Nothing happens without a mesh; otherwise time
        advances by `dt * noiseSpeed` with `dt` at most 0.05 s, the touch
        highlight decays, every vertex is moved along its normal and the
        waves are aged. */
    method Tick(delta: real, disp: seq<real>)
      requires Valid() && |disp| == vertexCount
      modifies this`time, this`touchStrength, this`waves, positions
      ensures Valid()
      ensures !hasMesh ==> time == old(time) && touchStrength == old(touchStrength) && waves == old(waves)
      ensures hasMesh ==> time == old(time) + Min(delta / 1000.0, MaxStep) * NoiseSpeed
      ensures hasMesh ==> touchStrength == old(touchStrength) * TouchDecay || touchStrength == old(touchStrength) == 0.0
      ensures touchStrength <= old(touchStrength)
      ensures hasMesh ==> waves == Survivors(old(waves), Min(delta / 1000.0, MaxStep))
      ensures hasMesh ==> forall i :: 0 <= i < vertexCount ==>
        Vec3(positions[3 * i], positions[3 * i + 1], positions[3 * i + 2]) ==
        Displaced(Vec3(originals[3 * i], originals[3 * i + 1], originals[3 * i + 2]),
                  Vec3(normals[3 * i], normals[3 * i + 1], normals[3 * i + 2]), disp[i])
    {
      if !hasMesh {
        return;
      }
      var dt := Min(delta / 1000.0, MaxStep);
      time := time + dt * NoiseSpeed;
      if touchStrength > 0.0 {
        touchStrength := touchStrength * TouchDecay;
      }
      MoveVertices(disp);
      AgeWaves(dt);
    }

    /** The vertex loop: each vertex becomes original + normal * disp. */
    method MoveVertices(disp: seq<real>)
      requires Valid() && |disp| == vertexCount
      modifies positions
      ensures forall i :: 0 <= i < vertexCount ==>
        Vec3(positions[3 * i], positions[3 * i + 1], positions[3 * i + 2]) ==
        Displaced(Vec3(originals[3 * i], originals[3 * i + 1], originals[3 * i + 2]),
                  Vec3(normals[3 * i], normals[3 * i + 1], normals[3 * i + 2]), disp[i])
    {
      var i := 0;
      while i < vertexCount
        invariant 0 <= i <= vertexCount
        invariant forall j :: 0 <= j < i ==>
          Vec3(positions[3 * j], positions[3 * j + 1], positions[3 * j + 2]) ==
          Displaced(Vec3(originals[3 * j], originals[3 * j + 1], originals[3 * j + 2]),
                    Vec3(normals[3 * j], normals[3 * j + 1], normals[3 * j + 2]), disp[j])
      {
        positions[3 * i] := originals[3 * i] + normals[3 * i] * disp[i];
        positions[3 * i + 1] := originals[3 * i + 1] + normals[3 * i + 1] * disp[i];
        positions[3 * i + 2] := originals[3 * i + 2] + normals[3 * i + 2] * disp[i];
        i := i + 1;
      }
    }

    /** The backward wave loop: age every wave, splicing out those whose
        time is then above 1. */
    method AgeWaves(dt: real)
      modifies this`waves
      ensures waves == Survivors(old(waves), dt)
    {
      var n := |waves|;
      while n > 0
        invariant 0 <= n <= |old(waves)|
        invariant waves == old(waves)[..n] + Survivors(old(waves)[n..], dt)
        decreases n
      {
        var w := n - 1;
        ghost var rest := old(waves)[n..];
        assert old(waves)[w..] == [old(waves)[w]] + rest;
        assert waves[w] == old(waves)[w];
        var aged := Aged(waves[w], dt);
        if aged.time > 1.0 {
          waves := waves[..w] + waves[w + 1..];
        } else {
          waves := waves[..w] + [aged] + waves[w + 1..];
        }
        assert old(waves)[..n][..w] == old(waves)[..w];
        n := w;
      }
      assert old(waves)[0..] == old(waves);
    }
  }
}
