/** Shared vocabulary of the model: optional values, 3D points and the
    "move a fraction of the way toward a target" step that many of the
    frame-stepped components use. */
module Common {

  datatype Option<T> = None | Some(value: T)

  /** An unsigned byte, as stored in a `Uint8Array`. */
  type Byte = b: int | 0 <= b < 256

  /** Three frequency bands, bass, mid and high. */
  datatype Bands = Bands(bass: real, mid: real, high: real)

  /** A point or vector in the tracking reference space. */
  datatype Vec3 = Vec3(x: real, y: real, z: real)

  const Origin := Vec3(0.0, 0.0, 0.0)

  function Sub(a: Vec3, b: Vec3): Vec3 {
    Vec3(a.x - b.x, a.y - b.y, a.z - b.z)
  }

  function Neg(a: Vec3): Vec3 {
    Vec3(-a.x, -a.y, -a.z)
  }

  function Cross(a: Vec3, b: Vec3): Vec3 {
    Vec3(a.y * b.z - a.z * b.y, a.z * b.x - a.x * b.z, a.x * b.y - a.y * b.x)
  }

  function Dot(a: Vec3, b: Vec3): real {
    a.x * b.x + a.y * b.y + a.z * b.z
  }

  /** The operations that need a square root (Euclidean distance and
      normalisation). Dafny's reals have no square root, so the model takes
      them as parameters; only the comparisons the source makes on their
      results are modelled. */
  datatype Geometry = Geometry(dist: (Vec3, Vec3) -> real, unit: Vec3 -> Vec3)

  function Min(a: real, b: real): real { if a < b then a else b }
  function Max(a: real, b: real): real { if a < b then b else a }
  function Abs(a: real): real { if a < 0.0 then -a else a }

  /** `Math.max(lo, Math.min(hi, x))`. */
  function Clamp(x: real, lo: real, hi: real): (r: real)
    requires lo <= hi
    ensures lo <= r <= hi
    ensures lo <= x <= hi ==> r == x
    ensures x < lo ==> r == lo
    ensures hi < x ==> r == hi
  {
    Max(lo, Min(hi, x))
  }

  /** `current += (target - current) * k`: the smoothing step of the
      audio bands, the warp factors, the hand-distance average and the
      gesture radii. */
  function Approach(current: real, target: real, k: real): real {
    current + (target - current) * k
  }

  predicate Between(r: real, a: real, b: real) {
    (a <= r <= b) || (b <= r <= a)
  }

  /** Scaling a non-negative amount by a factor in [0, 1] gives at most
      that amount. */
  lemma ScaleWithin(a: real, k: real)
    requires a >= 0.0 && 0.0 <= k <= 1.0
    ensures 0.0 <= a * k <= a
  {
    assert a * k <= a * 1.0 by {
      assert a * (1.0 - k) >= 0.0;
    }
  }

  /** With a factor in [0, 1] the step never overshoots: the new value lies
      between the old value and the target, and the remaining gap shrinks by
      the factor 1 - k. */
  lemma ApproachBetween(current: real, target: real, k: real)
    requires 0.0 <= k <= 1.0
    ensures Between(Approach(current, target, k), current, target)
    ensures Abs(target - Approach(current, target, k)) == (1.0 - k) * Abs(target - current)
  {
    var r := Approach(current, target, k);
    assert target - r == (1.0 - k) * (target - current);
    if target >= current {
      ScaleWithin(target - current, k);
      ScaleWithin(target - current, 1.0 - k);
    } else {
      ScaleWithin(current - target, k);
      ScaleWithin(current - target, 1.0 - k);
      assert (target - current) * k == -((current - target) * k);
    }
  }

  /** `Array.prototype.indexOf` with reference or value equality: the first
      position holding `x`, or -1 when there is none. */
  function IndexOf<T(==)>(xs: seq<T>, x: T): (i: int)
    ensures -1 <= i < |xs|
    ensures i == -1 <==> x !in xs
    ensures 0 <= i ==> xs[i] == x && x !in xs[..i]
  {
    if |xs| == 0 then -1
    else if xs[0] == x then 0
    else
      var j := IndexOf(xs[1..], x);
      if j == -1 then -1
      else
        assert xs[..j + 1] == [xs[0]] + xs[1..][..j];
        j + 1
  }

  /** `const i = xs.indexOf(x); if (i > -1) xs.splice(i, 1)`: the first
      occurrence of `x` is deleted and every other element keeps its order. */
  function RemoveFirst<T(==)>(xs: seq<T>, x: T): (r: seq<T>)
    ensures x !in xs ==> r == xs
    ensures x in xs ==> |r| == |xs| - 1 && multiset(r) == multiset(xs) - multiset{x}
    ensures x in xs ==> exists k :: 0 <= k < |xs| && xs[k] == x && x !in xs[..k] && r == xs[..k] + xs[k + 1..]
  {
    var i := IndexOf(xs, x);
    if i == -1 then xs
    else
      assert xs == xs[..i] + [x] + xs[i + 1..];
      xs[..i] + xs[i + 1..]
  }
}
