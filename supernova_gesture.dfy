/** The `SupernovaGesture` component of the React version: with both hands
    tracked, aligned and either facing each other or both pinching, the
    distance between the wrists sets a target radius for the pulse orb;
    the orb's radius follows the target smoothly and is clamped to
    [1, 7]. */
module SupernovaGesture {
  import opened Common
  import opened XrInput

  const DefaultRadius := 1.5
  const MinRadius := 1.0
  const MaxRadius := 8.0
  const MinHandDistance := 0.05
  const MaxHandDistance := 0.45
  /** Thumb-index gap below which a hand pinches. */
  const PinchDistance := 0.025
  /** Smallest cosine between palm normal and direction to the other hand. */
  const FacingCosine := 0.5
  /** Largest vertical and depth offset of two aligned wrists. */
  const AlignLimit := 0.6
  const SmoothSpeed := 3.0
  /** The sanity clamp applied to the smoothed radius. */
  const ClampLow := 1.0
  const ClampHigh := 7.0

  /** The input-source scan: every tracked hand overwrites the one found
      before it, so each side ends with its last tracked source. */
  method FindHands(sources: seq<InputSource>) returns (left: Option<Hand>, right: Option<Hand>)
    ensures left == LastHand(sources, LeftHand) && right == LastHand(sources, RightHand)
  {
    left, right := None, None;
    var i := 0;
    while i < |sources|
      invariant 0 <= i <= |sources|
      invariant left == LastHand(sources[..i], LeftHand)
      invariant right == LastHand(sources[..i], RightHand)
    {
      assert sources[..i + 1][..i] == sources[..i];
      var source := sources[i];
      if source.hand.Some? {
        if source.handedness == LeftHand {
          left := source.hand;
        }
        if source.handedness == RightHand {
          right := source.hand;
        }
      }
      i := i + 1;
    }
    assert sources[..i] == sources;
  }

  /** `checkPinch`: both tips known and closer than 2.5 cm. */
  predicate Pinching(h: Hand, geo: Geometry) {
    PinchedWithin(h, geo, PinchDistance)
  }

  /** The palm normal from the wrist-to-index and wrist-to-pinky metacarpal
      vectors; the right hand (`isRedHand`) takes the cross product in the
      opposite order from the left. */
  function PalmNormal(isRedHand: bool, wrist: Vec3, indexMeta: Vec3, pinkyMeta: Vec3): (n: Vec3)
    ensures var v1, v2 := Sub(indexMeta, wrist), Sub(pinkyMeta, wrist);
      n == if isRedHand then Cross(v1, v2) else Neg(Cross(v1, v2))
  {
    var v1, v2 := Sub(indexMeta, wrist), Sub(pinkyMeta, wrist);
    if isRedHand then Cross(v1, v2) else Cross(v2, v1)
  }

  /** `checkPalmFacing`: wrist and both metacarpals known, and the unit palm
      normal makes an angle under 60 degrees with the unit direction to the
      other hand. */
  predicate PalmFacing(isRedHand: bool, h: Hand, other: Vec3, geo: Geometry) {
    h.wrist.Some? && h.indexMetacarpal.Some? && h.pinkyMetacarpal.Some?
    && var w := h.wrist.value;
       var n := geo.unit(PalmNormal(isRedHand, w, h.indexMetacarpal.value, h.pinkyMetacarpal.value));
       Dot(n, geo.unit(Sub(other, w))) > FacingCosine
  }

  predicate Aligned(l: Vec3, r: Vec3) {
    Abs(l.y - r.y) < AlignLimit && Abs(l.z - r.z) < AlignLimit
  }

  /** Both hands tracked with known wrists. */
  predicate Detected(left: Option<Hand>, right: Option<Hand>) {
    left.Some? && right.Some? && left.value.wrist.Some? && right.value.wrist.Some?
  }

  /** The activation rule: aligned wrists and either facing palms or a
      pinch on both hands. */
  predicate Active(l: Hand, r: Hand, geo: Geometry)
    requires l.wrist.Some? && r.wrist.Some?
  {
    var lp, rp := l.wrist.value, r.wrist.value;
    Aligned(lp, rp)
    && ((PalmFacing(false, l, rp, geo) && PalmFacing(true, r, lp, geo)) || (Pinching(l, geo) && Pinching(r, geo)))
  }

  /** The hand distance mapped to [0, 1] over 5 cm to 45 cm. */
  function Spread(d: real): (n: real)
    ensures 0.0 <= n <= 1.0
    ensures d <= MinHandDistance ==> n == 0.0
    ensures d >= MaxHandDistance ==> n == 1.0
    ensures MinHandDistance <= d <= MaxHandDistance ==> n * (MaxHandDistance - MinHandDistance) == d - MinHandDistance
  {
    Clamp((d - MinHandDistance) / (MaxHandDistance - MinHandDistance), 0.0, 1.0)
  }

  lemma SpreadMonotone(d1: real, d2: real)
    requires d1 <= d2
    ensures Spread(d1) <= Spread(d2)
  {
    assert (d1 - MinHandDistance) / 0.4 <= (d2 - MinHandDistance) / 0.4;
  }

  /** The intensity curve `Math.pow(n, 1.5)` maps [0, 1] into [0, 1]. */
  ghost predicate CurveInUnit(pow: real -> real) {
    forall x :: 0.0 <= x <= 1.0 ==> 0.0 <= pow(x) <= 1.0
  }

  ghost predicate CurveMonotone(pow: real -> real) {
    forall x, y :: 0.0 <= x <= y <= 1.0 ==> pow(x) <= pow(y)
  }

  /** The radius an active gesture asks for at hand distance d. */
  function SpreadRadius(d: real, pow: real -> real): (r: real)
    requires CurveInUnit(pow)
    ensures MinRadius <= r <= MaxRadius
  {
    MinRadius + pow(Spread(d)) * (MaxRadius - MinRadius)
  }

  /** Hands together give the compressed radius 1 and hands 45 cm or more
      apart give the full radius 8; in between, wider hands never give a
      smaller radius. */
  lemma SpreadRadiusShape(d1: real, d2: real, pow: real -> real)
    requires CurveInUnit(pow) && CurveMonotone(pow) && pow(0.0) == 0.0 && pow(1.0) == 1.0
    ensures d1 <= MinHandDistance ==> SpreadRadius(d1, pow) == MinRadius
    ensures d1 >= MaxHandDistance ==> SpreadRadius(d1, pow) == MaxRadius
    ensures d1 <= d2 ==> SpreadRadius(d1, pow) <= SpreadRadius(d2, pow)
  {
    if d1 <= d2 {
      SpreadMonotone(d1, d2);
      assert pow(Spread(d1)) <= pow(Spread(d2));
    }
  }

  /** The target radius of one frame: the spread radius while the gesture
      is active, the default 1.5 otherwise (including when a hand or a
      wrist is missing). */
  function TargetRadius(left: Option<Hand>, right: Option<Hand>, geo: Geometry, pow: real -> real): (t: real)
    requires CurveInUnit(pow)
    ensures MinRadius <= t <= MaxRadius
    ensures !Detected(left, right) ==> t == DefaultRadius
    ensures Detected(left, right) && !Active(left.value, right.value, geo) ==> t == DefaultRadius
    ensures Detected(left, right) && Active(left.value, right.value, geo) ==>
      t == SpreadRadius(geo.dist(left.value.wrist.value, right.value.wrist.value), pow)
  {
    if Detected(left, right) && Active(left.value, right.value, geo) then
      SpreadRadius(geo.dist(left.value.wrist.value, right.value.wrist.value), pow)
    else DefaultRadius
  }

  /** One smoothing step with frame time `delta` (seconds), then the
      sanity clamp. */
  function Smooth(current: real, target: real, delta: real): (r: real)
    ensures ClampLow <= r <= ClampHigh
    ensures ClampLow <= Approach(current, target, SmoothSpeed * delta) <= ClampHigh ==>
      r == Approach(current, target, SmoothSpeed * delta)
  {
    Clamp(current + (target - current) * SmoothSpeed * delta, ClampLow, ClampHigh)
  }

  /** With a frame short enough (3·delta ≤ 1) the radius moves toward the
      target without overshooting, and the gap to a target inside the
      clamp shrinks by the factor 1 - 3·delta. A target above 7 (a spread
      near the maximum) is never reached: the radius stops at 7. */
  lemma SmoothTowardTarget(current: real, target: real, delta: real)
    requires 0.0 <= SmoothSpeed * delta <= 1.0
    requires ClampLow <= current <= ClampHigh && ClampLow <= target <= MaxRadius
    ensures Between(Smooth(current, target, delta), current, Min(target, ClampHigh))
    ensures target <= ClampHigh ==>
      Abs(target - Smooth(current, target, delta)) == (1.0 - SmoothSpeed * delta) * Abs(target - current)
  {
    var k := SmoothSpeed * delta;
    ApproachBetween(current, target, k);
    assert current + (target - current) * SmoothSpeed * delta == Approach(current, target, k);
  }

  /** The smoothing statements of the frame callback: step toward the
      target, then clamp from below and from above. */
  method SmoothStep(current: real, target: real, delta: real) returns (r: real)
    ensures r == Smooth(current, target, delta)
  {
    var diff := target - current;
    r := current + diff * SmoothSpeed * delta;
    if r < ClampLow {
      r := ClampLow;
    }
    if r > ClampHigh {
      r := ClampHigh;
    }
  }

  class Supernova {
    var targetRadius: real
    var currentRadius: real
    /** The radii passed to `setSphereRadius`, oldest first. */
    var radiusCalls: seq<real>

    ghost predicate Valid()
      reads this
    {
      ClampLow <= currentRadius <= ClampHigh && MinRadius <= targetRadius <= MaxRadius
    }

    /** Both radii start at the default 1.5. */
    constructor ()
      ensures Valid() && targetRadius == DefaultRadius && currentRadius == DefaultRadius && radiusCalls == []
    {
      targetRadius := DefaultRadius;
      currentRadius := DefaultRadius;
      radiusCalls := [];
    }

    /** The frame callback. `canSetRadius` says whether the sphere exposes
        `setSphereRadius`; `sources` is `None` when the XR frame or the
        reference space is unavailable, otherwise the session's input
        sources. Either lack stops the frame before any update. */
    method Frame(canSetRadius: bool, sources: Option<seq<InputSource>>, geo: Geometry,
                 pow: real -> real, delta: real)
      requires Valid() && CurveInUnit(pow)
      modifies this
      ensures Valid()
      ensures !canSetRadius || sources.None? ==>
        targetRadius == old(targetRadius) && currentRadius == old(currentRadius) && radiusCalls == old(radiusCalls)
      ensures canSetRadius && sources.Some? ==>
        targetRadius == TargetRadius(LastHand(sources.value, LeftHand), LastHand(sources.value, RightHand), geo, pow)
        && currentRadius == Smooth(old(currentRadius), targetRadius, delta)
        && radiusCalls == old(radiusCalls) + [currentRadius]
    {
      if !canSetRadius || sources.None? {
        return;
      }
      var left, right := FindHands(sources.value);
      var target := TargetRadius(left, right, geo, pow);
      targetRadius := target;
      currentRadius := SmoothStep(currentRadius, target, delta);
      radiusCalls := radiusCalls + [currentRadius];
    }
  }
}
