/** The `GravitySwirlGesture` component of the React version: a right-hand
    pinch ramps the orb's twist toward 1, releasing it lets the twist decay
    toward 0, and a twist that has nearly vanished snaps to exactly 0. */
module GravitySwirlGesture {
  import opened Common
  import opened XrInput

  const MaxTwist := 1.0
  const RampSpeed := 1.5
  const DecaySpeed := 3.0
  /** Thumb-index gap below which the right hand pinches. */
  const PinchDistance := 0.04
  /** A released twist closer to 0 than this is set to 0. */
  const SnapThreshold := 0.01

  /** The input-source scan, which stops at the first tracked right hand. */
  method FindRightHand(sources: seq<InputSource>) returns (right: Option<Hand>)
    ensures right == FirstHand(sources, RightHand)
  {
    right := None;
    var i := 0;
    while i < |sources|
      invariant 0 <= i <= |sources|
      invariant FirstHand(sources, RightHand) == FirstHand(sources[i..], RightHand)
    {
      var source := sources[i];
      if source.hand.Some? && source.handedness == RightHand {
        right := source.hand;
        return;
      }
      assert sources[i..][1..] == sources[i + 1..];
      i := i + 1;
    }
  }

  /** Whether the right hand pinches this frame. `sources` is `None` when
      the session, the XR frame or the reference space is missing; a hand
      whose tips have no pose does not pinch. */
  predicate RightPinching(sources: Option<seq<InputSource>>, geo: Geometry) {
    sources.Some? && var h := FirstHand(sources.value, RightHand);
    h.Some? && PinchedWithin(h.value, geo, PinchDistance)
  }

  /** The twist the frame aims for. */
  function TargetSwirl(pinching: bool): real {
    if pinching then MaxTwist else 0.0
  }

  /** One frame of the twist: move toward the target at the ramp speed
      while pinching and at the decay speed otherwise; after a release a
      twist closer to 0 than 0.01 becomes exactly 0. */
  function SwirlStep(current: real, pinching: bool, delta: real): (r: real)
    ensures pinching ==> r == Approach(current, MaxTwist, RampSpeed * delta)
    ensures !pinching && Abs(Approach(current, 0.0, DecaySpeed * delta)) < SnapThreshold ==> r == 0.0
    ensures !pinching && Abs(Approach(current, 0.0, DecaySpeed * delta)) >= SnapThreshold ==>
      r == Approach(current, 0.0, DecaySpeed * delta)
  {
    var speed := if pinching then RampSpeed else DecaySpeed;
    var next := current + (TargetSwirl(pinching) - current) * speed * delta;
    if Abs(next) < SnapThreshold && TargetSwirl(pinching) == 0.0 then 0.0 else next
  }

  /** A released twist is either exactly 0 or at least 0.01 away from it:
      it never lingers just above 0. */
  lemma ReleasedTwistSnaps(current: real, delta: real)
    ensures var r := SwirlStep(current, false, delta); r == 0.0 || Abs(r) >= SnapThreshold
  {
  }

  /** With frames short enough for the decay step (3·delta ≤ 1) the twist
      stays in [0, 1]; holding the pinch never lowers it and releasing
      never raises it. */
  lemma SwirlStaysInUnit(current: real, pinching: bool, delta: real)
    requires 0.0 <= DecaySpeed * delta <= 1.0 && 0.0 <= current <= MaxTwist
    ensures 0.0 <= SwirlStep(current, pinching, delta) <= MaxTwist
    ensures pinching ==> current <= SwirlStep(current, pinching, delta)
    ensures !pinching ==> SwirlStep(current, pinching, delta) <= current
  {
    if pinching {
      ApproachBetween(current, MaxTwist, RampSpeed * delta);
    } else {
      ApproachBetween(current, 0.0, DecaySpeed * delta);
    }
  }

  /** The twist after n released frames of equal length. */
  function Released(current: real, delta: real, n: nat): real {
    if n == 0 then current else SwirlStep(Released(current, delta, n - 1), false, delta)
  }

  /** Once the twist is 0, releasing keeps it at 0. */
  lemma {:induction false} ReleasedStaysZero(delta: real, n: nat)
    ensures Released(0.0, delta, n) == 0.0
  {
    if n > 0 {
      ReleasedStaysZero(delta, n - 1);
      assert Approach(0.0, 0.0, DecaySpeed * delta) == 0.0;
    }
  }

  /** A released twist starting in [0, 1] never grows and never leaves
      [0, 1] over any number of frames. */
  lemma {:induction false} ReleasedDecays(current: real, delta: real, n: nat)
    requires 0.0 <= DecaySpeed * delta <= 1.0 && 0.0 <= current <= MaxTwist
    ensures 0.0 <= Released(current, delta, n) <= current
  {
    if n > 0 {
      ReleasedDecays(current, delta, n - 1);
      SwirlStaysInUnit(Released(current, delta, n - 1), false, delta);
    }
  }

  class GravitySwirl {
    var targetSwirl: real
    var currentSwirl: real
    /** The twists passed to `setSwirl`, oldest first. */
    var swirlCalls: seq<real>

    /** Both twists start at 0. */
    constructor ()
      ensures targetSwirl == 0.0 && currentSwirl == 0.0 && swirlCalls == []
    {
      targetSwirl := 0.0;
      currentSwirl := 0.0;
      swirlCalls := [];
    }

    /** The frame callback. `canSetSwirl` says whether the sphere exposes
        `setSwirl`; without it nothing happens. Missing XR data only means
        "not pinching": the twist still decays. */
    method Frame(canSetSwirl: bool, sources: Option<seq<InputSource>>, geo: Geometry, delta: real)
      modifies this
      ensures !canSetSwirl ==>
        targetSwirl == old(targetSwirl) && currentSwirl == old(currentSwirl) && swirlCalls == old(swirlCalls)
      ensures canSetSwirl ==>
        targetSwirl == TargetSwirl(RightPinching(sources, geo))
        && currentSwirl == SwirlStep(old(currentSwirl), RightPinching(sources, geo), delta)
        && swirlCalls == old(swirlCalls) + [currentSwirl]
    {
      if !canSetSwirl {
        return;
      }
      var isRightPinching := false;
      if sources.Some? {
        var right := FindRightHand(sources.value);
        if right.Some? {
          var gap := TipGap(right.value, geo);
          if gap.Some? && gap.value < PinchDistance {
            isRightPinching := true;
          }
        }
      }
      targetSwirl := if isRightPinching then MaxTwist else 0.0;
      var diff := targetSwirl - currentSwirl;
      var speed := if isRightPinching then RampSpeed else DecaySpeed;
      currentSwirl := currentSwirl + diff * speed * delta;
      if Abs(currentSwirl) < SnapThreshold && targetSwirl == 0.0 {
        currentSwirl := 0.0;
      }
      swirlCalls := swirlCalls + [currentSwirl];
    }
  }
}
