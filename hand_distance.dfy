/** The two-hand interaction system: it detects index-finger pointing,
    smooths the distance between the wrists, writes the right-hand beam
    descriptor and chooses the mode of the shared centre attractor by a
    priority chain (reset > levitate > singularity > centre). */
module HandDistance {
  import opened Common

  /** The `hand` tag of an attractor descriptor. */
  datatype HandTag = CenterHand | PointingHand | LeftHand

  /** The `mode` tag of an attractor descriptor. */
  datatype ModeTag = Attract | Beam | SingularityTag | LevitateTag | CenterTag

  /** The `data` object of an attractor; an absent key is `None`. */
  datatype AttractorData = AttractorData(hand: Option<HandTag>, mode: Option<ModeTag>, direction: Option<Vec3>)

  const NoData := AttractorData(None, None, None)

  datatype Attractor = Attractor(data: AttractorData, position: Vec3, strength: real, radius: real)

  /** The particle system found after the scene loads: absent, or one that
      either offers a smooth reset or only an instant one. */
  datatype ParticleLink = Unlinked | Linked(hasSmoothReset: bool)

  /** A reset request sent to the particle system. */
  datatype ResetCall = SmoothResetCall | InstantResetCall

  const PointingMargin := 0.03
  const PalmUpLevel := 0.6
  const ResetPalmLevel := 0.8
  const ResetCooldown := 2000.0
  const PushDistance := 0.15

  /** Index tip farther from the wrist than the middle tip by more than 3 cm. */
  predicate Pointing(wrist: Vec3, indexTip: Vec3, middleTip: Vec3, geo: Geometry) {
    geo.dist(indexTip, wrist) - geo.dist(middleTip, wrist) > PointingMargin
  }

  /** Palm normal of a hand: the unit cross product of the index and pinky
      proximal bones seen from the wrist, negated for the left hand. */
  function PalmNormal(isLeft: bool, wrist: Vec3, indexProximal: Vec3, pinky: Vec3, geo: Geometry): (n: Vec3)
    ensures var u := geo.unit(Cross(Sub(indexProximal, wrist), Sub(pinky, wrist)));
            n.y == (if isLeft then -u.y else u.y)
  {
    var u := geo.unit(Cross(Sub(indexProximal, wrist), Sub(pinky, wrist)));
    if isLeft then Neg(u) else u
  }

  /** The joints of one tracked hand read in an XR frame; the tips may be
      missing. */
  datatype HandSample = HandSample(wrist: Vec3, indexProximal: Vec3, pinky: Vec3,
                                   indexTip: Option<Vec3>, middleTip: Option<Vec3>)

  /** The pointing flag of a hand after one sample: recomputed when both
      tips have a pose, kept otherwise. */
  function SampledPointing(was: bool, s: HandSample, geo: Geometry): bool {
    if s.indexTip.Some? && s.middleTip.Some? then Pointing(s.wrist, s.indexTip.value, s.middleTip.value, geo)
    else was
  }

  /** The stored index tip of a hand after one sample: overwritten only by a
      sample that points. */
  function SampledTip(was: Vec3, s: HandSample, geo: Geometry): Vec3 {
    if s.indexTip.Some? && s.middleTip.Some? && Pointing(s.wrist, s.indexTip.value, s.middleTip.value, geo)
    then s.indexTip.value
    else was
  }

  /** What the priority chain of `calculatePhysics` reads. */
  datatype ModeInputs = ModeInputs(
    leftUp: real, rightUp: real,
    leftPinching: bool, rightPinching: bool,
    leftFist: bool, rightFist: bool,
    leftPointing: bool, smoothDistance: real)

  /** Both palms up and open: the reset gesture. */
  predicate ResetPose(f: ModeInputs) {
    f.leftUp > ResetPalmLevel && f.rightUp > ResetPalmLevel
    && !f.leftPinching && !f.rightPinching && !f.leftFist && !f.rightFist
  }

  /** The mode the chain settles on. */
  datatype Mode = ResetMode | Levitate | Singularity | Center(strength: real, radius: real)

  /** First match wins: reset, then levitate, then singularity, then the
      centre fallback with its pinch/push/pull strengths. */
  function Resolve(f: ModeInputs): (m: Mode)
    ensures m.ResetMode? <==> ResetPose(f)
    ensures m.Levitate? <==> !ResetPose(f) && f.leftUp > PalmUpLevel
    ensures m.Singularity? <==> !ResetPose(f) && f.leftUp <= PalmUpLevel && f.leftPointing
    ensures m.Center? && f.smoothDistance >= 0.0 ==> m.radius > 0.0
  {
    if ResetPose(f) then ResetMode
    else if f.leftUp > PalmUpLevel then Levitate
    else if f.leftPointing then Singularity
    else if f.leftPinching && f.rightPinching then Center(50.0, 8.0)
    else if f.smoothDistance < PushDistance then Center(-30.0, 2.0)
    else Center(10.0, 4.0 + f.smoothDistance * 2.0)
  }

  /** The centre fallback pulls hard when both hands pinch, pushes when the
      hands are closer than 15 cm, and otherwise pulls weakly with a radius
      that grows with the distance. */
  lemma CenterStrengths(f: ModeInputs)
    requires Resolve(f).Center?
    ensures var m := Resolve(f);
      (f.leftPinching && f.rightPinching ==> m.strength == 50.0 && m.radius == 8.0)
      && (m.strength < 0.0 <==> !(f.leftPinching && f.rightPinching) && f.smoothDistance < PushDistance)
      && (m.strength == 10.0 ==> m.radius == 4.0 + 2.0 * f.smoothDistance && m.radius >= 4.3)
      && (m.strength == 50.0 || m.strength == -30.0 || m.strength == 10.0)
    ensures !(f.leftPinching && f.rightPinching) && f.smoothDistance < PushDistance ==>
      Resolve(f) == Center(-30.0, 2.0)
    ensures !(f.leftPinching && f.rightPinching) && f.smoothDistance >= PushDistance ==>
      Resolve(f) == Center(10.0, 4.0 + 2.0 * f.smoothDistance)
  {
  }

  /** Without palm normals both up-dots are 0, so neither reset nor levitate
      can be chosen. */
  lemma NoNormalsNoResetOrLevitate(f: ModeInputs)
    requires f.leftUp == 0.0 && f.rightUp == 0.0
    ensures Resolve(f).Singularity? || Resolve(f).Center?
  {
  }

  /** Reset outranks everything, even a pointing left hand. */
  lemma ResetOutranksPointing(f: ModeInputs)
    requires ResetPose(f) && f.leftPointing
    ensures Resolve(f) == ResetMode
  {
  }

  /** The centre attractor after the chain, built from the one before it.
      Lines 316-323 already write the singularity when the left hand points,
      and the reset branch returns without undoing that. */
  function CenterAfter(c0: Attractor, centerPos: Vec3, leftPos: Vec3, leftIndexTip: Vec3, f: ModeInputs): (c: Attractor)
  {
    var c1 := c0.(position := centerPos);
    var c2 := if f.leftPointing then SingularityAt(c1, leftIndexTip) else c1;
    match Resolve(f)
    case ResetMode => c2
    case Levitate =>
      c2.(position := leftPos, data := AttractorData(Some(LeftHand), Some(LevitateTag), None),
          strength := 1.0, radius := 8.0)
    case Singularity => SingularityAt(c2, leftIndexTip)
    case Center(s, r) =>
      c2.(data := c2.data.(mode := Some(CenterTag)), position := centerPos, strength := s, radius := r)
  }

  function SingularityAt(c: Attractor, tip: Vec3): Attractor {
    c.(position := tip, strength := 80.0, radius := 8.0,
       data := AttractorData(Some(LeftHand), Some(SingularityTag), None))
  }

  /** What each mode leaves in the centre attractor. */
  lemma CenterAfterByMode(c0: Attractor, centerPos: Vec3, leftPos: Vec3, leftIndexTip: Vec3, f: ModeInputs)
    ensures var c := CenterAfter(c0, centerPos, leftPos, leftIndexTip, f);
      match Resolve(f)
      case ResetMode =>
        if f.leftPointing
        then c.position == leftIndexTip && c.strength == 80.0 && c.radius == 8.0
             && c.data.mode == Some(SingularityTag)
        else c == c0.(position := centerPos)
      case Levitate =>
        c.position == leftPos && c.strength == 1.0 && c.radius == 8.0
        && c.data == AttractorData(Some(LeftHand), Some(LevitateTag), None)
      case Singularity =>
        c.position == leftIndexTip && c.strength == 80.0 && c.radius == 8.0
        && c.data == AttractorData(Some(LeftHand), Some(SingularityTag), None)
      case Center(s, r) =>
        c.position == centerPos && c.strength == s && c.radius == r
        && c.data.mode == Some(CenterTag)
        && c.data.hand == (if f.leftPointing then Some(LeftHand) else c0.data.hand)
  {
  }

  /** The pointing attractor: a beam at the right index tip while the right
      hand points, otherwise switched off with empty data. */
  function PointingAfter(p0: Attractor, rightPointing: bool, rightPos: Vec3, rightIndexTip: Vec3, geo: Geometry): (p: Attractor)
    ensures rightPointing ==> p.position == rightIndexTip && p.strength == 50.0 && p.radius == 15.0
                              && p.data.mode == Some(Beam)
                              && p.data.direction == Some(geo.unit(Sub(rightIndexTip, rightPos)))
    ensures !rightPointing ==> p.strength == 0.0 && p.radius == 0.0 && p.data == NoData
                               && p.position == p0.position
  {
    if rightPointing then
      p0.(position := rightIndexTip,
          data := AttractorData(Some(PointingHand), Some(Beam), Some(geo.unit(Sub(rightIndexTip, rightPos)))),
          strength := 50.0, radius := 15.0)
    else
      p0.(strength := 0.0, radius := 0.0, data := NoData)
  }

  /** The up-dot of the left (or right) palm normal: its y component when
      both normals are given, 0 otherwise. */
  function UpDot(n1: Option<Vec3>, n2: Option<Vec3>, left: bool): (d: real)
    ensures !(n1.Some? && n2.Some?) ==> d == 0.0
  {
    if n1.Some? && n2.Some? then (if left then n1.value.y else n2.value.y) else 0.0
  }

  /** A reset request goes out when the chain picks reset and more than
      2000 ms have passed since the last one. */
  predicate ResetFires(f: ModeInputs, now: real, lastReset: real) {
    Resolve(f).ResetMode? && now - lastReset > ResetCooldown
  }

  /** The exponential moving average of the hand distance. */
  function Smoothed(smooth: real, distance: real): (r: real)
  {
    smooth * 0.9 + distance * 0.1
  }

  /** Each step keeps the average between its old value and the new
      distance, and closes 10% of the gap. */
  lemma SmoothedBetween(smooth: real, distance: real)
    ensures Between(Smoothed(smooth, distance), smooth, distance)
    ensures Abs(distance - Smoothed(smooth, distance)) == 0.9 * Abs(distance - smooth)
  {
    assert Smoothed(smooth, distance) == Approach(smooth, distance, 0.1);
    ApproachBetween(smooth, distance, 0.1);
  }

  /** The reference scenario: wrists 0.6 apart, palms down, no pinch, the
      average settled at 0.6, no pointing: a weak pull of strength 10 with
      radius 4 + 0.6·2 = 5.2, and the average stays at 0.6. */
  lemma SettledDistanceScenario(f: ModeInputs)
    requires f.leftUp < 0.0 && f.rightUp < 0.0
    requires !f.leftPinching && !f.rightPinching && !f.leftPointing
    requires f.smoothDistance == 0.6
    ensures Smoothed(f.smoothDistance, 0.6) == 0.6
    ensures Resolve(f) == Center(10.0, 5.2)
  {
  }

  /** The singularity scenario: left index tip 0.2 from the wrist, middle tip
      0.05 from it, palms down: pointing, and the centre attractor becomes a
      singularity of strength 80 and radius 8 at the tip. */
  lemma SingularityScenario(geo: Geometry, c0: Attractor, centerPos: Vec3, leftPos: Vec3, f: ModeInputs)
    requires geo.dist(Vec3(0.0, 1.0, 0.0), Vec3(0.0, 0.8, 0.0)) == 0.2
    requires geo.dist(Vec3(0.0, 0.85, 0.0), Vec3(0.0, 0.8, 0.0)) == 0.05
    requires f.leftUp < 0.0 && f.rightUp < 0.0
    requires f.leftPointing == Pointing(Vec3(0.0, 0.8, 0.0), Vec3(0.0, 1.0, 0.0), Vec3(0.0, 0.85, 0.0), geo)
    ensures f.leftPointing
    ensures var c := CenterAfter(c0, centerPos, leftPos, Vec3(0.0, 1.0, 0.0), f);
            c.position == Vec3(0.0, 1.0, 0.0) && c.strength == 80.0 && c.radius == 8.0
            && c.data.mode == Some(SingularityTag)
  {
    CenterAfterByMode(c0, centerPos, leftPos, Vec3(0.0, 1.0, 0.0), f);
  }

  /** A stored index tip moves only to the tip of a sample that points, and
      a hand that does not point after the sample keeps its stored tip. */
  lemma TipMovesOnlyWhilePointing(wasPointing: bool, wasTip: Vec3, s: HandSample, geo: Geometry)
    ensures SampledTip(wasTip, s, geo) != wasTip ==>
              SampledPointing(wasPointing, s, geo) && s.indexTip.Some? && SampledTip(wasTip, s, geo) == s.indexTip.value
    ensures !SampledPointing(wasPointing, s, geo) ==> SampledTip(wasTip, s, geo) == wasTip
  {
  }

  /** The hand-distance system's state. `resetCalls` records the reset
      requests sent to the particle system, oldest first. */
  class HandDistanceSystem {
    var leftPos: Vec3
    var rightPos: Vec3
    var centerPos: Vec3
    var distance: real
    var smoothDistance: real
    var leftPinching: bool
    var rightPinching: bool
    var leftFist: bool
    var rightFist: bool
    var leftPalmUp: bool
    var rightPalmUp: bool
    var rightIndexTip: Vec3
    var rightIndexDir: Vec3
    var isRightPointing: bool
    var leftIndexTip: Vec3
    var leftIndexDir: Vec3
    var isLeftPointing: bool
    var particles: ParticleLink
    var centerAttractor: Attractor
    var pointingAttractor: Attractor
    var resetTimer: real
    var resetCalls: seq<ResetCall>

    constructor ()
      ensures distance == 0.5 && smoothDistance == 0.5
      ensures !leftPinching && !rightPinching && !leftFist && !rightFist
      ensures !leftPalmUp && !rightPalmUp && !isLeftPointing && !isRightPointing
      ensures particles == Unlinked && resetTimer == 0.0 && resetCalls == []
      ensures centerPos == Origin
      ensures centerAttractor == Attractor(AttractorData(Some(CenterHand), None, None), Origin, 0.0, 0.0)
      ensures pointingAttractor == Attractor(AttractorData(Some(PointingHand), Some(Attract), None), Origin, 0.0, 0.0)
    {
      leftPos, rightPos, centerPos := Origin, Origin, Origin;
      distance, smoothDistance := 0.5, 0.5;
      leftPinching, rightPinching, leftFist, rightFist := false, false, false, false;
      leftPalmUp, rightPalmUp := false, false;
      rightIndexTip, rightIndexDir, isRightPointing := Origin, Origin, false;
      leftIndexTip, leftIndexDir, isLeftPointing := Origin, Origin, false;
      particles := Unlinked;
      centerAttractor := Attractor(AttractorData(Some(CenterHand), None, None), Origin, 0.0, 0.0);
      pointingAttractor := Attractor(AttractorData(Some(PointingHand), Some(Attract), None), Origin, 0.0, 0.0);
      resetTimer := 0.0;
      resetCalls := [];
    }

    /** The delayed lookup of the particle system after the scene loads:
        the GPU system is tried first and has no smooth reset; the CPU
        system is the fallback and has one; with neither found the link is
        left as it was. */
    method Connect(gpuFound: bool, cpuFound: bool)
      modifies this`particles
      ensures gpuFound ==> particles == Linked(false)
      ensures !gpuFound && cpuFound ==> particles == Linked(true)
      ensures !gpuFound && !cpuFound ==> particles == old(particles)
    {
      if gpuFound {
        particles := Linked(false);
      } else if cpuFound {
        particles := Linked(true);
      }
    }

    /** The pinch and fist listeners of one hand. */
    method SetHandFlags(isLeft: bool, pinching: bool, fist: bool)
      modifies this`leftPinching, this`leftFist, this`rightPinching, this`rightFist
      ensures isLeft ==> leftPinching == pinching && leftFist == fist
                         && rightPinching == old(rightPinching) && rightFist == old(rightFist)
      ensures !isLeft ==> rightPinching == pinching && rightFist == fist
                          && leftPinching == old(leftPinching) && leftFist == old(leftFist)
    {
      if isLeft {
        leftPinching, leftFist := pinching, fist;
      } else {
        rightPinching, rightFist := pinching, fist;
      }
    }

    /** Pointing detection for one tracked hand in `tick`: the wrist is
        always stored; with both tips present the pointing flag is
        recomputed, and the tip and direction are overwritten only while
        pointing. */
    method SampleHand(isLeft: bool, wrist: Vec3, indexTip: Option<Vec3>, middleTip: Option<Vec3>, geo: Geometry)
      modifies this`leftPos, this`rightPos, this`isLeftPointing, this`isRightPointing
      modifies this`leftIndexTip, this`leftIndexDir, this`rightIndexTip, this`rightIndexDir
      ensures isLeft ==> leftPos == wrist && rightPos == old(rightPos)
      ensures !isLeft ==> rightPos == wrist && leftPos == old(leftPos)
      ensures isLeft && indexTip.Some? && middleTip.Some? ==>
                isLeftPointing == Pointing(wrist, indexTip.value, middleTip.value, geo)
      ensures isLeft && isLeftPointing && indexTip.Some? && middleTip.Some? ==>
                leftIndexTip == indexTip.value && leftIndexDir == geo.unit(Sub(indexTip.value, wrist))
      ensures isLeft && !(isLeftPointing && indexTip.Some? && middleTip.Some?) ==>
                leftIndexTip == old(leftIndexTip) && leftIndexDir == old(leftIndexDir)
      ensures !isLeft && indexTip.Some? && middleTip.Some? ==>
                isRightPointing == Pointing(wrist, indexTip.value, middleTip.value, geo)
      ensures !isLeft && isRightPointing && indexTip.Some? && middleTip.Some? ==>
                rightIndexTip == indexTip.value && rightIndexDir == geo.unit(Sub(indexTip.value, wrist))
      ensures !isLeft && !(isRightPointing && indexTip.Some? && middleTip.Some?) ==>
                rightIndexTip == old(rightIndexTip) && rightIndexDir == old(rightIndexDir)
      ensures !(indexTip.Some? && middleTip.Some?) ==>
                isLeftPointing == old(isLeftPointing) && isRightPointing == old(isRightPointing)
      ensures isLeft ==> isRightPointing == old(isRightPointing) && rightIndexTip == old(rightIndexTip)
                         && rightIndexDir == old(rightIndexDir)
      ensures !isLeft ==> isLeftPointing == old(isLeftPointing) && leftIndexTip == old(leftIndexTip)
                          && leftIndexDir == old(leftIndexDir)
    {
      if isLeft {
        leftPos := wrist;
        if indexTip.Some? && middleTip.Some? {
          isLeftPointing := Pointing(wrist, indexTip.value, middleTip.value, geo);
          if isLeftPointing {
            leftIndexTip := indexTip.value;
            leftIndexDir := geo.unit(Sub(indexTip.value, wrist));
          }
        }
      } else {
        rightPos := wrist;
        if indexTip.Some? && middleTip.Some? {
          isRightPointing := Pointing(wrist, indexTip.value, middleTip.value, geo);
          if isRightPointing {
            rightIndexTip := indexTip.value;
            rightIndexDir := geo.unit(Sub(indexTip.value, wrist));
          }
        }
      }
    }

    /** `calculatePhysics`: nothing without a particle system; otherwise the
        moving average, the palm-up flags (only when both normals are
        given), the beam descriptor (always, before any early return), then
        the priority chain on the centre attractor and, for a reset pose
        past the 2000 ms cooldown, one reset request. The chain reads the
        average already updated by this call. `now` is the wall clock in
        milliseconds. */
    method CalculatePhysics(p1: Vec3, p2: Vec3, n1: Option<Vec3>, n2: Option<Vec3>, now: real, geo: Geometry)
      modifies this`distance, this`smoothDistance, this`leftPalmUp, this`rightPalmUp
      modifies this`pointingAttractor, this`centerAttractor, this`resetCalls, this`resetTimer
      ensures particles.Unlinked? ==>
                distance == old(distance) && smoothDistance == old(smoothDistance)
                && centerAttractor == old(centerAttractor) && pointingAttractor == old(pointingAttractor)
                && resetCalls == old(resetCalls) && resetTimer == old(resetTimer)
                && leftPalmUp == old(leftPalmUp) && rightPalmUp == old(rightPalmUp)
      ensures particles.Linked? ==> distance == geo.dist(p1, p2)
      ensures particles.Linked? ==> smoothDistance == Smoothed(old(smoothDistance), geo.dist(p1, p2))
      ensures particles.Linked? && n1.Some? && n2.Some? ==>
                leftPalmUp == (n1.value.y > PalmUpLevel) && rightPalmUp == (n2.value.y > PalmUpLevel)
      ensures !(n1.Some? && n2.Some?) ==> leftPalmUp == old(leftPalmUp) && rightPalmUp == old(rightPalmUp)
      ensures particles.Linked? ==>
                pointingAttractor == PointingAfter(old(pointingAttractor), isRightPointing, rightPos, rightIndexTip, geo)
      ensures var f := ModeInputs(UpDot(n1, n2, true), UpDot(n1, n2, false), leftPinching, rightPinching,
                                  leftFist, rightFist, isLeftPointing, smoothDistance);
              (particles.Linked? ==>
                 centerAttractor == CenterAfter(old(centerAttractor), centerPos, leftPos, leftIndexTip, f))
              && (particles.Linked? && ResetFires(f, now, old(resetTimer)) ==>
                    resetCalls == old(resetCalls) + [if particles.hasSmoothReset then SmoothResetCall else InstantResetCall]
                    && resetTimer == now)
              && (!(particles.Linked? && ResetFires(f, now, old(resetTimer))) ==>
                    resetCalls == old(resetCalls) && resetTimer == old(resetTimer))
    {
      if particles.Unlinked? {
        return;
      }
      distance := geo.dist(p1, p2);
      smoothDistance := Smoothed(smoothDistance, distance);
      SetPalmFlags(n1, n2);
      AimBeam(geo);
      ApplyModes(ModeInputs(UpDot(n1, n2, true), UpDot(n1, n2, false), leftPinching, rightPinching,
                            leftFist, rightFist, isLeftPointing, smoothDistance), now);
    }

    /** The palm statements of `calculatePhysics`: with both normals, each
        palm counts as up when its normal's y component exceeds 0.6;
        otherwise the flags keep their values. */
    method SetPalmFlags(n1: Option<Vec3>, n2: Option<Vec3>)
      modifies this`leftPalmUp, this`rightPalmUp
      ensures n1.Some? && n2.Some? ==>
                leftPalmUp == (n1.value.y > PalmUpLevel) && rightPalmUp == (n2.value.y > PalmUpLevel)
      ensures !(n1.Some? && n2.Some?) ==> leftPalmUp == old(leftPalmUp) && rightPalmUp == old(rightPalmUp)
    {
      if n1.Some? && n2.Some? {
        leftPalmUp := n1.value.y > PalmUpLevel;
        rightPalmUp := n2.value.y > PalmUpLevel;
      }
    }

    /** The beam statements of `calculatePhysics`: the pointing attractor
        becomes the beam of the right hand, or is switched off. */
    method AimBeam(geo: Geometry)
      modifies this`pointingAttractor
      ensures pointingAttractor == PointingAfter(old(pointingAttractor), isRightPointing, rightPos, rightIndexTip, geo)
    {
      pointingAttractor := PointingAfter(pointingAttractor, isRightPointing, rightPos, rightIndexTip, geo);
    }

    /** The mode statements of `calculatePhysics` with a linked particle
        system: the centre attractor goes through the priority chain and a
        reset pose past the cooldown sends one reset request. */
    method ApplyModes(f: ModeInputs, now: real)
      requires particles.Linked?
      modifies this`centerAttractor, this`resetCalls, this`resetTimer
      ensures centerAttractor == CenterAfter(old(centerAttractor), centerPos, leftPos, leftIndexTip, f)
      ensures ResetFires(f, now, old(resetTimer)) ==>
                resetCalls == old(resetCalls) + [if particles.hasSmoothReset then SmoothResetCall else InstantResetCall]
                && resetTimer == now
      ensures !ResetFires(f, now, old(resetTimer)) ==> resetCalls == old(resetCalls) && resetTimer == old(resetTimer)
    {
      var fires := ResetFires(f, now, resetTimer);
      centerAttractor := CenterAfter(centerAttractor, centerPos, leftPos, leftIndexTip, f);
      if fires {
        resetCalls := resetCalls + [if particles.hasSmoothReset then SmoothResetCall else InstantResetCall];
        resetTimer := now;
      }
    }

    /** One XR frame of `tick`: each tracked hand stores its wrist and
        updates its pointing state; only when both hands are tracked does
        `calculatePhysics` run, with both palm normals, and then the
        average, the palm flags, the beam, the centre attractor and the
        reset request all follow from the sampled state. */
    method Tick(left: Option<HandSample>, right: Option<HandSample>, now: real, geo: Geometry)
      modifies this`leftPos, this`rightPos, this`isLeftPointing, this`isRightPointing
      modifies this`leftIndexTip, this`leftIndexDir, this`rightIndexTip, this`rightIndexDir
      modifies this`distance, this`smoothDistance, this`leftPalmUp, this`rightPalmUp
      modifies this`pointingAttractor, this`centerAttractor, this`resetCalls, this`resetTimer
      ensures left.Some? ==>
                leftPos == left.value.wrist
                && isLeftPointing == SampledPointing(old(isLeftPointing), left.value, geo)
                && leftIndexTip == SampledTip(old(leftIndexTip), left.value, geo)
      ensures left.None? ==>
                leftPos == old(leftPos) && isLeftPointing == old(isLeftPointing) && leftIndexTip == old(leftIndexTip)
      ensures right.Some? ==>
                rightPos == right.value.wrist
                && isRightPointing == SampledPointing(old(isRightPointing), right.value, geo)
                && rightIndexTip == SampledTip(old(rightIndexTip), right.value, geo)
      ensures right.None? ==>
                rightPos == old(rightPos) && isRightPointing == old(isRightPointing) && rightIndexTip == old(rightIndexTip)
      ensures !(left.Some? && right.Some? && particles.Linked?) ==>
                distance == old(distance) && smoothDistance == old(smoothDistance)
                && leftPalmUp == old(leftPalmUp) && rightPalmUp == old(rightPalmUp)
                && centerAttractor == old(centerAttractor) && pointingAttractor == old(pointingAttractor)
                && resetCalls == old(resetCalls) && resetTimer == old(resetTimer)
      ensures left.Some? && right.Some? && particles.Linked? ==>
                var l, r := left.value, right.value;
                var up := Some(PalmNormal(true, l.wrist, l.indexProximal, l.pinky, geo));
                var rup := Some(PalmNormal(false, r.wrist, r.indexProximal, r.pinky, geo));
                var f := ModeInputs(UpDot(up, rup, true), UpDot(up, rup, false), leftPinching, rightPinching,
                                    leftFist, rightFist, isLeftPointing, smoothDistance);
                smoothDistance == Smoothed(old(smoothDistance), geo.dist(l.wrist, r.wrist))
                && distance == geo.dist(l.wrist, r.wrist)
                && leftPalmUp == (up.value.y > PalmUpLevel) && rightPalmUp == (rup.value.y > PalmUpLevel)
                && pointingAttractor == PointingAfter(old(pointingAttractor), isRightPointing, rightPos, rightIndexTip, geo)
                && centerAttractor == CenterAfter(old(centerAttractor), centerPos, leftPos, leftIndexTip, f)
                && (ResetFires(f, now, old(resetTimer)) ==>
                      resetCalls == old(resetCalls) + [if particles.hasSmoothReset then SmoothResetCall else InstantResetCall]
                      && resetTimer == now)
                && (!ResetFires(f, now, old(resetTimer)) ==> resetCalls == old(resetCalls) && resetTimer == old(resetTimer))
    {
      SampleHands(left, right, geo);
      if left.Some? && right.Some? {
        var l, r := left.value, right.value;
        var n1 := PalmNormal(true, l.wrist, l.indexProximal, l.pinky, geo);
        var n2 := PalmNormal(false, r.wrist, r.indexProximal, r.pinky, geo);
        CalculatePhysics(leftPos, rightPos, Some(n1), Some(n2), now, geo);
      }
    }

    /** The input-source loop of `tick`: each tracked hand stores its wrist
        and updates its pointing flag and index tip. */
    method SampleHands(left: Option<HandSample>, right: Option<HandSample>, geo: Geometry)
      modifies this`leftPos, this`rightPos, this`isLeftPointing, this`isRightPointing
      modifies this`leftIndexTip, this`leftIndexDir, this`rightIndexTip, this`rightIndexDir
      ensures left.Some? ==>
                leftPos == left.value.wrist
                && isLeftPointing == SampledPointing(old(isLeftPointing), left.value, geo)
                && leftIndexTip == SampledTip(old(leftIndexTip), left.value, geo)
      ensures left.None? ==>
                leftPos == old(leftPos) && isLeftPointing == old(isLeftPointing) && leftIndexTip == old(leftIndexTip)
      ensures right.Some? ==>
                rightPos == right.value.wrist
                && isRightPointing == SampledPointing(old(isRightPointing), right.value, geo)
                && rightIndexTip == SampledTip(old(rightIndexTip), right.value, geo)
      ensures right.None? ==>
                rightPos == old(rightPos) && isRightPointing == old(isRightPointing) && rightIndexTip == old(rightIndexTip)
    {
      if left.Some? {
        SampleHand(true, left.value.wrist, left.value.indexTip, left.value.middleTip, geo);
      }
      if right.Some? {
        SampleHand(false, right.value.wrist, right.value.indexTip, right.value.middleTip, geo);
      }
    }

    /** The desktop fallback of `tick` (no XR session): with both hand
        entities present their positions are copied and, if the left one is
        farther than sqrt(0.1) from the origin, `calculatePhysics` runs
        without palm normals. It can then never request a reset nor touch
        the palm-up flags. */
    method TickWithoutSession(handsFound: bool, leftWorld: Vec3, rightWorld: Vec3, now: real, geo: Geometry)
      modifies this`leftPos, this`rightPos
      modifies this`distance, this`smoothDistance, this`leftPalmUp, this`rightPalmUp
      modifies this`pointingAttractor, this`centerAttractor, this`resetCalls, this`resetTimer
      ensures handsFound ==> leftPos == leftWorld && rightPos == rightWorld
      ensures !handsFound ==> leftPos == old(leftPos) && rightPos == old(rightPos)
      ensures !(handsFound && particles.Linked? && Dot(leftWorld, leftWorld) > 0.1) ==>
                distance == old(distance) && smoothDistance == old(smoothDistance)
                && centerAttractor == old(centerAttractor) && pointingAttractor == old(pointingAttractor)
      ensures handsFound && particles.Linked? && Dot(leftWorld, leftWorld) > 0.1 ==>
                distance == geo.dist(leftWorld, rightWorld)
                && smoothDistance == Smoothed(old(smoothDistance), geo.dist(leftWorld, rightWorld))
                && pointingAttractor == PointingAfter(old(pointingAttractor), isRightPointing, rightWorld, rightIndexTip, geo)
                && centerAttractor == CenterAfter(old(centerAttractor), centerPos, leftWorld, leftIndexTip,
                     ModeInputs(0.0, 0.0, leftPinching, rightPinching, leftFist, rightFist, isLeftPointing, smoothDistance))
      ensures resetCalls == old(resetCalls) && resetTimer == old(resetTimer)
      ensures leftPalmUp == old(leftPalmUp) && rightPalmUp == old(rightPalmUp)
    {
      if handsFound {
        leftPos, rightPos := leftWorld, rightWorld;
        if Dot(leftPos, leftPos) > 0.1 {
          CalculatePhysics(leftPos, rightPos, None, None, now, geo);
        }
      }
    }
  }
}
