/** The control state of the GPU particle simulation: the uniforms the
    component writes each frame from the hand system and the audio analyser
    (hand states, orb sizes, dual-pinch flag, reset factor, audio level),
    the pinch clocks behind the dual-pinch window, the ping-pong swap of the
    two position buffers, and the texel-centre coordinates given to each
    particle. The shader programs themselves are not part of the model. */
module GpuParticles {
  import opened Common

  /** What `tick` reads from the hand-distance system. */
  datatype HandView = HandView(
    leftPos: Vec3, rightPos: Vec3, leftIndexTip: Vec3, rightIndexTip: Vec3, rightIndexDir: Vec3,
    leftFist: bool, isLeftPointing: bool, leftPinching: bool, leftPalmUp: bool,
    rightFist: bool, rightPinching: bool, isRightPointing: bool)

  /** The bands read from the audio analyser; `None` when they are missing
      or the bass band is not a number. */
  datatype AudioView = AudioView(bands: Option<Bands>, isBeat: bool)

  const SyncWindow := 500.0

  /** Left hand: freeze (3) > singularity (2) > vortex (4) > levitate (1) > none (0). */
  function LeftState(h: HandView): (s: int)
    ensures 0 <= s <= 4
    ensures s == 3 <==> h.leftFist
    ensures s == 2 <==> !h.leftFist && h.isLeftPointing
    ensures s == 4 <==> !h.leftFist && !h.isLeftPointing && h.leftPinching
    ensures s == 1 <==> !h.leftFist && !h.isLeftPointing && !h.leftPinching && h.leftPalmUp
  {
    if h.leftFist then 3
    else if h.isLeftPointing then 2
    else if h.leftPinching then 4
    else if h.leftPalmUp then 1
    else 0
  }

  /** Right hand: freeze (3) > orb (2) > beam (1) > none (0). */
  function RightState(h: HandView): (s: int)
    ensures 0 <= s <= 3
    ensures s == 3 <==> h.rightFist
    ensures s == 2 <==> !h.rightFist && h.rightPinching
    ensures s == 1 <==> !h.rightFist && !h.rightPinching && h.isRightPointing
  {
    if h.rightFist then 3
    else if h.rightPinching then 2
    else if h.isRightPointing then 1
    else 0
  }

  /** The orb grows by 1.5 per second up to 1 only while the right hand
      pinches (and is not a fist); otherwise it shrinks by 15% per frame. */
  function RightOrb(orb: real, h: HandView, dt: real): (r: real)
    requires 0.0 <= orb <= 1.0 && dt >= 0.0
    ensures 0.0 <= r <= 1.0
    ensures RightState(h) == 2 ==> orb <= r && r == Min(orb + dt * 1.5, 1.0)
    ensures RightState(h) != 2 ==> r == orb * 0.85 && r <= orb
  {
    if RightState(h) == 2 then Min(orb + dt * 1.5, 1.0) else orb * 0.85
  }

  /** A pinch start time moves to `now` only on a rising edge. */
  function NextStart(start: real, pinching: bool, wasPinching: bool, now: real): (r: real)
    ensures r != start ==> pinching && !wasPinching && r == now
    ensures pinching && !wasPinching ==> r == now
  {
    if pinching && !wasPinching then now else start
  }

  /** Twin-orb mode: both hands pinch and their pinches started less than
      500 ms apart. */
  predicate DualActive(leftPinching: bool, rightPinching: bool, leftStart: real, rightStart: real) {
    leftPinching && rightPinching && Abs(leftStart - rightStart) < SyncWindow
  }

  /** A left pinch begun at 0 ms and a right pinch begun at 400 ms are in
      sync; a right pinch begun at 600 ms is not. The start times come from
      the rising edges seen frame by frame. */
  lemma DualPinchWindow(leftStart: real)
    requires leftStart == NextStart(0.0, true, false, 0.0)
    ensures var right400 := NextStart(0.0, true, false, 400.0);
            DualActive(true, true, NextStart(leftStart, true, true, 400.0), right400)
    ensures var right600 := NextStart(0.0, true, false, 600.0);
            !DualActive(true, true, NextStart(leftStart, true, true, 600.0), right600)
  {
  }

  /** The uniforms and clocks the hand section of `tick` writes. */
  datatype HandUniforms = HandUniforms(
    leftHandPos: Vec3, rightHandPos: Vec3, leftIndexPos: Vec3, rightIndexPos: Vec3, rightIndexDir: Vec3,
    leftHandState: int, rightHandState: int, orbSize: real, leftOrbSize: real, dualPinch: int,
    leftStart: real, rightStart: real, wasLeft: bool, wasRight: bool)

  /** The ranges the hand uniforms keep between frames. */
  predicate HandUniformsInRange(u: HandUniforms) {
    0.0 <= u.orbSize <= 1.0 && 0.0 <= u.leftOrbSize <= 0.8
    && 0 <= u.leftHandState <= 4 && 0 <= u.rightHandState <= 3 && 0 <= u.dualPinch <= 1
  }

  /** One frame of the hand section: copy the hand positions, pick both
      hand states and ramp the right orb, move the pinch clocks on rising
      edges, then let a synchronised pinch of both hands override the hand
      states and grow both orbs (otherwise the left orb decays by 10%). */
  function NextHandUniforms(u: HandUniforms, h: HandView, now: real, dt: real): (v: HandUniforms)
    requires HandUniformsInRange(u) && dt >= 0.0
    ensures HandUniformsInRange(v)
    ensures v.leftHandPos == h.leftPos && v.rightHandPos == h.rightPos
    ensures v.leftIndexPos == h.leftIndexTip && v.rightIndexPos == h.rightIndexTip && v.rightIndexDir == h.rightIndexDir
    ensures v.leftStart == NextStart(u.leftStart, h.leftPinching, u.wasLeft, now)
    ensures v.rightStart == NextStart(u.rightStart, h.rightPinching, u.wasRight, now)
    ensures v.wasLeft == h.leftPinching && v.wasRight == h.rightPinching
    ensures var orb := RightOrb(u.orbSize, h, dt);
            if DualActive(h.leftPinching, h.rightPinching, v.leftStart, v.rightStart)
            then v.dualPinch == 1 && v.leftHandState == 0 && v.rightHandState == 0
                 && v.orbSize == Min(orb + dt, 0.8) && v.leftOrbSize == Min(u.leftOrbSize + dt, 0.8)
            else v.dualPinch == 0 && v.leftHandState == LeftState(h) && v.rightHandState == RightState(h)
                 && v.orbSize == orb && v.leftOrbSize == u.leftOrbSize * 0.9
  {
    var ls := if h.leftPinching && !u.wasLeft then now else u.leftStart;
    var rs := if h.rightPinching && !u.wasRight then now else u.rightStart;
    var orb := if h.rightFist || !h.rightPinching then u.orbSize * 0.85 else Min(u.orbSize + dt * 1.5, 1.0);
    if h.leftPinching && h.rightPinching && Abs(ls - rs) < SyncWindow then
      HandUniforms(h.leftPos, h.rightPos, h.leftIndexTip, h.rightIndexTip, h.rightIndexDir,
                   0, 0, Min(orb + dt * 1.0, 0.8), Min(u.leftOrbSize + dt * 1.0, 0.8), 1,
                   ls, rs, h.leftPinching, h.rightPinching)
    else
      HandUniforms(h.leftPos, h.rightPos, h.leftIndexTip, h.rightIndexTip, h.rightIndexDir,
                   LeftState(h), RightState(h), orb, u.leftOrbSize * 0.9, 0,
                   ls, rs, h.leftPinching, h.rightPinching)
  }

  /** The audio level: the mean of the three bands clamped to [0, 1] and
      halved; 0 without an analyser or with malformed bands. */
  function AudioLevel(audio: Option<AudioView>): (r: real)
    ensures 0.0 <= r <= 0.5
    ensures audio.None? || audio.value.bands.None? ==> r == 0.0
    ensures audio.Some? && audio.value.bands.Some? ==>
              var b := audio.value.bands.value;
              r == Clamp((b.bass + b.mid + b.high) / 3.0, 0.0, 1.0) * 0.5
  {
    if audio.Some? && audio.value.bands.Some? then
      var b := audio.value.bands.value;
      Min(Max((b.bass + b.mid + b.high) / 3.0, 0.0), 1.0) * 0.5
    else 0.0
  }

  /** The reset ramp: the factor is twice the time since `reset`, capped at 1. */
  function RampFactor(resetTime: real): (r: real)
    requires resetTime >= 0.0
    ensures 0.0 <= r <= 1.0
    ensures resetTime >= 0.5 ==> r == 1.0
    ensures resetTime < 0.5 ==> r == 2.0 * resetTime
  {
    Min(resetTime * 2.0, 1.0)
  }

  /** The ramp never goes down while time runs forward. */
  lemma RampMonotone(t1: real, t2: real)
    requires 0.0 <= t1 <= t2
    ensures RampFactor(t1) <= RampFactor(t2)
  {
  }

  /** The uniforms and clock the reset and audio sections of `tick` write. */
  datatype ReactUniforms = ReactUniforms(
    isResetting: bool, resetTime: real, resetFactor: real, audioLevel: real, audioBands: Bands)

  /** One frame of the reset and audio sections: advance the reset ramp
      (stopping after two seconds) or let the factor decay by 5%, take the
      audio level and bands, and let a beat drop the factor to 0.1. */
  function NextReactUniforms(u: ReactUniforms, dt: real, audio: Option<AudioView>): (v: ReactUniforms)
    requires u.resetTime >= 0.0 && 0.0 <= u.resetFactor <= 1.0 && dt >= 0.0
    ensures v.resetTime >= 0.0 && 0.0 <= v.resetFactor <= 1.0 && 0.0 <= v.audioLevel <= 0.5
    ensures u.isResetting ==> v.resetTime == u.resetTime + dt && v.isResetting == (v.resetTime <= 2.0)
    ensures !u.isResetting ==> v.resetTime == u.resetTime && !v.isResetting
    ensures audio.Some? && audio.value.isBeat ==> v.resetFactor == 0.1
    ensures !(audio.Some? && audio.value.isBeat) ==>
              v.resetFactor == (if u.isResetting then RampFactor(v.resetTime) else u.resetFactor * 0.95)
    ensures v.audioLevel == AudioLevel(audio)
    ensures audio.Some? && audio.value.bands.Some? ==> v.audioBands == audio.value.bands.value
    ensures !(audio.Some? && audio.value.bands.Some?) ==> v.audioBands == u.audioBands
  {
    var t := if u.isResetting then u.resetTime + dt else u.resetTime;
    var f := if u.isResetting then Min(t * 2.0, 1.0) else u.resetFactor * 0.95;
    ReactUniforms(
      u.isResetting && t <= 2.0, t,
      if audio.Some? && audio.value.isBeat then 0.1 else f,
      AudioLevel(audio),
      if audio.Some? && audio.value.bands.Some? then audio.value.bands.value else u.audioBands)
  }

  /** The horizontal texel coordinate of particle `i`. */
  function TexelU(i: nat, size: nat): real
    requires size > 0
  {
    ((i % size) as real + 0.5) / size as real
  }

  /** The vertical texel coordinate of particle `i`. */
  function TexelV(i: nat, size: nat): real
    requires size > 0
  {
    ((i / size) as real + 0.5) / size as real
  }

  lemma CenterInside(k: nat, size: nat)
    requires k < size
    ensures 0.0 < (k as real + 0.5) / size as real < 1.0
  {
    var s := size as real;
    var a := k as real + 0.5;
    assert s - a > 0.0;
    assert (s - a) / s > 0.0;
    assert s / s == 1.0;
    assert (s - a) / s == s / s - a / s;
  }

  lemma CentersDiffer(a: nat, b: nat, size: nat)
    requires size > 0 && a != b
    ensures (a as real + 0.5) / size as real != (b as real + 0.5) / size as real
  {
    var s := size as real;
    var x := (a as real + 0.5) / s;
    var y := (b as real + 0.5) / s;
    assert x * s == a as real + 0.5;
    assert y * s == b as real + 0.5;
    assert x * s != y * s;
  }

  /** The row index of a particle is below the texture height. */
  lemma RowBelow(i: nat, size: nat)
    requires size > 0 && i < size * size
    ensures i / size < size
  {
    var q := i / size;
    assert q * size <= i;
    assert (size - q) * size > 0;
  }

  /** Every particle of a size×size texture samples a texel centre strictly
      inside the unit square. */
  lemma {:induction false} TexelInside(i: nat, size: nat)
    requires size > 0 && i < size * size
    ensures 0.0 < TexelU(i, size) < 1.0 && 0.0 < TexelV(i, size) < 1.0
  {
    CenterInside(i % size, size);
    RowBelow(i, size);
    CenterInside(i / size, size);
  }

  /** Distinct particles sample distinct texels. */
  lemma {:induction false} TexelInjective(i: nat, j: nat, size: nat)
    requires size > 0 && i != j
    ensures TexelU(i, size) != TexelU(j, size) || TexelV(i, size) != TexelV(j, size)
  {
    if i % size == j % size {
      assert i / size != j / size by {
        assert i == (i / size) * size + i % size;
        assert j == (j / size) * size + j % size;
      }
      CentersDiffer(i / size, j / size, size);
    } else {
      CentersDiffer(i % size, j % size, size);
    }
  }

  /** `initParticles`: the position attribute holds, for each particle, the
      texel centre it reads its simulated position from, and 0 as depth. */
  method FillTexelCoordinates(uvs: array<real>, size: nat)
    requires size > 0 && uvs.Length == 3 * (size * size)
    modifies uvs
    ensures forall i :: 0 <= i < size * size ==>
              uvs[3 * i] == TexelU(i, size) && uvs[3 * i + 1] == TexelV(i, size) && uvs[3 * i + 2] == 0.0
  {
    var n := size * size;
    var i := 0;
    while i < n
      invariant 0 <= i <= n
      invariant forall k :: 0 <= k < i ==>
                  uvs[3 * k] == TexelU(k, size) && uvs[3 * k + 1] == TexelV(k, size) && uvs[3 * k + 2] == 0.0
    {
      uvs[3 * i] := ((i % size) as real + 0.5) / size as real;
      uvs[3 * i + 1] := ((i / size) as real + 0.5) / size as real;
      uvs[3 * i + 2] := 0.0;
      i := i + 1;
    }
  }

  /** A render target of the ping-pong pair. */
  datatype Target = Fbo1Target | Fbo2Target

  class GpuParticleSystem {
    var leftHandPos: Vec3
    var rightHandPos: Vec3
    var leftIndexPos: Vec3
    var rightIndexPos: Vec3
    var rightIndexDir: Vec3
    var leftHandState: int
    var rightHandState: int
    var orbSize: real
    var leftOrbSize: real
    var dualPinch: int
    var leftPinchStartTime: real
    var rightPinchStartTime: real
    var wasLeftPinching: bool
    var wasRightPinching: bool
    var isResetting: bool
    var resetTime: real
    var resetFactor: real
    var audioLevel: real
    var audioBands: Bands
    /** The buffer the next step reads (`fbo1`) and the one it writes (`fbo2`). */
    var fbo1: Target
    var fbo2: Target
    /** The buffer the simulation last read and the one the points render. */
    var simInput: Target
    var renderInput: Target

    /** The ranges the uniforms keep between frames. */
    ghost predicate Valid()
      reads this`orbSize, this`leftOrbSize, this`leftHandState, this`rightHandState, this`dualPinch
      reads this`resetFactor, this`audioLevel, this`resetTime, this`fbo1, this`fbo2
    {
      0.0 <= orbSize <= 1.0 && 0.0 <= leftOrbSize <= 0.8
      && 0 <= leftHandState <= 4 && 0 <= rightHandState <= 3 && 0 <= dualPinch <= 1
      && 0.0 <= resetFactor <= 1.0 && 0.0 <= audioLevel <= 0.5 && resetTime >= 0.0 && fbo1 != fbo2
    }

    /** The fields the hand section of `tick` writes. */
    function Hands(): HandUniforms
      reads this`leftHandPos, this`rightHandPos, this`leftIndexPos, this`rightIndexPos, this`rightIndexDir
      reads this`leftHandState, this`rightHandState, this`orbSize, this`leftOrbSize, this`dualPinch
      reads this`leftPinchStartTime, this`rightPinchStartTime, this`wasLeftPinching, this`wasRightPinching
    {
      HandUniforms(leftHandPos, rightHandPos, leftIndexPos, rightIndexPos, rightIndexDir,
                   leftHandState, rightHandState, orbSize, leftOrbSize, dualPinch,
                   leftPinchStartTime, rightPinchStartTime, wasLeftPinching, wasRightPinching)
    }

    /** The fields the reset and audio sections of `tick` write. */
    function React(): ReactUniforms
      reads this`isResetting, this`resetTime, this`resetFactor, this`audioLevel, this`audioBands
    {
      ReactUniforms(isResetting, resetTime, resetFactor, audioLevel, audioBands)
    }

    constructor ()
      ensures Valid()
      ensures orbSize == 0.0 && leftOrbSize == 0.0 && resetFactor == 0.0 && audioLevel == 0.0
      ensures leftPinchStartTime == 0.0 && rightPinchStartTime == 0.0
      ensures !wasLeftPinching && !wasRightPinching && !isResetting
      ensures fbo1 == Fbo1Target && fbo2 == Fbo2Target
    {
      leftHandPos, rightHandPos, leftIndexPos, rightIndexPos := Origin, Origin, Origin, Origin;
      rightIndexDir := Vec3(0.0, 0.0, -1.0);
      leftHandState, rightHandState := 0, 0;
      orbSize, leftOrbSize, dualPinch := 0.0, 0.0, 0;
      leftPinchStartTime, rightPinchStartTime := 0.0, 0.0;
      wasLeftPinching, wasRightPinching := false, false;
      isResetting, resetTime := false, 0.0;
      resetFactor, audioLevel := 0.0, 0.0;
      audioBands := Bands(0.0, 0.0, 0.0);
      fbo1, fbo2 := Fbo1Target, Fbo2Target;
      simInput, renderInput := Fbo1Target, Fbo1Target;
    }

    /** `reset`, called by the hand system: restart the ramp. */
    method Reset()
      modifies this`isResetting, this`resetTime
      ensures isResetting && resetTime == 0.0
    {
      isResetting := true;
      resetTime := 0.0;
    }

    /** The hand section of `tick`, first part: copy the hand positions,
        pick both hand states and ramp the orb. */
    method SetHandStates(h: HandView, dt: real)
      requires 0.0 <= orbSize <= 1.0 && dt >= 0.0
      modifies this`leftHandPos, this`rightHandPos, this`leftIndexPos, this`rightIndexPos, this`rightIndexDir
      modifies this`leftHandState, this`rightHandState, this`orbSize
      ensures leftHandPos == h.leftPos && rightHandPos == h.rightPos
      ensures leftIndexPos == h.leftIndexTip && rightIndexPos == h.rightIndexTip && rightIndexDir == h.rightIndexDir
      ensures leftHandState == LeftState(h) && rightHandState == RightState(h)
      ensures orbSize == RightOrb(old(orbSize), h, dt)
    {
      leftHandPos, rightHandPos := h.leftPos, h.rightPos;
      leftIndexPos, rightIndexPos := h.leftIndexTip, h.rightIndexTip;
      rightIndexDir := h.rightIndexDir;
      leftHandState := LeftState(h);
      rightHandState := RightState(h);
      orbSize := RightOrb(orbSize, h, dt);
    }

    /** The hand section of `tick`, second part: a start time moves only on
        a rising edge, and the was-flags follow the current pinch state. */
    method TrackPinchStarts(h: HandView, now: real)
      modifies this`leftPinchStartTime, this`rightPinchStartTime, this`wasLeftPinching, this`wasRightPinching
      ensures leftPinchStartTime == NextStart(old(leftPinchStartTime), h.leftPinching, old(wasLeftPinching), now)
      ensures rightPinchStartTime == NextStart(old(rightPinchStartTime), h.rightPinching, old(wasRightPinching), now)
      ensures wasLeftPinching == h.leftPinching && wasRightPinching == h.rightPinching
    {
      if h.leftPinching && !wasLeftPinching {
        leftPinchStartTime := now;
      }
      if h.rightPinching && !wasRightPinching {
        rightPinchStartTime := now;
      }
      wasLeftPinching := h.leftPinching;
      wasRightPinching := h.rightPinching;
    }

    /** The hand section of `tick`, third part: the dual-pinch override. */
    method ApplyDualPinch(h: HandView, dt: real)
      requires 0.0 <= orbSize <= 1.0 && 0.0 <= leftOrbSize <= 0.8 && dt >= 0.0
      modifies this`leftHandState, this`rightHandState, this`orbSize, this`leftOrbSize, this`dualPinch
      ensures 0.0 <= orbSize <= 1.0 && 0.0 <= leftOrbSize <= 0.8
      ensures var dual := DualActive(h.leftPinching, h.rightPinching, leftPinchStartTime, rightPinchStartTime);
              (dual ==> dualPinch == 1 && leftHandState == 0 && rightHandState == 0
                        && orbSize == Min(old(orbSize) + dt, 0.8) && leftOrbSize == Min(old(leftOrbSize) + dt, 0.8))
              && (!dual ==> dualPinch == 0 && leftHandState == old(leftHandState) && rightHandState == old(rightHandState)
                            && orbSize == old(orbSize) && leftOrbSize == old(leftOrbSize) * 0.9)
    {
      if h.leftPinching && h.rightPinching && Abs(leftPinchStartTime - rightPinchStartTime) < SyncWindow {
        dualPinch := 1;
        leftHandState, rightHandState := 0, 0;
        orbSize := Min(orbSize + dt * 1.0, 0.8);
        leftOrbSize := Min(leftOrbSize + dt * 1.0, 0.8);
      } else {
        dualPinch := 0;
        leftOrbSize := leftOrbSize * 0.9;
      }
    }

    /** The hand section of `tick`: positions, hand states and orb, pinch
        clocks, then the dual-pinch override. */
    method UpdateHandUniforms(h: HandView, now: real, dt: real)
      requires Valid() && dt >= 0.0
      modifies this`leftHandPos, this`rightHandPos, this`leftIndexPos, this`rightIndexPos, this`rightIndexDir
      modifies this`leftHandState, this`rightHandState, this`orbSize, this`leftOrbSize, this`dualPinch
      modifies this`leftPinchStartTime, this`rightPinchStartTime, this`wasLeftPinching, this`wasRightPinching
      ensures Valid()
      ensures Hands() == NextHandUniforms(old(Hands()), h, now, dt)
    {
      SetHandStates(h, dt);
      TrackPinchStarts(h, now);
      ApplyDualPinch(h, dt);
    }

    /** The reset section of `tick`: while resetting, advance the ramp and
        stop after two seconds; otherwise let the factor decay by 5%. */
    method StepReset(dt: real)
      requires Valid() && dt >= 0.0
      modifies this`isResetting, this`resetTime, this`resetFactor
      ensures Valid() && Hands() == old(Hands())
      ensures old(isResetting) ==> resetTime == old(resetTime) + dt && resetFactor == RampFactor(resetTime)
                                   && isResetting == (resetTime <= 2.0)
      ensures !old(isResetting) ==> resetTime == old(resetTime) && resetFactor == old(resetFactor) * 0.95
                                    && !isResetting
    {
      if isResetting {
        resetTime := resetTime + dt;
        resetFactor := Min(resetTime * 2.0, 1.0);
        if resetTime > 2.0 {
          isResetting := false;
        }
      } else {
        resetFactor := resetFactor * 0.95;
      }
    }

    /** The audio section of `tick`: the level, the bands forwarded to the
        render shader, and the beat override of the reset factor. */
    method UpdateAudio(audio: Option<AudioView>)
      requires Valid()
      modifies this`audioLevel, this`audioBands, this`resetFactor
      ensures Valid() && Hands() == old(Hands())
      ensures audioLevel == AudioLevel(audio)
      ensures audio.Some? && audio.value.bands.Some? ==> audioBands == audio.value.bands.value
      ensures !(audio.Some? && audio.value.bands.Some?) ==> audioBands == old(audioBands)
      ensures resetFactor == (if audio.Some? && audio.value.isBeat then 0.1 else old(resetFactor))
    {
      audioLevel := AudioLevel(audio);
      if audio.Some? && audio.value.bands.Some? {
        audioBands := audio.value.bands.value;
      }
      if audio.Some? && audio.value.isBeat {
        resetFactor := 0.1;
      }
    }

    /** The simulation step of `tick`: read `fbo1`, write `fbo2`, render
        from the buffer just written, then swap the pair. */
    method Simulate()
      requires Valid()
      modifies this`fbo1, this`fbo2, this`simInput, this`renderInput
      ensures Valid() && Hands() == old(Hands()) && React() == old(React())
      ensures simInput == old(fbo1) && renderInput == old(fbo2)
      ensures fbo1 == old(fbo2) && fbo2 == old(fbo1)
    {
      var input, output := fbo1, fbo2;
      simInput := input;
      renderInput := output;
      fbo1, fbo2 := output, input;
    }

    /** The hand section of `tick`, which runs only when the hand system exists. */
    method MaybeUpdateHands(hands: Option<HandView>, now: real, dt: real)
      requires Valid() && dt >= 0.0
      modifies this`leftHandPos, this`rightHandPos, this`leftIndexPos, this`rightIndexPos, this`rightIndexDir
      modifies this`leftHandState, this`rightHandState, this`orbSize, this`leftOrbSize, this`dualPinch
      modifies this`leftPinchStartTime, this`rightPinchStartTime, this`wasLeftPinching, this`wasRightPinching
      ensures Valid() && React() == old(React()) && fbo1 == old(fbo1) && fbo2 == old(fbo2)
      ensures hands.None? ==> Hands() == old(Hands())
      ensures hands.Some? ==> Hands() == NextHandUniforms(old(Hands()), hands.value, now, dt)
    {
      if hands.Some? {
        UpdateHandUniforms(hands.value, now, dt);
      }
    }

    /** The reset ramp followed by the audio uniforms, whose beat overrides
        the factor the ramp has just set. */
    method UpdateResetAndAudio(dt: real, audio: Option<AudioView>)
      requires Valid() && dt >= 0.0
      modifies this`isResetting, this`resetTime, this`resetFactor, this`audioLevel, this`audioBands
      ensures Valid() && Hands() == old(Hands()) && fbo1 == old(fbo1) && fbo2 == old(fbo2)
      ensures React() == NextReactUniforms(old(React()), dt, audio)
    {
      StepReset(dt);
      UpdateAudio(audio);
    }

    /** `tick`: the hand section only when the hand system exists, then the
        reset ramp, the audio uniforms and the simulation step. `delta` is
        the frame time in milliseconds, `time` the clock in milliseconds. */
    method Tick(time: real, delta: real, hands: Option<HandView>, audio: Option<AudioView>)
      requires Valid() && delta >= 0.0
      modifies this
      ensures Valid()
      ensures hands.None? ==> Hands() == old(Hands())
      ensures hands.Some? ==> Hands() == NextHandUniforms(old(Hands()), hands.value, time, delta / 1000.0)
      ensures React() == NextReactUniforms(old(React()), delta / 1000.0, audio)
      ensures fbo1 == old(fbo2) && fbo2 == old(fbo1) && simInput == old(fbo1) && renderInput == old(fbo2)
    {
      var dt := delta / 1000.0;
      MaybeUpdateHands(hands, time, dt);
      UpdateResetAndAudio(dt, audio);
      Simulate();
    }
  }
}
