# Synesthetic Pulse: a Dafny model of its interaction and audio core

Synesthetic Pulse is a WebXR particle experience, in an A-Frame version and a React Three Fiber version. Hand gestures and the music's spectrum drive particle fields, a fluid sphere and a hyperspace warp. This project models the logic behind that in Dafny and proves properties of it. It covers these parts:

- **Gesture classifier** (`GestureDetector`): the finger-extension test, the four-way classifier, pinch hysteresis, and the 8-frame debounce with its change, start and end notifications.
- **Two-hand resolver** (`HandDistance`): pointing detection, the smoothed hand distance, the right-hand beam, and the priority chain reset > levitate > singularity > centre for the shared attractor.
- **GPU simulation control** (`GpuParticles`): the per-frame uniforms, which are the hand states, the orb sizes, the dual-pinch window, the reset ramp and the audio level. Also the ping-pong buffer swap and the texel coordinates of each particle.
- **Audio band extraction**, in three variants:
  - `AudioAnalyzerSystem`: bands, volume, beat detection with a 100 ms hold, and smoothing;
  - `ReactAudioAnalyzer`: the React utility;
  - `AudioReactive`: the A-Frame `audio-reactive` component and system.
- **Noise tables** (`SimplexNoise`, and the inline copy in `SynestheticParticles`): the seeded or random shuffle of the permutation table, its doubled copy, the gradient table, the corner ranks, and the cheap curl.
- **CPU particles** (`SynestheticParticles`): particle creation with home positions, the de-duplicated attractor list, the force clamp, the time step, the reset timer and the colour clamp.
- **Scene components**:
  - `FluidSphere`: waves, touch decay and radial displacement;
  - `SphereAttractor`: piecewise strength and radius;
  - `HandAttractor`: activate and deactivate;
  - `DimensionWarp`: factor smoothing and star and ray recycling;
  - `VrMenu`: the count label, visibility and the double pinch.
- **React gestures** (`SupernovaGesture`, `GravitySwirlGesture`, over `XrInput`): hand lookup, pinch and palm tests, the target radius or twist, smoothing, the clamp and the zero snap.

The model keeps the source's form:
- Components and systems that update fields in place are classes.
- Typed arrays are `array<real>`.
- Lists the source pushes to and splices are `seq` fields.
- Decisions that only compute a value are functions with lemmas about them.

Effects outside the code are inputs of the model:
- **Random draws** (`Math.random`) are parameters, with the range the source gives them.
- **Square roots and normalisation** are a `Geometry` value (`dist`, `unit`).
- **Trigonometry, `Math.pow` and the noise values** are parameters.
- **XR poses** arrive as `Option` values.
- **Emitted events and calls into other components** are appended to trace fields.

## Model

| member | source | states |
|---|---|---|
| GestureDetector.IsExtended | src/systems/gesture-detector.js:113-126 | unknown exactly when the tip, the proximal joint or the wrist is missing; otherwise extended iff the tip is more than 1.5 cm farther from the wrist than the proximal joint |
| GestureDetector.ExtensionIsRigidInvariant | src/systems/gesture-detector.js:109-126 | the extension test does not depend on hand orientation: any distance-preserving transformation of the joints gives the same answer |
| GestureDetector.Classify | src/systems/gesture-detector.js:164-189 | total and never unknown; open iff all four fingers extended, fist iff none is (an unknown finger counts as not extended), point iff only the index is; relaxed otherwise |
| GestureDetector.NextPinch | src/systems/gesture-detector.js:145-161 | a pinching hand stays pinching iff the gap is at most 4.0 cm; a non-pinching hand starts iff the gap is below 2.5 cm |
| GestureDetector.PinchBandNeverToggles | src/systems/gesture-detector.js:148-161 | any number of readings inside [2.5 cm, 4.0 cm] leave the pinch state as it was |
| GestureDetector.Bump | src/systems/gesture-detector.js:192-198 | the raw gesture's counter becomes its old value (0 if absent) plus 1 and every other counter of the hand becomes 0 |
| GestureDetector.UpdateSide | src/systems/gesture-detector.js:191-205 | counters bumped; the committed gesture changes only to the raw gesture and only when its counter reached 8 |
| GestureDetector.CommitEvents | src/systems/gesture-detector.js:213-220 | a commit notifies gesture-change with the previous gesture, then gesture-new, then gesture-previous-end only when the previous gesture was known |
| GestureDetector.EmitAll | src/systems/gesture-detector.js:215-220 | every notification of a commit is emitted on the registered element, in order |
| GestureDetector.CountersTrackRun | src/systems/gesture-detector.js:192-198 | from fresh counters, the counter of the latest classification equals the length of its trailing run and all others are 0 |
| GestureDetector.ShortRunsNeverCommit | src/systems/gesture-detector.js:200-205 | a classification stream in which no gesture holds for 8 consecutive frames never changes the committed gesture |
| GestureDetector.TrailingRunOfRepeat | src/systems/gesture-detector.js:192-198 | n equal classifications form a trailing run of length n |
| GestureDetector.EightFramesCommitOnce | src/systems/gesture-detector.js:200-205 | holding a new gesture from fresh counters commits nothing for 7 frames and exactly once on the 8th |
| GestureDetector.ZeroOthers | src/systems/gesture-detector.js:194-198 | the counter-update loop computes exactly the bumped counters |
| GestureDetector.GestureDetectorSystem.constructor | src/systems/gesture-detector.js:13-35 | no hands registered, both gestures unknown, empty counters, neither hand pinching |
| GestureDetector.GestureDetectorSystem.RegisterHand | src/systems/gesture-detector.js:37-40 | records the element for that side and changes nothing else |
| GestureDetector.GestureDetectorSystem.GetGesture | src/systems/gesture-detector.js:42-44 | returns the committed gesture of that side |
| GestureDetector.GestureDetectorSystem.IsPinching | src/systems/gesture-detector.js:132-162 | returns false and keeps the stored state when a tip is missing; otherwise applies the hysteresis step to that side only and returns the new state |
| GestureDetector.GestureDetectorSystem.UpdateGesture | src/systems/gesture-detector.js:191-223 | the side's state becomes the debounced update; notifications are appended only on a commit with a registered element; a commit without an element is still recorded |
| GestureDetector.GestureDetectorSystem.ProcessHand | src/systems/gesture-detector.js:70-107 | without a wrist pose nothing changes; otherwise the side is updated with the classification of its pose, and when that commits a new gesture on a registered hand the emitted trace grows by exactly the commit's notifications on that hand's element (by nothing otherwise); the pinch state is never touched |
| GpuParticles.LeftState | src/components/gpu-particles.js:642-654 | left hand state 3 iff fist; else 2 iff pointing; else 4 iff pinching; else 1 iff palm up; else 0 |
| GpuParticles.RightState | src/components/gpu-particles.js:656-670 | right hand state 3 iff fist; else 2 iff pinching; else 1 iff pointing; else 0 |
| GpuParticles.RightOrb | src/components/gpu-particles.js:658-670 | the orb size stays in [0, 1]; while the right hand pinches (and is not a fist) it becomes min(orb + 1.5·dt, 1), so it never shrinks; otherwise it is multiplied by 0.85 |
| GpuParticles.NextStart | src/components/gpu-particles.js:677-683 | a pinch start time changes only on a rising edge (pinching now, not last frame), and then becomes the current time |
| GpuParticles.DualPinchWindow | src/components/gpu-particles.js:687-691 | example: pinches started 400 ms apart synchronise; pinches started 600 ms apart do not |
| GpuParticles.NextHandUniforms | src/components/gpu-particles.js:631-703 | one frame of the hand section: positions copied, start times moved only on rising edges, was-flags follow the pinch state; under a synchronised dual pinch both hand states are 0, dual mode is 1 and both orbs grow by dt capped at 0.8 (the right one after its own ramp); otherwise dual mode is 0, the hand states are the prioritised ones, the right orb is RightOrb and the left orb decays by 0.9; all uniforms stay in range |
| GpuParticles.NextReactUniforms | src/components/gpu-particles.js:705-741 | one frame of the reset and audio sections: while resetting the clock advances by dt and resetting stops once it passes 2 s; the factor is 0.1 on a beat, otherwise the ramp min(2t, 1) while resetting or a 5% decay; the audio level is AudioLevel and the bands are copied only when present; all values stay in range |
| GpuParticles.AudioLevel | src/components/gpu-particles.js:719-735 | the audio level is always in [0, 0.5]: 0 without an analyser or without numeric bands, otherwise half the clamped mean of the three bands |
| GpuParticles.RampFactor | src/components/gpu-particles.js:706-709 | the reset factor min(2·t, 1) lies in [0, 1] and is 1 from t = 0.5 on |
| GpuParticles.RampMonotone | src/components/gpu-particles.js:706-709 | the reset factor never decreases while the reset runs |
| GpuParticles.CenterInside | src/components/gpu-particles.js:579-587 | a texel centre (k + 0.5)/size with k < size lies strictly inside (0, 1) |
| GpuParticles.CentersDiffer | src/components/gpu-particles.js:579-587 | different columns or rows give different texel centres |
| GpuParticles.RowBelow | src/components/gpu-particles.js:582 | a particle index below size² has a row below size |
| GpuParticles.TexelInside | src/components/gpu-particles.js:579-587 | every particle's texture coordinates lie strictly inside (0, 1) |
| GpuParticles.TexelInjective | src/components/gpu-particles.js:579-587 | distinct particles read distinct texels |
| GpuParticles.FillTexelCoordinates | src/components/gpu-particles.js:577-587 | the UV loop writes each particle's texel centre and a zero third coordinate |
| GpuParticles.GpuParticleSystem.constructor | src/components/gpu-particles.js:408-530 | orb sizes, reset factor and audio level start at 0; no pinch seen; the two buffers are distinct |
| GpuParticles.GpuParticleSystem.Reset | src/components/gpu-particles.js:616-620 | starts a reset at time 0 |
| GpuParticles.GpuParticleSystem.SetHandStates | src/components/gpu-particles.js:631-670 | copies the hand positions and writes the prioritised hand states and the new orb size |
| GpuParticles.GpuParticleSystem.TrackPinchStarts | src/components/gpu-particles.js:677-685 | pinch start times follow rising edges and the was-flags track the current pinch state |
| GpuParticles.GpuParticleSystem.ApplyDualPinch | src/components/gpu-particles.js:687-702 | synchronised dual pinch sets dual mode, zeroes both hand states and grows both orbs capped at 0.8; otherwise dual mode is off and the left orb decays by 0.9 |
| GpuParticles.GpuParticleSystem.UpdateHandUniforms | src/components/gpu-particles.js:631-703 | composing the three hand blocks in the source's order gives exactly NextHandUniforms of the old hand uniforms |
| GpuParticles.GpuParticleSystem.StepReset | src/components/gpu-particles.js:705-717 | while resetting, time advances, the factor ramps and resetting stops after 2 s; otherwise the factor decays by 0.95 |
| GpuParticles.GpuParticleSystem.UpdateAudio | src/components/gpu-particles.js:719-742 | audio level as in AudioLevel, bands copied when numeric, and a beat overrides the reset factor to 0.1 |
| GpuParticles.GpuParticleSystem.Simulate | src/components/gpu-particles.js:756-782 | the simulation reads the old first buffer, writes the second, and the two buffers swap |
| GpuParticles.GpuParticleSystem.MaybeUpdateHands | src/components/gpu-particles.js:631-703 | the hand section runs only with hand data, leaving the reset, audio and buffer fields alone |
| GpuParticles.GpuParticleSystem.UpdateResetAndAudio | src/components/gpu-particles.js:705-741 | the reset step followed by the audio step gives exactly NextReactUniforms, the beat overriding the ramp or decay |
| GpuParticles.GpuParticleSystem.Tick | src/components/gpu-particles.js:622-783 | with dt = delta / 1000: without hand data the hand uniforms are unchanged, with it they are NextHandUniforms at time `time` (dual and non-dual outcome); the reset and audio uniforms are NextReactUniforms (ramp, 5% decay or beat; level; bands); the buffers swap every frame |
| HandDistance.PalmNormal | src/systems/hand-distance.js:150-161 | the palm normal is the unit cross product of the wrist-to-index-proximal and wrist-to-pinky vectors, negated for the left hand (so its height flips sign) |
| HandDistance.Resolve | src/systems/hand-distance.js:316-407 | the mode priority: reset iff both palms face up (> 0.8) with no pinch or fist; otherwise levitate iff the left palm is up (> 0.6); otherwise singularity iff the left hand points; otherwise the centre fallback, whose radius is positive whenever the average distance is non-negative |
| HandDistance.CenterStrengths | src/systems/hand-distance.js:383-407 | centre fallback: both pinching gives 50 and 8; otherwise a smoothed distance below 0.15 gives the push, strength -30 and radius 2, and one of 0.15 or more gives the gentle pull, strength 10 and radius 4 + 2·distance; the strength is negative iff it is the push |
| HandDistance.NoNormalsNoResetOrLevitate | src/systems/hand-distance.js:244-260 | without palm normals both up-dots are 0, so neither reset nor levitate can be chosen |
| HandDistance.ResetOutranksPointing | src/systems/hand-distance.js:316-351 | the reset pose wins even while the left hand points |
| HandDistance.CenterAfterByMode | src/systems/hand-distance.js:240-407 | the centre attractor after a frame, per mode; in reset mode the singularity written for a pointing left hand is left in place, otherwise only the position moves to the centre |
| HandDistance.PointingAfter | src/systems/hand-distance.js:264-301 | a pointing right hand makes the pointing attractor a beam at the index tip with strength 50, radius 15 and the unit direction; otherwise strength 0, radius 0 and empty data |
| HandDistance.UpDot | src/systems/hand-distance.js:242-250 | the up-dot of a palm is 0 unless both normals are known |
| HandDistance.SmoothedBetween | src/systems/hand-distance.js:236-238 | the moving average 0.9·old + 0.1·new lies between the two and closes a tenth of the gap |
| HandDistance.SettledDistanceScenario | src/systems/hand-distance.js:383-407 | example: hands held 0.6 m apart without gestures keep the average at 0.6 and give the gentle pull 10 with radius 5.2 |
| HandDistance.SingularityScenario | src/systems/hand-distance.js:182-192 | example: a left index 20 cm and a middle finger 5 cm from the wrist count as pointing and yield the singularity at the index tip |
| HandDistance.TipMovesOnlyWhilePointing | src/systems/hand-distance.js:168-192 | the stored index tip changes only to the sampled index tip of a hand that points, and never while it does not |
| HandDistance.HandDistanceSystem.constructor | src/systems/hand-distance.js:16-57 | distances 0.5, all flags false, no particle system, both attractors at the origin with strength and radius 0 |
| HandDistance.HandDistanceSystem.Connect | src/systems/hand-distance.js:60-79 | the delayed lookup links the GPU system (which has no smooth reset) when it is found; otherwise the CPU system (which has one) when that is found; with neither the link stays as it was; nothing else changes |
| HandDistance.HandDistanceSystem.SetHandFlags | src/systems/hand-distance.js:81-95 | the pinch and fist listeners set one side's flags and leave the other side's alone |
| HandDistance.HandDistanceSystem.SampleHand | src/systems/hand-distance.js:128-226 | records the wrist; with both tips known, pointing holds iff the index tip is more than 3 cm farther from the wrist than the middle tip; the stored index tip and direction are overwritten only while pointing |
| HandDistance.HandDistanceSystem.CalculatePhysics | src/systems/hand-distance.js:233-408 | a no-op without a particle system; otherwise the distance, the moving average, the palm-up flags, the beam (written before any early return), the centre attractor by CenterAfter on the updated average and the 2000 ms reset cooldown |
| HandDistance.HandDistanceSystem.Tick | src/systems/hand-distance.js:100-231 | each hand present stores its wrist and its pointing flag and index tip as sampled; only when both hands were sampled and a particle system is linked do the distance, the average, the palm flags from both palm normals, the beam, the centre attractor and the reset request change, each as calculatePhysics defines it |
| HandDistance.HandDistanceSystem.SampleHands | src/systems/hand-distance.js:128-226 | each hand present stores its wrist, its pointing flag and its index tip as SampledPointing and SampledTip give them; an absent hand keeps them |
| HandDistance.HandDistanceSystem.SetPalmFlags | src/systems/hand-distance.js:247-259 | with both palm normals each palm is up iff its normal's y exceeds 0.6; otherwise the flags keep their values |
| HandDistance.HandDistanceSystem.AimBeam | src/systems/hand-distance.js:263-301 | the pointing attractor becomes the right-hand beam while the right hand points, and is switched off otherwise |
| HandDistance.HandDistanceSystem.ApplyModes | src/systems/hand-distance.js:303-407 | the centre attractor follows the priority chain; a reset pose past the cooldown appends one reset request (smooth when available) and restarts the timer, and nothing else does |
| HandDistance.HandDistanceSystem.TickWithoutSession | src/systems/hand-distance.js:104-116 | without an XR session the hand positions become the world wrist positions when both hands are found and stay as they were otherwise; physics runs only with both hands, a linked particle system and the left position away from the origin, and then sets the distance, the smoothed average, the pointing beam and the centre attractor (with both palm products 0); when it does not run those four are unchanged; no palm data, so no reset and the palm flags are untouched |
| SimplexNoise.Identity | src/lib/simplex-noise.js:29-32 | the starting table holds k at position k |
| SimplexNoise.Swap | src/lib/simplex-noise.js:38 | the destructuring swap exchanges two entries and keeps every other entry |
| SimplexNoise.SwapPermutes | src/lib/simplex-noise.js:38 | a swap keeps the multiset of entries |
| SimplexNoise.NewIdentity | src/lib/simplex-noise.js:29-32 | the fill loop leaves a fresh table holding k at position k (also the inline fill of src/components/synesthetic-particles.js:21) |
| SimplexNoise.SeedValue | src/lib/simplex-noise.js:25-27 | the integer seed is non-negative; a seed in (0, 1) is scaled by 65536 before flooring; a seed of at least 1 is floored; 0 falls back to a random draw scaled by 65536 |
| SimplexNoise.NextSeed | src/lib/simplex-noise.js:36 | the Lehmer step s·16807 mod 2147483647 stays in [0, 2147483647) |
| SimplexNoise.Shuffle | src/lib/simplex-noise.js:35-39 | the seeded Fisher-Yates shuffle from position i down to 1 keeps the table length; each step picks j = s mod (i + 1) in [0, i] |
| SimplexNoise.ShufflePermutes | src/lib/simplex-noise.js:35-39 | the shuffle rearranges the table without changing its multiset of entries |
| SimplexNoise.SeededTableIsPermutation | src/lib/simplex-noise.js:29-39 | for a non-negative seed the shuffled table is a permutation of 0..255, and equal seeds give equal tables |
| SimplexNoise.PermutationRange | src/lib/simplex-noise.js:29-39 | every entry of a permutation of 0..n-1 lies in [0, n) |
| SimplexNoise.PermTable | src/lib/simplex-noise.js:41-42 | the doubled table has 512 entries |
| SimplexNoise.PermPeriodic | src/lib/simplex-noise.js:41-42 | perm[i] = perm[i + 256] = p[i] for every i < 256 |
| SimplexNoise.NoiseTables.constructor | src/lib/simplex-noise.js:8-9 | allocates the 512-entry permutation table and the 2048-entry gradient table |
| SimplexNoise.NoiseTables.Seed | src/lib/simplex-noise.js:24-49 | after seeding, perm is the doubled shuffled table of the seed value and gradP[4i..4i+3] is grad4[perm[i] mod 32] |
| SimplexNoise.NoiseTables.FillTables | src/lib/simplex-noise.js:41-48 | the table loop writes perm[i] = p[i & 255] and the four gradient components of every entry |
| SimplexNoise.ShuffleInPlace | src/lib/simplex-noise.js:35-39 | the in-place shuffle loop leaves the array equal to the shuffle function of its old contents |
| SimplexNoise.Ranks | src/lib/simplex-noise.js:82-88 | the four rank counters are distinct values in [0, 3] summing to 6, a permutation of 0..3 |
| SimplexNoise.CornerOffsets | src/lib/simplex-noise.js:90-92 | exactly one, two and three of the offset flags are set for the first, second and third corner, and each coordinate's flags are nested |
| SimplexNoise.CurlFast | src/lib/simplex-noise.js:169-179 | the components of the fast curl always sum to 0, for any noise function; equal samples give the zero vector |
| SynestheticParticles.DrawnShuffle | src/components/synesthetic-particles.js:23-26 | the downward swap loop driven by a sequence of draws with 0 <= j <= i; keeps the table's length |
| SynestheticParticles.DrawnShufflePermutes | src/components/synesthetic-particles.js:23-26 | every swap sequence of the shuffle only reorders the table: the multiset of entries is unchanged |
| SynestheticParticles.InlineTableIsPermutation | src/components/synesthetic-particles.js:21-26 | the shuffled table of the inline noise holds each of 0..255 exactly once, whatever the random draws |
| SynestheticParticles.InitPermutation | src/components/synesthetic-particles.js:20-27 | builds the 512-entry table as the shuffled 256-entry table repeated twice, so entry i and entry i + 256 agree |
| SynestheticParticles.ShuffleWithDraws | src/components/synesthetic-particles.js:23-26 | the in-place swap loop leaves the array equal to the draw-driven shuffle of its old contents |
| SynestheticParticles.Periodic | src/components/synesthetic-particles.js:27 | the 512-entry table is the 256-entry one read at i & 255 |
| SynestheticParticles.AddUnique | src/components/synesthetic-particles.js:239-247 | the added attractor is in the list afterwards; the old list is a prefix and at most one entry is added |
| SynestheticParticles.AddUniqueKeepsDistinct | src/components/synesthetic-particles.js:240-246 | adding keeps the list free of duplicates, grows it by one exactly when the attractor was absent, and adding twice is adding once |
| SynestheticParticles.RemoveFirstKeepsDistinct | src/components/synesthetic-particles.js:249-255 | removing the first occurrence keeps a duplicate-free list duplicate-free |
| SynestheticParticles.RemoveFirstRemovesAll | src/components/synesthetic-particles.js:249-255 | in a duplicate-free list, removal leaves the attractor absent and every other attractor present iff it was before |
| SynestheticParticles.RemoveUndoesAdd | src/components/synesthetic-particles.js:239-255 | removing a freshly added attractor gives back the original list |
| SynestheticParticles.StepSize | src/components/synesthetic-particles.js:262 | the step is the frame time in seconds capped at 0.033: never above either, and equal to one of them |
| SynestheticParticles.AttractorForce | src/components/synesthetic-particles.js:380-388 | a force exists iff the offset distance is inside the radius; its magnitude is at most 0.5 and at most 1% of the strength, and its sign is the strength's sign |
| SynestheticParticles.FalloffInUnit | src/components/synesthetic-particles.js:384-385 | inside the radius the linear falloff lies strictly between 0 and 1 |
| SynestheticParticles.ScaledForce | src/components/synesthetic-particles.js:386 | scaling the strength by the falloff and 0.01 never increases its magnitude and keeps its sign |
| SynestheticParticles.ClampMagnitude | src/components/synesthetic-particles.js:387-388 | the clamped force has magnitude min(abs force, 0.5) and the same sign as the force |
| SynestheticParticles.Variation | src/components/synesthetic-particles.js:657 | the position-dependent colour variation lies in [0, 0.2] |
| SynestheticParticles.Channel | src/components/synesthetic-particles.js:658-660 | a colour channel is at most 1, never below min(base, 1), and exactly base + weighted variation when that sum is at most 1 |
| SynestheticParticles.ParticleSystem.constructor | src/components/synesthetic-particles.js:80-100 | time 0, no attractors, no mesh, not resetting, and arrays of 3·count / count entries |
| SynestheticParticles.ParticleSystem.CreateParticles | src/components/synesthetic-particles.js:113-164 | every particle's position and home equal its sampled point, its velocity is 0.1 times its outward direction, its colour is the low colour, its scale lies in [0.5, 1) and its lifetime offset in [0, 10) |
| SynestheticParticles.ParticleSystem.WriteParticle | src/components/synesthetic-particles.js:119-157 | writes one particle's position, home, velocity and colour and leaves every other particle's entries unchanged |
| SynestheticParticles.ParticleSystem.SmoothReset | src/components/synesthetic-particles.js:195-204 | the homing phase starts with reset time 0 and one more pending 3-second timer |
| SynestheticParticles.ParticleSystem.ResetTimerFires | src/components/synesthetic-particles.js:201-203 | a firing timer ends the homing phase |
| SynestheticParticles.ParticleSystem.Reset | src/components/synesthetic-particles.js:206-217 | the legacy instant reset changes no position, velocity or home |
| SynestheticParticles.ParticleSystem.AddAttractor | src/components/synesthetic-particles.js:239-247 | the attractor list becomes AddUnique of the old list |
| SynestheticParticles.ParticleSystem.RemoveAttractor | src/components/synesthetic-particles.js:249-255 | the list loses the first occurrence of the attractor, which is then absent |
| SynestheticParticles.ParticleSystem.Tick | src/components/synesthetic-particles.js:259-263 | without a mesh nothing advances; otherwise the step is StepSize and the noise time advances by step·noiseSpeed, plus the step again while resetting |
| SynestheticParticles.ParticleSystem.WriteColour | src/components/synesthetic-particles.js:657-660 | the particle's three channels are Channel of the tint with weights 1, 0.5 and 0.3; other particles' colours are unchanged |
| VrMenu.DigitChar | src_backup_aframe/components/vr-menu.js:190 | the digit written for d < 10 is a decimal digit that reads back as d |
| VrMenu.Decimal | src_backup_aframe/components/vr-menu.js:190 | the decimal text of a count is a non-empty run of digits |
| VrMenu.DecimalRoundTrip | src_backup_aframe/components/vr-menu.js:186-190 | reading back the decimal text of n gives n |
| VrMenu.DigitRun | src_backup_aframe/components/vr-menu.js:186 | the run of digits matched by `\d+` from a position: all digits, and followed by a non-digit or the end of the text |
| VrMenu.Adjusted | src_backup_aframe/components/vr-menu.js:188-189 | the new count is always in [10000, 200000]; it is count·1000 + delta when that is in range, and the nearer bound otherwise |
| VrMenu.LabelRoundTrip | src_backup_aframe/components/vr-menu.js:186-190 | the regular expression finds exactly k in the label written for k thousand particles |
| VrMenu.AdjustedLabelInRange | src_backup_aframe/components/vr-menu.js:176-191 | adjusting a label that holds a count writes the label of the clamped count, which reads back as a count between 10 and 200 thousand |
| VrMenu.InitialLabelCount | src_backup_aframe/components/vr-menu.js:114 | the initial label "Particles: 50K" holds the count 50 |
| VrMenu.VrMenu.constructor | src_backup_aframe/components/vr-menu.js:15-21 | the menu starts hidden with the initial label and no camera yet |
| VrMenu.VrMenu.SceneLoaded | src_backup_aframe/components/vr-menu.js:24-27 | after the scene loads the camera is known iff the lookup found it |
| VrMenu.VrMenu.AdjustParticles | src_backup_aframe/components/vr-menu.js:176-192 | the label is unchanged when the particle entity or component is missing or the label has no count; otherwise it becomes the adjusted label |
| VrMenu.VrMenu.Show | src_backup_aframe/components/vr-menu.js:194-212 | the menu becomes visible iff camera and panel exist; otherwise nothing changes |
| VrMenu.VrMenu.Hide | src_backup_aframe/components/vr-menu.js:214-219 | with a panel the menu becomes hidden; otherwise nothing changes |
| VrMenu.VrMenu.Toggle | src_backup_aframe/components/vr-menu.js:221-227 | a visible menu hides (if it has a panel), a hidden one shows (if it has camera and panel); with both it flips |
| VrMenu.MenuToggle.constructor | src_backup_aframe/components/vr-menu.js:239-241 | no pinch time and no menu yet |
| VrMenu.MenuToggle.SceneLoaded | src_backup_aframe/components/vr-menu.js:243-249 | the menu is remembered when one is found |
| VrMenu.MenuToggle.Pinch | src_backup_aframe/components/vr-menu.js:252-264 | a pinch less than 500 ms after the recorded one toggles the menu (a visible menu hides when it has a panel; a hidden one shows when it has a camera and a panel) and clears the time; any other pinch records its time and leaves the menu alone; the label and the camera are never touched |
| DimensionWarp.StarStep | src/components/dimension-warp.js:333-342 | a star never ends a frame past the camera threshold; one that stays in front moves by traverse·speed in depth only, and one that passes it respawns between depth -250 and -200 at a radius in [3, 43) |
| DimensionWarp.RespawnRadius | src/components/dimension-warp.js:337-340 | a respawned star at cosine c and sine s of a radius in [3, 43) lies at distance in [3, 43) from the warp axis |
| DimensionWarp.RayStep | src/components/dimension-warp.js:355-362 | a ray keeps all its parameters; it moves by traverse·speed, and one that passes the camera threshold returns to its spawn point |
| DimensionWarp.RayBeyondCameraStaysPut | src/components/dimension-warp.js:355-362 | a ray whose spawn point already lies past the threshold sits there every frame, a consequence of the reset rule |
| DimensionWarp.FrameBands | src/components/dimension-warp.js:302-317 | while audio plays the bands are the analyser's scaled by 2, 1.5 and 1.5 (zero when it gives none); the fallback animation keeps bass in [0, 0.5], mid in [0, 0.3] and high in [0, 0.2] |
| DimensionWarp.TraverseBoostOnce | src/components/dimension-warp.js:299-323 | the distance per unit speed is (speed + 200·bass) · seconds · slowdown · boost: the boost counts once, not twice |
| DimensionWarp.DimensionWarp.constructor | src/components/dimension-warp.js:20-47 | both factors and both targets start at 1, and the stars and rays are those created |
| DimensionWarp.DimensionWarp.Fist | src/components/dimension-warp.js:58 | a fist sets the slowdown target to 0.05 |
| DimensionWarp.DimensionWarp.FistEnd | src/components/dimension-warp.js:59 | the end of a fist restores the slowdown target 1 |
| DimensionWarp.DimensionWarp.PinchStarted | src/components/dimension-warp.js:61 | a pinch sets the boost target to 3 |
| DimensionWarp.DimensionWarp.PinchEnded | src/components/dimension-warp.js:62 | the end of a pinch restores the boost target 1 |
| DimensionWarp.DimensionWarp.Tick | src/components/dimension-warp.js:290-362 | without stars nothing moves; otherwise both factors move toward their targets without overshoot, every star and ray takes its step with the frame's traverse distance, and no star is left past the camera |
| DimensionWarp.DimensionWarp.SmoothFactors | src/components/dimension-warp.js:294-297 | the slowdown moves 10% and the boost 15% of the way to their targets, each staying between its old value and its target |
| DimensionWarp.DimensionWarp.MoveStars | src/components/dimension-warp.js:329-343 | every star's new position is StarStep of its old one; none lies past the camera |
| DimensionWarp.DimensionWarp.MoveRays | src/components/dimension-warp.js:351-362 | every ray's new state is RayStep of its old one |
| FluidSphere.NewWave | src/components/fluid-sphere.js:168-173 | a new wave sits at the touch point with age 0 and lifetime 1; its intensity is the requested one capped at 0.5 |
| FluidSphere.Survivors | src/components/fluid-sphere.js:270-273 | ageing the waves never adds any, and every wave left is at most 1 second old |
| FluidSphere.SurvivorKept | src/components/fluid-sphere.js:270-273 | a wave still at most 1 second old after ageing survives, aged by dt |
| FluidSphere.SurvivorOrigin | src/components/fluid-sphere.js:270-273 | every surviving wave is an aged old wave that was at most 1 second old after ageing |
| FluidSphere.SurvivorsAgeForward | src/components/fluid-sphere.js:270-273 | with non-negative ages and step, every survivor's age lies in [dt, 1] |
| FluidSphere.Influence | src/components/fluid-sphere.js:243-247 | an attractor influences a vertex iff the squared distance is below the squared radius, and then the influence lies in (0, 1] |
| FluidSphere.RootsOrdered | src/components/fluid-sphere.js:245-247 | inside the radius, the radius is positive and distance / radius lies in [0, 1) |
| FluidSphere.DisplacedAlongNormal | src/components/fluid-sphere.js:264-266 | a displaced vertex moves along its normal only |
| FluidSphere.CreateSphere | src/components/fluid-sphere.js:42-58 | the originals are the mesh vertices and the normals their unit vectors, three entries per vertex, in two fresh arrays |
| FluidSphere.FluidSphere.constructor | src/components/fluid-sphere.js:20-33 | time 0, no touch highlight, no attractors or waves, and the originals and normals of the created sphere |
| FluidSphere.FluidSphere.AddAttractor | src/components/fluid-sphere.js:163 | the attractor is appended, with no duplicate check |
| FluidSphere.FluidSphere.RemoveAttractor | src/components/fluid-sphere.js:164-167 | the first occurrence of the attractor is removed, if any |
| FluidSphere.FluidSphere.AddWave | src/components/fluid-sphere.js:168-175 | the new wave is appended and the touch highlight set to 1 |
| FluidSphere.FluidSphere.Tick | src/components/fluid-sphere.js:183-273 | without a mesh nothing changes; otherwise time advances by min(delta/1000, 0.05)·noiseSpeed, the highlight decays by 0.92 (or stays 0) and never grows, each vertex is its original moved along its normal by its displacement, and the waves are the survivors |
| FluidSphere.FluidSphere.MoveVertices | src/components/fluid-sphere.js:225-267 | each vertex becomes its original displaced along its normal |
| FluidSphere.FluidSphere.AgeWaves | src/components/fluid-sphere.js:270-273 | the backward ageing loop leaves exactly Survivors of the old waves, in order |
| SphereAttractor.Attractor.constructor | src/components/sphere-attractor.js:26 | the shared attractor object starts at the origin with strength 0 and the given radius |
| SphereAttractor.Response | src/components/sphere-attractor.js:48-82 | a pinch within 0.6 grabs (80, 0.8) and a pinch farther away changes nothing; without a pinch, closer than 0.2 pushes (-50, 0.35), between 0.2 and 0.5 pulls with strength in (0, 21] and radius 0.5, and at 0.5 or more the strength is 0 with the radius kept; strengths in [-50, 80] stay there |
| SphereAttractor.PullInRange | src/components/sphere-attractor.js:74-75 | the magnetic pull 35·(1 - dist/0.5) over [0.2, 0.5) lies in (0, 21] |
| SphereAttractor.SphereAttractor.constructor | src/components/sphere-attractor.js:25-28 | a fresh attractor with strength 0 and radius 0.5, and no sphere yet |
| SphereAttractor.SphereAttractor.Connect | src/components/sphere-attractor.js:31-38 | the found sphere is remembered and the attractor appended to its list |
| SphereAttractor.SphereAttractor.ForceUpdate | src/components/sphere-attractor.js:42-84 | the attractor always moves to the hand; with a sphere its strength and radius follow Response of the distance, and a touching, non-pinching hand adds a wave of intensity 0.2 (and lights the highlight) when the draw is below 0.1; the sphere's attractor list is unchanged |
| HandAttractor.Settings | src_backup_aframe/components/hand-attractor.js:124-138 | the freeze mode registers with strength 0, radius 100 and mode 'freeze'; the default with 50, 8 and 'orb' |
| HandAttractor.HandAttractor.constructor | src_backup_aframe/components/hand-attractor.js:19-30 | inactive, strength 1, radius 0.5, and the CPU particle system when the scene has one |
| HandAttractor.HandAttractor.SceneLoaded | src_backup_aframe/components/hand-attractor.js:82-87 | the particle system is queried again |
| HandAttractor.HandAttractor.Activate | src_backup_aframe/components/hand-attractor.js:90-149 | does nothing iff already active in the same mode; otherwise becomes active in that mode, looks up a CPU system before a GPU one when none is known, and with a CPU system writes the mode's settings and registers itself without duplicates; with a GPU system or none the settings are untouched; the particle system's attractor list changes only when it registers itself with a CPU system, so a call that does nothing or a GPU link leaves it alone, and a looked-up CPU system that is not the one linked is untouched |
| HandAttractor.HandAttractor.Deactivate | src_backup_aframe/components/hand-attractor.js:151-159 | always leaves the attractor inactive; an active one is removed from the CPU system's list (and is then absent), and with the GPU system the removal call fails |
| AudioAnalyzerSystem.SumBounds | src/systems/audio-analyzer.js:168-191 | a sum of n byte bins lies in [0, 255·n] |
| AudioAnalyzerSystem.SumBins | src/systems/audio-analyzer.js:168-191 | the accumulating loop over bins [lo, hi) returns their byte sum, which lies in [0, 255·(hi - lo)] |
| AudioAnalyzerSystem.LevelInUnit | src/systems/audio-analyzer.js:172-192 | the mean of n bytes divided by 255 lies in [0, 1] |
| AudioAnalyzerSystem.RawBands | src/systems/audio-analyzer.js:164-195 | all three bands lie in [0, 1]; the high band is the mean level of bins 90 and up, tripled and capped at 1 |
| AudioAnalyzerSystem.BeatStep | src/systems/audio-analyzer.js:200-226 | the threshold becomes 0.95·threshold + 0.05·bass; no beat without a spike, a beat when a spike meets no hold, the beat flag kept while a hold runs; a hold exists only if it did before or a beat just fired, and a finished hold resets its timer |
| AudioAnalyzerSystem.ThresholdBetween | src/systems/audio-analyzer.js:205 | the new threshold lies between the old threshold and the bass level |
| AudioAnalyzerSystem.HoldSuppressesBeats | src/systems/audio-analyzer.js:208-226 | while a hold's elapsed time stays within 100 ms, no frame fires a beat |
| AudioAnalyzerSystem.AtMostOneBeatPerWindow | src/systems/audio-analyzer.js:208-226 | from an idle detector, frames totalling at most 100 ms fire at most one beat |
| AudioAnalyzerSystem.SmoothBandsBetween | src/systems/audio-analyzer.js:229-233 | each smoothed band lies between its previous value and the new raw band |
| AudioAnalyzerSystem.AudioAnalyzer.constructor | src/systems/audio-analyzer.js:14-38 | no audio, not playing, all bands, volume and beat state zero |
| AudioAnalyzerSystem.AudioAnalyzer.LoadAudio | src/systems/audio-analyzer.js:51-90 | afterwards the context and the audio element exist |
| AudioAnalyzerSystem.AudioAnalyzer.Play | src/systems/audio-analyzer.js:106-117 | with audio and a context the system plays and emits audio-play; otherwise nothing changes |
| AudioAnalyzerSystem.AudioAnalyzer.Pause | src/systems/audio-analyzer.js:122-128 | with audio the system stops and emits audio-pause; otherwise nothing changes |
| AudioAnalyzerSystem.AudioAnalyzer.Toggle | src/systems/audio-analyzer.js:133-139 | a playing system pauses, a paused one plays, under the same conditions as pause and play |
| AudioAnalyzerSystem.AudioAnalyzer.GetBands | src/systems/audio-analyzer.js:144-146 | returns the smoothed bands, each in [0, 1] |
| AudioAnalyzerSystem.AudioAnalyzer.DetectBeat | src/systems/audio-analyzer.js:200-226 | the beat statements take one BeatStep of the detector state and emit audio-beat exactly when a beat fires; the threshold stays in [0, 1] and a released hold has timer 0 |
| AudioAnalyzerSystem.AudioAnalyzer.Tick | src/systems/audio-analyzer.js:155-234 | nothing changes unless a context exists and audio plays; otherwise the raw bands come from the spectrum, the volume is their mean, the beat state takes one BeatStep, an audio-beat event is emitted exactly when a beat fires, and the smoothed bands move 60% of the way to the raw ones |
| ReactAudioAnalyzer.NormSumIsScaledSum | src/react/utils/AudioAnalyzer.js:88-93 | summing the bins normalised by 255 equals normalising their byte sum |
| ReactAudioAnalyzer.NormAverageIsLevel | src/react/utils/AudioAnalyzer.js:95-97 | a normalised band sum divided by its bin count is the mean level of those bins |
| ReactAudioAnalyzer.DivisionsCommute | src/react/utils/AudioAnalyzer.js:95-97 | dividing by 255 and by the bin count may be done in either order |
| ReactAudioAnalyzer.LevelOfEqualBins | src/react/utils/AudioAnalyzer.js:95-97 | n bins all equal to v have mean level v/255 |
| ReactAudioAnalyzer.SpectrumBands | src/react/utils/AudioAnalyzer.js:86-97 | bass is the mean level of bins 0-9, mid of bins 10-109 and high of the rest, each in [0, 1] |
| ReactAudioAnalyzer.SumOfEqualBins | src/react/utils/AudioAnalyzer.js:88-93 | the byte sum of bins all equal to v is their count times v |
| ReactAudioAnalyzer.FlatSpectrum | src/react/utils/AudioAnalyzer.js:86-97 | example: a flat spectrum at byte v gives v/255 in all three bands |
| ReactAudioAnalyzer.AudioAnalyzer.constructor | src/react/utils/AudioAnalyzer.js:4-20 | 512 zeroed bins, not ready, all bands 0 |
| ReactAudioAnalyzer.AudioAnalyzer.PlayTrack | src/react/utils/AudioAnalyzer.js:49-70 | after a track is wired up the analyser is ready |
| ReactAudioAnalyzer.AudioAnalyzer.Update | src/react/utils/AudioAnalyzer.js:72-98 | nothing changes before the analyser is ready; afterwards the bins are the new spectrum and the bands are SpectrumBands of it |
| ReactAudioAnalyzer.AudioAnalyzer.GetBands | src/react/utils/AudioAnalyzer.js:100-106 | returns the current three bands |
| AudioReactive.AverageFrequency | src_backup_aframe/components/audio-analyzer.js:123-134 | the mean of bins [start, min(start + count, length)) lies in [0, 255], is 0 for an empty range, and times the bin count equals the bins' byte sum |
| AudioReactive.MeanInByteRange | src_backup_aframe/components/audio-analyzer.js:133 | the mean of n values whose sum lies in [0, 255·n] lies in [0, 255] |
| AudioReactive.BandLevel | src_backup_aframe/components/audio-analyzer.js:104-106 | a band level lies in [0, 1] and is the average frequency over 255 |
| AudioReactive.BandsBySpectrumSize | src_backup_aframe/components/audio-analyzer.js:104-106 | a spectrum of at most 100 bins leaves the high band 0 and one of at most 10 bins leaves mid 0; at 600 bins or more each band is its nominal bins' byte sum over 255·count |
| AudioReactive.AudioReactiveComponent.constructor | src_backup_aframe/components/audio-analyzer.js:18-35 | the schema's size and flag, no context, not running, nothing emitted |
| AudioReactive.AudioReactiveComponent.InitAudioContext | src_backup_aframe/components/audio-analyzer.js:37-76 | a second call changes nothing; the first creates the context with fftSize/2 zeroed bins and marks audio running |
| AudioReactive.AudioReactiveComponent.StartAudio | src_backup_aframe/components/audio-analyzer.js:78-96 | a disabled component does nothing; an enabled one ends with a context; an existing context keeps its spectrum and bin count; a new context starts audio with fftSize/2 bins, all zero |
| AudioReactive.AudioReactiveComponent.GetAverageFrequency | src_backup_aframe/components/audio-analyzer.js:123-134 | the summing loop returns AverageFrequency of the current bins |
| AudioReactive.AudioReactiveComponent.Tick | src_backup_aframe/components/audio-analyzer.js:98-121 | nothing until audio runs; then the bins are the new spectrum and one audio-analysis event with the three band levels of it is emitted |
| AudioReactive.AudioReactiveSystem.constructor | src_backup_aframe/components/audio-analyzer.js:140-147 | all levels 0 and no spectrum |
| AudioReactive.AudioReactiveSystem.OnAudioAnalysis | src_backup_aframe/components/audio-analyzer.js:148-150 | the system stores the event detail |
| AudioReactive.AudioReactiveSystem.GetAudioData | src_backup_aframe/components/audio-analyzer.js:153-155 | returns the stored analysis |
| AudioReactive.DeliverAll | src_backup_aframe/components/audio-analyzer.js:148-150 | after every event the component emitted (lines 110-115) reaches the listener, the system holds the latest analysis |
| XrInput.LastHand | src/react/components/SupernovaGesture.jsx:44-49 | a hand is found iff some source is a tracked hand of that side, and it is the hand of the last such source |
| XrInput.FirstHand | src/react/components/GravitySwirlGesture.jsx:40-45 | a hand is found iff some source is a tracked hand of that side, and it is the hand of the first such source |
| XrInput.SingleSourceScansAgree | src/react/components/SupernovaGesture.jsx:44-49 | with exactly one tracked source on a side, both scans pick that source's hand |
| XrInput.TipGap | src/react/components/GravitySwirlGesture.jsx:50-62 | the thumb-index gap is known iff both tips have a pose |
| SupernovaGesture.FindHands | src/react/components/SupernovaGesture.jsx:40-49 | the scanning loop returns LastHand for the left and for the right side |
| SupernovaGesture.PalmNormal | src/react/components/SupernovaGesture.jsx:91-96 | the right hand's normal is v1 × v2 and the left hand's its negation |
| SupernovaGesture.Spread | src/react/components/SupernovaGesture.jsx:114-116 | the normalised hand distance lies in [0, 1]: 0 at 5 cm or closer, 1 at 45 cm or wider, and linear in between |
| SupernovaGesture.SpreadMonotone | src/react/components/SupernovaGesture.jsx:114-116 | wider hands never give a smaller normalised distance |
| SupernovaGesture.SpreadRadius | src/react/components/SupernovaGesture.jsx:114-119 | the radius of an active gesture lies in [1, 8] |
| SupernovaGesture.SpreadRadiusShape | src/react/components/SupernovaGesture.jsx:114-119 | hands 5 cm or closer give radius 1, hands 45 cm or wider give 8, and wider hands never give a smaller radius |
| SupernovaGesture.TargetRadius | src/react/components/SupernovaGesture.jsx:51-129 | the target lies in [1, 8]; it is 1.5 when a hand or wrist is missing or the gesture is inactive, and the spread radius of the wrist distance when active |
| SupernovaGesture.Smooth | src/react/components/SupernovaGesture.jsx:133-143 | the new radius lies in [1, 7] and is the unclamped smoothing step whenever that lies in [1, 7] |
| SupernovaGesture.SmoothTowardTarget | src/react/components/SupernovaGesture.jsx:133-143 | with 3·delta ≤ 1 the radius moves toward min(target, 7) without overshoot, and the gap to a target within the clamp shrinks by 1 - 3·delta |
| SupernovaGesture.SmoothStep | src/react/components/SupernovaGesture.jsx:134-143 | the step-then-clamp statements compute Smooth |
| SupernovaGesture.Supernova.constructor | src/react/components/SupernovaGesture.jsx:19-20 | both radii start at 1.5 with no calls made |
| SupernovaGesture.Supernova.Frame | src/react/components/SupernovaGesture.jsx:31-150 | without setSphereRadius, an XR frame or a reference space nothing changes; otherwise the target is TargetRadius of the last left and right hands, the radius is Smooth of the old one, and that radius is passed to setSphereRadius; the radius stays in [1, 7] |
| GravitySwirlGesture.FindRightHand | src/react/components/GravitySwirlGesture.jsx:39-45 | the loop with its break returns FirstHand of the right side |
| GravitySwirlGesture.SwirlStep | src/react/components/GravitySwirlGesture.jsx:79-94 | while pinching the twist moves toward 1 at rate 1.5·delta; after a release it moves toward 0 at rate 3·delta and snaps to 0 when it lands within 0.01 of 0 |
| GravitySwirlGesture.ReleasedTwistSnaps | src/react/components/GravitySwirlGesture.jsx:92-94 | a released twist is exactly 0 or at least 0.01 away from 0 |
| GravitySwirlGesture.SwirlStaysInUnit | src/react/components/GravitySwirlGesture.jsx:86-94 | with 3·delta ≤ 1 a twist in [0, 1] stays there; pinching never lowers it and releasing never raises it |
| GravitySwirlGesture.ReleasedStaysZero | src/react/components/GravitySwirlGesture.jsx:86-94 | a twist at 0 stays 0 over any number of released frames |
| GravitySwirlGesture.ReleasedDecays | src/react/components/GravitySwirlGesture.jsx:86-94 | over any number of released frames a twist in [0, 1] stays between 0 and where it started |
| GravitySwirlGesture.GravitySwirl.constructor | src/react/components/GravitySwirlGesture.jsx:19-20 | both twists start at 0 with no calls made |
| GravitySwirlGesture.GravitySwirl.Frame | src/react/components/GravitySwirlGesture.jsx:27-98 | without setSwirl nothing changes; otherwise the target is 1 iff the first right hand pinches (gap below 4 cm), the twist takes one SwirlStep, and the twist is passed to setSwirl; missing XR data counts as not pinching |
| Common.Clamp | src/react/components/SupernovaGesture.jsx:142-143 | the clamped value lies in [lo, hi], equals x inside it, and the nearer bound outside it |
| Common.ApproachBetween | src/components/dimension-warp.js:294-297 | a step of fraction k in [0, 1] toward a target lands between current and target, and the remaining gap is (1 - k) of the old one |
| Common.IndexOf | src/components/synesthetic-particles.js:250 | the index is -1 iff the element is absent; otherwise it is the element's first occurrence |
| Common.RemoveFirst | src/components/synesthetic-particles.js:250-254 | an absent element leaves the list as it was; otherwise the list loses exactly its first occurrence and nothing else |

Two helpers have no row: `Common.ScaleWithin` (a non-negative amount scaled by a factor in [0, 1] stays between 0 and itself, used by `ApproachBetween` and the force clamp) and `FluidSphere.Put` (writes one vertex into a flat coordinate array and leaves the other entries, used by `CreateSphere`).

## Left out

- Rendering: Three.js meshes, materials, shaders (all GLSL strings), matrices, `needsUpdate` flags and object rotation are not modelled. They carry no decisions.
- Floating point: reals are exact. NaN, infinities and rounding are not modelled. This includes the `isNaN(diff)` guard in `SupernovaGesture.jsx` (136-137), which never fires on real numbers.
- `Math.sqrt`, `Math.sin`, `Math.cos`, `Math.acos`, `Math.pow` and `normalize` are parameters (`Geometry`, sine values, the `pow` curve). Only the properties the proofs need are assumed about them, as `requires` on the members that use them.
- `Math.random`, `performance.now()`, `setTimeout` and `setInterval` become explicit draw and time parameters, and timer callbacks become their own methods (`ResetTimerFires`, `Connect`).
- Audio I/O is out: `AudioContext`, media elements, the microphone, `resume` on a suspended context, and `getByteFrequencyData`, whose result is a parameter. Also out are the React utility's `start`/`dispose`, its audio element and the MusicStore wiring.
- `AudioReactive.AudioReactiveComponent.Tick`: the `setAttribute` that creates the system entity when none exists (lines 118-120) is not modelled.
- The A-Frame system's initial `data` has no `raw` field. The model gives it an empty spectrum.
- Logging, haptic pulses and debug UI are left out, including the supernova log gated by `Math.random() < 0.05`.
- DOM queries (`querySelector`, `components[...]`) become boolean or object parameters saying what was found.
- `SimplexNoise.noise4D` is out: its corner contributions and gradient dot products are floating-point arithmetic. The model covers the tables it reads and the rank and offset bookkeeping; the noise value is a parameter of the curl.
- The particle integration of the CPU tick is out: curl velocity, vortex and paint modes, damping, the homing loop while resetting, and scale pulses. The model covers the time step, the force computation and clamp, and the colour write.
- `FluidSphere.FluidSphere.Tick`: the noise breathing, the attractor influence sum and the wave ripple of each vertex arrive as the `disp` input. `Influence` states the per-attractor rule on its own.
- `DimensionWarp.DimensionWarp.Tick`: the intensity, glow and opacity uniforms and the steering rotation are not modelled.
- `HandDistance.HandDistanceSystem.Connect`: the CPU particle system's `addAttractor` registration of the two attractors is not modelled.
- `SimplexNoise.SeedValue`: requires a non-negative seed. Every call passes `Math.random() * 65536`. The 53-bit precision of `s * 16807` in JavaScript is not modelled: the step is exact integer arithmetic.
- `AudioAnalyzerSystem.RawBands`: requires more than 90 bins, as with the analyser's 512. With fewer, the source divides by a zero count and gets NaN.
- `AudioAnalyzerSystem.AudioAnalyzer.Tick`: requires more than 90 bins, for the same reason as `RawBands`.
- `ReactAudioAnalyzer.AudioAnalyzer.Update`: requires a spectrum of the analyser's 512 bins, which is what `getByteFrequencyData` writes.
- `AudioReactive.AudioReactiveComponent.Tick`: requires a spectrum of `bufferLength` bins, for the same reason.
- `VrMenu.VrMenu.SceneLoaded`: the `audio-analyzer` system reference it also looks up (line 26) is not modelled. Only the play button's `togglePlay` (lines 162-173) reads it, and that button, like the rest of the menu's entity construction, is not part of this model.
- `VrMenu.VrMenu.AdjustParticles`: requires a multiple of 1000, as the two buttons pass ±10000. For other steps the source would print a fractional label, which is not modelled.
- `SupernovaGesture.Supernova.Frame`: the session is taken to exist whenever the frame and the reference space do. The source would throw when `session` is null at line 44.
- `GravitySwirlGesture.GravitySwirl.Frame`: the `try`/`catch` around the pose reads is not modelled, since pose lookups cannot fail in the model.
- `SupernovaGesture.SmoothTowardTarget`: a spread target above 7 is never reached, because the sanity clamp stops the radius at 7. The lemma states the approach toward min(target, 7).
- `AudioReactive.AudioReactiveSystem.OnAudioAnalysis`: the source stores the component's own `Uint8Array` by reference, so the system's spectrum is overwritten in place by every later `getByteFrequencyData`; the model copies the spectrum by value at each update and does not model that aliasing.
