/** The gesture-detector system (src/systems/gesture-detector.js): an
    orientation-independent finger-extension test, a four-way gesture
    classifier, pinch detection with hysteresis, and per-hand debouncing of
    the classified gesture with start/end/change notifications. */
module GestureDetector {
  import opened Common

  datatype Side = Left | Right

  datatype Gesture = Unknown | Open | Fist | Point | Relaxed

  datatype Finger = Index | Middle | Ring | Pinky

  /** The hand joints the detector reads. */
  datatype Joint = Wrist | ThumbTip | Tip(finger: Finger) | Proximal(finger: Finger)

  /** The joints whose pose was resolved this frame, with their positions. */
  type Pose = map<Joint, Vec3>

  /** A registered hand entity, by identity. */
  type ElementId = nat

  datatype Event =
    | GestureChange(hand: Side, gesture: Gesture, previous: Gesture)
    | GestureStarted(hand: Side, gesture: Gesture)
    | GestureEnded(hand: Side, gesture: Gesture)

  /** An event emitted on a hand entity. */
  datatype Emission = Emission(target: ElementId, event: Event)

  const ExtensionMargin: real := 0.015
  const PinchEnter: real := 0.025
  const PinchExit: real := 0.040
  const StabilityThreshold: nat := 8

  // ---------------------------------------------------------------------
  // Finger extension and classification

  /** `isExtended`: unknown (None) when the tip, the proximal joint or the
      wrist is missing; otherwise whether the tip is more than 1.5 cm further
      from the wrist than the proximal joint. */
  function IsExtended(pose: Pose, f: Finger, dist: (Vec3, Vec3) -> real): (r: Option<bool>)
    ensures r.None? <==> (Tip(f) !in pose || Proximal(f) !in pose || Wrist !in pose)
    ensures r == Some(true) <==>
      (Tip(f) in pose && Proximal(f) in pose && Wrist in pose &&
       dist(pose[Tip(f)], pose[Wrist]) > dist(pose[Proximal(f)], pose[Wrist]) + ExtensionMargin)
  {
    if Tip(f) !in pose || Proximal(f) !in pose || Wrist !in pose then None
    else
      var tipDist := dist(pose[Tip(f)], pose[Wrist]);
      var baseDist := dist(pose[Proximal(f)], pose[Wrist]);
      Some(tipDist > baseDist + ExtensionMargin)
  }

  /** JavaScript truthiness of `isExtended`'s result: null counts as false. */
  predicate Truthy(o: Option<bool>) {
    o == Some(true)
  }

  /** The pose seen through a transformation of space. */
  function Transformed(pose: Pose, t: Vec3 -> Vec3): Pose {
    map j | j in pose :: t(pose[j])
  }

  /** The extension test is orientation-independent: any transformation that
      preserves distances (a rotation or translation of the hand) leaves it
      unchanged. */
  lemma ExtensionIsRigidInvariant(pose: Pose, f: Finger, dist: (Vec3, Vec3) -> real, t: Vec3 -> Vec3)
    requires forall a, b :: dist(t(a), t(b)) == dist(a, b)
    ensures IsExtended(Transformed(pose, t), f, dist) == IsExtended(pose, f, dist)
  {
    var q := Transformed(pose, t);
    if Tip(f) in pose && Proximal(f) in pose && Wrist in pose {
      assert dist(q[Tip(f)], q[Wrist]) == dist(pose[Tip(f)], pose[Wrist]);
      assert dist(q[Proximal(f)], q[Wrist]) == dist(pose[Proximal(f)], pose[Wrist]);
    }
  }

  /** `classifyGesture`: total, and never Unknown. All four fingers extended
      is open; none extended (unknown counts as not extended) is a fist; only
      the index extended is pointing; anything else is relaxed. */
  function Classify(pose: Pose, dist: (Vec3, Vec3) -> real): (g: Gesture)
    ensures g != Unknown
    ensures g == Open <==>
      (Truthy(IsExtended(pose, Index, dist)) && Truthy(IsExtended(pose, Middle, dist)) &&
       Truthy(IsExtended(pose, Ring, dist)) && Truthy(IsExtended(pose, Pinky, dist)))
    ensures g == Fist <==>
      (!Truthy(IsExtended(pose, Index, dist)) && !Truthy(IsExtended(pose, Middle, dist)) &&
       !Truthy(IsExtended(pose, Ring, dist)) && !Truthy(IsExtended(pose, Pinky, dist)))
    ensures g == Point <==>
      (Truthy(IsExtended(pose, Index, dist)) && !Truthy(IsExtended(pose, Middle, dist)) &&
       !Truthy(IsExtended(pose, Ring, dist)) && !Truthy(IsExtended(pose, Pinky, dist)))
  {
    var index := Truthy(IsExtended(pose, Index, dist));
    var middle := Truthy(IsExtended(pose, Middle, dist));
    var ring := Truthy(IsExtended(pose, Ring, dist));
    var pinky := Truthy(IsExtended(pose, Pinky, dist));
    if index && middle && ring && pinky then Open
    else if !index && !middle && !ring && !pinky then Fist
    else if index && !middle && !ring && !pinky then Point
    else Relaxed
  }

  // ---------------------------------------------------------------------
  // Pinch hysteresis

  /** The pinch state after one reading of the thumb-index distance. */
  function NextPinch(pinching: bool, d: real): (r: bool)
    ensures pinching ==> (r <==> d <= PinchExit)
    ensures !pinching ==> (r <==> d < PinchEnter)
  {
    if pinching then !(d > PinchExit) else d < PinchEnter
  }

  /** The pinch state after a sequence of readings. */
  function PinchAfter(pinching: bool, ds: seq<real>): bool
    decreases |ds|
  {
    if ds == [] then pinching else PinchAfter(NextPinch(pinching, ds[0]), ds[1..])
  }

  /** Readings inside the hysteresis band [2.5 cm, 4.0 cm] never toggle the
      pinch state, however long they oscillate. */
  lemma {:induction false} PinchBandNeverToggles(pinching: bool, ds: seq<real>)
    requires forall i :: 0 <= i < |ds| ==> PinchEnter <= ds[i] <= PinchExit
    ensures PinchAfter(pinching, ds) == pinching
    decreases |ds|
  {
    if ds != [] {
      assert NextPinch(pinching, ds[0]) == pinching;
      PinchBandNeverToggles(pinching, ds[1..]);
    }
  }

  // ---------------------------------------------------------------------
  // Debouncing, on values

  function CountOf(counters: map<Gesture, nat>, g: Gesture): nat {
    if g in counters then counters[g] else 0
  }

  /** The counters after observing `raw`: its counter is incremented (from 0
      when absent), every other counter already present is zeroed. */
  function Bump(counters: map<Gesture, nat>, raw: Gesture): (r: map<Gesture, nat>)
    ensures r.Keys == counters.Keys + {raw}
    ensures r[raw] == CountOf(counters, raw) + 1
    ensures forall g :: g in r && g != raw ==> r[g] == 0
  {
    map g | g in counters.Keys + {raw} :: if g == raw then CountOf(counters, raw) + 1 else 0
  }

  /** One hand's debouncing state: the committed gesture and the counters. */
  datatype SideState = SideState(committed: Gesture, counters: map<Gesture, nat>)

  /** Whether observing `raw` commits a transition. */
  predicate Commits(s: SideState, raw: Gesture) {
    Bump(s.counters, raw)[raw] >= StabilityThreshold && raw != s.committed
  }

  /** `updateGesture` on one hand's state. */
  function UpdateSide(s: SideState, raw: Gesture): (r: SideState)
    ensures r.counters == Bump(s.counters, raw)
    ensures r.committed != s.committed ==>
      r.committed == raw && CountOf(s.counters, raw) + 1 >= StabilityThreshold
    ensures r.committed == (if Commits(s, raw) then raw else s.committed)
  {
    var c := Bump(s.counters, raw);
    SideState(if c[raw] >= StabilityThreshold && raw != s.committed then raw else s.committed, c)
  }

  /** The notifications of a committed transition from `prev` to `g`:
      change, then start of the new gesture, then end of the previous one
      unless it was unknown. */
  function CommitEvents(side: Side, prev: Gesture, g: Gesture): (evs: seq<Event>)
    ensures |evs| == if prev == Unknown then 2 else 3
    ensures evs[0] == GestureChange(side, g, prev) && evs[1] == GestureStarted(side, g)
    ensures prev != Unknown ==> evs[2] == GestureEnded(side, prev)
  {
    [GestureChange(side, g, prev), GestureStarted(side, g)] +
    (if prev != Unknown then [GestureEnded(side, prev)] else [])
  }

  function EmitAll(target: ElementId, evs: seq<Event>): (r: seq<Emission>)
    ensures |r| == |evs|
    ensures forall i :: 0 <= i < |r| ==> r[i] == Emission(target, evs[i])
    decreases |evs|
  {
    if evs == [] then [] else [Emission(target, evs[0])] + EmitAll(target, evs[1..])
  }

  /** The state after a sequence of raw classifications, oldest first. */
  function Run(s: SideState, raws: seq<Gesture>): SideState
    decreases |raws|
  {
    if raws == [] then s else UpdateSide(Run(s, raws[..|raws| - 1]), raws[|raws| - 1])
  }

  /** How many of the last entries of `raws` equal its last entry. */
  function TrailingRun(raws: seq<Gesture>): nat
    decreases |raws|
  {
    if |raws| == 0 then 0
    else if |raws| == 1 || raws[|raws| - 2] != raws[|raws| - 1] then 1
    else TrailingRun(raws[..|raws| - 1]) + 1
  }

  /** Counters that carry no history. */
  predicate Fresh(counters: map<Gesture, nat>) {
    forall g :: g in counters ==> counters[g] == 0
  }

  /** From fresh counters, the counter of the latest classification is the
      length of its current run and every other counter is 0. */
  lemma {:induction false} CountersTrackRun(s: SideState, raws: seq<Gesture>)
    requires Fresh(s.counters)
    requires raws != []
    ensures CountOf(Run(s, raws).counters, raws[|raws| - 1]) == TrailingRun(raws)
    ensures forall g :: g != raws[|raws| - 1] ==> CountOf(Run(s, raws).counters, g) == 0
    decreases |raws|
  {
    var n := |raws|;
    var prefix := raws[..n - 1];
    if n == 1 {
      assert prefix == [];
    } else {
      CountersTrackRun(s, prefix);
      assert prefix[..|prefix|] == prefix;
      if raws[n - 2] == raws[n - 1] {
        assert prefix[|prefix| - 1] == raws[n - 1];
      }
    }
  }

  /** A classification that never holds for 8 consecutive frames never
      commits a transition: the committed gesture stays what it was. */
  lemma {:induction false} ShortRunsNeverCommit(s: SideState, raws: seq<Gesture>)
    requires Fresh(s.counters)
    requires forall k :: 1 <= k <= |raws| ==> TrailingRun(raws[..k]) < StabilityThreshold
    ensures Run(s, raws).committed == s.committed
    decreases |raws|
  {
    var n := |raws|;
    if n > 0 {
      var prefix := raws[..n - 1];
      forall k | 1 <= k <= |prefix| ensures TrailingRun(prefix[..k]) < StabilityThreshold {
        assert prefix[..k] == raws[..k];
      }
      ShortRunsNeverCommit(s, prefix);
      CountersTrackRun(s, raws);
      assert raws[..n] == raws;
      assert Run(s, raws) == UpdateSide(Run(s, prefix), raws[n - 1]);
    }
  }

  function Repeat(g: Gesture, n: nat): (r: seq<Gesture>)
    ensures |r| == n && forall i :: 0 <= i < n ==> r[i] == g
  {
    seq(n, _ => g)
  }

  /** How many of the frames of `raws` commit a transition. */
  function CommitCount(s: SideState, raws: seq<Gesture>): nat
    decreases |raws|
  {
    if raws == [] then 0
    else
      var prefix := raws[..|raws| - 1];
      CommitCount(s, prefix) + (if Commits(Run(s, prefix), raws[|raws| - 1]) then 1 else 0)
  }

  /** Trailing run of a constant sequence. */
  lemma {:induction false} TrailingRunOfRepeat(g: Gesture, n: nat)
    ensures TrailingRun(Repeat(g, n)) == n
    decreases n
  {
    if n > 1 {
      assert Repeat(g, n)[..n - 1] == Repeat(g, n - 1);
      TrailingRunOfRepeat(g, n - 1);
    }
  }

  /** Holding a new gesture for 8 frames from fresh counters commits exactly
      one transition, on the 8th frame, and it commits that gesture. */
  lemma {:induction false} EightFramesCommitOnce(s: SideState, g: Gesture, n: nat)
    requires Fresh(s.counters) && g != s.committed
    requires 1 <= n <= StabilityThreshold
    ensures CommitCount(s, Repeat(g, n)) == (if n == StabilityThreshold then 1 else 0)
    ensures Run(s, Repeat(g, n)).committed == (if n == StabilityThreshold then g else s.committed)
    decreases n
  {
    var raws := Repeat(g, n);
    var prefix := raws[..n - 1];
    assert prefix == Repeat(g, n - 1);
    TrailingRunOfRepeat(g, n);
    CountersTrackRun(s, raws);
    if n == 1 {
      assert prefix == [];
      assert Bump(s.counters, g)[g] == CountOf(s.counters, g) + 1;
    } else {
      EightFramesCommitOnce(s, g, n - 1);
      TrailingRunOfRepeat(g, n - 1);
      CountersTrackRun(s, prefix);
    }
    assert Run(s, raws) == UpdateSide(Run(s, prefix), g);
  }

  /** The counter update of `updateGesture` as the source performs it:
      increment the counter of `raw`, then walk over every key and zero the
      ones that are not `raw`. */
  method ZeroOthers(counters: map<Gesture, nat>, raw: Gesture) returns (r: map<Gesture, nat>)
    ensures r == Bump(counters, raw)
  {
    r := counters[raw := CountOf(counters, raw) + 1];
    var keys := r.Keys;
    while keys != {}
      invariant keys <= r.Keys && r.Keys == counters.Keys + {raw}
      invariant forall g :: g in r && g !in keys && g != raw ==> r[g] == 0
      invariant forall g :: g in keys && g != raw ==> r[g] == counters[g]
      invariant raw in r && r[raw] == CountOf(counters, raw) + 1
      decreases keys
    {
      var g :| g in keys;
      if g != raw {
        r := r[g := 0];
      }
      keys := keys - {g};
    }
    ghost var b := Bump(counters, raw);
    assert r.Keys == b.Keys;
    assert forall g :: g in r ==> r[g] == b[g];
  }

  // ---------------------------------------------------------------------
  // The system object

  class GestureDetectorSystem {
    var hands: map<Side, ElementId>
    var gestures: map<Side, Gesture>
    var gestureCounters: map<Side, map<Gesture, nat>>
    var pinching: map<Side, bool>
    /** Events emitted on the registered hand entities, oldest first. */
    var emitted: seq<Emission>

    ghost predicate Valid()
      reads this
    {
      Left in gestures && Left in gestureCounters && Left in pinching
      && Right in gestures && Right in gestureCounters && Right in pinching
    }

    function SideOf(side: Side): (s: SideState)
      reads this
      requires Valid()
    {
      assert side == Left || side == Right;
      SideState(gestures[side], gestureCounters[side])
    }

    constructor ()
      ensures Valid()
      ensures hands == map[] && emitted == []
      ensures gestures == map[Left := Unknown, Right := Unknown]
      ensures gestureCounters == map[Left := map[], Right := map[]]
      ensures pinching == map[Left := false, Right := false]
    {
      hands := map[];
      gestures := map[Left := Unknown, Right := Unknown];
      gestureCounters := map[Left := map[], Right := map[]];
      pinching := map[Left := false, Right := false];
      emitted := [];
    }

    /** `registerHand`. */
    method RegisterHand(side: Side, el: ElementId)
      modifies this
      ensures hands == old(hands)[side := el]
      ensures gestures == old(gestures) && gestureCounters == old(gestureCounters)
      ensures pinching == old(pinching) && emitted == old(emitted)
    {
      hands := hands[side := el];
    }

    /** `getGesture`: the committed gesture of a hand. */
    method GetGesture(side: Side) returns (g: Gesture)
      requires Valid()
      ensures g == gestures[side]
      ensures g == SideOf(side).committed
    {
      g := gestures[side];
    }

    /** `isPinching`: false, with the stored state untouched, when the thumb
        tip or the index tip is missing; otherwise the hysteresis step. */
    method IsPinching(pose: Pose, side: Side, dist: (Vec3, Vec3) -> real) returns (p: bool)
      requires Valid()
      modifies this
      ensures Valid()
      ensures ThumbTip !in pose || Tip(Index) !in pose ==> !p && pinching == old(pinching)
      ensures ThumbTip in pose && Tip(Index) in pose ==>
        pinching == old(pinching)[side := NextPinch(old(pinching[side]), dist(pose[ThumbTip], pose[Tip(Index)]))] &&
        p == pinching[side]
      ensures hands == old(hands) && gestures == old(gestures)
      ensures gestureCounters == old(gestureCounters) && emitted == old(emitted)
    {
      if ThumbTip !in pose || Tip(Index) !in pose {
        return false;
      }
      var d := dist(pose[ThumbTip], pose[Tip(Index)]);
      if pinching[side] {
        if d > PinchExit {
          pinching := pinching[side := false];
        }
      } else {
        if d < PinchEnter {
          pinching := pinching[side := true];
        }
      }
      p := pinching[side];
    }

    /** `updateGesture`: bump the counters (zeroing the others in a loop over
        the keys), commit when the counter reaches the threshold and differs
        from the committed gesture, and emit the notifications on the
        registered entity, if any. */
    method UpdateGesture(side: Side, raw: Gesture)
      requires Valid()
      modifies this`gestures, this`gestureCounters, this`emitted
      ensures Valid()
      ensures SideOf(side) == UpdateSide(old(SideOf(side)), raw)
      ensures gestures == old(gestures)[side := SideOf(side).committed]
      ensures gestureCounters == old(gestureCounters)[side := Bump(old(gestureCounters[side]), raw)]
      ensures emitted == old(emitted) +
        (if Commits(old(SideOf(side)), raw) && side in hands
         then EmitAll(hands[side], CommitEvents(side, old(gestures[side]), raw))
         else [])
      ensures hands == old(hands) && pinching == old(pinching)
    {
      ghost var before := SideOf(side);
      ghost var after := UpdateSide(before, raw);
      var prev := gestures[side];
      var counters := ZeroOthers(gestureCounters[side], raw);
      var commit := counters[raw] >= StabilityThreshold && raw != prev;
      assert commit == Commits(before, raw);
      assert after == SideState(if commit then raw else prev, counters);
      gestureCounters := gestureCounters[side := counters];
      if commit {
        gestures := gestures[side := raw];
        if side in hands {
          emitted := emitted + EmitAll(hands[side], CommitEvents(side, prev, raw));
        }
      }
    }

    /** `processHand` after the joint poses are read: nothing happens without
        a wrist pose; otherwise the classification is debounced. The pinch
        test is not consulted here. */
    method ProcessHand(side: Side, pose: Pose, dist: (Vec3, Vec3) -> real)
      requires Valid()
      modifies this`gestures, this`gestureCounters, this`emitted
      ensures Valid()
      ensures Wrist !in pose ==>
        gestures == old(gestures) && gestureCounters == old(gestureCounters) && emitted == old(emitted)
      ensures Wrist in pose ==> SideOf(side) == UpdateSide(old(SideOf(side)), Classify(pose, dist))
      ensures Wrist in pose ==> gestures == old(gestures)[side := SideOf(side).committed]
      ensures Wrist in pose ==>
        gestureCounters == old(gestureCounters)[side := Bump(old(gestureCounters[side]), Classify(pose, dist))]
      ensures Wrist in pose ==>
        emitted == old(emitted) +
          (if Commits(old(SideOf(side)), Classify(pose, dist)) && side in hands
           then EmitAll(hands[side], CommitEvents(side, old(gestures[side]), Classify(pose, dist)))
           else [])
      ensures hands == old(hands) && pinching == old(pinching)
    {
      if Wrist !in pose {
        return;
      }
      var gesture := Classify(pose, dist);
      UpdateGesture(side, gesture);
    }
  }
}
