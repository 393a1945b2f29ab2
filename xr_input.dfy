/** The WebXR hand input the React gesture components read: input sources
    with a handedness and possibly a tracked hand, and the joint positions
    of that hand in the reference space. */
module XrInput {
  import opened Common

  datatype Handedness = LeftHand | RightHand | NoHandedness

  /** The joints the gestures read. A joint is `None` when the hand has no
      such joint or the frame gives no pose for it. */
  datatype Hand = Hand(
    wrist: Option<Vec3>,
    thumbTip: Option<Vec3>,
    indexTip: Option<Vec3>,
    indexMetacarpal: Option<Vec3>,
    pinkyMetacarpal: Option<Vec3>)

  datatype InputSource = InputSource(handedness: Handedness, hand: Option<Hand>)

  /** A source that is a tracked hand of the given side. */
  predicate Tracked(s: InputSource, side: Handedness) {
    s.hand.Some? && s.handedness == side
  }

  /** The hand of the LAST tracked source of a side, as a scan that keeps
      overwriting its variable finds it. */
  function LastHand(sources: seq<InputSource>, side: Handedness): (r: Option<Hand>)
    ensures r.Some? <==> exists i :: 0 <= i < |sources| && Tracked(sources[i], side)
    ensures r.Some? ==>
      exists i :: (0 <= i < |sources| && Tracked(sources[i], side) && sources[i].hand == r
                   && forall j :: i < j < |sources| ==> !Tracked(sources[j], side))
  {
    if sources == [] then None
    else
      var last := sources[|sources| - 1];
      if Tracked(last, side) then last.hand
      else
        var r := LastHand(sources[..|sources| - 1], side);
        assert forall i :: 0 <= i < |sources| - 1 ==> sources[..|sources| - 1][i] == sources[i];
        r
  }

  /** The hand of the FIRST tracked source of a side, as a scan that stops
      at its first match finds it. */
  function FirstHand(sources: seq<InputSource>, side: Handedness): (r: Option<Hand>)
    ensures r.Some? <==> exists i :: 0 <= i < |sources| && Tracked(sources[i], side)
    ensures r.Some? ==>
      exists i :: (0 <= i < |sources| && Tracked(sources[i], side) && sources[i].hand == r
                   && forall j :: 0 <= j < i ==> !Tracked(sources[j], side))
  {
    if sources == [] then None
    else if Tracked(sources[0], side) then sources[0].hand
    else
      var r := FirstHand(sources[1..], side);
      assert forall i :: 1 <= i < |sources| ==> sources[1..][i - 1] == sources[i];
      r
  }

  /** With one tracked source per side, the first and the last agree; with
      two, the two scans can pick different hands. */
  lemma SingleSourceScansAgree(sources: seq<InputSource>, side: Handedness, k: nat)
    requires k < |sources| && Tracked(sources[k], side)
    requires forall j :: 0 <= j < |sources| && j != k ==> !Tracked(sources[j], side)
    ensures FirstHand(sources, side) == LastHand(sources, side) == sources[k].hand
  {
  }

  /** The distance between thumb tip and index tip, when both are known. */
  function TipGap(h: Hand, geo: Geometry): (r: Option<real>)
    ensures r.Some? <==> h.thumbTip.Some? && h.indexTip.Some?
  {
    if h.thumbTip.Some? && h.indexTip.Some? then Some(geo.dist(h.thumbTip.value, h.indexTip.value)) else None
  }

  /** A pinch: both tips known and closer than `limit`. */
  predicate PinchedWithin(h: Hand, geo: Geometry, limit: real) {
    var gap := TipGap(h, geo);
    gap.Some? && gap.value < limit
  }
}
