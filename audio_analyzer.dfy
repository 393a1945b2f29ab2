/** The audio-analyser system: three frequency bands averaged from the
    byte spectrum, a global volume, a bass beat detector with a moving
    threshold and a 100 ms hold, smoothed bands for the visuals, and
    play/pause control. */
module AudioAnalyzerSystem {
  import opened Common

  /** Events the system emits on its element. */
  datatype AudioEvent = AudioPlay | AudioPause | AudioBeat(level: real)

  const BeatHoldTime := 100.0
  const SmoothFactor := 0.6

  /** The sum of a run of bins, accumulated from the left. */
  function Sum(xs: seq<Byte>): int {
    if xs == [] then 0 else Sum(xs[..|xs| - 1]) + xs[|xs| - 1]
  }

  /** A sum of n bytes lies in [0, 255·n]. */
  lemma {:induction false} SumBounds(xs: seq<Byte>)
    ensures 0 <= Sum(xs) <= 255 * |xs|
  {
    if xs != [] {
      SumBounds(xs[..|xs| - 1]);
    }
  }

  /** The loop `for (i = lo; i < hi; i++) sum += bins[i]`. */
  method SumBins(bins: seq<Byte>, lo: nat, hi: nat) returns (s: int)
    requires lo <= hi <= |bins|
    ensures s == Sum(bins[lo..hi])
    ensures 0 <= s <= 255 * (hi - lo)
  {
    s := 0;
    var i := lo;
    while i < hi
      invariant lo <= i <= hi
      invariant s == Sum(bins[lo..i])
    {
      assert bins[lo..i + 1][..i - lo] == bins[lo..i];
      s := s + bins[i];
      i := i + 1;
    }
    SumBounds(bins[lo..hi]);
  }

  /** A byte sum over n bins, averaged and scaled to [0, 1]. */
  function Level(sum: int, n: nat): real
    requires n > 0
  {
    (sum as real / n as real) / 255.0
  }

  lemma LevelInUnit(sum: int, n: nat)
    requires n > 0 && 0 <= sum <= 255 * n
    ensures 0.0 <= Level(sum, n) <= 1.0
  {
    var r := n as real;
    var m := sum as real / r;
    assert (255.0 * r) / r == 255.0;
    assert (255.0 * r - sum as real) / r == (255.0 * r) / r - m;
    assert (255.0 * r - sum as real) / r >= 0.0;
  }

  /** The raw bands of one spectrum: bass from bins 0-3, mid from bins
      7-57, high from bin 90 to the end, tripled and capped at 1. */
  function RawBands(bins: seq<Byte>): (b: Bands)
    requires |bins| > 90
    ensures 0.0 <= b.bass <= 1.0 && 0.0 <= b.mid <= 1.0 && 0.0 <= b.high <= 1.0
    ensures b.high == Min(Level(Sum(bins[90..]), |bins| - 90) * 3.0, 1.0)
  {
    SumBounds(bins[0..4]);
    SumBounds(bins[7..58]);
    SumBounds(bins[90..]);
    LevelInUnit(Sum(bins[0..4]), 4);
    LevelInUnit(Sum(bins[7..58]), 51);
    LevelInUnit(Sum(bins[90..]), |bins| - 90);
    Bands(Level(Sum(bins[0..4]), 4), Level(Sum(bins[7..58]), 51),
          Min(Level(Sum(bins[90..]), |bins| - 90) * 3.0, 1.0))
  }

  /** The beat detector's state. */
  datatype BeatState = BeatState(threshold: real, isBeat: bool, hold: bool, timer: real)

  /** The threshold is a slow moving average of the bass level. */
  function NextThreshold(threshold: real, bass: real): real {
    threshold * 0.95 + bass * 0.05
  }

  /** A bass spike: 30% above the updated threshold and above 0.3. */
  predicate Spike(threshold: real, bass: real) {
    bass > NextThreshold(threshold, bass) * 1.3 && bass > 0.3
  }

  /** A beat fires on a spike while the hold is released. */
  predicate Fires(s: BeatState, bass: real) {
    Spike(s.threshold, bass) && !s.hold
  }

  /** One frame of beat detection: update the threshold, fire on a spike
      outside the hold, clear the beat flag without a spike, and count the
      hold down, releasing it once more than 100 ms have accumulated. */
  function BeatStep(s: BeatState, bass: real, delta: real): (r: BeatState)
    ensures r.threshold == NextThreshold(s.threshold, bass)
    ensures !Spike(s.threshold, bass) ==> !r.isBeat
    ensures Fires(s, bass) ==> r.isBeat
    ensures Spike(s.threshold, bass) && s.hold ==> r.isBeat == s.isBeat
    ensures r.hold ==> s.hold || Fires(s, bass)
    ensures !r.hold ==> r.timer == 0.0 || (r.timer == s.timer && !s.hold && !Fires(s, bass))
  {
    var t := NextThreshold(s.threshold, bass);
    var spike := Spike(s.threshold, bass);
    var isBeat := if spike then (if !s.hold then true else s.isBeat) else false;
    var hold := spike || s.hold;
    if hold then
      var timer := s.timer + delta;
      if timer > BeatHoldTime then BeatState(t, isBeat, false, 0.0)
      else BeatState(t, isBeat, true, timer)
    else BeatState(t, isBeat, false, s.timer)
  }

  /** The threshold stays between its old value and the bass level. */
  lemma ThresholdBetween(threshold: real, bass: real)
    ensures Between(NextThreshold(threshold, bass), threshold, bass)
  {
    assert NextThreshold(threshold, bass) == Approach(threshold, bass, 0.05);
    ApproachBetween(threshold, bass, 0.05);
  }

  /** A run of frames, each a bass level and a frame time. */
  datatype Frame = Frame(bass: real, delta: real)

  function TotalDelta(frames: seq<Frame>): real {
    if frames == [] then 0.0 else frames[0].delta + TotalDelta(frames[1..])
  }

  /** The number of beats a run of frames fires. */
  function BeatCount(s: BeatState, frames: seq<Frame>): nat
    decreases |frames|
  {
    if frames == [] then 0
    else (if Fires(s, frames[0].bass) then 1 else 0)
         + BeatCount(BeatStep(s, frames[0].bass, frames[0].delta), frames[1..])
  }

  /** While the hold is on and at most 100 ms accumulate, no beat fires. */
  lemma {:induction false} HoldSuppressesBeats(s: BeatState, frames: seq<Frame>)
    requires s.hold
    requires forall i :: 0 <= i < |frames| ==> frames[i].delta >= 0.0
    requires s.timer + TotalDelta(frames) <= BeatHoldTime
    ensures BeatCount(s, frames) == 0
    decreases |frames|
  {
    if frames != [] {
      var s1 := BeatStep(s, frames[0].bass, frames[0].delta);
      NonNegativeTotal(frames[1..]);
      assert s1.hold && s1.timer == s.timer + frames[0].delta;
      HoldSuppressesBeats(s1, frames[1..]);
    }
  }

  lemma {:induction false} NonNegativeTotal(frames: seq<Frame>)
    requires forall i :: 0 <= i < |frames| ==> frames[i].delta >= 0.0
    ensures TotalDelta(frames) >= 0.0
  {
    if frames != [] {
      NonNegativeTotal(frames[1..]);
    }
  }

  /** At most one beat per hold window: from a released state (timer 0),
      a run whose frame times add up to at most 100 ms fires at most once. */
  lemma {:induction false} AtMostOneBeatPerWindow(s: BeatState, frames: seq<Frame>)
    requires !s.hold && s.timer == 0.0
    requires forall i :: 0 <= i < |frames| ==> frames[i].delta >= 0.0
    requires TotalDelta(frames) <= BeatHoldTime
    ensures BeatCount(s, frames) <= 1
    decreases |frames|
  {
    if frames != [] {
      var s1 := BeatStep(s, frames[0].bass, frames[0].delta);
      NonNegativeTotal(frames[1..]);
      if Fires(s, frames[0].bass) {
        HoldSuppressesBeats(s1, frames[1..]);
      } else {
        AtMostOneBeatPerWindow(s1, frames[1..]);
      }
    }
  }

  /** One smoothing step: 60% of the way toward the raw band. */
  function SmoothBand(current: real, raw: real): real {
    current + (raw - current) * SmoothFactor
  }

  function SmoothBands(current: Bands, raw: Bands): Bands {
    Bands(SmoothBand(current.bass, raw.bass), SmoothBand(current.mid, raw.mid),
          SmoothBand(current.high, raw.high))
  }

  /** Each smoothed band lands between its old value and the raw band, so
      bands that start in [0, 1] stay there. */
  lemma SmoothBandsBetween(current: Bands, raw: Bands)
    ensures var r := SmoothBands(current, raw);
      Between(r.bass, current.bass, raw.bass) && Between(r.mid, current.mid, raw.mid)
      && Between(r.high, current.high, raw.high)
  {
    ApproachBetween(current.bass, raw.bass, SmoothFactor);
    ApproachBetween(current.mid, raw.mid, SmoothFactor);
    ApproachBetween(current.high, raw.high, SmoothFactor);
  }

  predicate InUnit(b: Bands) {
    0.0 <= b.bass <= 1.0 && 0.0 <= b.mid <= 1.0 && 0.0 <= b.high <= 1.0
  }

  class AudioAnalyzer {
    var hasContext: bool
    var hasAudio: bool
    var isPlaying: bool
    var bands: Bands
    var volume: real
    var isBeat: bool
    var beatThreshold: real
    var beatHold: bool
    var beatTimer: real
    var smoothBands: Bands
    var emitted: seq<AudioEvent>

    /** Bands, threshold and smoothed bands stay in [0, 1]; the hold timer
        is 0 whenever the hold is released. */
    ghost predicate Valid()
      reads this
    {
      InUnit(bands) && InUnit(smoothBands) && 0.0 <= beatThreshold <= 1.0
      && beatTimer >= 0.0 && (!beatHold ==> beatTimer == 0.0)
    }

    function Beat(): BeatState
      reads this
    {
      BeatState(beatThreshold, isBeat, beatHold, beatTimer)
    }

    constructor ()
      ensures Valid()
      ensures !hasContext && !hasAudio && !isPlaying && emitted == []
      ensures bands == Bands(0.0, 0.0, 0.0) && smoothBands == Bands(0.0, 0.0, 0.0)
      ensures volume == 0.0 && !isBeat && !beatHold && beatThreshold == 0.0
    {
      hasContext, hasAudio, isPlaying := false, false, false;
      bands := Bands(0.0, 0.0, 0.0);
      volume := 0.0;
      isBeat, beatThreshold, beatHold, beatTimer := false, 0.0, false, 0.0;
      smoothBands := Bands(0.0, 0.0, 0.0);
      emitted := [];
    }

    /** `loadAudio`: the context and analyser exist from the first load on,
        and an audio element is attached. */
    method LoadAudio()
      modifies this`hasContext, this`hasAudio
      ensures hasContext && hasAudio
    {
      hasContext, hasAudio := true, true;
    }

    /** `play`: only with an audio element and a context. */
    method Play()
      modifies this`isPlaying, this`emitted
      ensures hasAudio && hasContext ==> isPlaying && emitted == old(emitted) + [AudioPlay]
      ensures !(hasAudio && hasContext) ==> isPlaying == old(isPlaying) && emitted == old(emitted)
    {
      if hasAudio && hasContext {
        isPlaying := true;
        emitted := emitted + [AudioPlay];
      }
    }

    /** `pause`: only with an audio element. */
    method Pause()
      modifies this`isPlaying, this`emitted
      ensures hasAudio ==> !isPlaying && emitted == old(emitted) + [AudioPause]
      ensures !hasAudio ==> isPlaying == old(isPlaying) && emitted == old(emitted)
    {
      if hasAudio {
        isPlaying := false;
        emitted := emitted + [AudioPause];
      }
    }

    /** `toggle` flips the playing state whenever the guard of the call it
        makes holds. */
    method Toggle()
      modifies this`isPlaying, this`emitted
      ensures old(isPlaying) && hasAudio ==> !isPlaying && emitted == old(emitted) + [AudioPause]
      ensures !old(isPlaying) && hasAudio && hasContext ==> isPlaying && emitted == old(emitted) + [AudioPlay]
      ensures !hasAudio ==> isPlaying == old(isPlaying) && emitted == old(emitted)
    {
      if isPlaying {
        Pause();
      } else {
        Play();
      }
    }

    /** `getBands` hands out the smoothed bands. */
    method GetBands() returns (b: Bands)
      requires Valid()
      ensures b == smoothBands && InUnit(b)
    {
      b := smoothBands;
    }

    /** The beat-detection statements of `tick` for the bass level
        `energy`. */
    method DetectBeat(energy: real, delta: real)
      requires 0.0 <= energy <= 1.0 && 0.0 <= beatThreshold <= 1.0 && delta >= 0.0
      requires beatTimer >= 0.0 && (!beatHold ==> beatTimer == 0.0)
      modifies this`isBeat, this`beatThreshold, this`beatHold, this`beatTimer, this`emitted
      ensures 0.0 <= beatThreshold <= 1.0 && beatTimer >= 0.0 && (!beatHold ==> beatTimer == 0.0)
      ensures Beat() == BeatStep(old(Beat()), energy, delta)
      ensures emitted == old(emitted) + (if Fires(old(Beat()), energy) then [AudioBeat(energy)] else [])
    {
      ThresholdBetween(beatThreshold, energy);
      beatThreshold := beatThreshold * 0.95 + energy * 0.05;
      if energy > beatThreshold * 1.3 && energy > 0.3 {
        if !beatHold {
          isBeat := true;
          beatHold := true;
          emitted := emitted + [AudioBeat(energy)];
        }
      } else {
        isBeat := false;
      }
      if beatHold {
        beatTimer := beatTimer + delta;
        if beatTimer > BeatHoldTime {
          beatHold := false;
          beatTimer := 0.0;
        }
      }
    }

    /** `tick` with the spectrum `bins` (one byte per analyser bin) and the
        frame time `delta` in milliseconds. */
    method Tick(bins: seq<Byte>, delta: real)
      requires Valid() && |bins| > 90 && delta >= 0.0
      modifies this`bands, this`volume, this`isBeat, this`beatThreshold, this`beatHold, this`beatTimer
      modifies this`smoothBands, this`emitted
      ensures Valid()
      ensures !(hasContext && isPlaying) ==>
                bands == old(bands) && smoothBands == old(smoothBands) && Beat() == old(Beat())
                && emitted == old(emitted) && volume == old(volume)
      ensures hasContext && isPlaying ==>
                bands == RawBands(bins)
                && volume == (bands.bass + bands.mid + bands.high) / 3.0
                && Beat() == BeatStep(old(Beat()), bands.bass, delta)
                && emitted == old(emitted) + (if Fires(old(Beat()), bands.bass) then [AudioBeat(bands.bass)] else [])
                && smoothBands == SmoothBands(old(smoothBands), bands)
    {
      if !hasContext || !isPlaying {
        return;
      }
      var bassSum := SumBins(bins, 0, 4);
      var midSum := SumBins(bins, 7, 58);
      var highSum := SumBins(bins, 90, |bins|);
      bands := RawBands(bins);
      assert bands.bass == Level(bassSum, 4) && bands.mid == Level(midSum, 51);
      volume := (bands.bass + bands.mid + bands.high) / 3.0;
      DetectBeat(bands.bass, delta);
      SmoothBandsBetween(smoothBands, bands);
      smoothBands := SmoothBands(smoothBands, bands);
    }
  }
}
