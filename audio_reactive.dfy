/** The `audio-reactive` component and system of the A-Frame version: each
    frame the byte spectrum is averaged over bins [0, 10), [10, 110) and
    [100, 600) (clipped to the spectrum), scaled to [0, 1] and emitted as an
    `audio-analysis` event, whose detail the system stores. */
module AudioReactive {
  import opened Common
  import AudioAnalyzerSystem

  /** The schema default of `fftSize`. */
  const DefaultFftSize := 2048

  /** The detail of an `audio-analysis` event: the three levels and the
      spectrum they came from. */
  datatype Analysis = Analysis(bass: real, mid: real, high: real, raw: seq<Byte>)

  /** The end of the bin range `getAverageFrequency(start, count)` reads:
      `min(start + count, bufferLength)`. */
  function RangeEnd(start: nat, count: nat, bufferLength: nat): nat {
    if start + count < bufferLength then start + count else bufferLength
  }

  /** The mean byte of bins [start, end) with end = `RangeEnd`, and 0 when
      that range is empty. (When start lies past the spectrum the source
      divides a zero sum by a negative count, which is again zero.) */
  function AverageFrequency(data: seq<Byte>, start: nat, count: nat): (r: real)
    ensures 0.0 <= r <= 255.0
    ensures RangeEnd(start, count, |data|) <= start ==> r == 0.0
    ensures start < RangeEnd(start, count, |data|) ==>
      r * (RangeEnd(start, count, |data|) - start) as real
        == AudioAnalyzerSystem.Sum(data[start..RangeEnd(start, count, |data|)]) as real
  {
    var end := RangeEnd(start, count, |data|);
    if end <= start then 0.0
    else
      var n := end - start;
      AudioAnalyzerSystem.SumBounds(data[start..end]);
      MeanInByteRange(AudioAnalyzerSystem.Sum(data[start..end]), n);
      AudioAnalyzerSystem.Sum(data[start..end]) as real / n as real
  }

  lemma MeanInByteRange(sum: int, n: nat)
    requires n > 0 && 0 <= sum <= 255 * n
    ensures 0.0 <= sum as real / n as real <= 255.0
  {
    var r := n as real;
    assert (255.0 * r) / r == 255.0;
    assert (255.0 * r - sum as real) / r == (255.0 * r) / r - sum as real / r;
    assert (255.0 * r - sum as real) / r >= 0.0;
  }

  /** A band level in [0, 1]: the average frequency divided by 255. */
  function BandLevel(data: seq<Byte>, start: nat, count: nat): (r: real)
    ensures 0.0 <= r <= 1.0
    ensures r * 255.0 == AverageFrequency(data, start, count)
  {
    AverageFrequency(data, start, count) / 255.0
  }

  /** The detail emitted for one spectrum. */
  function Analyse(data: seq<Byte>): Analysis {
    Analysis(BandLevel(data, 0, 10), BandLevel(data, 10, 100), BandLevel(data, 100, 500), data)
  }

  /** On a spectrum of at most 100 bins (an `fftSize` of 128 or 256) the
      high band reads no bin at all and stays 0; on one of at least 600
      bins every band averages exactly its nominal bins. */
  lemma BandsBySpectrumSize(data: seq<Byte>)
    ensures |data| <= 100 ==> Analyse(data).high == 0.0
    ensures |data| <= 10 ==> Analyse(data).mid == 0.0
    ensures |data| >= 600 ==>
      Analyse(data).bass * 255.0 * 10.0 == AudioAnalyzerSystem.Sum(data[0..10]) as real
      && Analyse(data).mid * 255.0 * 100.0 == AudioAnalyzerSystem.Sum(data[10..110]) as real
      && Analyse(data).high * 255.0 * 500.0 == AudioAnalyzerSystem.Sum(data[100..600]) as real
  {
  }

  /** The component. `hasContext` stands for both `audioContext` and
      `analyser`, which are always created together. */
  class AudioReactiveComponent {
    const fftSize: nat
    const enabled: bool
    var hasContext: bool
    var isAudioRunning: bool
    var bufferLength: nat
    var dataArray: seq<Byte>
    /** The `audio-analysis` events emitted so far. */
    var emitted: seq<Analysis>

    ghost predicate Valid()
      reads this
    {
      |dataArray| == bufferLength && (isAudioRunning ==> hasContext)
    }

    /** `init`, with the schema's `fftSize` and `enabled`: no audio yet. */
    constructor (size: nat, isEnabled: bool)
      ensures Valid() && fftSize == size && enabled == isEnabled
      ensures !hasContext && !isAudioRunning && emitted == []
    {
      fftSize := size;
      enabled := isEnabled;
      hasContext := false;
      isAudioRunning := false;
      bufferLength := 0;
      dataArray := [];
      emitted := [];
    }

    /** `initAudioContext`: once only, create the analyser with half as
        many bins as the FFT size, zero them, and mark audio as running
        (whether or not a source is connected afterwards). */
    method InitAudioContext()
      requires Valid()
      modifies this`hasContext, this`isAudioRunning, this`bufferLength, this`dataArray
      ensures Valid()
      ensures old(hasContext) ==>
        hasContext && isAudioRunning == old(isAudioRunning) && bufferLength == old(bufferLength)
        && dataArray == old(dataArray)
      ensures !old(hasContext) ==>
        hasContext && isAudioRunning && bufferLength == fftSize / 2
        && forall i :: 0 <= i < |dataArray| ==> dataArray[i] == 0
    {
      if hasContext {
        return;
      }
      hasContext := true;
      bufferLength := fftSize / 2;
      dataArray := seq(fftSize / 2, _ => 0);
      isAudioRunning := true;
    }

    /** `startAudio` (also the `enter-vr` listener): nothing when disabled;
        otherwise initialise the context if there is none. */
    method StartAudio()
      requires Valid()
      modifies this`hasContext, this`isAudioRunning, this`bufferLength, this`dataArray
      ensures Valid()
      ensures !enabled ==>
        hasContext == old(hasContext) && isAudioRunning == old(isAudioRunning) && dataArray == old(dataArray)
        && bufferLength == old(bufferLength)
      ensures enabled ==> hasContext && (old(hasContext) ==> isAudioRunning == old(isAudioRunning))
      ensures enabled && old(hasContext) ==> bufferLength == old(bufferLength) && dataArray == old(dataArray)
      ensures enabled && !old(hasContext) ==> isAudioRunning && bufferLength == fftSize / 2
      ensures enabled && !old(hasContext) ==> forall i :: 0 <= i < |dataArray| ==> dataArray[i] == 0
    {
      if !enabled {
        return;
      }
      if !hasContext {
        InitAudioContext();
      }
    }

    /** `getAverageFrequency(start, count)` over the current spectrum. */
    method GetAverageFrequency(start: nat, count: nat) returns (r: real)
      requires Valid()
      ensures r == AverageFrequency(dataArray, start, count)
    {
      var sum: int := 0;
      var end := if start + count < bufferLength then start + count else bufferLength;
      if end <= start {
        return 0.0;
      }
      var i := start;
      while i < end
        invariant start <= i <= end
        invariant sum == AudioAnalyzerSystem.Sum(dataArray[start..i])
      {
        assert dataArray[start..i + 1][..i - start] == dataArray[start..i];
        sum := sum + dataArray[i];
        i := i + 1;
      }
      r := sum as real / (end - start) as real;
    }

    /** `tick`, where `spectrum` is what `getByteFrequencyData` writes into
        the bin array: nothing until audio runs; then the analysis of the
        new spectrum is emitted. */
    method Tick(spectrum: seq<Byte>)
      requires Valid() && |spectrum| == bufferLength
      modifies this`dataArray, this`emitted
      ensures Valid()
      ensures !isAudioRunning ==> dataArray == old(dataArray) && emitted == old(emitted)
      ensures isAudioRunning ==> dataArray == spectrum && emitted == old(emitted) + [Analyse(spectrum)]
    {
      if !isAudioRunning || !hasContext {
        return;
      }
      dataArray := spectrum;
      var bass := GetAverageFrequency(0, 10);
      var mid := GetAverageFrequency(10, 100);
      var high := GetAverageFrequency(100, 500);
      emitted := emitted + [Analysis(bass / 255.0, mid / 255.0, high / 255.0, dataArray)];
    }
  }

  /** The `audio-reactive` system: the last analysis heard on the scene. */
  class AudioReactiveSystem {
    var data: Analysis

    /** `init`: all levels 0 and no spectrum. */
    constructor ()
      ensures data == Analysis(0.0, 0.0, 0.0, [])
    {
      data := Analysis(0.0, 0.0, 0.0, []);
    }

    /** The `audio-analysis` listener: store the event detail. */
    method OnAudioAnalysis(detail: Analysis)
      modifies this`data
      ensures data == detail
    {
      data := detail;
    }

    /** `getAudioData`. */
    method GetAudioData() returns (d: Analysis)
      ensures d == data
    {
      d := data;
    }
  }

  /** The system, after hearing every event the component emitted, holds
      the analysis of the component's latest spectrum. */
  method DeliverAll(c: AudioReactiveComponent, s: AudioReactiveSystem)
    requires |c.emitted| > 0
    modifies s
    ensures s.data == c.emitted[|c.emitted| - 1]
  {
    var i := 0;
    while i < |c.emitted|
      invariant 0 <= i <= |c.emitted|
      invariant i > 0 ==> s.data == c.emitted[i - 1]
    {
      s.OnAudioAnalysis(c.emitted[i]);
      i := i + 1;
    }
  }
}
