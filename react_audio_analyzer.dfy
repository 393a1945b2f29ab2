/** The audio analyser utility of the React version: a 1024-point FFT whose
    512 byte bins are averaged into bass (bins 0-9), mid (bins 10-109) and
    high (the rest) bands, each bin normalised to [0, 1] before summing.
    Nothing is computed until a track has been started. */
module ReactAudioAnalyzer {
  import opened Common
  import AudioAnalyzerSystem

  /** `frequencyBinCount` of an analyser with `fftSize` 1024. */
  const BufferLength := 512
  const BassCount := 10
  const MidCount := 100

  /** The sum of the normalised bins `b / 255`, accumulated from the left
      as the update loop does. */
  function NormSum(xs: seq<Byte>): real {
    if xs == [] then 0.0 else NormSum(xs[..|xs| - 1]) + xs[|xs| - 1] as real / 255.0
  }

  /** Normalising each bin and then summing is summing the bytes and then
      normalising. */
  lemma {:induction false} NormSumIsScaledSum(xs: seq<Byte>)
    ensures NormSum(xs) == AudioAnalyzerSystem.Sum(xs) as real / 255.0
  {
    if xs != [] {
      NormSumIsScaledSum(xs[..|xs| - 1]);
    }
  }

  /** A normalised band sum divided by its bin count is the average level
      of those bins. */
  lemma NormAverageIsLevel(xs: seq<Byte>, n: nat)
    requires n > 0
    ensures NormSum(xs) / n as real == AudioAnalyzerSystem.Level(AudioAnalyzerSystem.Sum(xs), n)
  {
    NormSumIsScaledSum(xs);
    DivisionsCommute(AudioAnalyzerSystem.Sum(xs) as real, 255.0, n as real);
  }

  lemma DivisionsCommute(s: real, a: real, b: real)
    requires a > 0.0 && b > 0.0
    ensures (s / a) / b == (s / b) / a
  {
    var y, z := (s / a) / b, (s / b) / a;
    assert y * b * a == s;
    assert z * a * b == s;
    assert (y - z) * (a * b) == 0.0;
    assert a * b > 0.0;
  }

  /** The average level of n bins all equal to v is v / 255. */
  lemma LevelOfEqualBins(n: nat, v: Byte)
    requires n > 0
    ensures AudioAnalyzerSystem.Level(n * v, n) == v as real / 255.0
  {
    assert (n * v) as real == n as real * v as real;
    assert (n as real * v as real) / n as real == v as real;
  }

  /** The three bands of one spectrum: the mean normalised bin of bins
      0-9, of bins 10-109, and of the remaining bins. Each is the average
      level of its bins and lies in [0, 1]. */
  function SpectrumBands(data: seq<Byte>): (b: Bands)
    requires |data| > BassCount + MidCount
    ensures b.bass == AudioAnalyzerSystem.Level(AudioAnalyzerSystem.Sum(data[..BassCount]), BassCount)
    ensures b.mid == AudioAnalyzerSystem.Level(AudioAnalyzerSystem.Sum(data[BassCount..BassCount + MidCount]), MidCount)
    ensures b.high == AudioAnalyzerSystem.Level(AudioAnalyzerSystem.Sum(data[BassCount + MidCount..]),
                                                |data| - BassCount - MidCount)
    ensures 0.0 <= b.bass <= 1.0 && 0.0 <= b.mid <= 1.0 && 0.0 <= b.high <= 1.0
  {
    var lo, hi := data[..BassCount], data[BassCount..BassCount + MidCount];
    var rest := data[BassCount + MidCount..];
    NormAverageIsLevel(lo, BassCount);
    NormAverageIsLevel(hi, MidCount);
    NormAverageIsLevel(rest, |data| - BassCount - MidCount);
    AudioAnalyzerSystem.SumBounds(lo);
    AudioAnalyzerSystem.SumBounds(hi);
    AudioAnalyzerSystem.SumBounds(rest);
    AudioAnalyzerSystem.LevelInUnit(AudioAnalyzerSystem.Sum(lo), BassCount);
    AudioAnalyzerSystem.LevelInUnit(AudioAnalyzerSystem.Sum(hi), MidCount);
    AudioAnalyzerSystem.LevelInUnit(AudioAnalyzerSystem.Sum(rest), |data| - BassCount - MidCount);
    Bands(NormSum(lo) / BassCount as real, NormSum(hi) / MidCount as real,
          NormSum(rest) / (|data| - BassCount - MidCount) as real)
  }

  /** The byte sum of n equal bins is n times the bin. */
  lemma {:induction false} SumOfEqualBins(xs: seq<Byte>, v: Byte)
    requires forall i :: 0 <= i < |xs| ==> xs[i] == v
    ensures AudioAnalyzerSystem.Sum(xs) == |xs| * v
  {
    if xs != [] {
      SumOfEqualBins(xs[..|xs| - 1], v);
    }
  }

  /** A flat spectrum at byte level v gives v / 255 in every band. */
  lemma FlatSpectrum(data: seq<Byte>, v: Byte)
    requires |data| > BassCount + MidCount
    requires forall i :: 0 <= i < |data| ==> data[i] == v
    ensures SpectrumBands(data) == Bands(v as real / 255.0, v as real / 255.0, v as real / 255.0)
  {
    SumOfEqualBins(data[..BassCount], v);
    SumOfEqualBins(data[BassCount..BassCount + MidCount], v);
    SumOfEqualBins(data[BassCount + MidCount..], v);
    LevelOfEqualBins(BassCount, v);
    LevelOfEqualBins(MidCount, v);
    LevelOfEqualBins(|data| - BassCount - MidCount, v);
  }

  class AudioAnalyzer {
    const bufferLength: nat
    /** The last spectrum read from the analyser. */
    var dataArray: seq<Byte>
    var isReady: bool
    var bass: real
    var mid: real
    var high: real

    ghost predicate Valid()
      reads this
    {
      bufferLength == BufferLength && |dataArray| == bufferLength
    }

    /** The constructor: 512 zeroed bins, not ready, all bands 0. */
    constructor ()
      ensures Valid() && !isReady
      ensures bass == 0.0 && mid == 0.0 && high == 0.0
      ensures forall i :: 0 <= i < |dataArray| ==> dataArray[i] == 0
    {
      bufferLength := BufferLength;
      dataArray := seq(BufferLength, _ => 0);
      isReady := false;
      bass, mid, high := 0.0, 0.0, 0.0;
    }

    /** `playTrack`: once the track is wired to the analyser the utility
        is ready. */
    method PlayTrack()
      modifies this`isReady
      ensures isReady
    {
      isReady := true;
    }

    /** `update`, where `spectrum` is what `getByteFrequencyData` writes
        into the bin array. Nothing changes before a track is playing;
        afterwards the bands are those of the new spectrum. */
    method Update(spectrum: seq<Byte>)
      requires Valid() && |spectrum| == bufferLength
      modifies this`dataArray, this`bass, this`mid, this`high
      ensures Valid()
      ensures !isReady ==>
        dataArray == old(dataArray) && bass == old(bass) && mid == old(mid) && high == old(high)
      ensures isReady ==> dataArray == spectrum && Bands(bass, mid, high) == SpectrumBands(spectrum)
    {
      if !isReady {
        return;
      }
      dataArray := spectrum;
      var bassSum, midSum, highSum := 0.0, 0.0, 0.0;
      var i := 0;
      while i < bufferLength
        invariant 0 <= i <= bufferLength
        invariant bassSum == NormSum(dataArray[..if i < BassCount then i else BassCount])
        invariant midSum == NormSum(dataArray[BassCount..if i < BassCount then BassCount
                                                        else if i < BassCount + MidCount then i
                                                        else BassCount + MidCount])
        invariant highSum == NormSum(dataArray[BassCount + MidCount..if i < BassCount + MidCount then BassCount + MidCount else i])
      {
        var val := dataArray[i] as real / 255.0;
        if i < BassCount {
          assert dataArray[..i + 1][..i] == dataArray[..i];
          bassSum := bassSum + val;
        } else if i < BassCount + MidCount {
          assert dataArray[BassCount..i + 1][..i - BassCount] == dataArray[BassCount..i];
          midSum := midSum + val;
        } else {
          assert dataArray[BassCount + MidCount..i + 1][..i - BassCount - MidCount] == dataArray[BassCount + MidCount..i];
          highSum := highSum + val;
        }
        i := i + 1;
      }
      assert dataArray[BassCount + MidCount..bufferLength] == dataArray[BassCount + MidCount..];
      bass := bassSum / BassCount as real;
      mid := midSum / MidCount as real;
      high := highSum / (bufferLength - BassCount - MidCount) as real;
    }

    /** `getBands`: the current bands. */
    method GetBands() returns (b: Bands)
      ensures b == Bands(bass, mid, high)
    {
      b := Bands(bass, mid, high);
    }
  }
}
