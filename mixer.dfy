/**
 * The merge step of the recorder's capture loop: one microphone frame and one
 * loopback frame are trimmed to a common length, cut down to at most two
 * channels, summed sample by sample and peak-normalised into 16-bit PCM.
 *
 * Samples are exact reals; the float32 rounding of the original is not modelled.
 */
module Mixer {
  import opened Wrappers

  /** A signed 16-bit PCM sample, the element type of numpy's int16 arrays. */
  newtype int16 = x: int | -32768 <= x < 32768

  /** The magnitude a peak sample is scaled to. */
  const FullScale: int := 32767

  /**
   * A 2-D sample buffer in numpy's (samples, channels) layout. The channel
   * count is kept beside the rows so that a buffer without rows still has a shape.
   */
  datatype Grid<T> = Grid(channels: nat, rows: seq<seq<T>>)
  {
    /** Every row has one sample per channel, as in a rectangular numpy array. */
    ghost predicate WellShaped()
    {
      forall i :: 0 <= i < |rows| ==> |rows[i]| == channels
    }

    /** The number of samples in the buffer (numpy's `size`). */
    function Size(): nat
    {
      |rows| * channels
    }
  }

  type Frame = Grid<real>
  type Chunk = Grid<int16>

  /** Why a merge raises instead of producing a chunk. */
  datatype MergeError =
    | ShapeMismatch(micChannels: nat, speakerChannels: nat)  // the sum cannot broadcast
    | EmptyReduction                                         // the maximum of a zero-size array

  function Min(a: nat, b: nat): nat
  {
    if a < b then a else b
  }

  function Abs(x: real): real
  {
    if x < 0.0 then -x else x
  }

  function Max(a: real, b: real): real
  {
    if a < b then b else a
  }

  /** Conversion of a real to an integer by truncation toward zero, as numpy's float-to-int16 cast. */
  function Trunc(x: real): (n: int)
    ensures 0.0 <= x ==> n as real <= x < n as real + 1.0
    ensures x < 0.0 ==> n as real - 1.0 < x <= n as real
  {
    if 0.0 <= x then x.Floor else -((-x).Floor)
  }

  /** Truncation is monotone. */
  lemma TruncMonotone(x: real, y: real)
    requires x <= y
    ensures Trunc(x) <= Trunc(y)
  {
    if x < 0.0 && 0.0 <= y {
    } else if 0.0 <= x {
      assert x.Floor as real <= y;
    } else {
      assert (-y).Floor as real <= -x;
    }
  }

  /** Truncation toward zero is symmetric about zero. */
  lemma TruncOdd(x: real)
    ensures Trunc(-x) == -Trunc(x)
  {
  }

  /** The first `n` rows of a frame, as the slice `f[:n]` (which keeps all rows when there are fewer). */
  function Head(f: Frame, n: nat): Frame
  {
    Grid(f.channels, if n < |f.rows| then f.rows[..n] else f.rows)
  }

  /** A frame with more than two channels loses every channel after the first two. */
  function KeepStereo(f: Frame): (r: Frame)
    requires f.WellShaped()
    ensures r.WellShaped() && |r.rows| == |f.rows|
    ensures r.channels == Min(f.channels, 2)
    ensures forall i, j :: 0 <= i < |r.rows| && 0 <= j < r.channels ==> r.rows[i][j] == f.rows[i][j]
  {
    if f.channels > 2 then Grid(2, seq(|f.rows|, i requires 0 <= i < |f.rows| => f.rows[i][..2])) else f
  }

  /**
   * numpy's broadcasting rule along one axis: equal extents combine, and an
   * extent of 1 stretches to the other extent; anything else is an error.
   */
  function Broadcast(a: nat, b: nat): Option<nat>
  {
    if a == b then Some(a) else if a == 1 then Some(b) else if b == 1 then Some(a) else None
  }

  /** The column of a frame with `channels` columns that feeds output column `j` under broadcasting. */
  function Lane(channels: nat, j: nat): nat
  {
    if channels == 1 then 0 else j
  }

  /** The element-wise sum `a + b` of two frames with the same number of rows. */
  function Sum(a: Frame, b: Frame, width: nat): Frame
    requires a.WellShaped() && b.WellShaped() && |a.rows| == |b.rows|
    requires Broadcast(a.channels, b.channels) == Some(width)
  {
    Grid(width, seq(|a.rows|, i requires 0 <= i < |a.rows| =>
      seq(width, j requires 0 <= j < width => a.rows[i][Lane(a.channels, j)] + b.rows[i][Lane(b.channels, j)])))
  }

  /**
   * Trimming to the shorter frame, dropping channels beyond two, and summing:
   * the merge before normalisation. Every merged sample is the sum of the
   * original samples in the same row, taken from the same channel (or from the
   * only channel of a mono frame).
   */
  function Mix(mic: Frame, speaker: Frame): (r: Result<Frame, MergeError>)
    requires mic.WellShaped() && speaker.WellShaped()
    ensures r.Failure? <==> Broadcast(Min(mic.channels, 2), Min(speaker.channels, 2)).None?
    ensures r.Success? ==>
      && r.value.WellShaped()
      && |r.value.rows| == Min(|mic.rows|, |speaker.rows|)
      && r.value.channels <= 2
      && Broadcast(Min(mic.channels, 2), Min(speaker.channels, 2)) == Some(r.value.channels)
    ensures r.Success? ==> forall i, j :: 0 <= i < |r.value.rows| && 0 <= j < r.value.channels ==>
      r.value.rows[i][j] == mic.rows[i][Lane(mic.channels, j)] + speaker.rows[i][Lane(speaker.channels, j)]
  {
    var n := Min(|mic.rows|, |speaker.rows|);
    var m := KeepStereo(Head(mic, n));
    var s := KeepStereo(Head(speaker, n));
    match Broadcast(m.channels, s.channels)
    case None => Failure(ShapeMismatch(m.channels, s.channels))
    case Some(w) => Success(Sum(m, s, w))
  }

  /** The largest magnitude in a row, 0 for an empty row. */
  function RowPeak(row: seq<real>): (p: real)
    ensures 0.0 <= p
    ensures forall j :: 0 <= j < |row| ==> Abs(row[j]) <= p
    ensures row != [] ==> exists j :: 0 <= j < |row| && Abs(row[j]) == p
  {
    if row == [] then 0.0 else Max(Abs(row[0]), RowPeak(row[1..]))
  }

  /** The largest magnitude among all samples (`np.max(np.abs(f))`), 0 when there are none. */
  function Peak(rows: seq<seq<real>>): (p: real)
    ensures 0.0 <= p
    ensures forall i, j :: 0 <= i < |rows| && 0 <= j < |rows[i]| ==> Abs(rows[i][j]) <= p
    ensures p != 0.0 ==> exists i, j :: 0 <= i < |rows| && 0 <= j < |rows[i]| && Abs(rows[i][j]) == p
  {
    if rows == [] then 0.0 else Max(RowPeak(rows[0]), Peak(rows[1..]))
  }

  /** Every sample of the buffer is zero. */
  ghost predicate Silent(rows: seq<seq<real>>)
  {
    forall i, j :: 0 <= i < |rows| && 0 <= j < |rows[i]| ==> rows[i][j] == 0.0
  }

  /** The ratio of a sample to a peak at least as large lies in [-1, 1]. */
  lemma RatioBounded(x: real, peak: real)
    requires 0.0 < peak && Abs(x) <= peak
    ensures -1.0 <= x / peak <= 1.0
  {
    if 0.0 <= x {
      assert x / peak <= peak / peak;
    } else {
      assert -x / peak <= peak / peak;
    }
  }

  /** One sample rescaled so that `peak` maps to full scale, then cast to int16. */
  function Scale(x: real, peak: real): (s: int16)
    requires 0.0 < peak && Abs(x) <= peak
    ensures 0.0 <= x ==> s as real <= x / peak * FullScale as real < s as real + 1.0
    ensures x < 0.0 ==> s as real - 1.0 < x / peak * FullScale as real <= s as real
    ensures -FullScale <= s as int <= FullScale
    ensures 0.0 <= x ==> 0 <= s
    ensures x <= 0.0 ==> s <= 0
    ensures x == peak ==> s as int == FullScale
    ensures x == -peak ==> s as int == -FullScale
  {
    RatioBounded(x, peak);
    assert -FullScale as real <= x / peak * FullScale as real <= FullScale as real;
    assert peak / peak == 1.0;
    assert x == peak ==> x / peak * FullScale as real == FullScale as real;
    assert x == -peak ==> x / peak * FullScale as real == -FullScale as real;
    Trunc(x / peak * FullScale as real) as int16
  }

  /** The int16 cast of a sample already within range, used when no rescaling happens. */
  function ToInt16(x: real): (s: int16)
    requires -32769.0 < x < 32768.0
  {
    Trunc(x) as int16
  }

  /** Every sample of the rows, rescaled against `peak`. */
  function ScaleRows(rows: seq<seq<real>>, peak: real): (r: seq<seq<int16>>)
    requires 0.0 < peak
    requires forall i, j :: 0 <= i < |rows| && 0 <= j < |rows[i]| ==> Abs(rows[i][j]) <= peak
    ensures |r| == |rows|
    ensures forall i :: 0 <= i < |rows| ==> |r[i]| == |rows[i]|
    ensures forall i, j :: 0 <= i < |rows| && 0 <= j < |rows[i]| ==> r[i][j] == Scale(rows[i][j], peak)
  {
    if rows == [] then [] else [ScaleRow(rows[0], peak)] + ScaleRows(rows[1..], peak)
  }

  function ScaleRow(row: seq<real>, peak: real): (r: seq<int16>)
    requires 0.0 < peak
    requires forall j :: 0 <= j < |row| ==> Abs(row[j]) <= peak
    ensures |r| == |row|
    ensures forall j :: 0 <= j < |row| ==> r[j] == Scale(row[j], peak)
  {
    if row == [] then [] else [Scale(row[0], peak)] + ScaleRow(row[1..], peak)
  }

  /** Every sample of the rows cast to int16 without rescaling. */
  function CastRows(rows: seq<seq<real>>): (r: seq<seq<int16>>)
    requires Silent(rows)
    ensures |r| == |rows|
    ensures forall i :: 0 <= i < |rows| ==> |r[i]| == |rows[i]|
    ensures forall i, j :: 0 <= i < |rows| && 0 <= j < |rows[i]| ==> r[i][j] == 0
  {
    if rows == [] then [] else [CastRow(rows[0])] + CastRows(rows[1..])
  }

  function CastRow(row: seq<real>): (r: seq<int16>)
    requires forall j :: 0 <= j < |row| ==> row[j] == 0.0
    ensures |r| == |row|
    ensures forall j :: 0 <= j < |row| ==> r[j] == 0
  {
    if row == [] then [] else [ToInt16(row[0])] + CastRow(row[1..])
  }

  /**
   * Peak normalisation: when the peak magnitude is positive every sample is
   * divided by it and multiplied by 32767, otherwise the (silent) samples are
   * cast unchanged and no division happens. A frame without samples gives an
   * empty chunk here; that the original raises on it is modelled by `Merge`.
   */
  function Normalize(f: Frame): (r: Chunk)
    requires f.WellShaped()
    ensures r.WellShaped() && r.channels == f.channels && |r.rows| == |f.rows|
    ensures Peak(f.rows) > 0.0 ==> forall i, j :: 0 <= i < |r.rows| && 0 <= j < r.channels ==>
      r.rows[i][j] == Scale(f.rows[i][j], Peak(f.rows))
    ensures Peak(f.rows) > 0.0 ==> forall i, j :: 0 <= i < |r.rows| && 0 <= j < r.channels ==>
      && -FullScale <= r.rows[i][j] as int <= FullScale
      && (0.0 <= f.rows[i][j] ==> 0 <= r.rows[i][j])
      && (f.rows[i][j] <= 0.0 ==> r.rows[i][j] <= 0)
      && (f.rows[i][j] == Peak(f.rows) ==> r.rows[i][j] as int == FullScale)
      && (f.rows[i][j] == -Peak(f.rows) ==> r.rows[i][j] as int == -FullScale)
    ensures Silent(f.rows) <==> Peak(f.rows) == 0.0
    ensures Silent(f.rows) ==> forall i, j :: 0 <= i < |r.rows| && 0 <= j < r.channels ==> r.rows[i][j] == 0
  {
    var peak := Peak(f.rows);
    if peak > 0.0 then Grid(f.channels, ScaleRows(f.rows, peak)) else Grid(f.channels, CastRows(f.rows))
  }

  /**
   * One merge step: mix the two frames, then normalise. A shape mismatch and an
   * empty result (numpy cannot take the maximum of a zero-size array) are errors.
   */
  function Merge(mic: Frame, speaker: Frame): (r: Result<Chunk, MergeError>)
    requires mic.WellShaped() && speaker.WellShaped()
    ensures r.Success? ==>
      && r.value.WellShaped()
      && |r.value.rows| == Min(|mic.rows|, |speaker.rows|) > 0
      && 0 < r.value.channels <= 2
    ensures r == Failure(EmptyReduction) <==> Mix(mic, speaker).Success? && Mix(mic, speaker).value.Size() == 0
    ensures r.Failure? && r.error.ShapeMismatch? <==> Mix(mic, speaker).Failure?
    ensures r.Success? ==> r.value == Normalize(Mix(mic, speaker).value)
  {
    match Mix(mic, speaker)
    case Failure(e) => Failure(e)
    case Success(sum) => if sum.Size() == 0 then Failure(EmptyReduction) else Success(Normalize(sum))
  }

  /**
   * What a successful merge holds, sample by sample: each is within ±32767 and
   * has the sign of its sum, and a sum at ±peak becomes ±32767.
   */
  lemma MergeSamples(mic: Frame, speaker: Frame)
    requires mic.WellShaped() && speaker.WellShaped() && Merge(mic, speaker).Success?
    ensures var c, sum := Merge(mic, speaker).value, Mix(mic, speaker).value;
      forall i, j :: 0 <= i < |c.rows| && 0 <= j < c.channels ==>
        && -FullScale <= c.rows[i][j] as int <= FullScale
        && (0.0 <= sum.rows[i][j] ==> 0 <= c.rows[i][j])
        && (sum.rows[i][j] <= 0.0 ==> c.rows[i][j] <= 0)
        && (0.0 < Peak(sum.rows) && sum.rows[i][j] == Peak(sum.rows) ==> c.rows[i][j] as int == FullScale)
        && (0.0 < Peak(sum.rows) && sum.rows[i][j] == -Peak(sum.rows) ==> c.rows[i][j] as int == -FullScale)
  {
    var sum := Mix(mic, speaker).value;
    var c := Normalize(sum);
    assert Merge(mic, speaker).value == c;
    if Peak(sum.rows) == 0.0 {
      assert forall i, j :: 0 <= i < |c.rows| && 0 <= j < c.channels ==> c.rows[i][j] == 0;
    }
  }

  /** Silent mic and speaker frames merge to an all-zero chunk. */
  lemma MergeSilent(mic: Frame, speaker: Frame)
    requires mic.WellShaped() && speaker.WellShaped() && Merge(mic, speaker).Success?
    requires Silent(mic.rows) && Silent(speaker.rows)
    ensures var c := Merge(mic, speaker).value;
      forall i, j :: 0 <= i < |c.rows| && 0 <= j < c.channels ==> c.rows[i][j] == 0
  {
    MixSilent(mic, speaker);
    assert Merge(mic, speaker).value == Normalize(Mix(mic, speaker).value);
  }

  /** The sum of two silent frames is silent. */
  lemma MixSilent(mic: Frame, speaker: Frame)
    requires mic.WellShaped() && speaker.WellShaped() && Mix(mic, speaker).Success?
    requires Silent(mic.rows) && Silent(speaker.rows)
    ensures Silent(Mix(mic, speaker).value.rows)
  {
    var sum := Mix(mic, speaker).value;
    forall i, j | 0 <= i < |sum.rows| && 0 <= j < |sum.rows[i]|
      ensures sum.rows[i][j] == 0.0
    {
      assert sum.rows[i][j] == mic.rows[i][Lane(mic.channels, j)] + speaker.rows[i][Lane(speaker.channels, j)];
    }
  }

  /** Rescaling preserves the order of samples. */
  lemma ScaleMonotone(x: real, y: real, peak: real)
    requires 0.0 < peak && Abs(x) <= peak && Abs(y) <= peak && x <= y
    ensures Scale(x, peak) <= Scale(y, peak)
  {
    assert x / peak <= y / peak;
    assert x / peak * FullScale as real <= y / peak * FullScale as real;
    TruncMonotone(x / peak * FullScale as real, y / peak * FullScale as real);
  }

  /** Rescaling is symmetric: opposite samples map to opposite outputs. */
  lemma ScaleOdd(x: real, peak: real)
    requires 0.0 < peak && Abs(x) <= peak
    ensures Scale(-x, peak) as int == -(Scale(x, peak) as int)
  {
    assert -x / peak == -(x / peak);
    assert -x / peak * FullScale as real == -(x / peak * FullScale as real);
    TruncOdd(x / peak * FullScale as real);
  }

  /** The sum of the two example frames used by MergeAlternatingExample. */
  lemma MixAlternating()
    ensures Mix(Grid(1, [[100.0], [-100.0], [100.0], [-100.0]]), Grid(1, [[50.0], [-50.0], [50.0], [-50.0]]))
         == Success(Grid(1, [[150.0], [-150.0], [150.0], [-150.0]]))
  {
    var mic := Grid(1, [[100.0], [-100.0], [100.0], [-100.0]]);
    var speaker := Grid(1, [[50.0], [-50.0], [50.0], [-50.0]]);
    assert KeepStereo(Head(mic, 4)) == mic;
    assert KeepStereo(Head(speaker, 4)) == speaker;
    var sum := Sum(mic, speaker, 1);
    assert sum.rows[0] == [150.0];
    assert sum.rows[1] == [-150.0];
    assert sum.rows[2] == [150.0];
    assert sum.rows[3] == [-150.0];
    assert sum.rows == [[150.0], [-150.0], [150.0], [-150.0]];
    assert Mix(mic, speaker) == Success(sum);
  }

  lemma PeakAlternating()
    ensures Peak([[150.0], [-150.0], [150.0], [-150.0]]) == 150.0
  {
  }

  lemma ScaleAlternating()
    ensures ScaleRows([[150.0], [-150.0], [150.0], [-150.0]], 150.0) == [[32767], [-32767], [32767], [-32767]]
  {
    var rows := [[150.0], [-150.0], [150.0], [-150.0]];
    var hi, lo := Scale(150.0, 150.0), Scale(-150.0, 150.0);
    assert hi == 32767 && lo == -32767;
    assert ScaleRow([150.0], 150.0) == [hi];
    assert ScaleRow([-150.0], 150.0) == [lo];
    assert ScaleRows(rows[3..], 150.0) == [[lo]];
    assert ScaleRows(rows[2..], 150.0) == [[hi], [lo]];
    assert ScaleRows(rows[1..], 150.0) == [[lo], [hi], [lo]];
  }

  lemma NormalizeAlternating()
    ensures Normalize(Grid(1, [[150.0], [-150.0], [150.0], [-150.0]])) == Grid(1, [[32767], [-32767], [32767], [-32767]])
  {
    PeakAlternating();
    ScaleAlternating();
  }

  /** Two mono frames of four samples, merged: the sum peaks at 150, which maps to full scale. */
  lemma MergeAlternatingExample()
    ensures Merge(Grid(1, [[100.0], [-100.0], [100.0], [-100.0]]), Grid(1, [[50.0], [-50.0], [50.0], [-50.0]]))
         == Success(Grid(1, [[32767], [-32767], [32767], [-32767]]))
  {
    MixAlternating();
    NormalizeAlternating();
  }
}
