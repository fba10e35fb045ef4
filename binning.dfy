/** The binned estimators `calculate_neuron_cov` and `calculate_neuron_mfr`: a pivot
    column is cut by `np.array_split` into equal-count chunks, each chunk's spike times
    become a neo SpikeTrain, and the estimator's value (or NaN for a chunk without
    spikes) is stored, chunk by chunk, into a preallocated series. */
module Binning {
  import opened Common
  import opened Times
  import opened TimeSeries

  /** `np.int(total_time / num_mins_per_bin)`: true division, then truncation. */
  function NumBins(totalTime: int, numMinsPerBin: int): (n: int)
    requires numMinsPerBin != 0
    ensures totalTime >= 0 && numMinsPerBin > 0 ==> n == totalTime / numMinsPerBin
  {
    if totalTime >= 0 && numMinsPerBin > 0 then
      TruncDivision(totalTime, numMinsPerBin);
      Trunc(totalTime as real / numMinsPerBin as real)
    else
      Trunc(totalTime as real / numMinsPerBin as real)
  }

  /** The size of chunk i when `array_split` cuts len items into n chunks:
      the first `len % n` chunks take one item more. */
  function ChunkSize(len: nat, n: nat, i: nat): nat
    requires n > 0
  {
    len / n + (if i < len % n then 1 else 0)
  }

  /** Where chunk i starts (numpy's `div_points`). */
  function SplitPoint(len: nat, n: nat, i: nat): nat
    requires n > 0
  {
    i * (len / n) + Min(i, len % n)
  }

  lemma SplitPointStep(len: nat, n: nat, i: nat)
    requires n > 0
    ensures SplitPoint(len, n, i + 1) == SplitPoint(len, n, i) + ChunkSize(len, n, i)
  {
    assert (i + 1) * (len / n) == i * (len / n) + len / n;
  }

  /** The last split point is the end of the column, and no split point passes it. */
  lemma {:induction false} SplitPointBound(len: nat, n: nat, i: nat)
    requires n > 0 && i <= n
    ensures SplitPoint(len, n, i) <= len
    ensures i == n ==> SplitPoint(len, n, i) == len
    decreases n - i
  {
    if i == n {
      assert len == n * (len / n) + len % n;
    } else {
      SplitPointBound(len, n, i + 1);
      SplitPointStep(len, n, i);
    }
  }

  /** Chunk i of `np.array_split(col, n)`. */
  function Chunk<T>(col: seq<T>, n: nat, i: nat): (c: seq<T>)
    requires n > 0 && i < n
    ensures |c| == ChunkSize(|col|, n, i)
  {
    SplitPointStep(|col|, n, i);
    SplitPointBound(|col|, n, i + 1);
    col[SplitPoint(|col|, n, i)..SplitPoint(|col|, n, i + 1)]
  }

  /** `np.array_split(col, n)`: n contiguous chunks; n must be positive. */
  function ArraySplit<T>(col: seq<T>, n: nat): (chunks: seq<seq<T>>)
    requires n > 0
    ensures |chunks| == n
    ensures forall i :: 0 <= i < n ==> |chunks[i]| == ChunkSize(|col|, n, i)
  {
    seq(n, i requires 0 <= i < n => Chunk(col, n, i))
  }

  /** The first k chunks, concatenated, are the column up to the k-th split point. */
  lemma {:induction false} ArraySplitPrefix<T>(col: seq<T>, n: nat, k: nat)
    requires n > 0 && k <= n
    ensures SplitPoint(|col|, n, k) <= |col|
    ensures Flatten(ArraySplit(col, n)[..k]) == col[..SplitPoint(|col|, n, k)]
  {
    SplitPointBound(|col|, n, k);
    var chunks := ArraySplit(col, n);
    if k > 0 {
      ArraySplitPrefix(col, n, k - 1);
      assert chunks[..k] == chunks[..k - 1] + [chunks[k - 1]];
      FlattenAppend(chunks[..k - 1], chunks[k - 1]);
      SplitPointStep(|col|, n, k - 1);
      var a, b := SplitPoint(|col|, n, k - 1), SplitPoint(|col|, n, k);
      assert col[..b] == col[..a] + col[a..b];
    }
  }

  /** The chunks concatenate back to the column: nothing lost, repeated or reordered. */
  lemma ArraySplitConcat<T>(col: seq<T>, n: nat)
    requires n > 0
    ensures Flatten(ArraySplit(col, n)) == col
  {
    ArraySplitPrefix(col, n, n);
    SplitPointBound(|col|, n, n);
    assert ArraySplit(col, n)[..n] == ArraySplit(col, n);
  }

  /** Chunk sizes differ by at most one, and the larger chunks come first. */
  lemma ArraySplitBalanced<T>(col: seq<T>, n: nat, i: nat, j: nat)
    requires 0 < n && i < n && j < n
    ensures |ArraySplit(col, n)[i]| <= |ArraySplit(col, n)[j]| + 1
    ensures i <= j ==> |ArraySplit(col, n)[i]| >= |ArraySplit(col, n)[j]|
  {
  }

  /** The non-missing times of a chunk (`col_bin[col_bin.notnull()].index.values`), in order. */
  function SpikeTimes(chunk: seq<Cell>): (times: seq<int>)
    ensures |times| <= |chunk|
    ensures forall x :: x in times <==> exists i :: 0 <= i < |chunk| && chunk[i].time == x && chunk[i].count.Some?
  {
    if chunk == [] then []
    else
      var n := |chunk| - 1;
      var rest := SpikeTimes(chunk[..n]);
      assert forall x :: x in rest <==> exists i :: 0 <= i < n && chunk[i].time == x && chunk[i].count.Some? by {
        forall x | x in rest ensures exists i :: 0 <= i < n && chunk[i].time == x && chunk[i].count.Some? {
          var i :| 0 <= i < n && chunk[..n][i].time == x && chunk[..n][i].count.Some?;
        }
        forall x | exists i :: 0 <= i < n && chunk[i].time == x && chunk[i].count.Some? ensures x in rest {
          var i :| 0 <= i < n && chunk[i].time == x && chunk[i].count.Some?;
          assert chunk[..n][i] == chunk[i];
        }
      }
      rest + (if chunk[n].count.Some? then [chunk[n].time] else [])
  }

  lemma {:induction false} SpikeTimesAppend(a: seq<Cell>, b: seq<Cell>)
    ensures SpikeTimes(a + b) == SpikeTimes(a) + SpikeTimes(b)
  {
    if b == [] {
      assert a + b == a;
    } else {
      var n := |b| - 1;
      assert (a + b)[..|a + b| - 1] == a + b[..n];
      assert (a + b)[|a + b| - 1] == b[n];
      SpikeTimesAppend(a, b[..n]);
    }
  }

  /** Binning loses no spike and invents none: the chunks' spike times, in chunk
      order, are the spike times of the whole column. */
  lemma {:induction false} ChunkSpikeTimesConcat(chunks: seq<seq<Cell>>)
    ensures Flatten(seq(|chunks|, i requires 0 <= i < |chunks| => SpikeTimes(chunks[i]))) == SpikeTimes(Flatten(chunks))
  {
    if chunks != [] {
      var n := |chunks| - 1;
      var all := seq(|chunks|, i requires 0 <= i < |chunks| => SpikeTimes(chunks[i]));
      assert all[..n] == seq(n, i requires 0 <= i < n => SpikeTimes(chunks[..n][i]));
      ChunkSpikeTimesConcat(chunks[..n]);
      SpikeTimesAppend(Flatten(chunks[..n]), chunks[n]);
    }
  }

  lemma {:induction false} SpikeTimesSorted(chunk: seq<Cell>)
    requires SortedCells(chunk)
    ensures StrictlyIncreasing(SpikeTimes(chunk))
    ensures forall k :: 0 <= k < |SpikeTimes(chunk)| ==> SpikeTimes(chunk)[k] >= 0
  {
    if chunk != [] {
      var n := |chunk| - 1;
      SpikeTimesSorted(chunk[..n]);
      var rest := SpikeTimes(chunk[..n]);
      forall k | 0 <= k < |rest| ensures rest[k] < chunk[n].time {
        assert rest[k] in rest;
      }
    }
  }

  /** A neo SpikeTrain in nanoseconds with `t_start = 0`. */
  datatype SpikeTrain = SpikeTrain(times: seq<int>, tStop: int)

  /** `SpikeTrain(times=spike_times, t_stop=spike_times[-1], units=ns)`; neo rejects
      a spike before `t_start = 0` or after `t_stop`. */
  function NewSpikeTrain(spikeTimes: seq<int>): (train: SpikeTrain)
    requires |spikeTimes| > 0
    requires forall k :: 0 <= k < |spikeTimes| ==> 0 <= spikeTimes[k] <= spikeTimes[|spikeTimes| - 1]
    ensures train.times == spikeTimes && train.tStop in spikeTimes
    ensures forall x :: x in spikeTimes ==> x <= train.tStop
  {
    SpikeTrain(spikeTimes, spikeTimes[|spikeTimes| - 1])
  }

  /** Every chunk of a pivot column makes a spike train neo accepts. */
  lemma ChunkTrainAccepted(col: seq<Cell>, n: nat, i: nat, times: seq<int>)
    requires SortedCells(col) && 0 < n && i < n
    requires times == SpikeTimes(ArraySplit(col, n)[i])
    ensures forall k :: 0 <= k < |times| ==> 0 <= times[k] <= times[|times| - 1]
  {
    var chunk := ArraySplit(col, n)[i];
    SplitPointStep(|col|, n, i);
    SplitPointBound(|col|, n, i + 1);
    assert SortedCells(chunk);
    SpikeTimesSorted(chunk);
  }

  /** elephant's `isi`: the gaps between consecutive spike times. */
  function Isi(times: seq<int>): (intervals: seq<int>)
    ensures |intervals| == if |times| == 0 then 0 else |times| - 1
    ensures forall k :: 0 <= k < |intervals| ==> intervals[k] == times[k + 1] - times[k]
  {
    if |times| <= 1 then []
    else
      var n := |times| - 1;
      var rest := Isi(times[..n]);
      rest + [times[n] - times[n - 1]]
  }

  function Sum(xs: seq<int>): int {
    if xs == [] then 0 else Sum(xs[..|xs| - 1]) + xs[|xs| - 1]
  }

  /** The intervals add up to the span from the first spike to the last. */
  lemma {:induction false} IsiTelescopes(times: seq<int>)
    requires |times| > 0
    ensures Sum(Isi(times)) == times[|times| - 1] - times[0]
  {
    if |times| > 1 {
      var n := |times| - 1;
      IsiTelescopes(times[..n]);
      var isi := Isi(times);
      assert isi[..|isi| - 1] == Isi(times[..n]);
    }
  }

  /** The intervals of a train in time order are positive. */
  lemma IsiPositive(times: seq<int>)
    requires StrictlyIncreasing(times)
    ensures forall k :: 0 <= k < |Isi(times)| ==> Isi(times)[k] > 0
  {
  }

  /** `mfrs *= 10**10`: makes up for the nanosecond unit of the spike trains. */
  const RateScale: real := 10_000_000_000.0

  /** Multiplying a series entry; NaN stays NaN. */
  function Scale(v: Option<real>, factor: real): (r: Option<real>)
    ensures r.None? <==> v.None?
    ensures v.Some? ==> r.value == v.value * factor
  {
    match v
    case None => None
    case Some(x) => Some(x * factor)
  }

  /** The CV-ISI of one chunk for an estimator `cvOf` of a list of intervals (elephant's
      `cv`): without spikes `spike_times[-1]` raises IndexError, caught as NaN. */
  function ChunkCvIsi(chunk: seq<Cell>, cvOf: seq<int> -> Option<real>): (r: Option<real>)
    ensures (forall i :: 0 <= i < |chunk| ==> chunk[i].count.None?) ==> r.None?
  {
    var times := SpikeTimes(chunk);
    if times == [] then None
    else
      assert times[0] in times;
      cvOf(Isi(times))
  }

  /** The firing rate of one chunk for an estimator `rateOf` of a spike train (elephant's
      `mean_firing_rate`), unscaled; NaN for a chunk without spikes. */
  function ChunkRate(chunk: seq<Cell>, rateOf: SpikeTrain -> Option<real>): (r: Option<real>)
    ensures (forall i :: 0 <= i < |chunk| ==> chunk[i].count.None?) ==> r.None?
  {
    var times := SpikeTimes(chunk);
    if times == [] then None
    else
      assert times[0] in times;
      rateOf(SpikeTrain(times, times[|times| - 1]))
  }

  /** Every chunk of a column without spikes is without spikes. */
  lemma ChunksOfEmptyColumn(col: seq<Cell>, n: nat, i: nat)
    requires 0 < n && i < n
    requires forall k :: 0 <= k < |col| ==> col[k].count.None?
    ensures forall j :: 0 <= j < |ArraySplit(col, n)[i]| ==> ArraySplit(col, n)[i][j].count.None?
  {
    SplitPointStep(|col|, n, i);
    SplitPointBound(|col|, n, i + 1);
    var a := SplitPoint(|col|, n, i);
    forall j | 0 <= j < |ArraySplit(col, n)[i]| ensures ArraySplit(col, n)[i][j].count.None? {
      assert ArraySplit(col, n)[i][j] == col[a + j];
    }
  }

  /** The series `calculate_neuron_cov` returns. */
  function CvIsiSeries(col: seq<Cell>, numMinsPerBin: int, totalTime: int, cvOf: seq<int> -> Option<real>): (s: seq<Option<real>>)
    requires numMinsPerBin != 0 && NumBins(totalTime, numMinsPerBin) > 0
    ensures |s| == NumBins(totalTime, numMinsPerBin)
    ensures (forall k :: 0 <= k < |col| ==> col[k].count.None?) ==> forall i :: 0 <= i < |s| ==> s[i].None?
  {
    var chunks := ArraySplit(col, NumBins(totalTime, numMinsPerBin));
    assert (forall k :: 0 <= k < |col| ==> col[k].count.None?) ==>
      forall i :: 0 <= i < |chunks| ==> ChunkCvIsi(chunks[i], cvOf).None? by {
      if forall k :: 0 <= k < |col| ==> col[k].count.None? {
        forall i | 0 <= i < |chunks| ensures ChunkCvIsi(chunks[i], cvOf).None? {
          ChunksOfEmptyColumn(col, |chunks|, i);
        }
      }
    }
    seq(|chunks|, i requires 0 <= i < |chunks| => ChunkCvIsi(chunks[i], cvOf))
  }

  /** The series `calculate_neuron_mfr` returns. */
  function FiringRateSeries(col: seq<Cell>, numMinsPerBin: int, totalTime: int, rateOf: SpikeTrain -> Option<real>): (s: seq<Option<real>>)
    requires numMinsPerBin != 0 && NumBins(totalTime, numMinsPerBin) > 0
    ensures |s| == NumBins(totalTime, numMinsPerBin)
    ensures (forall k :: 0 <= k < |col| ==> col[k].count.None?) ==> forall i :: 0 <= i < |s| ==> s[i].None?
  {
    var chunks := ArraySplit(col, NumBins(totalTime, numMinsPerBin));
    assert (forall k :: 0 <= k < |col| ==> col[k].count.None?) ==>
      forall i :: 0 <= i < |chunks| ==> Scale(ChunkRate(chunks[i], rateOf), RateScale).None? by {
      if forall k :: 0 <= k < |col| ==> col[k].count.None? {
        forall i | 0 <= i < |chunks| ensures Scale(ChunkRate(chunks[i], rateOf), RateScale).None? {
          ChunksOfEmptyColumn(col, |chunks|, i);
        }
      }
    }
    seq(|chunks|, i requires 0 <= i < |chunks| => Scale(ChunkRate(chunks[i], rateOf), RateScale))
  }

  /** `calculate_neuron_cov`: one CV-ISI per chunk, in chunk order, NaN for a chunk
      holding no spike of the cluster. `array_split` raises unless there is at least one bin. */
  method CalculateNeuronCov(col: seq<Cell>, numMinsPerBin: int, totalTime: int, cvOf: seq<int> -> Option<real>)
    returns (cvIsis: seq<Option<real>>)
    requires numMinsPerBin != 0 && NumBins(totalTime, numMinsPerBin) > 0
    requires SortedCells(col)
    ensures |cvIsis| == NumBins(totalTime, numMinsPerBin)
    ensures cvIsis == CvIsiSeries(col, numMinsPerBin, totalTime, cvOf)
  {
    var numBins := NumBins(totalTime, numMinsPerBin);
    var colBins := ArraySplit(col, numBins);
    var series := new Option<real>[numBins](_ => Some(0.0));
    for ind := 0 to numBins
      invariant forall k :: 0 <= k < ind ==> series[k] == ChunkCvIsi(colBins[k], cvOf)
    {
      var spikeTimes := SpikeTimes(colBins[ind]);
      var cvIsi: Option<real>;
      if spikeTimes == [] {
        cvIsi := None;
      } else {
        ChunkTrainAccepted(col, numBins, ind, spikeTimes);
        var train := NewSpikeTrain(spikeTimes);
        cvIsi := cvOf(Isi(train.times));
      }
      series[ind] := cvIsi;
    }
    cvIsis := series[..];
  }

  /** `calculate_neuron_mfr`: one firing rate per chunk, in chunk order, NaN for a chunk
      holding no spike of the cluster, every defined rate multiplied by 10^10 once,
      after all chunks are computed. */
  method CalculateNeuronMfr(col: seq<Cell>, numMinsPerBin: int, totalTime: int, rateOf: SpikeTrain -> Option<real>)
    returns (mfrs: seq<Option<real>>)
    requires numMinsPerBin != 0 && NumBins(totalTime, numMinsPerBin) > 0
    requires SortedCells(col)
    ensures |mfrs| == NumBins(totalTime, numMinsPerBin)
    ensures mfrs == FiringRateSeries(col, numMinsPerBin, totalTime, rateOf)
  {
    var numBins := NumBins(totalTime, numMinsPerBin);
    var colBins := ArraySplit(col, numBins);
    var series := new Option<real>[numBins](_ => Some(0.0));
    for ind := 0 to numBins
      invariant forall k :: 0 <= k < ind ==> series[k] == ChunkRate(colBins[k], rateOf)
    {
      var spikeTimes := SpikeTimes(colBins[ind]);
      var mfr: Option<real>;
      if spikeTimes == [] {
        mfr := None;
      } else {
        ChunkTrainAccepted(col, numBins, ind, spikeTimes);
        var train := NewSpikeTrain(spikeTimes);
        mfr := rateOf(train);
      }
      series[ind] := mfr;
    }
    forall k | 0 <= k < numBins {
      series[k] := Scale(series[k], RateScale);
    }
    mfrs := series[..];
  }

  /** A chunk without spikes of the cluster gives NaN in both series, at its own position. */
  lemma EmptyChunkIsNaN(col: seq<Cell>, numMinsPerBin: int, totalTime: int,
                        cvOf: seq<int> -> Option<real>, rateOf: SpikeTrain -> Option<real>, i: int)
    requires numMinsPerBin != 0 && NumBins(totalTime, numMinsPerBin) > 0
    requires 0 <= i < NumBins(totalTime, numMinsPerBin)
    requires SpikeTimes(ArraySplit(col, NumBins(totalTime, numMinsPerBin))[i]) == []
    ensures CvIsiSeries(col, numMinsPerBin, totalTime, cvOf)[i].None?
    ensures FiringRateSeries(col, numMinsPerBin, totalTime, rateOf)[i].None?
  {
  }

  /** With fewer pivot rows than bins, every bin past the rows is empty and NaN. */
  lemma BinsPastTheRowsAreNaN(col: seq<Cell>, numMinsPerBin: int, totalTime: int,
                              cvOf: seq<int> -> Option<real>, rateOf: SpikeTrain -> Option<real>, i: int)
    requires numMinsPerBin != 0 && NumBins(totalTime, numMinsPerBin) > 0
    requires |col| <= i < NumBins(totalTime, numMinsPerBin)
    ensures CvIsiSeries(col, numMinsPerBin, totalTime, cvOf)[i].None?
    ensures FiringRateSeries(col, numMinsPerBin, totalTime, rateOf)[i].None?
  {
    var n := NumBins(totalTime, numMinsPerBin);
    assert |col| / n == 0 && |col| % n == |col|;
    assert |ArraySplit(col, n)[i]| == 0;
  }

  /** Both series have exactly `trunc(total_time / num_mins_per_bin)` entries. */
  lemma SeriesLength(col: seq<Cell>, numMinsPerBin: int, totalTime: int,
                     cvOf: seq<int> -> Option<real>, rateOf: SpikeTrain -> Option<real>)
    requires numMinsPerBin > 0 && totalTime >= 0 && totalTime / numMinsPerBin > 0
    ensures NumBins(totalTime, numMinsPerBin) == totalTime / numMinsPerBin
    ensures |CvIsiSeries(col, numMinsPerBin, totalTime, cvOf)| == totalTime / numMinsPerBin
    ensures |FiringRateSeries(col, numMinsPerBin, totalTime, rateOf)| == totalTime / numMinsPerBin
  {
    TruncDivision(totalTime, numMinsPerBin);
  }
}
