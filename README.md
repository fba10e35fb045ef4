# Spike statistics of multi-unit recordings, in Dafny

This project models the spike-statistics step of an electrophysiology pipeline.
A recording is a table of spike events. Each event has a cluster (neuron) label, a time in seconds and an experimental condition label ("Baseline", "CIT", "WAY", "CNO").
For every recording, the step:

- loads the table from `<data_dir>/<recording>/<recording>.csv`;
- adds a unit `spike` column and turns the times into nanosecond timedeltas;
- pivots the table into one row per distinct timestamp and one column per cluster, each cell counting that cluster's events at that time;
- cuts every cluster column with `np.array_split` into a number of chunks, and computes per chunk the CV of the inter-spike intervals and the mean firing rate (scaled by 10^10); a chunk without spikes yields NaN;
- on the baseline rows, in 2-minute bins over 60 minutes (30 bins), takes each cluster's median of its defined bins, joins the two medians on the cluster and tags them with the recording;
- over the whole session computes the same series for plotting, on all rows, with as many chunks as whole 2-minute periods fit before the boundary of the last experimental phase.

The per-recording summaries are concatenated in recording order and reindexed 0..n-1.
The model also covers `gen_paths` of the EEG packing step: the raw-data folder and the `.dat` output file of a recording.

Modules, one per concern of the source:

- `Common`: NaN as `Option.None`, ascending keys, and concatenation of pieces.
- `Times`: seconds, integer nanoseconds, and `np.int` truncation.
- `EventTable`: the loaded rows, the `EventFrame` class whose `Manipulate` method is `manipulate_df` (it changes the frame's columns in place), and the CSV path.
- `TimeSeries`: the pivot table.
- `Conditions`: the phase boundaries.
- `Binning`: `array_split` and the two per-column estimators, as methods filling a preallocated array.
- `Medians`: `dropna`, `np.median`, `get_medians` and the join.
- `Pipeline`: the loop of `main`.
- `PackPaths`: `gen_paths`.

The elephant estimators `cv` and `mean_firing_rate` are parameters of the model (`cvOf`, `rateOf`).
`isi` is modelled exactly.
The binned series are specified by the functions `CvIsiSeries` and `FiringRateSeries`.
The per-recording summary is specified by `RecordingSummary`, and the combined table by `Summaries` and `Flatten`.
The methods are proved equal to these functions, and the properties are proved about the functions.

Two points where the code is followed and its documentation says otherwise:

- The median of a cluster drops the NaN bins before `np.median` (`get_medians` calls `dropna`). A cluster's median is therefore NaN only when every one of its bins is NaN (`MedianNaNIffAllNaN`). A single NaN bin does not propagate to the median.
- A phase boundary is the time of the last row carrying the label, in table order (`iloc[-1]`), not the largest such time. The two agree on a table in time order (`LastIsMaxWhenSorted`).

The bins are chunks with equal numbers of pivot rows (distinct timestamps), not windows of equal duration. The model keeps that: `ArraySplit` cuts the rows, and the minutes only fix how many chunks there are.

## Model

| member | source | states |
|---|---|---|
| Common.FlattenLength | mua_preprocess/spiking_statistics/logic.py:47 | the concatenated table has as many rows as all the pieces together |
| Common.FlattenMember | mua_preprocess/spiking_statistics/logic.py:47 | every row of the concatenation comes from one of the pieces |
| Common.FlattenAppend | mua_preprocess/spiking_statistics/logic.py:46-47 | appending a piece appends its rows and adds its length |
| Times.Trunc | mua_preprocess/spiking_statistics/funcs.py:49 | `np.int` rounds toward zero: the result is within one below a non-negative value and within one above a negative one |
| Times.NanosRoundTrip | mua_preprocess/spiking_statistics/funcs.py:20 | converting a timedelta to seconds and back gives the same timedelta |
| Times.ToNanosClose | mua_preprocess/spiking_statistics/funcs.py:20 | `to_timedelta` moves a time in seconds by at most half a nanosecond |
| Times.ToNanosNonNegative | mua_preprocess/spiking_statistics/funcs.py:20 | a non-negative time stays non-negative as a timedelta |
| Times.TruncDivision | mua_preprocess/spiking_statistics/funcs.py:49 | for non-negative operands, truncated true division equals integer division |
| EventTable.ToTimedelta | mua_preprocess/spiking_statistics/funcs.py:20 | a time in seconds becomes a timedelta within half a nanosecond of it; a timedelta is left unchanged |
| EventTable.Normalize | mua_preprocess/spiking_statistics/funcs.py:18-21 | one row per loaded row, in order, with the same cluster and condition, and a time within half a nanosecond of the loaded seconds |
| EventTable.NormalizeNonNegative | mua_preprocess/spiking_statistics/funcs.py:20 | non-negative loaded times give non-negative timedeltas |
| EventTable.PathJoin | mua_preprocess/spiking_statistics/funcs.py:14 | `os.path.join` ends with its last part (or is the path itself when there are no parts) |
| EventTable.LoadPath | mua_preprocess/spiking_statistics/funcs.py:14 | the loaded file is named after the recording, followed by ".csv" |
| EventTable.EventFrame.constructor | mua_preprocess/spiking_statistics/funcs.py:15 | the frame holds the CSV rows in file order, the times still in seconds, and has no `spike` column yet |
| EventTable.EventFrame.Manipulate | mua_preprocess/spiking_statistics/funcs.py:18-21 | adds `spike = 1` to every row, converts every time to a timedelta in place, and leaves clusters, conditions and row order unchanged |
| EventTable.LoadPathShape | mua_preprocess/spiking_statistics/funcs.py:14 | for a plain directory and recording name, the path is `<data_dir>/<recording>/<recording>.csv` |
| EventTable.LoadPathIsCsv | mua_preprocess/spiking_statistics/funcs.py:14 | the loaded path always ends in ".csv" |
| TimeSeries.InsertUnique | mua_preprocess/spiking_statistics/funcs.py:25-26 | adding a key to an ascending axis keeps it ascending and without repeats, with exactly the old keys and the new one |
| TimeSeries.SortedUnique | mua_preprocess/spiking_statistics/funcs.py:25-26 | a pivot axis holds each distinct value of the column once, in ascending order |
| TimeSeries.CountOf | mua_preprocess/spiking_statistics/funcs.py:27-28 | a count never exceeds the number of rows |
| TimeSeries.CountPositive | mua_preprocess/spiking_statistics/funcs.py:27-28 | a (time, cluster) count is positive exactly when some row has that time and cluster |
| TimeSeries.CreateTimeSeries | mua_preprocess/spiking_statistics/funcs.py:24-29 | the index is the distinct times and the columns are the distinct clusters, both ascending; a cell holds the count of its events, and is NaN exactly when the cluster did not fire at that time |
| TimeSeries.Column | mua_preprocess/spiking_statistics/funcs.py:24-29 | a cluster's column spans every timestamp of the index; on a pivot over non-negative times it is in ascending, non-negative time order |
| TimeSeries.PivotCellCounts | mua_preprocess/spiking_statistics/funcs.py:24-29 | a cell is present exactly when its count is positive, and then equals the count |
| Conditions.LastTimeWith | mua_preprocess/spiking_statistics/funcs.py:34-39 | the time of the last row in table order carrying the label; the label must be present |
| Conditions.LastIsMaxWhenSorted | mua_preprocess/spiking_statistics/funcs.py:37 | on a table in time order, the last labelled row has the largest time of its phase |
| Conditions.GetConditionTimes | mua_preprocess/spiking_statistics/funcs.py:32-45 | DREADD gives one boundary, the last CNO time, with 1 condition; CIT gives the pairs ("CIT", last CIT time) and ("WAY", last WAY time, or the CIT time when no WAY row exists), with 2 conditions exactly when a WAY row exists |
| Binning.SplitPointStep | mua_preprocess/spiking_statistics/funcs.py:50 | consecutive split points are one chunk size apart |
| Binning.NumBins | mua_preprocess/spiking_statistics/funcs.py:49 | for non-negative operands the number of bins is the integer quotient of the total by the bin width |
| Binning.SplitPointBound | mua_preprocess/spiking_statistics/funcs.py:50 | no split point passes the end of the column, and the last one is the end |
| Binning.Chunk | mua_preprocess/spiking_statistics/funcs.py:50 | a chunk has `len / n` items, plus one for the first `len % n` chunks |
| Binning.ArraySplit | mua_preprocess/spiking_statistics/funcs.py:50 | exactly n chunks, of the sizes `array_split` gives |
| Binning.ArraySplitPrefix | mua_preprocess/spiking_statistics/funcs.py:50 | the first k chunks concatenate to the column up to the k-th split point |
| Binning.ArraySplitConcat | mua_preprocess/spiking_statistics/funcs.py:50 | the chunks concatenate back to the column: nothing is lost, repeated or reordered |
| Binning.ArraySplitBalanced | mua_preprocess/spiking_statistics/funcs.py:50 | chunk sizes differ by at most one, and larger chunks come first |
| Binning.SpikeTimes | mua_preprocess/spiking_statistics/funcs.py:54 | a chunk's spike times are exactly the times of its non-NaN cells |
| Binning.SpikeTimesAppend | mua_preprocess/spiking_statistics/funcs.py:54 | the spike times of two adjacent pieces are the first piece's followed by the second's |
| Binning.ChunkSpikeTimesConcat | mua_preprocess/spiking_statistics/funcs.py:50-54 | the chunks' spike times, in chunk order, are the spike times of the whole column |
| Binning.SpikeTimesSorted | mua_preprocess/spiking_statistics/funcs.py:54-58 | a chunk of a pivot column gives ascending, non-negative spike times |
| Binning.NewSpikeTrain | mua_preprocess/spiking_statistics/funcs.py:56-58 | the train holds the spike times and stops at the last one, which no spike passes |
| Binning.ChunkTrainAccepted | mua_preprocess/spiking_statistics/funcs.py:54-58 | every chunk's spike times lie between t_start = 0 and t_stop, as neo requires |
| Binning.Isi | mua_preprocess/spiking_statistics/funcs.py:60 | one interval fewer than spikes, each the gap between consecutive spikes |
| Binning.ChunkCvIsi | mua_preprocess/spiking_statistics/funcs.py:54-62 | a chunk without spikes yields NaN |
| Binning.ChunkRate | mua_preprocess/spiking_statistics/funcs.py:74-81 | a chunk without spikes yields NaN |
| Binning.ChunksOfEmptyColumn | mua_preprocess/spiking_statistics/funcs.py:50 | every chunk of a column without spikes is without spikes |
| Binning.CvIsiSeries | mua_preprocess/spiking_statistics/funcs.py:48-65 | one entry per bin; every entry is NaN for a cluster column without spikes |
| Binning.FiringRateSeries | mua_preprocess/spiking_statistics/funcs.py:68-84 | one entry per bin; every entry is NaN for a cluster column without spikes |
| Binning.IsiTelescopes | mua_preprocess/spiking_statistics/funcs.py:60 | the intervals add up to the span from the first spike to the last |
| Binning.IsiPositive | mua_preprocess/spiking_statistics/funcs.py:60 | the intervals of a train in time order are positive |
| Binning.CalculateNeuronCov | mua_preprocess/spiking_statistics/funcs.py:48-65 | fills one entry per bin, `trunc(total / per_bin)` of them, with the chunk's CV-ISI or NaN, giving the series `CvIsiSeries` |
| Binning.CalculateNeuronMfr | mua_preprocess/spiking_statistics/funcs.py:68-84 | fills one entry per bin with the chunk's rate or NaN, then multiplies every defined entry by 10^10, giving the series `FiringRateSeries` |
| Binning.EmptyChunkIsNaN | mua_preprocess/spiking_statistics/funcs.py:54-62 | a chunk without spikes gives NaN in both series, at its own position |
| Binning.BinsPastTheRowsAreNaN | mua_preprocess/spiking_statistics/funcs.py:49-63 | with fewer pivot rows than bins, every bin past the rows is NaN |
| Binning.SeriesLength | mua_preprocess/spiking_statistics/funcs.py:49-51 | both series have `total / per_bin` entries |
| Medians.InsertReal | mua_preprocess/spiking_statistics/funcs.py:91 | insertion adds one value |
| Medians.InsertRealMultiset | mua_preprocess/spiking_statistics/funcs.py:91 | insertion keeps the old values and adds the new one |
| Medians.InsertRealSorted | mua_preprocess/spiking_statistics/funcs.py:91 | insertion into an ascending list keeps it ascending |
| Medians.SortReals | mua_preprocess/spiking_statistics/funcs.py:91 | sorting keeps the length |
| Medians.SortRealsCorrect | mua_preprocess/spiking_statistics/funcs.py:91 | the sort inside `np.median` gives an ascending permutation of the values |
| Medians.SortedSameHead | mua_preprocess/spiking_statistics/funcs.py:91 | two ascending lists with the same values start alike |
| Medians.SameTail | mua_preprocess/spiking_statistics/funcs.py:91 | removing an equal head leaves the same remaining values |
| Medians.SortedPermutationsEqual | mua_preprocess/spiking_statistics/funcs.py:91 | two ascending lists with the same values are equal |
| Medians.Median | mua_preprocess/spiking_statistics/funcs.py:91 | the median is NaN exactly for an empty list |
| Medians.MedianIgnoresOrder | mua_preprocess/spiking_statistics/funcs.py:91 | the median depends only on which values occur, not on the order of the bins |
| Medians.MedianWithinBounds | mua_preprocess/spiking_statistics/funcs.py:91 | the median lies within any bounds that hold for all the values |
| Medians.DropNa | mua_preprocess/spiking_statistics/funcs.py:90 | `dropna` never lengthens a column |
| Medians.DropNaAppend | mua_preprocess/spiking_statistics/funcs.py:90 | `dropna` works entry by entry and keeps the order: a column split in two drops to the two dropped pieces, one after the other; a defined entry is kept and a NaN one dropped |
| Medians.DropNaDefined | mua_preprocess/spiking_statistics/funcs.py:90 | a column without NaN is kept whole, value by value, in order |
| Medians.DropNaMembers | mua_preprocess/spiking_statistics/funcs.py:90 | `dropna` keeps every defined value exactly as often as it occurs, and no other value |
| Medians.MedianNaNIffAllNaN | mua_preprocess/spiking_statistics/funcs.py:90-91 | a cluster's median is NaN exactly when all of its bins are NaN |
| Medians.GetMedians | mua_preprocess/spiking_statistics/funcs.py:87-94 | a table named by the label, indexed by the columns in order, holding each column's median of its defined bins |
| Medians.Lookup | mua_preprocess/spiking_statistics/logic.py:27 | the value for a key is that of the first row with the key, and NaN when no row has it |
| Medians.LookupUnique | mua_preprocess/spiking_statistics/logic.py:27 | in a table with unique keys, looking up a row's key gives that row's value |
| Medians.Join | mua_preprocess/spiking_statistics/logic.py:27 | a left join keeps every row of the left table in order, with its key and value, and the right table's value for that key |
| Medians.JoinAligned | mua_preprocess/spiking_statistics/logic.py:27 | two tables over the same unique keys join row by row |
| PackPaths.SepJoinPair | eeg_preprocess/pack_todat_eeg/funcs.py:8-9 | joining two parts puts one separator between them |
| PackPaths.SepJoin | eeg_preprocess/pack_todat_eeg/funcs.py:8-12 | the joined path starts with the first part and ends with the last |
| PackPaths.GenPaths | eeg_preprocess/pack_todat_eeg/funcs.py:4-14 | no existing directory is removed, the raw-data path lies under the open-ephys folder, and the file name ends in ".dat" |
| PackPaths.RawDataPath | eeg_preprocess/pack_todat_eeg/funcs.py:8 | the raw-data folder is the open-ephys folder, the separator, then the recording |
| PackPaths.FileNamePath | eeg_preprocess/pack_todat_eeg/funcs.py:9-14 | the output file is `<dat_folder><sep><recording><sep><recording>.dat`: inside the per-recording folder, ending in ".dat" |
| PackPaths.OutputFolderCreated | eeg_preprocess/pack_todat_eeg/funcs.py:9-11 | afterwards the per-recording output folder exists, and no other directory was created |
| PackPaths.PathsIndependentOfFlagsAndDisk | eeg_preprocess/pack_todat_eeg/funcs.py:4-14 | the returned paths depend neither on `verbose` nor on which directories existed |
| Pipeline.BaselineBins | mua_preprocess/spiking_statistics/logic.py:19-24 | 2-minute bins over 60 minutes make 30 bins |
| Pipeline.SelectCondition | mua_preprocess/spiking_statistics/logic.py:17 | the baseline table holds only rows labelled "Baseline", and every such row of the table |
| Pipeline.SelectConditionSingle | mua_preprocess/spiking_statistics/logic.py:17 | a single row is kept exactly when it is labelled with the condition |
| Pipeline.SelectConditionAppend | mua_preprocess/spiking_statistics/logic.py:17 | the selection keeps table order: the selection of two pieces is the selection of the first followed by that of the second |
| Pipeline.SelectConditionCounts | mua_preprocess/spiking_statistics/logic.py:17 | every matching row is kept as often as it occurs, and no other row |
| Pipeline.PivotColumnSorted | mua_preprocess/spiking_statistics/logic.py:18-24 | a pivot of non-negative times has ascending, non-negative column timestamps |
| Pipeline.ApplyCov | mua_preprocess/spiking_statistics/logic.py:19-21 | every pivot column, in order, paired with its CV-ISI series |
| Pipeline.ApplyMfr | mua_preprocess/spiking_statistics/logic.py:22-24 | every pivot column, in order, paired with its firing-rate series |
| Pipeline.TagRecording | mua_preprocess/spiking_statistics/logic.py:28 | every joined row is kept in order with its cluster and both medians, and carries the recording's name |
| Pipeline.RecordingSummary | mua_preprocess/spiking_statistics/logic.py:16-28 | one summary row per cluster of the baseline pivot, each tagged with the recording |
| Pipeline.RecordingSummaryTagged | mua_preprocess/spiking_statistics/logic.py:17-28 | every summary row names its recording, and the clusters are ascending and unique |
| Pipeline.RecordingSummaryColumns | mua_preprocess/spiking_statistics/logic.py:18-27 | the summary has one row per baseline pivot column, in order |
| Pipeline.RecordingSummaryClusters | mua_preprocess/spiking_statistics/logic.py:17-27 | a cluster has a summary row exactly when it has a baseline event |
| Pipeline.BaselineClusters | mua_preprocess/spiking_statistics/logic.py:17-18 | the baseline pivot's columns are exactly the clusters with a baseline event |
| Pipeline.BaselineSeriesLength | mua_preprocess/spiking_statistics/logic.py:19-24 | every baseline series has 30 bins, whatever the session boundary |
| Pipeline.SessionBoundaryPicksLastPhase | mua_preprocess/spiking_statistics/logic.py:11-15 | the session boundary is the last WAY time when WAY rows exist, otherwise the last CIT time |
| Pipeline.SessionBoundary | mua_preprocess/spiking_statistics/logic.py:12-15 | the boundary is one of the two phase times |
| Pipeline.SessionMinutes | mua_preprocess/spiking_statistics/logic.py:34 | for a non-negative boundary, the whole minutes before it: the boundary lies between that many minutes and one more |
| Pipeline.SessionOf | mua_preprocess/spiking_statistics/logic.py:11-15 | the session statistics name the recording and 1 or 2 conditions, and give, for every cluster of the full pivot in order, a CV-ISI and a firing-rate series with one entry per 2-minute period of the session |
| Pipeline.SummariseBaseline | mua_preprocess/spiking_statistics/logic.py:16-28 | the baseline half of the loop body gives the recording's summary `RecordingSummary` |
| Pipeline.SessionSeries | mua_preprocess/spiking_statistics/logic.py:11-15 | the session boundary chosen by the number of conditions, with both full-session series, as `SessionOf` states |
| Pipeline.ProcessRecording | mua_preprocess/spiking_statistics/logic.py:7-37 | one loop pass gives the recording's baseline summary and its full-session series |
| Pipeline.RunPipeline | mua_preprocess/spiking_statistics/logic.py:4-49 | the combined table is the recordings' summaries concatenated in order, with as many rows as they have together and the index 0..n-1; plotting receives every recording's session series |
| Pipeline.MergedRowsNamed | mua_preprocess/spiking_statistics/logic.py:28-47 | every row of the combined table is tagged with one of the analysed recordings |

## Left out

- `cv` and `mean_firing_rate` of elephant are parameters of the model (`cvOf`, `rateOf`). Their numerics are not modelled. `isi` is modelled exactly.
- Floating point is not modelled. Times in seconds and all statistics are reals. `to_timedelta` is modelled as rounding to the nearest nanosecond, without binary-float error.
- Reading the CSV is not modelled. The files are a map from path to rows: `read_csv` becomes a lookup of `LoadPath`. Column parsing and the `verbose` progress messages are also left out.
- Writing is left out: in `main`, `mkdirs_` and `to_csv` of the combined table. The model stops at the combined table.
- `plot_cluster` and `plt.tight_layout` are left out: the figures are not modelled. `SessionStats` holds the boundary, the number of conditions and the full-session series that `main` passes to `plot_cluster`. The baseline pivot and the medians it also passes are the ones `RecordingSummary` is computed from, and are not repeated in `SessionStats`.
- Pipeline.RunPipeline: covers CIT only. For DREADD, `get_condition_times` returns a scalar boundary, and `max_times[0][1]` in `main` raises on it. `Conditions.GetConditionTimes` models both experiments.
- Pipeline.RunPipeline: the run-configuration modules beside the step define the recordings, the folders and the experiment. They become parameters of the method.
- Pipeline.RunPipeline: requires what the statistics part of `main` needs to avoid raising:
  - at least one recording, since `pd.concat` of nothing raises;
  - non-negative times, since neo rejects spikes before 0;
  - a CIT row, since `iloc[-1]` of an empty selection raises;
  - a session boundary of at least two minutes, since `array_split` needs a positive count.
  These error paths are not modelled as results.
- Pipeline.RunPipeline: does not model the ways `plot_cluster` makes `main` raise, so it returns a combined table for some inputs on which `main` aborts. It raises an IndexError (funcs.py lines 118 and 145) when the full-session pivot has more clusters than the baseline pivot, for instance for a recording without Baseline rows. It raises a ValueError (funcs.py line 151, a histogram with 0 bins) when a baseline cluster has fewer than five spikes.
- Medians.Join: models `left.join(right)` for a right table with unique keys, as both median tables in `main` are. With a repeated right key pandas repeats the left row, while the model takes the first match.
- PackPaths.GenPaths: `os.mkdir` fails when the parent folder is missing. That failure is not modelled; the folder always counts as created.
- Pandas' index names and column labels are not modelled. Rows are records with named fields instead.
