/** `main` of the spiking-statistics step: for every recording, its baseline medians
    of CV-ISI and firing rate (one row per baseline cluster, tagged with the recording)
    and its full-session binned series; the summaries are concatenated in recording
    order and reindexed 0..n-1. */
module Pipeline {
  import opened Common
  import opened Times
  import opened EventTable
  import opened Conditions
  import opened TimeSeries
  import opened Binning
  import opened Medians

  /** The fixed baseline configuration: 2-minute bins over 60 minutes. */
  const BaselineMinsPerBin: int := 2
  const BaselineTotalTime: int := 60
  /** Full-session series also use 2-minute bins. */
  const SessionMinsPerBin: int := 2

  /** The baseline configuration always gives 30 bins. */
  lemma BaselineBins()
    ensures NumBins(BaselineTotalTime, BaselineMinsPerBin) == 30
  {
    TruncDivision(BaselineTotalTime, BaselineMinsPerBin);
  }

  /** `df[df['condition'] == cond]`: the matching rows, in table order. */
  function SelectCondition(df: seq<Event>, cond: string): (rows: seq<Event>)
    ensures forall e :: e in rows <==> e in df && e.condition == cond
  {
    if df == [] then []
    else
      var n := |df| - 1;
      assert df == df[..n] + [df[n]];
      SelectCondition(df[..n], cond) + (if df[n].condition == cond then [df[n]] else [])
  }

  /** A one-row table keeps its row exactly when the row matches. */
  lemma SelectConditionSingle(e: Event, cond: string)
    ensures SelectCondition([e], cond) == if e.condition == cond then [e] else []
  {
    assert [e][..0] == [];
  }

  /** The selection works piece by piece: the pieces of a table keep their order. */
  lemma {:induction false} SelectConditionAppend(a: seq<Event>, b: seq<Event>, cond: string)
    ensures SelectCondition(a + b, cond) == SelectCondition(a, cond) + SelectCondition(b, cond)
    decreases |b|
  {
    if b == [] {
      assert a + b == a;
    } else {
      var n := |b| - 1;
      var ab := a + b;
      assert ab[..|ab| - 1] == a + b[..n];
      assert ab[|ab| - 1] == b[n];
      var tail := if b[n].condition == cond then [b[n]] else [];
      assert SelectCondition(ab, cond) == SelectCondition(a + b[..n], cond) + tail;
      SelectConditionAppend(a, b[..n], cond);
      assert SelectCondition(b, cond) == SelectCondition(b[..n], cond) + tail;
    }
  }

  /** Every matching row is kept as often as it occurs in the table. */
  lemma {:induction false} SelectConditionCounts(df: seq<Event>, cond: string)
    ensures forall e :: multiset(SelectCondition(df, cond))[e] == if e.condition == cond then multiset(df)[e] else 0
  {
    if df != [] {
      var n := |df| - 1;
      SelectConditionCounts(df[..n], cond);
      assert df == df[..n] + [df[n]];
      assert multiset(df) == multiset(df[..n]) + multiset{df[n]};
      var tail := if df[n].condition == cond then [df[n]] else [];
      assert multiset(SelectCondition(df, cond)) == multiset(SelectCondition(df[..n], cond)) + multiset(tail);
    }
  }

  /** A pivot of non-negative times has columns neo accepts spike trains from. */
  lemma PivotColumnSorted(df: seq<Event>, k: int)
    requires forall i :: 0 <= i < |df| ==> df[i].time >= 0
    requires 0 <= k < |CreateTimeSeries(df).columns|
    ensures SortedCells(Column(CreateTimeSeries(df), k))
  {
    var p := CreateTimeSeries(df);
    forall i | 0 <= i < |p.index| ensures p.index[i] >= 0 {
      assert p.index[i] in p.index;
    }
  }

  /** The CV-ISI table `df_ts.apply(calculate_neuron_cov, ...)` produces. */
  function CvIsiTable(ts: PivotTable, numMinsPerBin: int, totalTime: int, cvOf: seq<int> -> Option<real>): seq<BinColumn>
    requires numMinsPerBin != 0 && NumBins(totalTime, numMinsPerBin) > 0
  {
    seq(|ts.columns|, k requires 0 <= k < |ts.columns| =>
      BinColumn(ts.columns[k], CvIsiSeries(Column(ts, k), numMinsPerBin, totalTime, cvOf)))
  }

  /** The firing-rate table `df_ts.apply(calculate_neuron_mfr, ...)` produces. */
  function FiringRateTable(ts: PivotTable, numMinsPerBin: int, totalTime: int, rateOf: SpikeTrain -> Option<real>): seq<BinColumn>
    requires numMinsPerBin != 0 && NumBins(totalTime, numMinsPerBin) > 0
  {
    seq(|ts.columns|, k requires 0 <= k < |ts.columns| =>
      BinColumn(ts.columns[k], FiringRateSeries(Column(ts, k), numMinsPerBin, totalTime, rateOf)))
  }

  /** `df_ts.apply(func=calculate_neuron_cov, ...)`: the estimator run on every column. */
  method ApplyCov(ts: PivotTable, numMinsPerBin: int, totalTime: int, cvOf: seq<int> -> Option<real>)
    returns (table: seq<BinColumn>)
    requires ts.Valid() && forall i :: 0 <= i < |ts.index| ==> ts.index[i] >= 0
    requires numMinsPerBin != 0 && NumBins(totalTime, numMinsPerBin) > 0
    ensures table == CvIsiTable(ts, numMinsPerBin, totalTime, cvOf)
  {
    table := [];
    for k := 0 to |ts.columns|
      invariant |table| == k
      invariant forall j :: 0 <= j < k ==>
        table[j] == BinColumn(ts.columns[j], CvIsiSeries(Column(ts, j), numMinsPerBin, totalTime, cvOf))
    {
      var series := CalculateNeuronCov(Column(ts, k), numMinsPerBin, totalTime, cvOf);
      table := table + [BinColumn(ts.columns[k], series)];
    }
  }

  /** `df_ts.apply(func=calculate_neuron_mfr, ...)`: the estimator run on every column. */
  method ApplyMfr(ts: PivotTable, numMinsPerBin: int, totalTime: int, rateOf: SpikeTrain -> Option<real>)
    returns (table: seq<BinColumn>)
    requires ts.Valid() && forall i :: 0 <= i < |ts.index| ==> ts.index[i] >= 0
    requires numMinsPerBin != 0 && NumBins(totalTime, numMinsPerBin) > 0
    ensures table == FiringRateTable(ts, numMinsPerBin, totalTime, rateOf)
  {
    table := [];
    for k := 0 to |ts.columns|
      invariant |table| == k
      invariant forall j :: 0 <= j < k ==>
        table[j] == BinColumn(ts.columns[j], FiringRateSeries(Column(ts, j), numMinsPerBin, totalTime, rateOf))
    {
      var series := CalculateNeuronMfr(Column(ts, k), numMinsPerBin, totalTime, rateOf);
      table := table + [BinColumn(ts.columns[k], series)];
    }
  }

  /** A row of the combined summary table. */
  datatype SummaryRow = SummaryRow(spikeCluster: int, cvIsi: Option<real>, firingRate: Option<real>, recording: string)

  /** `df_stats['recording'] = recording` on the joined medians. */
  function TagRecording(joined: seq<JoinedRow>, recording: string): (rows: seq<SummaryRow>)
    ensures |rows| == |joined|
    ensures forall i :: 0 <= i < |rows| ==> rows[i].recording == recording
    ensures forall i :: 0 <= i < |rows| ==>
      rows[i].spikeCluster == joined[i].key && rows[i].cvIsi == joined[i].left && rows[i].firingRate == joined[i].right
  {
    seq(|joined|, i requires 0 <= i < |joined| =>
      SummaryRow(joined[i].key, joined[i].left, joined[i].right, recording))
  }

  /** The baseline summary of one recording: per baseline cluster, the medians of its
      defined 2-minute bins over 60 minutes, tagged with the recording. */
  function RecordingSummary(recording: string, df: seq<Event>,
                            cvOf: seq<int> -> Option<real>, rateOf: SpikeTrain -> Option<real>): (rows: seq<SummaryRow>)
    ensures |rows| == |CreateTimeSeries(SelectCondition(df, "Baseline")).columns|
    ensures forall i :: 0 <= i < |rows| ==> rows[i].recording == recording
  {
    BaselineBins();
    var ts := CreateTimeSeries(SelectCondition(df, "Baseline"));
    seq(|ts.columns|, k requires 0 <= k < |ts.columns| =>
      SummaryRow(ts.columns[k],
                 Median(DropNa(CvIsiSeries(Column(ts, k), BaselineMinsPerBin, BaselineTotalTime, cvOf))),
                 Median(DropNa(FiringRateSeries(Column(ts, k), BaselineMinsPerBin, BaselineTotalTime, rateOf))),
                 recording))
  }

  /** The summary carries the recording's name on every row, and lists its clusters in
      ascending order. */
  lemma RecordingSummaryTagged(recording: string, df: seq<Event>,
                               cvOf: seq<int> -> Option<real>, rateOf: SpikeTrain -> Option<real>)
    ensures var rows := RecordingSummary(recording, df, cvOf, rateOf);
      && (forall i :: 0 <= i < |rows| ==> rows[i].recording == recording)
      && (forall i, j :: 0 <= i < j < |rows| ==> rows[i].spikeCluster < rows[j].spikeCluster)
  {
    var ts := CreateTimeSeries(SelectCondition(df, "Baseline"));
    assert StrictlyIncreasing(ts.columns);
  }

  /** The summary's rows are the baseline pivot's columns, in order. */
  lemma RecordingSummaryColumns(recording: string, df: seq<Event>,
                                cvOf: seq<int> -> Option<real>, rateOf: SpikeTrain -> Option<real>)
    ensures var rows := RecordingSummary(recording, df, cvOf, rateOf);
      var ts := CreateTimeSeries(SelectCondition(df, "Baseline"));
      |rows| == |ts.columns| && forall i :: 0 <= i < |rows| ==> rows[i].spikeCluster == ts.columns[i]
  {
  }

  /** The summary has a row for a cluster exactly when the cluster has a baseline event. */
  lemma RecordingSummaryClusters(recording: string, df: seq<Event>,
                                 cvOf: seq<int> -> Option<real>, rateOf: SpikeTrain -> Option<real>)
    ensures var rows := RecordingSummary(recording, df, cvOf, rateOf);
      && (forall i :: 0 <= i < |rows| ==>
            exists e :: e in df && e.condition == "Baseline" && e.spikeCluster == rows[i].spikeCluster)
      && (forall e :: e in df && e.condition == "Baseline" ==>
            exists i :: 0 <= i < |rows| && rows[i].spikeCluster == e.spikeCluster)
  {
    var base := SelectCondition(df, "Baseline");
    var ts := CreateTimeSeries(base);
    var rows := RecordingSummary(recording, df, cvOf, rateOf);
    RecordingSummaryColumns(recording, df, cvOf, rateOf);
    BaselineClusters(df, ts.columns, rows);
  }

  /** Both directions of the cluster correspondence, over any rows that list the
      baseline pivot's columns. */
  lemma BaselineClusters(df: seq<Event>, columns: seq<int>, rows: seq<SummaryRow>)
    requires columns == CreateTimeSeries(SelectCondition(df, "Baseline")).columns
    requires |rows| == |columns| && forall i :: 0 <= i < |rows| ==> rows[i].spikeCluster == columns[i]
    ensures forall i :: 0 <= i < |rows| ==>
      exists e :: e in df && e.condition == "Baseline" && e.spikeCluster == rows[i].spikeCluster
    ensures forall e :: e in df && e.condition == "Baseline" ==>
      exists i :: 0 <= i < |rows| && rows[i].spikeCluster == e.spikeCluster
  {
    var base := SelectCondition(df, "Baseline");
    forall i | 0 <= i < |rows|
      ensures exists e :: e in df && e.condition == "Baseline" && e.spikeCluster == rows[i].spikeCluster
    {
      assert columns[i] in columns;
      var j :| 0 <= j < |base| && base[j].spikeCluster == columns[i];
      assert base[j] in base;
    }
    forall e | e in df && e.condition == "Baseline"
      ensures exists i :: 0 <= i < |rows| && rows[i].spikeCluster == e.spikeCluster
    {
      assert e in base;
      var j :| 0 <= j < |base| && base[j] == e;
      assert e.spikeCluster in columns;
      var i :| 0 <= i < |columns| && columns[i] == e.spikeCluster;
    }
  }

  /** Every baseline series has 30 bins, whatever the session boundary. */
  lemma BaselineSeriesLength(df: seq<Event>, cvOf: seq<int> -> Option<real>, rateOf: SpikeTrain -> Option<real>, k: int)
    requires 0 <= k < |CreateTimeSeries(SelectCondition(df, "Baseline")).columns|
    ensures var ts := CreateTimeSeries(SelectCondition(df, "Baseline"));
      NumBins(BaselineTotalTime, BaselineMinsPerBin) == 30 &&
      |CvIsiSeries(Column(ts, k), BaselineMinsPerBin, BaselineTotalTime, cvOf)| == 30 &&
      |FiringRateSeries(Column(ts, k), BaselineMinsPerBin, BaselineTotalTime, rateOf)| == 30
  {
    BaselineBins();
  }

  /** The boundary `main` takes from `get_condition_times`: the first pair's time for one
      condition, the second pair's for two. */
  function SessionBoundary(times: ConditionTimes, nConditions: int): (boundary: real)
    requires times.Windows? && |times.windows| == 2
    ensures boundary == times.windows[0].1 || boundary == times.windows[1].1
  {
    if nConditions == 1 then times.windows[0].1 else times.windows[1].1
  }

  /** The boundary picked for a CIT recording: the last WAY time when there are WAY
      rows, otherwise the last CIT time. */
  lemma SessionBoundaryPicksLastPhase(df: seq<Event>)
    requires HasCondition(df, "CIT")
    ensures var (times, n) := GetConditionTimes(df, "CIT");
      && times.Windows? && |times.windows| == 2
      && (HasCondition(df, "WAY") ==> IsLastSeconds(df, "WAY", SessionBoundary(times, n)))
      && (!HasCondition(df, "WAY") ==> IsLastSeconds(df, "CIT", SessionBoundary(times, n)))
  {
  }

  /** `max_time` of a CIT recording: the boundary picked from its condition times. */
  function SessionMaxTime(df: seq<Event>): real
    requires HasCondition(df, "CIT")
  {
    var r := GetConditionTimes(df, "CIT");
    SessionBoundary(r.0, r.1)
  }

  /** `np.int(max_time / 60)`: the session length in whole minutes. */
  function SessionMinutes(df: seq<Event>): (minutes: int)
    requires HasCondition(df, "CIT")
    ensures SessionMaxTime(df) >= 0.0 ==>
      minutes >= 0 && minutes as real * 60.0 <= SessionMaxTime(df) < (minutes + 1) as real * 60.0
  {
    Trunc(SessionMaxTime(df) / 60.0)
  }

  /** What a recording must satisfy for `main` to get through it: non-negative times
      (neo rejects spikes before t_start = 0), a CIT row (`iloc[-1]`) and a session of at
      least one 2-minute bin (`array_split` needs a positive count). */
  predicate Processable(raw: seq<RawEvent>) {
    && (forall i :: 0 <= i < |raw| ==> raw[i].time >= 0.0)
    && HasCondition(Normalize(raw), "CIT")
    && NumBins(SessionMinutes(Normalize(raw)), SessionMinsPerBin) > 0
  }

  /** What `main` hands to `plot_cluster` for one recording. */
  datatype SessionStats = SessionStats(recording: string, maxTime: real, nConditions: int,
                                       firingRate: seq<BinColumn>, cvIsi: seq<BinColumn>)

  /** The full-session statistics of one recording: all rows, not only baseline. */
  function SessionOf(recording: string, df: seq<Event>,
                     cvOf: seq<int> -> Option<real>, rateOf: SpikeTrain -> Option<real>): (s: SessionStats)
    requires HasCondition(df, "CIT")
    requires NumBins(SessionMinutes(df), SessionMinsPerBin) > 0
    ensures s.recording == recording && (s.nConditions == 1 || s.nConditions == 2)
    ensures |s.firingRate| == |s.cvIsi| == |CreateTimeSeries(df).columns|
    ensures forall k :: 0 <= k < |s.cvIsi| ==>
      s.cvIsi[k].cluster == s.firingRate[k].cluster == CreateTimeSeries(df).columns[k] &&
      |s.cvIsi[k].values| == |s.firingRate[k].values| == NumBins(SessionMinutes(df), SessionMinsPerBin)
  {
    var ts := CreateTimeSeries(df);
    SessionStats(recording, SessionMaxTime(df), GetConditionTimes(df, "CIT").1,
                 FiringRateTable(ts, SessionMinsPerBin, SessionMinutes(df), rateOf),
                 CvIsiTable(ts, SessionMinsPerBin, SessionMinutes(df), cvOf))
  }

  /** The combined table after `reset_index`: the cluster labels are a column of the rows,
      and the index is 0..n-1. */
  datatype CombinedSummary = CombinedSummary(index: seq<int>, rows: seq<SummaryRow>)

  /** The loaded and normalised table of a recording. */
  function LoadedRows(files: map<string, seq<RawEvent>>, recording: string, dataDir: string): seq<Event>
    requires LoadPath(recording, dataDir) in files
  {
    Normalize(files[LoadPath(recording, dataDir)])
  }

  /** The full-session statistics of a recording as loaded from the files. */
  function SessionOfRecording(files: map<string, seq<RawEvent>>, recording: string, dataDir: string,
                              cvOf: seq<int> -> Option<real>, rateOf: SpikeTrain -> Option<real>): SessionStats
    requires LoadPath(recording, dataDir) in files && Processable(files[LoadPath(recording, dataDir)])
  {
    SessionOf(recording, LoadedRows(files, recording, dataDir), cvOf, rateOf)
  }

  /** Every recording's table is among the files. */
  predicate Available(recordings: seq<string>, dataDir: string, files: map<string, seq<RawEvent>>) {
    forall k :: 0 <= k < |recordings| ==> LoadPath(recordings[k], dataDir) in files
  }

  /** Every recording's table gets through `main`. */
  predicate AllProcessable(recordings: seq<string>, dataDir: string, files: map<string, seq<RawEvent>>)
    requires Available(recordings, dataDir, files)
  {
    forall k :: 0 <= k < |recordings| ==> Processable(files[LoadPath(recordings[k], dataDir)])
  }

  /** The full-session statistics handed to plotting, in recording order. */
  function SessionsOf(recordings: seq<string>, dataDir: string, files: map<string, seq<RawEvent>>,
                      cvOf: seq<int> -> Option<real>, rateOf: SpikeTrain -> Option<real>): seq<SessionStats>
    requires Available(recordings, dataDir, files) && AllProcessable(recordings, dataDir, files)
  {
    seq(|recordings|, k requires 0 <= k < |recordings| =>
      SessionOfRecording(files, recordings[k], dataDir, cvOf, rateOf))
  }

  /** The per-recording summaries, in recording order. */
  function Summaries(recordings: seq<string>, dataDir: string, files: map<string, seq<RawEvent>>,
                     cvOf: seq<int> -> Option<real>, rateOf: SpikeTrain -> Option<real>): seq<seq<SummaryRow>>
    requires Available(recordings, dataDir, files)
  {
    seq(|recordings|, k requires 0 <= k < |recordings| =>
      RecordingSummary(recordings[k], LoadedRows(files, recordings[k], dataDir), cvOf, rateOf))
  }

  /** The baseline half of the loop body: filter the baseline rows, bin them in 2-minute
      bins over 60 minutes, take each cluster's medians and join them, tagged. */
  method SummariseBaseline(recording: string, df: seq<Event>,
                           cvOf: seq<int> -> Option<real>, rateOf: SpikeTrain -> Option<real>)
    returns (dfStats: seq<SummaryRow>)
    requires forall i :: 0 <= i < |df| ==> df[i].time >= 0
    ensures dfStats == RecordingSummary(recording, df, cvOf, rateOf)
  {
    BaselineBins();
    var dfBase := SelectCondition(df, "Baseline");
    var dfTs := CreateTimeSeries(dfBase);
    forall i | 0 <= i < |dfTs.index| ensures dfTs.index[i] >= 0 {
      assert dfTs.index[i] in dfTs.index;
      var j :| 0 <= j < |dfBase| && dfBase[j].time == dfTs.index[i];
      assert dfBase[j] in df;
    }
    var cvIsisTs := ApplyCov(dfTs, BaselineMinsPerBin, BaselineTotalTime, cvOf);
    var meanFiringRatesTs := ApplyMfr(dfTs, BaselineMinsPerBin, BaselineTotalTime, rateOf);
    var covMedians := GetMedians(cvIsisTs, "CV ISI");
    var mfrMedians := GetMedians(meanFiringRatesTs, "Firing Rate");
    assert covMedians.index == dfTs.columns == mfrMedians.index;
    JoinAligned(covMedians, mfrMedians);
    dfStats := TagRecording(Join(covMedians, mfrMedians), recording);
  }

  /** The plotting half of the loop body: the series of every cluster over the whole
      session, in 2-minute bins up to the session boundary. */
  method SessionSeries(recording: string, df: seq<Event>,
                       cvOf: seq<int> -> Option<real>, rateOf: SpikeTrain -> Option<real>)
    returns (session: SessionStats)
    requires forall i :: 0 <= i < |df| ==> df[i].time >= 0
    requires HasCondition(df, "CIT")
    requires NumBins(SessionMinutes(df), SessionMinsPerBin) > 0
    ensures session == SessionOf(recording, df, cvOf, rateOf)
  {
    var conditionTimes := GetConditionTimes(df, "CIT");
    var maxTimes, nConditions := conditionTimes.0, conditionTimes.1;
    var maxTime: real;
    if nConditions == 1 {
      maxTime := maxTimes.windows[0].1;
    } else {
      maxTime := maxTimes.windows[1].1;
    }
    assert maxTime == SessionMaxTime(df);
    var dfTsAll := CreateTimeSeries(df);
    forall i | 0 <= i < |dfTsAll.index| ensures dfTsAll.index[i] >= 0 {
      assert dfTsAll.index[i] in dfTsAll.index;
    }
    var totalTime := Trunc(maxTime / 60.0);
    var cvIsisAll := ApplyCov(dfTsAll, SessionMinsPerBin, totalTime, cvOf);
    var mfrsAll := ApplyMfr(dfTsAll, SessionMinsPerBin, totalTime, rateOf);
    assert totalTime == SessionMinutes(df);
    assert dfTsAll == CreateTimeSeries(df);
    assert cvIsisAll == CvIsiTable(CreateTimeSeries(df), SessionMinsPerBin, SessionMinutes(df), cvOf);
    assert mfrsAll == FiringRateTable(CreateTimeSeries(df), SessionMinsPerBin, SessionMinutes(df), rateOf);
    assert nConditions == GetConditionTimes(df, "CIT").1;
    session := SessionStats(recording, maxTime, nConditions, mfrsAll, cvIsisAll);
  }

  /** One pass of the loop of `main`: load and normalise the table, then its baseline
      summary and its full-session series. */
  method ProcessRecording(recording: string, raw: seq<RawEvent>,
                          cvOf: seq<int> -> Option<real>, rateOf: SpikeTrain -> Option<real>)
    returns (dfStats: seq<SummaryRow>, session: SessionStats)
    requires Processable(raw)
    ensures dfStats == RecordingSummary(recording, Normalize(raw), cvOf, rateOf)
    ensures session == SessionOf(recording, Normalize(raw), cvOf, rateOf)
  {
    var frame := new EventFrame(raw);
    frame.Manipulate();
    var df := frame.Rows();
    assert df == Normalize(raw);
    NormalizeNonNegative(raw);
    dfStats := SummariseBaseline(recording, df, cvOf, rateOf);
    session := SessionSeries(recording, df, cvOf, rateOf);
  }

  /** Extending a prefix by the next element gives the longer prefix. */
  lemma PrefixStep<T>(s: seq<T>, i: int)
    requires 0 <= i < |s|
    ensures s[..i + 1] == s[..i] + [s[i]]
  {
  }

  /** `main` for a CIT experiment: the combined summary of all recordings, in recording
      order and reindexed 0..n-1, plus what each recording hands to plotting.
      `pd.concat` of no summaries raises, and DREADD fails at `max_times[0][1]`. */
  method RunPipeline(recordings: seq<string>, dataDir: string, experiment: string,
                     files: map<string, seq<RawEvent>>,
                     cvOf: seq<int> -> Option<real>, rateOf: SpikeTrain -> Option<real>)
    returns (merged: CombinedSummary, sessions: seq<SessionStats>)
    requires |recordings| > 0
    requires experiment == "CIT"
    requires Available(recordings, dataDir, files)
    requires AllProcessable(recordings, dataDir, files)
    ensures merged.rows == Flatten(Summaries(recordings, dataDir, files, cvOf, rateOf))
    ensures |merged.rows| == TotalLength(Summaries(recordings, dataDir, files, cvOf, rateOf))
    ensures |merged.index| == |merged.rows| && forall i :: 0 <= i < |merged.index| ==> merged.index[i] == i
    ensures sessions == SessionsOf(recordings, dataDir, files, cvOf, rateOf)
  {
    ghost var summaries := Summaries(recordings, dataDir, files, cvOf, rateOf);
    ghost var allSessions := SessionsOf(recordings, dataDir, files, cvOf, rateOf);
    var dfList: seq<seq<SummaryRow>> := [];
    sessions := [];
    for i := 0 to |recordings|
      invariant dfList == summaries[..i]
      invariant sessions == allSessions[..i]
    {
      var recording := recordings[i];
      var raw := files[LoadPath(recording, dataDir)];
      var dfStats, session := ProcessRecording(recording, raw, cvOf, rateOf);
      assert dfStats == summaries[i];
      assert session == allSessions[i];
      PrefixStep(summaries, i);
      PrefixStep(allSessions, i);
      dfList := dfList + [dfStats];
      sessions := sessions + [session];
    }
    assert dfList == summaries;
    var rows := Flatten(dfList);
    FlattenLength(dfList);
    // reset_index(inplace=True) moves the cluster labels into the rows; the index
    // assigned afterwards is range(len(df_merged))
    merged := CombinedSummary(seq(|rows|, i => i), rows);
  }

  /** Every row of the combined table is tagged with one of the analysed recordings. */
  lemma MergedRowsNamed(recordings: seq<string>, dataDir: string, files: map<string, seq<RawEvent>>,
                        cvOf: seq<int> -> Option<real>, rateOf: SpikeTrain -> Option<real>, row: SummaryRow)
    requires Available(recordings, dataDir, files)
    requires row in Flatten(Summaries(recordings, dataDir, files, cvOf, rateOf))
    ensures row.recording in recordings
  {
    var ss := Summaries(recordings, dataDir, files, cvOf, rateOf);
    FlattenMember(ss, row);
    var k :| 0 <= k < |ss| && row in ss[k];
    RecordingSummaryTagged(recordings[k], LoadedRows(files, recordings[k], dataDir), cvOf, rateOf);
  }
}
