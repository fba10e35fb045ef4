/** `create_time_series`: the pivot of the normalised event table into one row per
    distinct timestamp and one column per cluster, each cell counting the events
    at that (time, cluster) pair, or missing when there are none. */
module TimeSeries {
  import opened Common
  import opened EventTable

  /** Adds x to an ascending sequence without repeats, keeping it so. */
  function InsertUnique(s: seq<int>, x: int): (r: seq<int>)
    requires StrictlyIncreasing(s)
    ensures StrictlyIncreasing(r)
    ensures forall y :: y in r <==> y in s || y == x
  {
    if s == [] then [x]
    else if x < s[0] then [x] + s
    else if x == s[0] then s
    else
      var rest := InsertUnique(s[1..], x);
      assert forall j :: 0 <= j < |rest| ==> s[0] < rest[j] by {
        forall j | 0 <= j < |rest| ensures s[0] < rest[j] {
          assert rest[j] in rest;
          if rest[j] != x {
            var k :| 0 <= k < |s[1..]| && s[1..][k] == rest[j];
            assert s[0] < s[k + 1];
          }
        }
      }
      [s[0]] + rest
  }

  /** The distinct values of a column in ascending order, as pandas builds a pivot axis. */
  function SortedUnique(xs: seq<int>): (r: seq<int>)
    ensures StrictlyIncreasing(r)
    ensures forall y :: y in r <==> y in xs
  {
    if xs == [] then []
    else InsertUnique(SortedUnique(xs[..|xs| - 1]), xs[|xs| - 1])
  }

  function TimesOf(df: seq<Event>): seq<int> {
    seq(|df|, i requires 0 <= i < |df| => df[i].time)
  }

  function ClustersOf(df: seq<Event>): seq<int> {
    seq(|df|, i requires 0 <= i < |df| => df[i].spikeCluster)
  }

  /** The number of rows with this time and this cluster. */
  function CountOf(df: seq<Event>, t: int, c: int): (n: nat)
    ensures n <= |df|
  {
    if df == [] then 0
    else
      var last := df[|df| - 1];
      CountOf(df[..|df| - 1], t, c) + (if last.time == t && last.spikeCluster == c then 1 else 0)
  }

  /** Some row has this time and this cluster. */
  predicate Fired(df: seq<Event>, t: int, c: int) {
    exists i :: 0 <= i < |df| && df[i].time == t && df[i].spikeCluster == c
  }

  /** A (time, cluster) pair has a positive count exactly when some row carries it. */
  lemma {:induction false} CountPositive(df: seq<Event>, t: int, c: int)
    ensures CountOf(df, t, c) > 0 <==> Fired(df, t, c)
  {
    if df != [] {
      var n := |df| - 1;
      CountPositive(df[..n], t, c);
      if Fired(df[..n], t, c) {
        var i :| 0 <= i < n && df[..n][i].time == t && df[..n][i].spikeCluster == c;
        assert df[i] == df[..n][i];
      }
      if Fired(df, t, c) && !(df[n].time == t && df[n].spikeCluster == c) {
        var i :| 0 <= i < |df| && df[i].time == t && df[i].spikeCluster == c;
        assert i < n && df[..n][i] == df[i];
      }
    }
  }

  /** The pivot table: the row index (timestamps), the column labels (clusters) and
      the non-missing cells. */
  datatype PivotTable = PivotTable(index: seq<int>, columns: seq<int>, counts: map<(int, int), nat>) {
    predicate Valid() {
      StrictlyIncreasing(index) && StrictlyIncreasing(columns)
    }

    /** The cell at (t, c); `None` is a NaN cell. */
    function CellAt(t: int, c: int): Option<nat> {
      if (t, c) in counts then Some(counts[(t, c)]) else None
    }
  }

  /** `df.pivot_table(index='time', columns='spike_cluster', values='spike', aggfunc='count')`. */
  function CreateTimeSeries(df: seq<Event>): (p: PivotTable)
    ensures p.Valid()
    ensures forall t :: t in p.index <==> exists i :: 0 <= i < |df| && df[i].time == t
    ensures forall c :: c in p.columns <==> exists i :: 0 <= i < |df| && df[i].spikeCluster == c
    ensures forall t, c :: p.CellAt(t, c) == if Fired(df, t, c) then Some(CountOf(df, t, c)) else None
  {
    var pairs := set i | 0 <= i < |df| :: (df[i].time, df[i].spikeCluster);
    var p := PivotTable(SortedUnique(TimesOf(df)), SortedUnique(ClustersOf(df)),
                        map q | q in pairs :: CountOf(df, q.0, q.1));
    assert forall t :: t in TimesOf(df) <==> exists i :: 0 <= i < |df| && df[i].time == t by {
      forall t | t in TimesOf(df) ensures exists i :: 0 <= i < |df| && df[i].time == t {
        var i :| 0 <= i < |df| && TimesOf(df)[i] == t;
      }
      forall t | exists i :: 0 <= i < |df| && df[i].time == t ensures t in TimesOf(df) {
        var i :| 0 <= i < |df| && df[i].time == t;
        assert TimesOf(df)[i] == t;
      }
    }
    assert forall c :: c in ClustersOf(df) <==> exists i :: 0 <= i < |df| && df[i].spikeCluster == c by {
      forall c | c in ClustersOf(df) ensures exists i :: 0 <= i < |df| && df[i].spikeCluster == c {
        var i :| 0 <= i < |df| && ClustersOf(df)[i] == c;
      }
      forall c | exists i :: 0 <= i < |df| && df[i].spikeCluster == c ensures c in ClustersOf(df) {
        var i :| 0 <= i < |df| && df[i].spikeCluster == c;
        assert ClustersOf(df)[i] == c;
      }
    }
    assert forall t, c :: (t, c) in pairs <==> Fired(df, t, c) by {
      forall t, c | Fired(df, t, c) ensures (t, c) in pairs {
        var i :| 0 <= i < |df| && df[i].time == t && df[i].spikeCluster == c;
      }
    }
    p
  }

  /** One column of the pivot: every timestamp of the index with the cluster's cell. */
  datatype Cell = Cell(time: int, count: Option<nat>)

  /** A column whose timestamps are ascending and non-negative, as the spike trains
      built from it need. */
  predicate SortedCells(col: seq<Cell>) {
    (forall i, j :: 0 <= i < j < |col| ==> col[i].time < col[j].time) &&
    (forall i :: 0 <= i < |col| ==> col[i].time >= 0)
  }

  /** `df_ts[c]` for the k-th column label c, spanning all rows of the index; the
      column of a pivot over non-negative times is in ascending time order. */
  function Column(p: PivotTable, k: int): (col: seq<Cell>)
    requires 0 <= k < |p.columns|
    ensures |col| == |p.index|
    ensures forall i :: 0 <= i < |col| ==> col[i] == Cell(p.index[i], p.CellAt(p.index[i], p.columns[k]))
    ensures p.Valid() && (forall i :: 0 <= i < |p.index| ==> p.index[i] >= 0) ==> SortedCells(col)
  {
    seq(|p.index|, i requires 0 <= i < |p.index| => Cell(p.index[i], p.CellAt(p.index[i], p.columns[k])))
  }

  /** The cell of cluster c at time t counts exactly the events of c at t, and is missing
      exactly when c did not fire at t, whichever other clusters fired then. */
  lemma PivotCellCounts(df: seq<Event>, t: int, c: int)
    ensures CreateTimeSeries(df).CellAt(t, c).Some? <==> CountOf(df, t, c) > 0
    ensures CreateTimeSeries(df).CellAt(t, c).Some? ==> CreateTimeSeries(df).CellAt(t, c).value == CountOf(df, t, c)
  {
    CountPositive(df, t, c);
  }
}
