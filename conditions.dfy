/** `get_condition_times`: the boundary time of each experimental phase, taken
    as the time of the LAST row (in table order) that carries the phase's label. */
module Conditions {
  import opened Common
  import opened Times
  import opened EventTable

  /** Some row carries the label (`cond in df['condition'].values`). */
  predicate HasCondition(df: seq<Event>, cond: string) {
    exists i :: 0 <= i < |df| && df[i].condition == cond
  }

  /** Row i is the last row of the table, in table order, carrying the label. */
  ghost predicate IsLastWith(df: seq<Event>, cond: string, i: int) {
    0 <= i < |df| && df[i].condition == cond &&
    forall j :: i < j < |df| ==> df[j].condition != cond
  }

  /** `s` is the time, in seconds, of the last row carrying the label. */
  ghost predicate IsLastSeconds(df: seq<Event>, cond: string, s: real) {
    exists i :: IsLastWith(df, cond, i) && Seconds(df[i].time) == s
  }

  /** `df[df['condition'] == label]['time'].iloc[-1]`; on an empty selection
      `iloc[-1]` raises, so the label must be present. */
  function LastTimeWith(df: seq<Event>, cond: string): (t: int)
    requires HasCondition(df, cond)
    ensures exists i :: IsLastWith(df, cond, i) && df[i].time == t
  {
    var n := |df| - 1;
    if df[n].condition == cond then
      assert IsLastWith(df, cond, n);
      df[n].time
    else
      assert HasCondition(df[..n], cond) by {
        var i :| 0 <= i < |df| && df[i].condition == cond;
        assert i < n && df[..n][i] == df[i];
      }
      var t := LastTimeWith(df[..n], cond);
      assert exists i :: IsLastWith(df, cond, i) && df[i].time == t by {
        var i :| IsLastWith(df[..n], cond, i) && df[..n][i].time == t;
        assert IsLastWith(df, cond, i);
      }
      t
  }

  /** On a table in time order the last labelled row has the largest time of its phase;
      on other tables the two can differ, and the source takes the last row. */
  lemma LastIsMaxWhenSorted(df: seq<Event>, cond: string)
    requires HasCondition(df, cond)
    requires forall i, j :: 0 <= i < j < |df| ==> df[i].time <= df[j].time
    ensures forall k :: 0 <= k < |df| && df[k].condition == cond ==> df[k].time <= LastTimeWith(df, cond)
  {
    var t := LastTimeWith(df, cond);
    var i :| IsLastWith(df, cond, i) && df[i].time == t;
    forall k | 0 <= k < |df| && df[k].condition == cond
      ensures df[k].time <= df[i].time
    {
      assert k <= i;
    }
  }

  /** The two shapes of `max_time`: a scalar for DREADD, `[('CIT', t1), ('WAY', t2)]` for CIT. */
  datatype ConditionTimes =
    | Single(maxTime: real)
    | Windows(windows: seq<(string, real)>)

  /** `get_condition_times`: the phase boundaries in seconds and the number of phases.
      An experiment other than DREADD or CIT leaves the results unbound, and a missing
      CNO (DREADD) or CIT (CIT) label makes `iloc[-1]` raise. */
  function GetConditionTimes(df: seq<Event>, experiment: string): (r: (ConditionTimes, int))
    requires experiment == "DREADD" || experiment == "CIT"
    requires experiment == "DREADD" ==> HasCondition(df, "CNO")
    requires experiment == "CIT" ==> HasCondition(df, "CIT")
    ensures r.1 == 1 || r.1 == 2
    ensures experiment == "DREADD" ==>
      r.1 == 1 && r.0.Single? && IsLastSeconds(df, "CNO", r.0.maxTime)
    ensures experiment == "CIT" ==>
      && r.0.Windows? && |r.0.windows| == 2
      && r.0.windows[0].0 == "CIT" && r.0.windows[1].0 == "WAY"
      && IsLastSeconds(df, "CIT", r.0.windows[0].1)
      && (r.1 == 2 <==> HasCondition(df, "WAY"))
      && (HasCondition(df, "WAY") ==> IsLastSeconds(df, "WAY", r.0.windows[1].1))
      && (!HasCondition(df, "WAY") ==> r.0.windows[1].1 == r.0.windows[0].1)
  {
    if experiment == "DREADD" then
      (Single(Seconds(LastTimeWith(df, "CNO"))), 1)
    else
      var maxTimeCit := Seconds(LastTimeWith(df, "CIT"));
      var hasWay := HasCondition(df, "WAY");
      var maxTimeWay := if hasWay then Seconds(LastTimeWith(df, "WAY")) else maxTimeCit;
      (Windows([("CIT", maxTimeCit), ("WAY", maxTimeWay)]), if hasWay then 2 else 1)
  }
}
