/** The raw spike-event table of one recording: where it is loaded from
    (`load_data`) and the in-place normalisation `manipulate_df`, which adds the
    unit `spike` column and turns the `time` column from seconds into timedeltas. */
module EventTable {
  import opened Common
  import opened Times

  /** A row of a recording's CSV file: cluster label, time in seconds, condition label. */
  datatype RawEvent = RawEvent(spikeCluster: int, time: real, condition: string)

  /** A row after normalisation, its time a timedelta in nanoseconds. */
  datatype Event = Event(spikeCluster: int, time: int, condition: string)

  /** A value of the `time` column: float seconds as read, or a timedelta. */
  datatype TimeValue = Secs(seconds: real) | Delta(nanos: int)

  /** `pd.to_timedelta(_, unit='s')` on one value: seconds become the nearest
      nanosecond; a timedelta is left as it is. */
  function ToTimedelta(t: TimeValue): (r: TimeValue)
    ensures r.Delta?
    ensures t.Delta? ==> r == t
    ensures t.Secs? ==> r.nanos == ToNanos(t.seconds)
    ensures t.Secs? ==> t.seconds - 0.5 / NanosPerSecond as real < Seconds(r.nanos) <= t.seconds + 0.5 / NanosPerSecond as real
  {
    match t
    case Secs(x) =>
      ToNanosClose(x);
      Delta(ToNanos(x))
    case Delta(_) => t
  }

  /** The table a normalised frame holds, computed from the rows as loaded: the same
      rows in the same order, each time within half a nanosecond of its seconds value. */
  function Normalize(raw: seq<RawEvent>): (rows: seq<Event>)
    ensures |rows| == |raw|
    ensures forall i :: 0 <= i < |raw| ==>
      rows[i].spikeCluster == raw[i].spikeCluster && rows[i].condition == raw[i].condition &&
      rows[i].time == ToNanos(raw[i].time)
    ensures forall i :: 0 <= i < |raw| ==>
      raw[i].time - 0.5 / NanosPerSecond as real < Seconds(rows[i].time) <= raw[i].time + 0.5 / NanosPerSecond as real
  {
    forall i | 0 <= i < |raw| {
      ToNanosClose(raw[i].time);
    }
    seq(|raw|, i requires 0 <= i < |raw| => Event(raw[i].spikeCluster, ToNanos(raw[i].time), raw[i].condition))
  }

  /** Normalising keeps every non-negative time non-negative. */
  lemma {:induction false} NormalizeNonNegative(raw: seq<RawEvent>)
    requires forall i :: 0 <= i < |raw| ==> raw[i].time >= 0.0
    ensures forall i :: 0 <= i < |raw| ==> Normalize(raw)[i].time >= 0
  {
    forall i | 0 <= i < |raw|
      ensures Normalize(raw)[i].time >= 0
    {
      ToNanosNonNegative(raw[i].time);
    }
  }

  /** A pandas frame holding the event table column by column. */
  class EventFrame {
    var spikeCluster: seq<int>
    var condition: seq<string>
    var time: seq<TimeValue>
    /** The `spike` column; absent until `Manipulate` adds it. */
    var spike: Option<seq<int>>

    predicate Valid()
      reads this
    {
      |condition| == |spikeCluster| && |time| == |spikeCluster| &&
      (spike.Some? ==> |spike.value| == |spikeCluster|)
    }

    /** Every time is a timedelta, as `manipulate_df` leaves the frame. */
    predicate Normalized()
      reads this
    {
      Valid() && forall i :: 0 <= i < |time| ==> time[i].Delta?
    }

    /** `pd.read_csv`: one row per CSV line, in file order, the times still in seconds. */
    constructor (raw: seq<RawEvent>)
      ensures Valid() && spike == None
      ensures |spikeCluster| == |raw|
      ensures forall i :: 0 <= i < |raw| ==>
        spikeCluster[i] == raw[i].spikeCluster && condition[i] == raw[i].condition &&
        time[i] == Secs(raw[i].time)
    {
      spikeCluster := seq(|raw|, i requires 0 <= i < |raw| => raw[i].spikeCluster);
      condition := seq(|raw|, i requires 0 <= i < |raw| => raw[i].condition);
      time := seq(|raw|, i requires 0 <= i < |raw| => Secs(raw[i].time));
      spike := None;
    }

    /** `manipulate_df`: adds `spike = 1` to every row and converts `time` to timedeltas,
        keeping every row in its place and the other columns unchanged. */
    method Manipulate()
      requires Valid()
      modifies this
      ensures Normalized()
      ensures spikeCluster == old(spikeCluster) && condition == old(condition)
      ensures spike == Some(seq(|spikeCluster|, _ => 1))
      ensures |time| == |old(time)|
      ensures forall i :: 0 <= i < |time| ==> time[i] == ToTimedelta(old(time)[i])
    {
      spike := Some(seq(|spikeCluster|, _ => 1));
      var was := time;
      time := seq(|was|, i requires 0 <= i < |was| => ToTimedelta(was[i]));
    }

    /** The frame's rows as values. */
    function Rows(): (rows: seq<Event>)
      reads this
      requires Normalized()
      ensures |rows| == |spikeCluster|
      ensures forall i :: 0 <= i < |rows| ==>
        rows[i] == Event(spikeCluster[i], time[i].nanos, condition[i])
    {
      seq(|spikeCluster|, i requires 0 <= i < |spikeCluster| && Normalized() reads this =>
        Event(spikeCluster[i], time[i].nanos, condition[i]))
    }
  }

  /** `os.path.join` on POSIX: a part starting with '/' restarts the path, and '/' is
      inserted between parts unless the path so far is empty or already ends in '/'. */
  function PathJoin(path: string, parts: seq<string>): (r: string)
    ensures parts == [] ==> r == path
    ensures parts != [] ==> |parts[|parts| - 1]| <= |r| && r[|r| - |parts[|parts| - 1]|..] == parts[|parts| - 1]
    decreases |parts|
  {
    if parts == [] then path
    else
      var b := parts[0];
      var next :=
        if |b| > 0 && b[0] == '/' then b
        else if path == [] || path[|path| - 1] == '/' then path + b
        else path + "/" + b;
      assert |parts| > 1 ==> parts[1..][|parts| - 2] == parts[|parts| - 1];
      PathJoin(next, parts[1..])
  }

  /** The CSV file of a recording, `<data_dir>/<recording>/<recording>.csv`: its last
      component is the recording's name followed by ".csv". */
  function LoadPath(recording: string, dataDir: string): (path: string)
    ensures |recording| + 4 <= |path| && path[|path| - |recording| - 4..] == recording + ".csv"
  {
    PathJoin(dataDir, [recording, recording]) + ".csv"
  }

  /** For an ordinary directory and a recording name without slashes the path is exactly
      the directory, the recording twice, separated by '/', then ".csv". */
  lemma LoadPathShape(recording: string, dataDir: string)
    requires |dataDir| > 0 && dataDir[|dataDir| - 1] != '/'
    requires |recording| > 0 && forall k :: 0 <= k < |recording| ==> recording[k] != '/'
    ensures LoadPath(recording, dataDir) == dataDir + "/" + recording + "/" + recording + ".csv"
  {
    var first := dataDir + "/" + recording;
    assert [recording, recording][1..] == [recording];
    assert PathJoin(dataDir, [recording, recording]) == PathJoin(first, [recording]);
    assert first[|first| - 1] == recording[|recording| - 1];
    assert [recording][1..] == [];
    assert PathJoin(first, [recording]) == PathJoin(first + "/" + recording, []);
  }

  /** The loaded path always names a ".csv" file. */
  lemma LoadPathIsCsv(recording: string, dataDir: string)
    ensures |LoadPath(recording, dataDir)| >= 4
    ensures LoadPath(recording, dataDir)[|LoadPath(recording, dataDir)| - 4..] == ".csv"
  {
  }
}
