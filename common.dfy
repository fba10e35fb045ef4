/** Shared vocabulary of the spike-statistics model: the missing-value marker,
    sortedness of index columns, and flattening a list of tables into one. */
module Common {

  /** A cell that may be missing. `None` stands for pandas' NaN. */
  datatype Option<+T> = None | Some(value: T)

  /** A pandas index made of unique keys in ascending order. */
  predicate StrictlyIncreasing(s: seq<int>) {
    forall i, j :: 0 <= i < j < |s| ==> s[i] < s[j]
  }

  function Min(a: int, b: int): int {
    if a <= b then a else b
  }

  /** The concatenation of a list of pieces, in order (pd.concat, np.concatenate). */
  function Flatten<T>(ss: seq<seq<T>>): seq<T> {
    if ss == [] then [] else Flatten(ss[..|ss| - 1]) + ss[|ss| - 1]
  }

  /** The summed length of a list of pieces. */
  function TotalLength<T>(ss: seq<seq<T>>): nat {
    if ss == [] then 0 else TotalLength(ss[..|ss| - 1]) + |ss[|ss| - 1]|
  }

  lemma FlattenAppend<T>(ss: seq<seq<T>>, s: seq<T>)
    ensures Flatten(ss + [s]) == Flatten(ss) + s
    ensures TotalLength(ss + [s]) == TotalLength(ss) + |s|
  {
    assert (ss + [s])[..|ss|] == ss;
  }

  /** Concatenating pieces gives a sequence whose length is the sum of theirs. */
  lemma {:induction false} FlattenLength<T>(ss: seq<seq<T>>)
    ensures |Flatten(ss)| == TotalLength(ss)
  {
    if ss != [] {
      FlattenLength(ss[..|ss| - 1]);
    }
  }

  /** Whatever is in the concatenation is in one of the pieces. */
  lemma {:induction false} FlattenMember<T>(ss: seq<seq<T>>, x: T)
    requires x in Flatten(ss)
    ensures exists k :: 0 <= k < |ss| && x in ss[k]
  {
    var n := |ss| - 1;
    if x !in ss[n] {
      FlattenMember(ss[..n], x);
      var k :| 0 <= k < n && x in ss[..n][k];
      assert ss[k] == ss[..n][k];
    }
  }
}
