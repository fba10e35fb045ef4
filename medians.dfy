/** `get_medians` and the join of the two median tables: one value per cluster column,
    the `np.median` of that column's non-NaN bins, and the two statistics joined on
    the cluster label. */
module Medians {
  import opened Common

  /** Ascending order over reals. */
  predicate SortedReals(s: seq<real>) {
    forall i, j :: 0 <= i < j < |s| ==> s[i] <= s[j]
  }

  function InsertReal(s: seq<real>, x: real): (r: seq<real>)
    ensures |r| == |s| + 1
  {
    if s == [] then [x]
    else if x <= s[0] then [x] + s
    else [s[0]] + InsertReal(s[1..], x)
  }

  lemma {:induction false} InsertRealMultiset(s: seq<real>, x: real)
    ensures multiset(InsertReal(s, x)) == multiset(s) + multiset{x}
  {
    if s != [] && x > s[0] {
      InsertRealMultiset(s[1..], x);
      assert s == [s[0]] + s[1..];
    }
  }

  /** Inserting into an ascending list keeps it ascending. */
  lemma {:induction false} InsertRealSorted(s: seq<real>, x: real)
    requires SortedReals(s)
    ensures SortedReals(InsertReal(s, x))
  {
    if s != [] && x > s[0] {
      assert s == [s[0]] + s[1..];
      InsertRealSorted(s[1..], x);
      InsertRealMultiset(s[1..], x);
      var rest := InsertReal(s[1..], x);
      forall k | 0 <= k < |rest| ensures s[0] <= rest[k] {
        assert rest[k] in multiset(rest);
        if rest[k] != x {
          assert rest[k] in multiset(s[1..]);
          var j :| 0 <= j < |s[1..]| && s[1..][j] == rest[k];
          assert s[0] <= s[j + 1];
        }
      }
    }
  }

  /** The values in ascending order (the sort inside `np.median`). */
  function SortReals(s: seq<real>): (r: seq<real>)
    ensures |r| == |s|
  {
    if s == [] then [] else InsertReal(SortReals(s[..|s| - 1]), s[|s| - 1])
  }

  /** Sorting yields an ascending permutation of the values. */
  lemma {:induction false} SortRealsCorrect(s: seq<real>)
    ensures SortedReals(SortReals(s))
    ensures multiset(SortReals(s)) == multiset(s)
  {
    if s != [] {
      var n := |s| - 1;
      SortRealsCorrect(s[..n]);
      InsertRealSorted(SortReals(s[..n]), s[n]);
      InsertRealMultiset(SortReals(s[..n]), s[n]);
      assert s == s[..n] + [s[n]];
    }
  }

  /** Two ascending lists with the same elements start with the same value. */
  lemma SortedSameHead(a: seq<real>, b: seq<real>)
    requires SortedReals(a) && SortedReals(b) && a != [] && b != []
    requires multiset(a) == multiset(b)
    ensures a[0] == b[0]
  {
    assert a[0] in multiset(b) && b[0] in multiset(a);
    var i :| 0 <= i < |b| && b[i] == a[0];
    var j :| 0 <= j < |a| && a[j] == b[0];
    assert b[0] <= b[i] && a[0] <= a[j];
  }

  lemma SameTail(a: seq<real>, b: seq<real>)
    requires a != [] && b != [] && a[0] == b[0]
    requires multiset(a) == multiset(b)
    ensures multiset(a[1..]) == multiset(b[1..])
  {
    assert a == [a[0]] + a[1..] && b == [b[0]] + b[1..];
    assert multiset(a) == multiset{a[0]} + multiset(a[1..]);
    assert multiset(b) == multiset{b[0]} + multiset(b[1..]);
    assert multiset(a[1..]) == multiset(a) - multiset{a[0]};
    assert multiset(b[1..]) == multiset(b) - multiset{b[0]};
  }

  /** Two ascending lists with the same elements are the same list. */
  lemma {:induction false} SortedPermutationsEqual(a: seq<real>, b: seq<real>)
    requires SortedReals(a) && SortedReals(b)
    requires multiset(a) == multiset(b)
    ensures a == b
  {
    assert |multiset(a)| == |a| && |multiset(b)| == |b|;
    if a != [] {
      SortedSameHead(a, b);
      SameTail(a, b);
      SortedPermutationsEqual(a[1..], b[1..]);
      assert a == [a[0]] + a[1..] && b == [b[0]] + b[1..];
    }
  }

  /** `np.median` of a list without NaN: the middle value of the sorted list, or the
      mean of the two middle values; NaN for an empty list. */
  function Median(vals: seq<real>): (m: Option<real>)
    ensures m.None? <==> vals == []
  {
    if vals == [] then None
    else
      var s := SortReals(vals);
      var h := |s| / 2;
      if |s| % 2 == 1 then Some(s[h]) else Some((s[h - 1] + s[h]) / 2.0)
  }

  /** The median depends only on which values occur, not on the order of the bins. */
  lemma {:induction false} MedianIgnoresOrder(a: seq<real>, b: seq<real>)
    requires multiset(a) == multiset(b)
    ensures Median(a) == Median(b)
  {
    if a != [] {
      assert |multiset(a)| == |a| && |multiset(b)| == |b|;
      SortRealsCorrect(a);
      SortRealsCorrect(b);
      SortedPermutationsEqual(SortReals(a), SortReals(b));
    }
  }

  /** The median lies within any bounds that hold for all the values. */
  lemma {:induction false} MedianWithinBounds(vals: seq<real>, lo: real, hi: real)
    requires vals != []
    requires forall k :: 0 <= k < |vals| ==> lo <= vals[k] <= hi
    ensures lo <= Median(vals).value <= hi
  {
    var s := SortReals(vals);
    SortRealsCorrect(vals);
    forall k | 0 <= k < |s| ensures lo <= s[k] <= hi {
      assert s[k] in multiset(vals);
    }
  }

  /** `col.dropna().values`: the defined entries, in order. */
  function DropNa(col: seq<Option<real>>): (vals: seq<real>)
    ensures |vals| <= |col|
  {
    if col == [] then []
    else
      var n := |col| - 1;
      DropNa(col[..n]) + (match col[n] case Some(x) => [x] case None => [])
  }

  /** `dropna` works entry by entry: a defined entry is kept, a NaN one is dropped, and
      the pieces of a column keep their order. */
  lemma {:induction false} DropNaAppend(a: seq<Option<real>>, b: seq<Option<real>>)
    ensures DropNa(a + b) == DropNa(a) + DropNa(b)
    ensures forall x :: DropNa([Some(x)]) == [x]
    ensures DropNa([Option<real>.None]) == []
    decreases |b|
  {
    if b == [] {
      assert a + b == a;
    } else {
      var n := |b| - 1;
      assert (a + b)[..|a + b| - 1] == a + b[..n];
      assert (a + b)[|a + b| - 1] == b[n];
      DropNaAppend(a, b[..n]);
    }
    forall x ensures DropNa([Some(x)]) == [x] {
      assert [Some(x)][..0] == [];
    }
    assert [Option<real>.None][..0] == [];
  }

  /** A column without NaN is kept whole, in order. */
  lemma {:induction false} DropNaDefined(col: seq<Option<real>>)
    requires forall k :: 0 <= k < |col| ==> col[k].Some?
    ensures |DropNa(col)| == |col|
    ensures forall k :: 0 <= k < |col| ==> DropNa(col)[k] == col[k].value
  {
    if col != [] {
      var n := |col| - 1;
      DropNaDefined(col[..n]);
      assert DropNa(col) == DropNa(col[..n]) + [col[n].value];
    }
  }

  /** `dropna` keeps every defined value as often as it occurs, and no other value. */
  lemma {:induction false} DropNaMembers(col: seq<Option<real>>)
    ensures forall x :: multiset(DropNa(col))[x] == multiset(col)[Some(x)]
    ensures forall x :: x in DropNa(col) <==> Some(x) in col
  {
    if col != [] {
      var n := |col| - 1;
      DropNaMembers(col[..n]);
      assert col == col[..n] + [col[n]];
      assert multiset(col) == multiset(col[..n]) + multiset{col[n]};
      var tail := match col[n] case Some(x) => [x] case None => [];
      assert DropNa(col) == DropNa(col[..n]) + tail;
      assert multiset(DropNa(col)) == multiset(DropNa(col[..n])) + multiset(tail);
    }
  }

  /** A column's median is NaN exactly when every one of its bins is NaN. */
  lemma {:induction false} MedianNaNIffAllNaN(col: seq<Option<real>>)
    ensures Median(DropNa(col)).None? <==> forall k :: 0 <= k < |col| ==> col[k].None?
  {
    if col != [] {
      var n := |col| - 1;
      MedianNaNIffAllNaN(col[..n]);
      assert forall k :: 0 <= k < n ==> col[..n][k] == col[k];
    }
  }

  /** One column of `df.apply(calculate_neuron_*)`: a cluster label and its bin series. */
  datatype BinColumn = BinColumn(cluster: int, values: seq<Option<real>>)

  /** `pd.DataFrame({lab: medians}, index=df.columns)`: one column named `name`. */
  datatype MedianTable = MedianTable(name: string, index: seq<int>, values: seq<Option<real>>) {
    predicate Valid() {
      |index| == |values|
    }
  }

  /** `get_medians`: a zero vector filled, column by column, with the median of the
      column's non-NaN values. */
  method GetMedians(df: seq<BinColumn>, lab: string) returns (r: MedianTable)
    ensures r.Valid() && r.name == lab && |r.index| == |df|
    ensures forall k :: 0 <= k < |df| ==> r.index[k] == df[k].cluster
    ensures forall k :: 0 <= k < |df| ==> r.values[k] == Median(DropNa(df[k].values))
  {
    var empty := new Option<real>[|df|](_ => Some(0.0));
    for col := 0 to |df|
      invariant forall k :: 0 <= k < col ==> empty[k] == Median(DropNa(df[k].values))
    {
      var vals := DropNa(df[col].values);
      var med := Median(vals);
      empty[col] := med;
    }
    r := MedianTable(lab, seq(|df|, k requires 0 <= k < |df| => df[k].cluster), empty[..]);
  }

  /** The value a table holds for a key: that of the first row with the key; NaN if none. */
  function Lookup(index: seq<int>, values: seq<Option<real>>, key: int): (r: Option<real>)
    requires |index| == |values|
    ensures (forall j :: 0 <= j < |index| ==> index[j] != key) ==> r.None?
    ensures forall i :: 0 <= i < |index| && index[i] == key && (forall j :: 0 <= j < i ==> index[j] != key) ==>
      r == values[i]
  {
    if index == [] then None
    else if index[0] == key then values[0]
    else
      var r := Lookup(index[1..], values[1..], key);
      assert forall i :: 0 < i < |index| ==> index[1..][i - 1] == index[i] && values[1..][i - 1] == values[i];
      r
  }

  /** In a table whose keys are unique, looking up a row's key gives that row's value. */
  lemma {:induction false} LookupUnique(index: seq<int>, values: seq<Option<real>>, i: int)
    requires |index| == |values| && StrictlyIncreasing(index) && 0 <= i < |index|
    ensures Lookup(index, values, index[i]) == values[i]
  {
    if i > 0 {
      assert index[0] < index[i];
      LookupUnique(index[1..], values[1..], i - 1);
    }
  }

  /** A row of `left.join(right)`: the key and the left and right tables' values. */
  datatype JoinedRow = JoinedRow(key: int, left: Option<real>, right: Option<real>)

  /** `left.join(right)` for a right table whose keys are unique: every row of the left
      table, in order, with the right table's value for the same key, NaN where the
      right table lacks the key. */
  function Join(left: MedianTable, right: MedianTable): (rows: seq<JoinedRow>)
    requires left.Valid() && right.Valid()
    ensures |rows| == |left.index|
    ensures forall i :: 0 <= i < |rows| ==>
      rows[i].key == left.index[i] && rows[i].left == left.values[i] &&
      rows[i].right == Lookup(right.index, right.values, left.index[i])
  {
    seq(|left.index|, i requires 0 <= i < |left.index| =>
      JoinedRow(left.index[i], left.values[i], Lookup(right.index, right.values, left.index[i])))
  }

  /** Two tables over the same unique keys join row by row. */
  lemma {:induction false} JoinAligned(left: MedianTable, right: MedianTable)
    requires left.Valid() && right.Valid()
    requires left.index == right.index && StrictlyIncreasing(left.index)
    ensures forall i :: 0 <= i < |left.index| ==>
      Join(left, right)[i] == JoinedRow(left.index[i], left.values[i], right.values[i])
  {
    forall i | 0 <= i < |left.index|
      ensures Join(left, right)[i] == JoinedRow(left.index[i], left.values[i], right.values[i])
    {
      LookupUnique(right.index, right.values, i);
    }
  }
}
