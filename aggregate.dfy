/**
 * `df.groupby([k1, k2]).aggregate({c: "sum" | "max", ...}).reset_index()`.
 *
 * A row is an `Entry`: its group key and the measure columns named in the
 * aggregation dictionary, in the dictionary's order. `GroupBy` folds the rows
 * into an ascending list of groups, the way a hash aggregation followed by
 * pandas' key sort would; `IsGrouping` is the independent description of what
 * the result must be, and the lemmas below show that GroupBy meets it, that it
 * determines the result uniquely, that row order does not matter, and that
 * summed columns are conserved.
 */
module Aggregate {
  import opened Keys

  /** The reducers the dashboard passes to `aggregate`. */
  datatype Reducer = Sum | Max

  /** One row of a frame: its group key and its measure columns. */
  datatype Entry = Entry(key: Key, values: seq<int>)

  /** Every row carries exactly `n` measure columns. */
  predicate HasWidth(rows: seq<Entry>, n: nat) {
    forall e :: e in rows ==> |e.values| == n
  }

  /** The keys present in a frame. */
  function KeysOf(rows: seq<Entry>): set<Key> {
    set e | e in rows :: e.key
  }

  /** Strictly ascending keys: sorted, and so no key twice. */
  predicate Ascending(rows: seq<Entry>) {
    forall i, j :: 0 <= i < j < |rows| ==> KeyLess(rows[i].key, rows[j].key)
  }

  /** Sum of column `j` over the rows whose key is `k`. */
  function ColumnSum(rows: seq<Entry>, k: Key, j: nat): int
    requires forall e :: e in rows ==> j < |e.values|
  {
    if rows == [] then 0
    else (if rows[0].key == k then rows[0].values[j] else 0) + ColumnSum(rows[1..], k, j)
  }

  /** `v` is the maximum of column `j` over the rows whose key is `k`. */
  ghost predicate IsMaxOf(rows: seq<Entry>, k: Key, j: nat, v: int)
    requires forall e :: e in rows ==> j < |e.values|
  {
    && (forall e :: e in rows && e.key == k ==> e.values[j] <= v)
    && (exists e :: e in rows && e.key == k && e.values[j] == v)
  }

  /** `v` is what reducer `red` yields for column `j` of group `k`. */
  ghost predicate Reduces(rows: seq<Entry>, red: Reducer, k: Key, j: nat, v: int)
    requires forall e :: e in rows ==> j < |e.values|
  {
    match red
    case Sum => v == ColumnSum(rows, k, j)
    case Max => IsMaxOf(rows, k, j, v)
  }

  /**
   * `out` is the aggregation of `rows`: one row per distinct input key, in
   * ascending key order, no key that is not in the input, and every measure
   * column reduced over exactly the input rows of its group.
   */
  ghost predicate IsGrouping(rows: seq<Entry>, reducers: seq<Reducer>, out: seq<Entry>) {
    && HasWidth(rows, |reducers|)
    && HasWidth(out, |reducers|)
    && Ascending(out)
    && KeysOf(out) == KeysOf(rows)
    && forall e, j :: e in out && 0 <= j < |reducers| ==> Reduces(rows, reducers[j], e.key, j, e.values[j])
  }

  /** Merges one more row of a group into the group's reduced values. */
  function Combine(acc: seq<int>, row: seq<int>, reducers: seq<Reducer>): (c: seq<int>)
    requires |acc| == |reducers| && |row| == |reducers|
    ensures |c| == |reducers|
  {
    seq(|reducers|, j requires 0 <= j < |reducers| =>
      match reducers[j]
      case Sum => acc[j] + row[j]
      case Max => if acc[j] < row[j] then row[j] else acc[j])
  }

  lemma KeysOfCons(x: Entry, s: seq<Entry>)
    ensures KeysOf([x] + s) == {x.key} + KeysOf(s)
  {
    assert forall y :: y in [x] + s <==> y == x || y in s;
  }

  /** Adds one row to an ascending list of groups. */
  function Insert(acc: seq<Entry>, e: Entry, reducers: seq<Reducer>): (r: seq<Entry>)
    requires HasWidth(acc, |reducers|) && |e.values| == |reducers|
    ensures HasWidth(r, |reducers|)
    ensures KeysOf(r) == KeysOf(acc) + {e.key}
  {
    if acc == [] then [e]
    else if e.key == acc[0].key then [Entry(e.key, Combine(acc[0].values, e.values, reducers))] + acc[1..]
    else if KeyLess(e.key, acc[0].key) then [e] + acc
    else
      assert acc == [acc[0]] + acc[1..];
      KeysOfCons(acc[0], acc[1..]);
      KeysOfCons(acc[0], Insert(acc[1..], e, reducers));
      [acc[0]] + Insert(acc[1..], e, reducers)
  }

  /** The aggregation itself: every row folded into the groups of the rows after it. */
  function GroupBy(rows: seq<Entry>, reducers: seq<Reducer>): (out: seq<Entry>)
    requires HasWidth(rows, |reducers|)
    ensures IsGrouping(rows, reducers, out)
  {
    if rows == [] then []
    else
      var acc := GroupBy(rows[1..], reducers);
      assert rows == [rows[0]] + rows[1..];
      InsertKeepsGrouping(rows[1..], reducers, acc, rows[0]);
      Insert(acc, rows[0], reducers)
  }

  // ---------------------------------------------------------------------------
  // Insert, one row at a time

  lemma {:induction false} InsertAscending(acc: seq<Entry>, e: Entry, reducers: seq<Reducer>)
    requires HasWidth(acc, |reducers|) && |e.values| == |reducers|
    requires Ascending(acc)
    ensures Ascending(Insert(acc, e, reducers))
  {
    if acc != [] && e.key != acc[0].key && !KeyLess(e.key, acc[0].key) {
      InsertAscending(acc[1..], e, reducers);
      KeyLessTotal(e.key, acc[0].key);
      InsertAboveHead(acc, e, reducers);
      ConsAscending(acc[0], Insert(acc[1..], e, reducers));
    } else if acc != [] && KeyLess(e.key, acc[0].key) {
      forall x | x in acc
        ensures KeyLess(e.key, x.key)
      {
        var i :| 0 <= i < |acc| && acc[i] == x;
        if i > 0 {
          KeyLessTransitive(e.key, acc[0].key, x.key);
        }
      }
      ConsAscending(e, acc);
    }
  }

  /** A row whose key is below every key of an ascending list can go in front of it. */
  lemma ConsAscending(head: Entry, tail: seq<Entry>)
    requires Ascending(tail)
    requires forall x :: x in tail ==> KeyLess(head.key, x.key)
    ensures Ascending([head] + tail)
  {
    var r := [head] + tail;
    forall i, j | 0 <= i < j < |r|
      ensures KeyLess(r[i].key, r[j].key)
    {
      if i == 0 {
        assert r[j] == tail[j - 1] && r[j] in tail;
      } else {
        assert r[i] == tail[i - 1] && r[j] == tail[j - 1];
      }
    }
  }

  /** Inserting above the head of an ascending list keeps every key of its tail above the head. */
  lemma InsertAboveHead(acc: seq<Entry>, e: Entry, reducers: seq<Reducer>)
    requires HasWidth(acc, |reducers|) && |e.values| == |reducers|
    requires Ascending(acc) && acc != [] && KeyLess(acc[0].key, e.key)
    ensures forall x :: x in Insert(acc[1..], e, reducers) ==> KeyLess(acc[0].key, x.key)
  {
    var tail := Insert(acc[1..], e, reducers);
    forall x | x in tail
      ensures KeyLess(acc[0].key, x.key)
    {
      assert x.key in KeysOf(tail);
      if x.key != e.key {
        var y :| y in acc[1..] && y.key == x.key;
        var i :| 1 <= i < |acc| && acc[i] == y;
      }
    }
  }

  /** In an ascending list, the head's key occurs nowhere in the tail. */
  lemma AscendingHeadUnique(acc: seq<Entry>)
    requires Ascending(acc) && acc != []
    ensures acc[0].key !in KeysOf(acc[1..])
    ensures Ascending(acc[1..])
  {
    if acc[0].key in KeysOf(acc[1..]) {
      var y :| y in acc[1..] && y.key == acc[0].key;
      var i :| 1 <= i < |acc| && acc[i] == y;
      KeyLessIrreflexive(acc[0].key);
      assert false;
    }
    var t := acc[1..];
    forall i, j | 0 <= i < j < |t| ensures KeyLess(t[i].key, t[j].key) {
      assert t[i] == acc[i + 1] && t[j] == acc[j + 1];
    }
  }

  /** What Insert does to the rows: the group of `e` is created or merged, every other group is kept. */
  lemma {:induction false} InsertContents(acc: seq<Entry>, e: Entry, reducers: seq<Reducer>)
    requires HasWidth(acc, |reducers|) && |e.values| == |reducers|
    requires Ascending(acc)
    ensures forall x :: x in Insert(acc, e, reducers) && x.key != e.key ==> x in acc
    ensures forall x :: x in Insert(acc, e, reducers) && x.key == e.key ==>
      (e.key !in KeysOf(acc) && x == e) ||
      (exists y :: y in acc && y.key == e.key && x == Entry(e.key, Combine(y.values, e.values, reducers)))
  {
    if acc == [] {
    } else if e.key == acc[0].key {
      AscendingHeadUnique(acc);
    } else if KeyLess(e.key, acc[0].key) {
      if e.key in KeysOf(acc) {
        var y :| y in acc && y.key == e.key;
        var i :| 0 <= i < |acc| && acc[i] == y;
        if i > 0 {
          KeyLessTransitive(e.key, acc[0].key, acc[i].key);
        }
        KeyLessIrreflexive(e.key);
        assert false;
      }
    } else {
      AscendingHeadUnique(acc);
      InsertContents(acc[1..], e, reducers);
      if e.key !in KeysOf(acc[1..]) {
        assert e.key !in KeysOf(acc);
      }
    }
  }

  /** A key absent from the rows sums to zero. */
  lemma {:induction false} ColumnSumAbsent(rows: seq<Entry>, k: Key, j: nat)
    requires forall e :: e in rows ==> j < |e.values|
    requires k !in KeysOf(rows)
    ensures ColumnSum(rows, k, j) == 0
  {
    if rows != [] {
      assert rows[0] in rows;
      ColumnSumAbsent(rows[1..], k, j);
    }
  }

  /** A group that Insert leaves alone still reduces correctly once `e` is added. */
  lemma ReducesOtherGroup(rows: seq<Entry>, red: Reducer, e: Entry, x: Entry, j: nat)
    requires forall z :: z in [e] + rows ==> j < |z.values|
    requires x.key != e.key && j < |x.values|
    requires Reduces(rows, red, x.key, j, x.values[j])
    ensures Reduces([e] + rows, red, x.key, j, x.values[j])
  {
    var all := [e] + rows;
    assert all[1..] == rows;
    if red == Max {
      var w :| w in rows && w.key == x.key && w.values[j] == x.values[j];
      assert w in all;
    }
  }

  /** A group that Insert creates for `e` reduces to `e`'s own values. */
  lemma ReducesNewGroup(rows: seq<Entry>, red: Reducer, e: Entry, j: nat)
    requires forall z :: z in [e] + rows ==> j < |z.values|
    requires e.key !in KeysOf(rows)
    ensures Reduces([e] + rows, red, e.key, j, e.values[j])
  {
    var all := [e] + rows;
    assert all[1..] == rows;
    ColumnSumAbsent(rows, e.key, j);
    if red == Max {
      assert e in all;
    }
  }

  /** A group that Insert merges `e` into reduces to the combined values. */
  lemma ReducesMergedGroup(rows: seq<Entry>, reducers: seq<Reducer>, e: Entry, y: Entry, j: nat)
    requires HasWidth([e] + rows, |reducers|) && |y.values| == |reducers|
    requires y.key == e.key && j < |reducers|
    requires Reduces(rows, reducers[j], y.key, j, y.values[j])
    ensures Reduces([e] + rows, reducers[j], e.key, j, Combine(y.values, e.values, reducers)[j])
  {
    var all := [e] + rows;
    assert all[1..] == rows;
    var c := Combine(y.values, e.values, reducers);
    if reducers[j] == Max {
      assert e in all;
      if y.values[j] < e.values[j] {
        assert c[j] == e.values[j];
      } else {
        var w :| w in rows && w.key == e.key && w.values[j] == y.values[j];
        assert w in all;
      }
    }
  }

  /** Folding one more row into a grouping of the others gives a grouping of all of them. */
  lemma InsertKeepsGrouping(rows: seq<Entry>, reducers: seq<Reducer>, acc: seq<Entry>, e: Entry)
    requires IsGrouping(rows, reducers, acc) && |e.values| == |reducers|
    ensures IsGrouping([e] + rows, reducers, Insert(acc, e, reducers))
  {
    var all := [e] + rows;
    var r := Insert(acc, e, reducers);
    InsertAscending(acc, e, reducers);
    InsertContents(acc, e, reducers);
    KeysOfCons(e, rows);
    assert HasWidth(all, |reducers|);
    forall x, j | x in r && 0 <= j < |reducers|
      ensures Reduces(all, reducers[j], x.key, j, x.values[j])
    {
      if x.key != e.key {
        assert x in acc;
        ReducesOtherGroup(rows, reducers[j], e, x, j);
      } else if e.key !in KeysOf(acc) && x == e {
        ReducesNewGroup(rows, reducers[j], e, j);
      } else {
        var y :| y in acc && y.key == e.key && x == Entry(e.key, Combine(y.values, e.values, reducers));
        ReducesMergedGroup(rows, reducers, e, y, j);
      }
    }
  }

  // ---------------------------------------------------------------------------
  // The grouping is unique

  lemma KeysOfEmpty(rows: seq<Entry>)
    ensures KeysOf(rows) == {} <==> rows == []
  {
    if rows != [] {
      assert rows[0].key in KeysOf(rows);
    }
  }

  lemma {:induction false} AscendingKeysUnique(a: seq<Entry>, b: seq<Entry>)
    requires Ascending(a) && Ascending(b) && KeysOf(a) == KeysOf(b)
    ensures |a| == |b|
    ensures forall i :: 0 <= i < |a| ==> a[i].key == b[i].key
    decreases |a|
  {
    KeysOfEmpty(a);
    KeysOfEmpty(b);
    if a != [] {
      assert a[0].key in KeysOf(b);
      assert b != [];
      assert b[0].key in KeysOf(a);
      if a[0].key != b[0].key {
        var i :| 0 <= i < |a| && a[i].key == b[0].key;
        var k :| 0 <= k < |b| && b[k].key == a[0].key;
        KeyLessAsymmetric(a[0].key, b[0].key);
        assert false;
      }
      AscendingHeadUnique(a);
      AscendingHeadUnique(b);
      assert KeysOf(a) == KeysOf(a[1..]) + {a[0].key} by {
        assert forall x :: x in a <==> x == a[0] || x in a[1..];
      }
      assert KeysOf(b) == KeysOf(b[1..]) + {b[0].key} by {
        assert forall x :: x in b <==> x == b[0] || x in b[1..];
      }
      AscendingKeysUnique(a[1..], b[1..]);
    }
  }

  /** Two results that both meet the description are the same frame. */
  lemma GroupingUnique(rows: seq<Entry>, reducers: seq<Reducer>, out1: seq<Entry>, out2: seq<Entry>)
    requires IsGrouping(rows, reducers, out1) && IsGrouping(rows, reducers, out2)
    ensures out1 == out2
  {
    AscendingKeysUnique(out1, out2);
    forall i | 0 <= i < |out1|
      ensures out1[i] == out2[i]
    {
      var x, y := out1[i], out2[i];
      assert x in out1 && y in out2;
      forall j | 0 <= j < |reducers|
        ensures x.values[j] == y.values[j]
      {
        assert Reduces(rows, reducers[j], x.key, j, x.values[j]);
        assert Reduces(rows, reducers[j], y.key, j, y.values[j]);
        if reducers[j] == Max {
          var wx :| wx in rows && wx.key == x.key && wx.values[j] == x.values[j];
          var wy :| wy in rows && wy.key == y.key && wy.values[j] == y.values[j];
        }
      }
    }
  }

  // ---------------------------------------------------------------------------
  // Row order does not matter

  lemma {:induction false} ColumnSumConcat(a: seq<Entry>, b: seq<Entry>, k: Key, j: nat)
    requires forall e :: e in a ==> j < |e.values|
    requires forall e :: e in b ==> j < |e.values|
    ensures ColumnSum(a + b, k, j) == ColumnSum(a, k, j) + ColumnSum(b, k, j)
    decreases |a|
  {
    if a != [] {
      assert (a + b)[1..] == a[1..] + b;
      ColumnSumConcat(a[1..], b, k, j);
    } else {
      assert a + b == b;
    }
  }

  /** Taking the same element out of two orderings of one multiset leaves two orderings of another. */
  lemma RemoveMatching<R>(a: seq<R>, b: seq<R>, i: nat)
    requires multiset(a) == multiset(b) && a != [] && i < |b| && b[i] == a[0]
    ensures multiset(a[1..]) == multiset(b[..i] + b[i + 1..])
  {
    assert a == [a[0]] + a[1..];
    assert b == b[..i] + [b[i]] + b[i + 1..];
    assert multiset(a) == multiset{a[0]} + multiset(a[1..]);
    assert multiset(b) == multiset(b[..i]) + multiset{b[i]} + multiset(b[i + 1..]);
    assert multiset(b[..i] + b[i + 1..]) == multiset(b[..i]) + multiset(b[i + 1..]);
    assert multiset(a[1..]) == multiset(a) - multiset{a[0]};
  }

  lemma {:induction false} ColumnSumPermutation(a: seq<Entry>, b: seq<Entry>, k: Key, j: nat)
    requires forall e :: e in a ==> j < |e.values|
    requires multiset(a) == multiset(b)
    ensures forall e :: e in b ==> j < |e.values|
    ensures ColumnSum(a, k, j) == ColumnSum(b, k, j)
    decreases |a|
  {
    assert forall e :: e in b ==> e in multiset(b);
    if a == [] {
      assert |b| == |multiset(b)| == 0;
    } else {
      assert a[0] in multiset(b);
      var i :| 0 <= i < |b| && b[i] == a[0];
      var rest := b[..i] + b[i + 1..];
      RemoveMatching(a, b, i);
      assert b == b[..i] + [b[i]] + b[i + 1..];
      assert a == [a[0]] + a[1..];
      ColumnSumPermutation(a[1..], rest, k, j);
      ColumnSumConcat(b[..i] + [b[i]], b[i + 1..], k, j);
      ColumnSumConcat(b[..i], [b[i]], k, j);
      ColumnSumConcat(b[..i], b[i + 1..], k, j);
    }
  }

  /** A grouping of some rows is a grouping of every reordering of them. */
  lemma GroupingPermutation(rows: seq<Entry>, shuffled: seq<Entry>, reducers: seq<Reducer>, out: seq<Entry>)
    requires multiset(rows) == multiset(shuffled)
    requires IsGrouping(rows, reducers, out)
    ensures IsGrouping(shuffled, reducers, out)
  {
    assert forall e :: e in rows <==> e in shuffled by {
      assert forall e :: e in rows <==> e in multiset(rows);
      assert forall e :: e in shuffled <==> e in multiset(shuffled);
    }
    assert KeysOf(rows) == KeysOf(shuffled);
    forall x, j | x in out && 0 <= j < |reducers|
      ensures Reduces(shuffled, reducers[j], x.key, j, x.values[j])
    {
      assert Reduces(rows, reducers[j], x.key, j, x.values[j]);
      ColumnSumPermutation(rows, shuffled, x.key, j);
      if reducers[j] == Max {
        var w :| w in rows && w.key == x.key && w.values[j] == x.values[j];
        assert w in shuffled;
      }
    }
  }

  /** The aggregation does not depend on the order of the input rows. */
  lemma GroupByOrderIndependent(rows: seq<Entry>, shuffled: seq<Entry>, reducers: seq<Reducer>)
    requires HasWidth(rows, |reducers|)
    requires multiset(rows) == multiset(shuffled)
    ensures HasWidth(shuffled, |reducers|)
    ensures GroupBy(rows, reducers) == GroupBy(shuffled, reducers)
  {
    var out := GroupBy(rows, reducers);
    GroupingPermutation(rows, shuffled, reducers, out);
    GroupingUnique(shuffled, reducers, out, GroupBy(shuffled, reducers));
  }

  // ---------------------------------------------------------------------------
  // Summed columns are conserved

  /** Sum of column `j` over all rows. */
  function ColumnTotal(rows: seq<Entry>, j: nat): int
    requires forall e :: e in rows ==> j < |e.values|
  {
    if rows == [] then 0 else rows[0].values[j] + ColumnTotal(rows[1..], j)
  }

  lemma {:induction false} InsertTotal(acc: seq<Entry>, e: Entry, reducers: seq<Reducer>, j: nat)
    requires HasWidth(acc, |reducers|) && |e.values| == |reducers|
    requires j < |reducers| && reducers[j] == Sum
    ensures ColumnTotal(Insert(acc, e, reducers), j) == ColumnTotal(acc, j) + e.values[j]
    decreases |acc|
  {
    var r := Insert(acc, e, reducers);
    if acc == [] {
      assert r[1..] == [];
    } else if e.key == acc[0].key {
      assert r[1..] == acc[1..];
    } else if KeyLess(e.key, acc[0].key) {
      assert r[1..] == acc;
    } else {
      assert r[1..] == Insert(acc[1..], e, reducers);
      InsertTotal(acc[1..], e, reducers, j);
    }
  }

  /** Summed over all groups, a summed column adds up to its total over all input rows. */
  lemma {:induction false} GroupByConservesSum(rows: seq<Entry>, reducers: seq<Reducer>, j: nat)
    requires HasWidth(rows, |reducers|)
    requires j < |reducers| && reducers[j] == Sum
    ensures ColumnTotal(GroupBy(rows, reducers), j) == ColumnTotal(rows, j)
    decreases |rows|
  {
    if rows != [] {
      GroupByConservesSum(rows[1..], reducers, j);
      InsertTotal(GroupBy(rows[1..], reducers), rows[0], reducers, j);
    }
  }
}
