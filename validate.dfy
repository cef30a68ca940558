/**
 * The batch validator (`valid_data`): three checks in a fixed order, the first failing one
 * deciding the outcome.
 */
module Validate {
  import opened Wrappers
  import opened PlayEvents

  /**
   * What `valid_data` does with a batch: `Empty` is its `return False`, `DuplicateKey` and
   * `NullValue` are its two raised exceptions, and `Ok` is falling off the end (`None`).
   */
  datatype Verdict = Empty | DuplicateKey | NullValue | Ok

  /** The primary-key column, `played_at_detailed`, top to bottom. */
  function Keys(rows: seq<Row>): seq<Option<string>> {
    seq(|rows|, k requires 0 <= k < |rows| => rows[k].playedAtDetailed)
  }

  /** The distinct values of a column; its size is `Series.nunique(dropna=False)`. */
  function Distinct<T>(xs: seq<T>): set<T> {
    set x | x in xs
  }

  /** All cells of the batch, row after row: `DataFrame.values` flattened. */
  function CellsOf(rows: seq<Row>): seq<Option<string>> {
    if |rows| == 0 then [] else rows[0].Cells() + CellsOf(rows[1..])
  }

  /** No two rows share a `played_at_detailed` value. */
  predicate KeysUnique(rows: seq<Row>) {
    forall i, j :: 0 <= i < j < |rows| ==> rows[i].playedAtDetailed != rows[j].playedAtDetailed
  }

  /** Some cell of some row is null. */
  predicate SomeNull(rows: seq<Row>) {
    exists k :: 0 <= k < |rows| && rows[k].HasNull()
  }

  /** A sequence has no more distinct values than entries, and as many exactly when no value repeats. */
  lemma {:induction false} DistinctCount<T>(xs: seq<T>)
    ensures |Distinct(xs)| <= |xs|
    ensures |Distinct(xs)| == |xs| <==> forall i, j :: 0 <= i < j < |xs| ==> xs[i] != xs[j]
  {
    if |xs| > 0 {
      var tail := xs[1..];
      DistinctCount(tail);
      assert Distinct(xs) == {xs[0]} + Distinct(tail) by {
        forall x ensures x in Distinct(xs) <==> x in {xs[0]} + Distinct(tail) {
          if x in xs && x != xs[0] {
            var i :| 0 <= i < |xs| && xs[i] == x;
            assert tail[i - 1] == x;
          }
        }
      }
      if xs[0] in tail {
        assert Distinct(xs) == Distinct(tail);
        var i :| 0 <= i < |tail| && tail[i] == xs[0];
        assert xs[0] == xs[i + 1];
      } else {
        assert |Distinct(xs)| == 1 + |Distinct(tail)|;
        if |Distinct(xs)| == |xs| {
          forall i, j | 0 <= i < j < |xs| ensures xs[i] != xs[j] {
            if i == 0 {
              assert xs[j] == tail[j - 1];
            } else {
              assert xs[i] == tail[i - 1] && xs[j] == tail[j - 1];
            }
          }
        } else {
          assert exists i, j :: 0 <= i < j < |tail| && tail[i] == tail[j];
          var i, j :| 0 <= i < j < |tail| && tail[i] == tail[j];
          assert xs[i + 1] == xs[j + 1];
        }
      }
    }
  }

  /** A null appears among the flattened cells exactly when some row has a null column. */
  lemma {:induction false} NullInCells(rows: seq<Row>)
    ensures None in CellsOf(rows) <==> SomeNull(rows)
  {
    if |rows| > 0 {
      NullInCells(rows[1..]);
      assert None in rows[0].Cells() <==> rows[0].HasNull();
      if SomeNull(rows[1..]) {
        var k :| 0 <= k < |rows[1..]| && rows[1..][k].HasNull();
        assert rows[k + 1].HasNull();
      }
      if SomeNull(rows) && !rows[0].HasNull() {
        var k :| 0 <= k < |rows| && rows[k].HasNull();
        assert rows[1..][k - 1].HasNull();
      }
    }
  }

  /**
   * `valid_data` on one batch: empty first, then key uniqueness, then nulls. Each check is
   * written as pandas performs it (`.empty`, `.is_unique`, `.isnull().values.any()`).
   */
  function ValidData(rows: seq<Row>): (v: Verdict)
    ensures v == Empty <==> |rows| == 0
    ensures v == DuplicateKey <==> |rows| > 0 && !KeysUnique(rows)
    ensures v == NullValue <==> |rows| > 0 && KeysUnique(rows) && SomeNull(rows)
    ensures v == Ok <==> |rows| > 0 && KeysUnique(rows) && !SomeNull(rows)
  {
    var keys := Keys(rows);
    DistinctCount(keys);
    NullInCells(rows);
    assert forall k :: 0 <= k < |rows| ==> keys[k] == rows[k].playedAtDetailed;
    if |rows| == 0 then Empty
    else if |Distinct(keys)| != |rows| then DuplicateKey
    else if None in CellsOf(rows) then NullValue
    else Ok
  }
}
