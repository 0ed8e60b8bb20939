/**
 * The duplicate detector for a column of a tab-separated file: the header line
 * is skipped, every further line is stripped and split on tabs, and a value of
 * the chosen column that has been seen before is reported.
 */
module Duplicate {
  import opened Outcome
  import opened Python

  /** `line.strip().split('\t')`. */
  function Fields(line: string): seq<string> {
    Split(Strip(line), '\t')
  }

  /** The chosen field of one line, None when the line has too few fields.
      `column_index < len(values)` guards the access, so a negative index far
      enough below zero passes the guard and makes `values[column_index]` raise. */
  function Field(values: seq<string>, columnIndex: int): (r: Result<Option<string>>)
    ensures r == Ok(None) <==> columnIndex >= |values|
    ensures r.Err? <==> columnIndex < -|values|
    ensures r.Err? ==> r.error == IndexError
    ensures 0 <= columnIndex < |values| ==> r == Ok(Some(values[columnIndex]))
    ensures -|values| <= columnIndex < 0 ==> r == Ok(Some(values[|values| + columnIndex]))
  {
    if columnIndex >= |values| then Ok(None)
    else if columnIndex >= 0 then Ok(Some(values[columnIndex]))
    else if columnIndex >= -|values| then Ok(Some(values[|values| + columnIndex]))
    else Err(IndexError)
  }

  /** The fields of every line of the file. */
  function Rows(lines: seq<string>): (rows: seq<seq<string>>)
    ensures |rows| == |lines|
  {
    if lines == [] then [] else Rows(lines[..|lines| - 1]) + [Fields(lines[|lines| - 1])]
  }

  /** Row k holds the fields of line k. */
  lemma {:induction false} RowsAt(lines: seq<string>, k: nat)
    requires k < |lines|
    ensures Rows(lines)[k] == Fields(lines[k])
  {
    if k < |lines| - 1 {
      RowsAt(lines[..|lines| - 1], k);
    }
  }

  /** The column's values over rows lo up to (not including) hi, in order, rows
      without the field left out. */
  function Column(rows: seq<seq<string>>, lo: nat, hi: nat, columnIndex: int): (r: seq<string>)
    requires lo <= hi <= |rows|
    ensures |r| <= hi - lo
    decreases hi - lo
  {
    if hi == lo then []
    else
      var f := Field(rows[hi - 1], columnIndex);
      Column(rows, lo, hi - 1, columnIndex) + (if f.Ok? && f.value.Some? then [f.value.value] else [])
  }

  /** Some row from lo up to (not including) hi makes the field access raise. */
  predicate Raises(rows: seq<seq<string>>, lo: nat, hi: nat, columnIndex: int)
    requires lo <= hi <= |rows|
    decreases hi - lo
  {
    hi > lo && (Raises(rows, lo, hi - 1, columnIndex) || Field(rows[hi - 1], columnIndex).Err?)
  }

  lemma {:induction false} RaisesMeans(rows: seq<seq<string>>, lo: nat, hi: nat, columnIndex: int)
    requires lo <= hi <= |rows|
    ensures Raises(rows, lo, hi, columnIndex) <==> exists k :: lo <= k < hi && Field(rows[k], columnIndex).Err?
    decreases hi - lo
  {
    if hi > lo {
      RaisesMeans(rows, lo, hi - 1, columnIndex);
    }
  }

  /** Once some row raises, every longer stretch of rows does. */
  lemma {:induction false} RaisesPersists(rows: seq<seq<string>>, lo: nat, mid: nat, hi: nat, columnIndex: int)
    requires lo <= mid <= hi <= |rows| && Raises(rows, lo, mid, columnIndex)
    ensures Raises(rows, lo, hi, columnIndex)
    decreases hi - mid
  {
    if mid < hi {
      RaisesPersists(rows, lo, mid, hi - 1, columnIndex);
    }
  }

  /** The values a left-to-right scan of the column has seen. */
  function SeenValues(column: seq<string>): set<string> {
    if column == [] then {} else SeenValues(column[..|column| - 1]) + {column[|column| - 1]}
  }

  /** The values a left-to-right scan finds already seen when it meets them again. */
  function RepeatedValues(column: seq<string>): set<string> {
    if column == [] then {}
    else
      var front := column[..|column| - 1];
      if column[|column| - 1] in SeenValues(front) then RepeatedValues(front) + {column[|column| - 1]}
      else RepeatedValues(front)
  }

  /** The scan's bookkeeping means what it should: a value has been seen iff it
      occurs, and repeated iff it occurs at least twice. */
  lemma {:induction false} ScanCounts(column: seq<string>)
    ensures forall v :: v in SeenValues(column) <==> multiset(column)[v] >= 1
    ensures forall v :: v in RepeatedValues(column) <==> multiset(column)[v] >= 2
  {
    if column != [] {
      var front := column[..|column| - 1];
      ScanCounts(front);
      assert column == front + [column[|column| - 1]];
      assert multiset(column) == multiset(front) + multiset{column[|column| - 1]};
    }
  }

  /** The scan's bookkeeping for one more row: a row without the field changes
      nothing, a row with it adds its value to the seen ones, and to the repeated
      ones when it was seen before. */
  lemma ScanRow(rows: seq<seq<string>>, i: nat, columnIndex: int)
    requires 1 <= i < |rows| && Field(rows[i], columnIndex).Ok?
    ensures var f := Field(rows[i], columnIndex).value;
            var before := Column(rows, 1, i, columnIndex);
            var after := Column(rows, 1, i + 1, columnIndex);
            (f.None? ==> SeenValues(after) == SeenValues(before) && RepeatedValues(after) == RepeatedValues(before))
            && (f.Some? ==> SeenValues(after) == SeenValues(before) + {f.value}
                            && RepeatedValues(after) == if f.value in SeenValues(before) then RepeatedValues(before) + {f.value}
                                                        else RepeatedValues(before))
  {
    var f := Field(rows[i], columnIndex).value;
    var before := Column(rows, 1, i, columnIndex);
    if f.Some? {
      assert Column(rows, 1, i + 1, columnIndex) == before + [f.value];
      assert (before + [f.value])[..|before|] == before;
    } else {
      assert Column(rows, 1, i + 1, columnIndex) == before + [];
      assert before + [] == before;
    }
  }

  /** `check_duplicates_in_column` over the lines of the file: the header line is
      skipped, and a value is reported iff it occurs at least twice among the rest. */
  method CheckDuplicatesInColumn(lines: seq<string>, columnIndex: int) returns (r: Result<set<string>>)
    ensures lines == [] <==> r == Err(StopIteration)
    ensures lines != [] ==> (r.Err? <==> Raises(Rows(lines), 1, |lines|, columnIndex))
    ensures r.Err? && lines != [] ==> r.error == IndexError
    ensures r.Ok? ==> forall v :: v in r.value <==> multiset(Column(Rows(lines), 1, |lines|, columnIndex))[v] >= 2
    ensures r.Ok? ==> forall v :: v in r.value ==> v in Column(Rows(lines), 1, |lines|, columnIndex)
  {
    if lines == [] {
      return Err(StopIteration);
    }
    ghost var rows := Rows(lines);
    var seen: set<string> := {};
    var duplicates: set<string> := {};
    var i := 1;
    while i < |lines|
      invariant 1 <= i <= |lines|
      invariant !Raises(rows, 1, i, columnIndex)
      invariant seen == SeenValues(Column(rows, 1, i, columnIndex))
      invariant duplicates == RepeatedValues(Column(rows, 1, i, columnIndex))
    {
      var values := Fields(lines[i]);
      RowsAt(lines, i);
      var f := Field(values, columnIndex);
      if f.Err? {
        assert Raises(rows, 1, i + 1, columnIndex);
        RaisesPersists(rows, 1, i + 1, |lines|, columnIndex);
        return Err(IndexError);
      }
      ScanRow(rows, i, columnIndex);
      if f.value.Some? {
        var value := f.value.value;
        if value in seen {
          duplicates := duplicates + {value};
        } else {
          seen := seen + {value};
        }
      }
      i := i + 1;
    }
    ScanCounts(Column(rows, 1, |lines|, columnIndex));
    return Ok(duplicates);
  }
}
