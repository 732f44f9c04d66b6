/**
 * The stand-alone script: its case-insensitive `find_column` and the null
 * summary it builds from `df.isnull().sum()`.
 */
module MainScript {
  import opened Common
  import opened Text
  import opened Tables
  import Search

  // ---------------------------------------------------------------------------
  // find_column

  /** The first header equal to the term once both are lower-cased, or `None`. */
  function FindColumn(columns: seq<string>, columnName: string): (r: Option<string>)
    ensures r.None? || r.value in columns
  {
    var key := Lower(columnName);
    match Search.FirstIndex(columns, col => Lower(col) == key)
    case Some(i) => Some(columns[i])
    case None => None
  }

  /** A header comes back exactly when some header equals the term up to letter case. */
  lemma FoundIff(columns: seq<string>, columnName: string)
    ensures FindColumn(columns, columnName).Some?
            <==> exists k :: 0 <= k < |columns| && Lower(columns[k]) == Lower(columnName)
  {
    var key := Lower(columnName);
    var j := Search.FirstIndex(columns, col => Lower(col) == key);
    if j.Some? {
      assert Lower(columns[j.value]) == key;
    }
  }

  /** The answer is the first such header in header order. */
  lemma FirstMatchWins(columns: seq<string>, columnName: string, i: nat)
    requires i < |columns| && Lower(columns[i]) == Lower(columnName)
    requires forall k :: 0 <= k < i ==> Lower(columns[k]) != Lower(columnName)
    ensures FindColumn(columns, columnName) == Some(columns[i])
  {
    var key := Lower(columnName);
    var j := Search.FirstIndex(columns, col => Lower(col) == key);
    assert j.Some? && j.value == i;
  }

  /** Terms that differ only in letter case resolve alike. */
  lemma CaseVariants(columns: seq<string>, a: string, b: string)
    requires Lower(a) == Lower(b)
    ensures FindColumn(columns, a) == FindColumn(columns, b)
  {
  }

  // ---------------------------------------------------------------------------
  // The null summary

  /** `df.isnull()` at row `row`, column `j`. */
  predicate IsNullAt(row: Row, j: nat) {
    j < |row| && row[j].Null?
  }

  /** `df.isnull().sum()` for column `j`: how many rows hold a missing value there. */
  function ColumnNulls(rows: seq<Row>, j: nat): nat {
    if rows == [] then 0
    else ColumnNulls(rows[..|rows| - 1], j) + (if IsNullAt(rows[|rows| - 1], j) then 1 else 0)
  }

  /** `null_counts`: one count per header, in header order. */
  function NullCounts(t: Table): (counts: seq<nat>)
    ensures |counts| == |t.header|
    ensures forall j :: 0 <= j < |counts| ==> counts[j] == ColumnNulls(t.rows, j)
  {
    seq(|t.header|, j requires 0 <= j < |t.header| => ColumnNulls(t.rows, j))
  }

  /** `Series.sum()` of counts. */
  function Sum(xs: seq<nat>): (r: nat)
    ensures r == 0 <==> forall k :: 0 <= k < |xs| ==> xs[k] == 0
    ensures forall k :: 0 <= k < |xs| ==> xs[k] <= r
  {
    if xs == [] then 0 else Sum(xs[..|xs| - 1]) + xs[|xs| - 1]
  }

  /**
   * `null_counts[null_counts > 0].to_dict()`: every header whose count is
   * positive, mapped to its count; when two headers share a name, the later
   * one's entry wins, as in a dict built in order.
   */
  function PositiveCounts(header: seq<string>, counts: seq<nat>): (r: map<string, nat>)
    requires |header| == |counts|
    ensures forall n :: n in r ==> r[n] > 0 && n in header
  {
    if header == [] then map[]
    else
      var m := PositiveCounts(header[..|header| - 1], counts[..|counts| - 1]);
      if counts[|counts| - 1] > 0 then m[header[|header| - 1] := counts[|counts| - 1]] else m
  }

  /** The dictionary the script prints. */
  datatype NullReport = NullReport(
    hasNullValues: bool,
    totalNullValues: nat,
    nullValuesPerColumn: map<string, nat>)

  function SummarizeNulls(t: Table): (r: NullReport)
    ensures r.totalNullValues == Sum(NullCounts(t))
    ensures r.hasNullValues <==> r.totalNullValues > 0
    ensures r.nullValuesPerColumn == PositiveCounts(t.header, NullCounts(t))
  {
    var counts := NullCounts(t);
    var total := Sum(counts);
    NullReport(total > 0, total, PositiveCounts(t.header, counts))
  }

  // ---------------------------------------------------------------------------
  // An independent count: row by row, cell by cell

  /** Missing cells among the first `width` cells of one row. */
  function RowNulls(row: Row, width: nat): nat {
    if width == 0 then 0 else RowNulls(row, width - 1) + (if IsNullAt(row, width - 1) then 1 else 0)
  }

  /** Missing cells of the table, counted row by row. */
  function CellNulls(rows: seq<Row>, width: nat): nat {
    if rows == [] then 0 else CellNulls(rows[..|rows| - 1], width) + RowNulls(rows[|rows| - 1], width)
  }

  /** The column counts of the first `width` columns, added up. */
  function ColumnsTotal(rows: seq<Row>, width: nat): nat {
    if width == 0 then 0 else ColumnsTotal(rows, width - 1) + ColumnNulls(rows, width - 1)
  }

  lemma {:induction false} SumOfCounts(t: Table, width: nat)
    requires width <= |t.header|
    ensures Sum(NullCounts(t)[..width]) == ColumnsTotal(t.rows, width)
  {
    if width > 0 {
      SumOfCounts(t, width - 1);
      assert NullCounts(t)[..width][..width - 1] == NullCounts(t)[..width - 1];
    }
  }

  /** Adding one row adds that row's missing cells to the column totals. */
  lemma {:induction false} ColumnsTotalAppend(rows: seq<Row>, width: nat)
    requires rows != []
    ensures ColumnsTotal(rows, width)
            == ColumnsTotal(rows[..|rows| - 1], width) + RowNulls(rows[|rows| - 1], width)
  {
    if width > 0 {
      ColumnsTotalAppend(rows, width - 1);
    }
  }

  lemma {:induction false} ColumnsTotalIsCellNulls(rows: seq<Row>, width: nat)
    ensures ColumnsTotal(rows, width) == CellNulls(rows, width)
  {
    if rows == [] {
      ZeroColumnsTotal(width);
    } else {
      ColumnsTotalAppend(rows, width);
      ColumnsTotalIsCellNulls(rows[..|rows| - 1], width);
    }
  }

  lemma {:induction false} ZeroColumnsTotal(width: nat)
    ensures ColumnsTotal([], width) == 0
  {
    if width > 0 {
      ZeroColumnsTotal(width - 1);
    }
  }

  /**
   * `total_null_values` is the number of missing cells in the table, however
   * they are counted.
   */
  lemma TotalCountsEveryMissingCell(t: Table)
    ensures SummarizeNulls(t).totalNullValues == CellNulls(t.rows, |t.header|)
  {
    SumOfCounts(t, |t.header|);
    assert NullCounts(t)[..|t.header|] == NullCounts(t);
    ColumnsTotalIsCellNulls(t.rows, |t.header|);
  }

  // ---------------------------------------------------------------------------
  // has_null_values

  lemma {:induction false} ColumnNullsPositive(rows: seq<Row>, j: nat)
    ensures ColumnNulls(rows, j) > 0 <==> exists i :: 0 <= i < |rows| && IsNullAt(rows[i], j)
  {
    if rows != [] {
      var init := rows[..|rows| - 1];
      ColumnNullsPositive(init, j);
      if exists i :: 0 <= i < |rows| && IsNullAt(rows[i], j) {
        var i :| 0 <= i < |rows| && IsNullAt(rows[i], j);
        if i < |rows| - 1 {
          assert init[i] == rows[i];
        }
      }
      if exists i :: 0 <= i < |init| && IsNullAt(init[i], j) {
        var i :| 0 <= i < |init| && IsNullAt(init[i], j);
        assert rows[i] == init[i];
      }
    }
  }

  lemma {:induction false} SumPositive(xs: seq<nat>)
    ensures Sum(xs) > 0 <==> exists k :: 0 <= k < |xs| && xs[k] > 0
  {
    if xs != [] {
      var init := xs[..|xs| - 1];
      SumPositive(init);
      if exists k :: 0 <= k < |xs| && xs[k] > 0 {
        var k :| 0 <= k < |xs| && xs[k] > 0;
        if k < |xs| - 1 {
          assert init[k] == xs[k];
        }
      }
      if exists k :: 0 <= k < |init| && init[k] > 0 {
        var k :| 0 <= k < |init| && init[k] > 0;
        assert xs[k] == init[k];
      }
    }
  }

  /** `has_null_values` holds exactly when some cell under a header is missing. */
  lemma HasNullsIff(t: Table)
    ensures SummarizeNulls(t).hasNullValues
            <==> exists i, j :: 0 <= i < |t.rows| && 0 <= j < |t.header| && IsNullAt(t.rows[i], j)
  {
    var counts := NullCounts(t);
    SumPositive(counts);
    forall j | 0 <= j < |t.header| {
      ColumnNullsPositive(t.rows, j);
    }
    if exists i, j :: 0 <= i < |t.rows| && 0 <= j < |t.header| && IsNullAt(t.rows[i], j) {
      var i, j :| 0 <= i < |t.rows| && 0 <= j < |t.header| && IsNullAt(t.rows[i], j);
      assert counts[j] > 0;
    }
  }

  // ---------------------------------------------------------------------------
  // null_values_per_column

  lemma {:induction false} PositiveCountsKeys(header: seq<string>, counts: seq<nat>, name: string)
    requires |header| == |counts|
    ensures name in PositiveCounts(header, counts)
            <==> exists j :: 0 <= j < |header| && header[j] == name && counts[j] > 0
  {
    if header != [] {
      var h, c := header[..|header| - 1], counts[..|counts| - 1];
      PositiveCountsKeys(h, c, name);
      if exists j :: 0 <= j < |header| && header[j] == name && counts[j] > 0 {
        var j :| 0 <= j < |header| && header[j] == name && counts[j] > 0;
        if j < |header| - 1 {
          assert h[j] == header[j] && c[j] == counts[j];
        }
      }
      if exists j :: 0 <= j < |h| && h[j] == name && c[j] > 0 {
        var j :| 0 <= j < |h| && h[j] == name && c[j] > 0;
        assert header[j] == h[j] && counts[j] == c[j];
      }
    }
  }

  lemma {:induction false} PositiveCountsValue(header: seq<string>, counts: seq<nat>, j: nat)
    requires |header| == |counts| && j < |header| && counts[j] > 0
    requires forall k :: j < k < |header| && header[k] == header[j] ==> counts[k] == 0
    ensures header[j] in PositiveCounts(header, counts)
    ensures PositiveCounts(header, counts)[header[j]] == counts[j]
  {
    var n := |header| - 1;
    var h, c := header[..n], counts[..n];
    if j < n {
      PositiveCountsValue(h, c, j);
    }
  }

  /**
   * A name is a key of `null_values_per_column` exactly when some column of
   * that name has at least one missing value.
   */
  lemma PerColumnKeys(t: Table, name: string)
    ensures name in SummarizeNulls(t).nullValuesPerColumn
            <==> exists j :: 0 <= j < |t.header| && t.header[j] == name && ColumnNulls(t.rows, j) > 0
  {
    PositiveCountsKeys(t.header, NullCounts(t), name);
  }

  /**
   * The entry of a column with missing values is that column's count, unless
   * a later column of the same name also has missing values (its entry
   * overwrites this one); with distinct headers every entry is its column's count.
   */
  lemma PerColumnValues(t: Table, j: nat)
    requires j < |t.header| && ColumnNulls(t.rows, j) > 0
    requires forall k :: j < k < |t.header| && t.header[k] == t.header[j] ==> ColumnNulls(t.rows, k) == 0
    ensures t.header[j] in SummarizeNulls(t).nullValuesPerColumn
    ensures SummarizeNulls(t).nullValuesPerColumn[t.header[j]] == ColumnNulls(t.rows, j)
  {
    PositiveCountsValue(t.header, NullCounts(t), j);
  }
}
