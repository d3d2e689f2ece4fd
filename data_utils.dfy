/** The dataset profiler of utils/data_utils.py.

    A dataset is a sequence of named columns, each carrying the dtype tag
    the CSV reader inferred and one optional cell per row (`None` is a
    missing cell). A profiler is bound to one dataset when it is built and
    every query is a function of that dataset alone, so asking twice gives
    the same answer. */
module DataUtils {
  import opened Collections

  /** The dtype tags a frame read from CSV text can carry, plus `Category`,
      which the categorical query also accepts. */
  datatype DType = Int64 | Float64 | Bool | Object | Category | Datetime64

  /** Cell contents; floating-point values are not modelled. */
  datatype Scalar = Number(n: int) | Text(s: string) | Flag(b: bool)

  datatype Column = Column(name: string, dtype: DType, cells: seq<Option<Scalar>>)

  /** `rowCount` is the length of the frame's index, which is what `len(df)`
      reports even when there are no columns. */
  datatype Table = Table(columns: seq<Column>, rowCount: nat)

  function ColumnNames(cols: seq<Column>): seq<string> {
    seq(|cols|, i requires 0 <= i < |cols| => cols[i].name)
  }

  /** Every column has one cell per row and no two columns share a name
      (the CSV reader renames a repeated header). */
  predicate WellFormed(t: Table) {
    && (forall c | c in t.columns :: |c.cells| == t.rowCount)
    && Unique(ColumnNames(t.columns))
  }

  /** A dataset as the CSV reader produces it. */
  type Frame = t: Table | WellFormed(t) witness Table([], 0)

  /** `DataProfiler(df)`: binds the dataset and keeps it unchanged. */
  datatype Profiler = Profiler(df: Table)

  const NumericDtypes: set<DType> := {Int64, Float64}
  const CategoricalDtypes: set<DType> := {Object, Category}

  // ---------------------------------------------------------------------
  // Missing values

  /** Number of missing cells of one column. */
  function NullCount(cells: seq<Option<Scalar>>): (n: nat)
    ensures n == multiset(cells)[None]
    ensures n <= |cells|
  {
    if cells == [] then 0
    else
      assert cells == [cells[0]] + cells[1..];
      (if cells[0].None? then 1 else 0) + NullCount(cells[1..])
  }

  /** Number of missing cells of the whole dataset, column by column
      (`df.isnull().sum().sum()`). */
  function NullCells(cols: seq<Column>): (n: nat)
    ensures n == 0 <==> forall c | c in cols :: None !in c.cells
  {
    if cols == [] then 0
    else
      assert forall c | c in cols :: c == cols[0] || c in cols[1..];
      NullCount(cols[0].cells) + NullCells(cols[1..])
  }

  lemma {:induction false} NullCellsBound(cols: seq<Column>, rows: nat)
    requires forall c | c in cols :: |c.cells| == rows
    ensures NullCells(cols) <= rows * |cols|
  {
    if cols != [] {
      var tail := cols[1..];
      assert cols[0] in cols;
      assert forall c | c in tail :: c in cols;
      NullCellsBound(tail, rows);
      MulSucc(rows, |tail|);
    }
  }

  lemma MulSucc(a: nat, b: nat)
    ensures a * (b + 1) == a * b + a
  {
  }

  /** The Missing Count column of `get_missing_values`, one row per column
      of the dataset in column order, zero counts included. */
  function MissingRows(cols: seq<Column>): (rows: seq<(string, nat)>)
    ensures |rows| == |cols|
    ensures forall i | 0 <= i < |cols| ::
      rows[i].0 == cols[i].name && rows[i].1 == multiset(cols[i].cells)[None]
    ensures forall i | 0 <= i < |cols| :: rows[i].1 <= |cols[i].cells|
  {
    if cols == [] then []
    else [(cols[0].name, NullCount(cols[0].cells))] + MissingRows(cols[1..])
  }

  /** `get_missing_values` of a profiler: the Missing Count of every column
      of its dataset, under the column's name, in column order. */
  function MissingCounts(p: Profiler): (rows: seq<(string, nat)>)
    ensures |rows| == |p.df.columns|
    ensures forall i | 0 <= i < |rows| ::
      rows[i] == (p.df.columns[i].name, multiset(p.df.columns[i].cells)[None])
  {
    MissingRows(p.df.columns)
  }

  function SumCounts(rows: seq<(string, nat)>): nat {
    if rows == [] then 0 else rows[0].1 + SumCounts(rows[1..])
  }

  /** The per-column counts add up to the dataset's total of missing cells,
      the figure the analysis and comparison pages report. */
  lemma {:induction false} MissingCountsTotal(cols: seq<Column>)
    ensures SumCounts(MissingRows(cols)) == NullCells(cols)
  {
    if cols != [] {
      MissingCountsTotal(cols[1..]);
    }
  }

  /** Each reported count lies between 0 and the number of rows. */
  lemma MissingCountsBounded(p: Profiler)
    requires WellFormed(p.df)
    ensures |MissingCounts(p)| == |p.df.columns|
    ensures forall i | 0 <= i < |MissingCounts(p)| :: MissingCounts(p)[i].1 <= p.df.rowCount
  {
  }

  // ---------------------------------------------------------------------
  // Column-type partition

  /** `select_dtypes(include=...)`: the names of the columns whose dtype is
      in `kinds`, in column order. */
  function SelectDtypes(cols: seq<Column>, kinds: set<DType>): (names: seq<string>)
    ensures |names| <= |cols|
    ensures forall n | n in names ::
      exists i | 0 <= i < |cols| :: cols[i].name == n && cols[i].dtype in kinds
  {
    if cols == [] then []
    else
      var rest := SelectDtypes(cols[1..], kinds);
      assert forall n | n in rest ::
        exists i | 0 <= i < |cols| :: cols[i].name == n && cols[i].dtype in kinds
      by {
        forall n | n in rest
          ensures exists i | 0 <= i < |cols| :: cols[i].name == n && cols[i].dtype in kinds
        {
          var j :| 0 <= j < |cols[1..]| && cols[1..][j].name == n && cols[1..][j].dtype in kinds;
          assert cols[j + 1] == cols[1..][j];
        }
      }
      if cols[0].dtype in kinds then [cols[0].name] + rest else rest
  }

  lemma {:induction false} SelectDtypesComplete(cols: seq<Column>, kinds: set<DType>, i: nat)
    requires i < |cols| && cols[i].dtype in kinds
    ensures cols[i].name in SelectDtypes(cols, kinds)
  {
    if i > 0 {
      assert cols[1..][i - 1] == cols[i];
      SelectDtypesComplete(cols[1..], kinds, i - 1);
    }
  }

  lemma {:induction false} SelectDtypesInOrder(cols: seq<Column>, kinds: set<DType>)
    ensures IsSubsequence(SelectDtypes(cols, kinds), ColumnNames(cols))
  {
    if cols != [] {
      SelectDtypesInOrder(cols[1..], kinds);
      assert ColumnNames(cols)[1..] == ColumnNames(cols[1..]);
      var rest := SelectDtypes(cols[1..], kinds);
      if cols[0].dtype !in kinds {
        SubsequenceSkip(rest, ColumnNames(cols));
      }
    }
  }

  /** `get_numeric_columns`: the int64 and float64 columns. */
  function NumericColumns(p: Profiler): (names: seq<string>)
    ensures forall n :: n in names <==>
      exists i | 0 <= i < |p.df.columns| :: p.df.columns[i].name == n && p.df.columns[i].dtype in NumericDtypes
    ensures IsSubsequence(names, ColumnNames(p.df.columns))
  {
    SelectedExactly(p.df.columns, NumericDtypes);
    SelectDtypesInOrder(p.df.columns, NumericDtypes);
    SelectDtypes(p.df.columns, NumericDtypes)
  }

  /** `get_categorical_columns`: the object and category columns. */
  function CategoricalColumns(p: Profiler): (names: seq<string>)
    ensures forall n :: n in names <==>
      exists i | 0 <= i < |p.df.columns| :: p.df.columns[i].name == n && p.df.columns[i].dtype in CategoricalDtypes
    ensures IsSubsequence(names, ColumnNames(p.df.columns))
  {
    SelectedExactly(p.df.columns, CategoricalDtypes);
    SelectDtypesInOrder(p.df.columns, CategoricalDtypes);
    SelectDtypes(p.df.columns, CategoricalDtypes)
  }

  /** A name is selected exactly when some column of an asked-for dtype carries it. */
  lemma SelectedExactly(cols: seq<Column>, kinds: set<DType>)
    ensures forall n :: n in SelectDtypes(cols, kinds) <==>
      exists i | 0 <= i < |cols| :: cols[i].name == n && cols[i].dtype in kinds
  {
    forall i | 0 <= i < |cols| && cols[i].dtype in kinds
      ensures cols[i].name in SelectDtypes(cols, kinds)
    {
      SelectDtypesComplete(cols, kinds, i);
    }
  }

  /** On a dataset with distinct column names, a column is listed as numeric
      exactly when its dtype is int64 or float64, and as categorical exactly
      when it is object or category; so no column is in both lists, and a
      column of any other dtype (bool, datetime) is in neither. Both lists
      keep the dataset's column order. */
  lemma ColumnPartition(p: Profiler)
    requires WellFormed(p.df)
    ensures forall i | 0 <= i < |p.df.columns| ::
      && (p.df.columns[i].name in NumericColumns(p) <==> p.df.columns[i].dtype in NumericDtypes)
      && (p.df.columns[i].name in CategoricalColumns(p) <==> p.df.columns[i].dtype in CategoricalDtypes)
    ensures forall n | n in NumericColumns(p) :: n !in CategoricalColumns(p)
    ensures IsSubsequence(NumericColumns(p), ColumnNames(p.df.columns))
    ensures IsSubsequence(CategoricalColumns(p), ColumnNames(p.df.columns))
  {
    var cols := p.df.columns;
    SelectDtypesInOrder(cols, NumericDtypes);
    SelectDtypesInOrder(cols, CategoricalDtypes);
    forall i | 0 <= i < |cols|
      ensures (cols[i].name in NumericColumns(p) <==> cols[i].dtype in NumericDtypes)
      ensures (cols[i].name in CategoricalColumns(p) <==> cols[i].dtype in CategoricalDtypes)
    {
      if cols[i].dtype in NumericDtypes {
        SelectDtypesComplete(cols, NumericDtypes, i);
      }
      if cols[i].dtype in CategoricalDtypes {
        SelectDtypesComplete(cols, CategoricalDtypes, i);
      }
      if cols[i].name in NumericColumns(p) {
        var j :| 0 <= j < |cols| && cols[j].name == cols[i].name && cols[j].dtype in NumericDtypes;
        assert ColumnNames(cols)[i] == ColumnNames(cols)[j];
      }
      if cols[i].name in CategoricalColumns(p) {
        var j :| 0 <= j < |cols| && cols[j].name == cols[i].name && cols[j].dtype in CategoricalDtypes;
        assert ColumnNames(cols)[i] == ColumnNames(cols)[j];
      }
    }
    forall n | n in NumericColumns(p) ensures n !in CategoricalColumns(p) {
      var j :| 0 <= j < |cols| && cols[j].name == n && cols[j].dtype in NumericDtypes;
    }
  }

  // ---------------------------------------------------------------------
  // Basic information

  /** Column names joined by ", " (Python's `', '.join`). */
  function JoinNames(names: seq<string>): string {
    if names == [] then ""
    else if |names| == 1 then names[0]
    else names[0] + ", " + JoinNames(names[1..])
  }

  /** Cuts a text at every ", ": the reader's way back from `JoinNames`. */
  function SplitNames(s: string): (parts: seq<string>)
    ensures |parts| >= 1
    decreases |s|
  {
    if |s| == 0 then [""]
    else if |s| >= 2 && s[0] == ',' && s[1] == ' ' then [""] + SplitNames(s[2..])
    else
      var rest := SplitNames(s[1..]);
      [[s[0]] + rest[0]] + rest[1..]
  }

  lemma {:induction false} SplitLast(x: string)
    requires ',' !in x
    ensures SplitNames(x) == [x]
  {
    if x != [] {
      assert x[1..] == x[1..] && ',' !in x[1..] by {
        forall k | 0 <= k < |x[1..]| ensures x[1..][k] != ',' {
          assert x[1..][k] == x[k + 1];
        }
      }
      SplitLast(x[1..]);
      assert [x[0]] + x[1..] == x;
    }
  }

  lemma {:induction false} SplitFirst(x: string, t: string)
    requires ',' !in x
    ensures SplitNames(x + ", " + t) == [x] + SplitNames(t)
  {
    var s := x + ", " + t;
    if x == [] {
      assert s[2..] == t;
    } else {
      assert s[0] == x[0];
      assert s[1..] == x[1..] + ", " + t;
      assert ',' !in x[1..] by {
        forall k | 0 <= k < |x[1..]| ensures x[1..][k] != ',' {
          assert x[1..][k] == x[k + 1];
        }
      }
      SplitFirst(x[1..], t);
      assert [x[0]] + x[1..] == x;
    }
  }

  /** The columns line of the basic info can be read back into the column
      names, provided there is at least one column and no name contains a
      comma. */
  lemma {:induction false} JoinSplitRoundTrip(names: seq<string>)
    requires names != []
    requires forall n | n in names :: ',' !in n
    ensures SplitNames(JoinNames(names)) == names
  {
    if |names| == 1 {
      SplitLast(names[0]);
    } else {
      assert names[0] in names;
      SplitFirst(names[0], JoinNames(names[1..]));
      JoinSplitRoundTrip(names[1..]);
      assert names == [names[0]] + names[1..];
    }
  }

  /** The three facts of `get_basic_info`: the shape, the columns line and
      the total number of rows. */
  datatype BasicInfo = BasicInfo(shape: (nat, nat), columns: string, totalRows: nat)

  function GetBasicInfo(p: Profiler): (info: BasicInfo)
    ensures info.shape == (p.df.rowCount, |p.df.columns|)
    ensures info.totalRows == info.shape.0
  {
    BasicInfo((p.df.rowCount, |p.df.columns|), JoinNames(ColumnNames(p.df.columns)), p.df.rowCount)
  }

  /** The columns line of the basic info lists the column names in order:
      reading it back at every ", " gives them again, provided there is at
      least one column and no name contains a comma. */
  lemma BasicInfoColumnsRoundTrip(p: Profiler)
    requires p.df.columns != []
    requires forall c | c in p.df.columns :: ',' !in c.name
    ensures SplitNames(GetBasicInfo(p).columns) == ColumnNames(p.df.columns)
  {
    var names := ColumnNames(p.df.columns);
    forall n | n in names ensures ',' !in n {
      var i :| 0 <= i < |names| && names[i] == n;
      assert p.df.columns[i] in p.df.columns;
    }
    JoinSplitRoundTrip(names);
  }
}
