/** The selection and comparison part of pages/compare_CSVs.py: with at
    least two datasets registered, the user picks a first dataset, then a
    second one among the others, and the page reports four metrics for
    each. (The upload loop of the same page is the `Session.UploadFiles`
    method, specified by `SessionRegistry.Batch`.) */
module CompareCsvs {
  import opened Collections
  import opened DataUtils
  import opened SessionRegistry

  /** `[name for name in file_options if name != file1]`. */
  function SecondOptions(options: seq<string>, file1: string): (rest: seq<string>)
    ensures file1 !in rest
    ensures forall n | n in options && n != file1 :: n in rest
    ensures IsSubsequence(rest, options)
  {
    if options == [] then []
    else
      var tail := SecondOptions(options[1..], file1);
      assert forall n | n in options && n != options[0] :: n in options[1..];
      if options[0] == file1 then
        SubsequenceSkip(tail, options);
        tail
      else
        assert ([options[0]] + tail)[1..] == tail;
        [options[0]] + tail
  }

  lemma {:induction false} SecondOptionsAbsent(options: seq<string>, file1: string)
    requires file1 !in options
    ensures SecondOptions(options, file1) == options
  {
    if options != [] {
      SecondOptionsAbsent(options[1..], file1);
      assert options == [options[0]] + options[1..];
    }
  }

  /** With distinct names, removing the first choice removes exactly one
      option, so at least one remains whenever there were two. */
  lemma {:induction false} SecondOptionsSize(options: seq<string>, file1: string)
    requires Unique(options) && file1 in options
    ensures |SecondOptions(options, file1)| == |options| - 1
  {
    if options[0] == file1 {
      assert file1 !in options[1..] by {
        forall k | 0 <= k < |options[1..]| ensures options[1..][k] != file1 {
          assert options[1..][k] == options[k + 1];
        }
      }
      SecondOptionsAbsent(options[1..], file1);
    } else {
      assert Unique(options[1..]) by {
        forall i, j | 0 <= i < j < |options[1..]| ensures options[1..][i] != options[1..][j] {
          assert options[1..][i] == options[i + 1] && options[1..][j] == options[j + 1];
        }
      }
      SecondOptionsSize(options[1..], file1);
    }
  }

  /** The names of a dataset's columns as a set (`set(df.columns)`). */
  function ColumnNameSet(t: Table): set<string> {
    set n | n in ColumnNames(t.columns)
  }

  lemma IntersectionBound(a: set<string>, b: set<string>)
    ensures |a * b| <= |a| && |a * b| <= |b|
  {
    assert a == (a * b) + (a - b);
    assert b == (a * b) + (b - a);
  }

  /** The Common Columns metric: how many column names the two datasets
      share. It is symmetric and bounded by both column counts. */
  function CommonColumnCount(a: Table, b: Table): (n: nat)
    ensures n <= |a.columns| && n <= |b.columns|
    ensures n == |ColumnNameSet(b) * ColumnNameSet(a)|
  {
    DistinctBound(ColumnNames(a.columns));
    DistinctBound(ColumnNames(b.columns));
    IntersectionBound(ColumnNameSet(a), ColumnNameSet(b));
    assert ColumnNameSet(a) * ColumnNameSet(b) == ColumnNameSet(b) * ColumnNameSet(a);
    |ColumnNameSet(a) * ColumnNameSet(b)|
  }

  /** One report column: Rows, Columns, Missing Values, Common Columns. */
  datatype Metrics = Metrics(rows: nat, columns: nat, missingValues: nat, commonColumns: nat)

  /** The report column for `t`, compared against `other`. The missing
      total agrees with the profiler's per-column counts and cannot exceed
      the number of cells. */
  function ReportColumn(t: Frame, other: Frame): (m: Metrics)
    ensures m.rows == t.rowCount && m.columns == |t.columns|
    ensures m.missingValues == SumCounts(MissingCounts(Profiler(t)))
    ensures m.missingValues <= m.rows * m.columns
    ensures m.commonColumns == CommonColumnCount(other, t)
  {
    NullCellsBound(t.columns, t.rowCount);
    MissingCountsTotal(t.columns);
    Metrics(t.rowCount, |t.columns|, NullCells(t.columns), CommonColumnCount(t, other))
  }

  /** What the selection part of the page shows. `Unpaired` is the case in
      which `file1 and file2` is false: no second option (`file2 = None`) or
      an empty name. */
  datatype CompareView =
    | TooFew
    | Unpaired(file1: string, file2Choice: Option<string>)
    | Compared(file1: string, file2: string, left: Metrics, right: Metrics)

  /** The selection and metrics of the page; `pick1` and `pick2` stand for
      whatever the user chooses in the two select boxes. */
  function Compare(dfList: seq<(string, Frame)>, pick1: nat, pick2: nat): (v: CompareView)
    ensures v.TooFew? <==> |dfList| < 2
    ensures v.Compared? ==>
      && v.file1 in Names(dfList) && v.file2 in Names(dfList) && v.file1 != v.file2
      && v.left == ReportColumn(Lookup(dfList, v.file1), Lookup(dfList, v.file2))
      && v.right == ReportColumn(Lookup(dfList, v.file2), Lookup(dfList, v.file1))
      && v.left.commonColumns == v.right.commonColumns
      && v.left.commonColumns <= v.left.columns && v.right.commonColumns <= v.right.columns
  {
    if |dfList| < 2 then TooFew
    else
      var options := Names(dfList);
      var file1 := Pick(options, pick1);
      var file2Options := SecondOptions(options, file1);
      if file2Options == [] then Unpaired(file1, None)
      else
        var file2 := Pick(file2Options, pick2);
        if file1 == "" || file2 == "" then Unpaired(file1, Some(file2))
        else
          SubsequenceMembers(file2Options, options);
          var df1 := Lookup(dfList, file1);
          var df2 := Lookup(dfList, file2);
          Compared(file1, file2, ReportColumn(df1, df2), ReportColumn(df2, df1))
  }

  /** With distinct names and at least two datasets there is always a
      second option, so the comparison happens unless a chosen name is the
      empty string. */
  lemma ComparePairs(dfList: seq<(string, Frame)>, pick1: nat, pick2: nat)
    requires Unique(Names(dfList)) && |dfList| >= 2
    ensures Compare(dfList, pick1, pick2).Compared?
         || (Compare(dfList, pick1, pick2).Unpaired? && Compare(dfList, pick1, pick2).file2Choice.Some?
             && (Compare(dfList, pick1, pick2).file1 == "" || Compare(dfList, pick1, pick2).file2Choice.value == ""))
  {
    var options := Names(dfList);
    SecondOptionsSize(options, Pick(options, pick1));
  }
}
