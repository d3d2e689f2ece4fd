/** pages/analyse_data.py: a read-only view of the registry. It stops when
    no user is logged in, warns when nothing is registered, and otherwise
    looks up the selected dataset and its profiler by name and reports its
    size and its number of missing cells. */
module AnalyseData {
  import opened Collections
  import opened DataUtils
  import opened SessionRegistry

  datatype AnalyseView =
    | LoginRequired
    | NoDatasets
    | Report(name: string, rows: nat, columns: nat, missing: nat, dataset: Frame, profiler: Profiler)

  /** The page as a function of the session state; `pick` stands for the
      user's choice in the select box. The registry invariant is what makes
      both `next(...)` lookups succeed. */
  function Analyse(user: Option<string>, dfList: seq<(string, Frame)>,
                   profilers: seq<(string, Profiler)>, pick: nat): (v: AnalyseView)
    requires RegistryOk(dfList, profilers)
    ensures v.LoginRequired? <==> !Truthy(user)
    ensures v.NoDatasets? <==> Truthy(user) && dfList == []
    ensures v.Report? ==>
      && (v.name, v.dataset) in dfList
      && (forall i | 0 <= i < |dfList| && dfList[i].0 == v.name :: dfList[i].1 == v.dataset)
      && v.profiler == Profiler(v.dataset) && (v.name, v.profiler) in profilers
      && v.rows == v.dataset.rowCount && v.columns == |v.dataset.columns|
      && v.missing == SumCounts(MissingCounts(v.profiler))
      && v.missing <= v.rows * v.columns
  {
    if !Truthy(user) then LoginRequired
    else if dfList == [] then NoDatasets
    else
      var selected := Pick(Names(dfList), pick);
      var df := Lookup(dfList, selected);
      ProfilerLookup(dfList, profilers, selected);
      var p := Lookup(profilers, selected);
      NullCellsBound(df.columns, df.rowCount);
      MissingCountsTotal(df.columns);
      assert forall i | 0 <= i < |dfList| && dfList[i].0 == selected :: dfList[i].1 == df by {
        forall i | 0 <= i < |dfList| && dfList[i].0 == selected ensures dfList[i].1 == df {
          LookupUnique(dfList, i);
        }
      }
      Report(selected, df.rowCount, |df.columns|, NullCells(df.columns), df, p)
  }

  /** Every registered dataset can be selected, and selecting it shows
      that very entry with the profiler built from it. */
  lemma AnalyseSelectsEach(user: Option<string>, dfList: seq<(string, Frame)>,
                                              profilers: seq<(string, Profiler)>, i: nat)
    requires RegistryOk(dfList, profilers) && Truthy(user) && i < |dfList|
    ensures Analyse(user, dfList, profilers, i).Report?
    ensures Analyse(user, dfList, profilers, i).name == dfList[i].0
    ensures Analyse(user, dfList, profilers, i).dataset == dfList[i].1
    ensures Analyse(user, dfList, profilers, i).profiler == Profiler(dfList[i].1)
  {
  }
}
