# Data Profiling & EDA app: session registry and profiler, in Dafny

This project models the logic of a Streamlit application in which a user
logs in under a free-text name, uploads CSV files, looks at one dataset at
a time and compares two datasets. What is modelled:

- **the session state** (`app.py`): the keys `user`, `uploads_dir`,
  `df_list`, `profilers` and `logout_button_counter`, each set to its
  default only when absent; the scratch directory that every run creates
  if missing; the gating of the Resources pages; the logout, which wipes (ignoring errors)
  and recreates the scratch directory and resets the user and both lists.
  This is the class `App.Session`.
- **the login** (`pages/welcome.py`): a submitted non-empty username
  becomes the user, unchecked (`App.Session.Login`).
- **the upload loop** (`pages/compare_CSVs.py`): files are processed in
  order; a name already registered is skipped (the first upload of a name
  wins); a file that fails to parse, or whose scratch copy
  `<user>_<name>` cannot be written, changes nothing; otherwise the dataset
  and its profiler are appended to the two parallel lists. The loop is the
  method `App.Session.UploadFiles`, proved equal to the function
  `SessionRegistry.Batch`. Lemmas about `Batch` show that it keeps the
  registry invariant (distinct names, the profiler list parallel to the
  dataset list and bound to its datasets), that it only appends, where each
  new entry comes from, that every file that gets through is registered,
  and that the first file of a name wins.
- **selection and comparison** (`pages/compare_CSVs.py`): with at least two
  datasets the user picks one, then one of the others, and the page shows
  rows, columns, missing cells and the number of shared column names for
  each (`CompareCsvs`).
- **the analysis page** (`pages/analyse_data.py`): a read-only function of
  the session state whose two `next(...)` lookups are shown to succeed from
  the registry invariant (`AnalyseData`).
- **the profiler** (`utils/data_utils.py`): a dataset is a sequence of
  columns `(name, dtype, cells)` with optional cells; the profiler is a
  value bound to one dataset, so every query is a function of it and
  repeating it gives the same result. Modelled are the basic info, the
  per-column missing counts and the numeric / categorical column lists
  (`DataUtils`).

Selection widgets are modelled by `Collections.Pick`: the widget returns
one of the offered options and every option can be chosen. The CSV reader
is a function parameter `parse: seq<bv8> -> Option<Frame>` (`None` is a
parse error), and whether the scratch copy can be written is a parameter
`canWrite: string -> bool`. A `Frame` is a dataset whose columns all have
one cell per row and whose column names are distinct, as the CSV reader
produces them.

Three behaviours could be specified either way; the model follows the
code: a repeated upload name is skipped (never replaced), the missing
counts include every column (also those with no missing cell), and the
name lookups are `next(...)` calls rather than lookups that may report an
absence, which the registry invariant makes safe.

## Model

| member | source | states |
|---|---|---|
| `DataUtils.NullCount` | utils/data_utils.py:25 | a column's missing count is the number of `None` cells in it, at most its length |
| `DataUtils.MissingRows` | utils/data_utils.py:23-30 | one Missing Count row per column, in column order, zero counts included, each equal to that column's number of missing cells and at most its length |
| `DataUtils.MissingCounts` | utils/data_utils.py:23-30 | the profiler's Missing Count column has one entry per column of its dataset, carrying that column's name and its number of `None` cells, in column order |
| `DataUtils.NullCells` | pages/analyse_data.py:27 | the dataset's missing total (`isnull().sum().sum()`) is zero exactly when no column has a missing cell |
| `DataUtils.MissingCountsBounded` | utils/data_utils.py:25-30 | on a well-formed dataset each Missing Count lies between 0 and the row count, and there is one per column |
| `DataUtils.MissingCountsTotal` | utils/data_utils.py:25 | the per-column Missing Counts add up to the dataset's number of missing cells (`isnull().sum().sum()`) |
| `DataUtils.NullCellsBound` | pages/analyse_data.py:27 | the number of missing cells is at most rows × columns |
| `DataUtils.SelectDtypes` | utils/data_utils.py:34 | every name returned by `select_dtypes` belongs to a column whose dtype is one of those asked for; no more names than columns |
| `DataUtils.SelectDtypesComplete` | utils/data_utils.py:34 | every column whose dtype is asked for is returned |
| `DataUtils.SelectDtypesInOrder` | utils/data_utils.py:34 | the result keeps the column order: it is a subsequence of the column names |
| `DataUtils.SelectedExactly` | utils/data_utils.py:34 | a name is returned by `select_dtypes` exactly when a column of an asked-for dtype carries it |
| `DataUtils.NumericColumns` | utils/data_utils.py:32-34 | `get_numeric_columns` lists exactly the names of the int64 and float64 columns, in column order |
| `DataUtils.CategoricalColumns` | utils/data_utils.py:36-38 | `get_categorical_columns` lists exactly the names of the object and category columns, in column order |
| `DataUtils.ColumnPartition` | utils/data_utils.py:32-38 | a column is numeric exactly when its dtype is int64 or float64 and categorical exactly when it is object or category; the two lists are disjoint, both follow column order, other dtypes are in neither |
| `DataUtils.GetBasicInfo` | utils/data_utils.py:10-17 | the shape is (row count, column count) and Total Rows equals the row count |
| `DataUtils.JoinSplitRoundTrip` | utils/data_utils.py:14 | names joined by ", " are recovered by cutting at every ", " when there is at least one name and none contains a comma |
| `DataUtils.BasicInfoColumnsRoundTrip` | utils/data_utils.py:14 | the Columns line of the basic info lists exactly the column names, in order |
| `SessionRegistry.Lookup` | pages/analyse_data.py:24 | `next(...)` by name returns the value of the first entry with that name |
| `SessionRegistry.LookupUnique` | pages/analyse_data.py:23-24 | with distinct names the lookup returns the one entry carrying the name |
| `SessionRegistry.ProfilerLookup` | pages/analyse_data.py:24-25 | under the registry invariant the profiler lookup succeeds whenever the dataset lookup does and yields the profiler bound to that dataset |
| `SessionRegistry.ScratchName` | pages/compare_CSVs.py:79 | the scratch file name is the user name, then `_`, then the uploaded file name |
| `SessionRegistry.AddUpload` | pages/compare_CSVs.py:73-97 | a registered name is skipped; a parse or write failure changes nothing; otherwise both lists gain one entry at the end under the uploaded name and the scratch copy is added |
| `SessionRegistry.Batch` | pages/compare_CSVs.py:72-97 | the loop over a batch, file by file in order; each file adds at most one entry, and it adds it to both lists at once |
| `SessionRegistry.AddUploadKeepsRegistryOk` | pages/compare_CSVs.py:74-82 | one loop iteration keeps names distinct and the profiler list parallel to the dataset list |
| `SessionRegistry.BatchKeepsRegistryOk` | pages/compare_CSVs.py:72-82 | the whole batch keeps the registry invariant, so files of one batch sharing a name add at most one entry |
| `SessionRegistry.BatchExtends` | pages/compare_CSVs.py:81-82 | the batch only appends: the old lists are prefixes of the new ones and no scratch file is lost |
| `SessionRegistry.BatchSound` | pages/compare_CSVs.py:76-82 | each new entry comes from a file of the batch with that name that parsed to that dataset and whose scratch copy was written; no other scratch file appears |
| `SessionRegistry.BatchComplete` | pages/compare_CSVs.py:72-82 | every file of the batch that parses and can be written is registered under its name afterwards |
| `SessionRegistry.BatchFirstWins` | pages/compare_CSVs.py:73-74 | for a name new to the registry, the dataset registered under it is the one from the first file of that name that got through |
| `Collections.Pick` | pages/compare_CSVs.py:116 | a select box returns one of the options it offers, and every option can be chosen |
| `CompareCsvs.SecondOptions` | pages/compare_CSVs.py:117 | the second options are the names other than the first choice, all of them, in the same order |
| `CompareCsvs.SecondOptionsSize` | pages/compare_CSVs.py:115-122 | with distinct names exactly one option is removed, so two datasets always leave a second option |
| `CompareCsvs.CommonColumnCount` | pages/compare_CSVs.py:140-141 | Common Columns is the size of the intersection of the column-name sets, the same from both sides, and at most either column count |
| `CompareCsvs.ReportColumn` | pages/compare_CSVs.py:138-142 | a report column gives rows, columns, the missing total (equal to the sum of the profiler's counts, at most rows × columns) and Common Columns |
| `CompareCsvs.Compare` | pages/compare_CSVs.py:100-142 | fewer than two datasets means no selection; a comparison is of two different registered names, its metrics are those of the looked-up datasets, and Common Columns agrees in both report columns |
| `CompareCsvs.ComparePairs` | pages/compare_CSVs.py:115-124 | with distinct names and two or more datasets `file2` is never None, so the comparison happens unless a chosen name is empty |
| `AnalyseData.Analyse` | pages/analyse_data.py:16-27 | the page stops exactly when nobody is logged in, warns exactly when the list is empty, and otherwise reports a registered entry (the only one with its name), its bound profiler, its size and its missing total (at most rows × columns) |
| `AnalyseData.AnalyseSelectsEach` | pages/analyse_data.py:23-25 | every registered dataset can be selected, and selecting it reports that entry and the profiler built from it |
| `App.ResourcesDisabled` | app.py:173-174 | a Resources page is disabled exactly when the user is None or the empty string |
| `App.Session.InitSessionState` | app.py:139-148 | each key is set to its default (None, "data/uploads", [], [], 0) only when absent; values already present are kept |
| `App.Session.EnsureUploadsDir` | app.py:151 | afterwards the scratch directory exists; files in it are kept |
| `App.Session.Logout` | app.py:178-183 | the user becomes None, both lists empty, the scratch directory exists and holds only the files removal failed to delete (none when removal succeeds); `uploads_dir` and the button counter are unchanged |
| `App.Session.RunApp` | app.py:139-183 | after every run the state is initialised and the directory exists; the Resources pages are disabled exactly when no user is logged in; logout happens only for a logged-in user who clicks, and then leaves only the files removal failed to delete |
| `App.Session.Login` | pages/welcome.py:6-23 | the form is shown only when nobody is logged in; the user becomes exactly the submitted username when it is non-empty; nothing else changes, so a logged-in user is never the empty string |
| `App.Session.UploadFiles` | pages/compare_CSVs.py:72-97 | the upload loop leaves the registry as `Batch` describes and keeps the session invariant |
| `App.Session.ComparePage` | pages/compare_CSVs.py:50-126 | the page stops for a visitor who is not logged in and changes nothing; otherwise it runs the upload loop and shows the selection of the updated registry |

## Left out

- Presentation: CSS and HTML strings, markdown, toasts, spinners, sleeps, `st.rerun`, the navigation widgets, the sidebar image, the styled metrics table and the welcome page's feature list. They display state and change none.
- `pd.read_csv`: a foreign library; it is the parameter `parse`, which may fail. The model relies on it producing rectangular frames with distinct column names.
- `df.to_csv`, `shutil.rmtree` and `mkdir`: file I/O. The scratch directory is a flag and a set of file names, and a failed write is the parameter `canWrite`; a partially written file after a failure is not modelled. The directory `data/uploads` is in fact shared by all sessions of the server, so a logout also removes other users' copies; the model keeps one session's view of it.
- `DataProfiler.get_summary_stats` (`df.describe()`) and the Missing Percent column of `get_missing_values`: floating-point pandas statistics, and Missing Percent divides by zero for a dataset with no rows.
- SessionRegistry.AddUpload: the scratch copy `<user>_<name>` is treated as a plain file name inside `data/uploads`. The user name is unchecked free text, so one starting with `/` or containing `..` (say `/tmp/x` or `../x`) makes the path resolve outside that directory, and the copy is written there instead. Whether a write succeeds is taken to depend on the path alone, so a second file of the same name in one batch fails to be written whenever the first did.
- App.Session.Logout: for the same reason, a copy written outside `data/uploads` is beyond the reach of `rmtree`; the model's promise that only `leftBehind` survives covers the directory only, and does not follow such copies.
- App.Session.EnsureUploadsDir: `mkdir` is assumed to succeed; the exception it raises on failure, which aborts the run, is not modelled.
- App.Session.Logout: the errors `rmtree` ignores are modelled only as the parameter `leftBehind`, the files it fails to delete; the `mkdir` after it is assumed to succeed, as above.
- `df.head()` previews: display only.
- Floating-point cell values: cells are integers, text or booleans; only whether a cell is missing matters to the modelled queries.
- DataUtils.GetBasicInfo: the info is a record of its three facts rather than the formatted text.
- Replacing a dataset after an in-place edit and removing single entries: the modelled code has neither.
- `logout_button_counter` is only initialised; no modelled code changes it.
