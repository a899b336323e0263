# Titanic dashboard: binarization, age groups and login gate

This project models the logic that the dashboard script `index.py` owns. The
script is a Streamlit page. A user logs in with a free-text name and uploads a
CSV file. The script charts the "Age" column in five age groups, turns the whole
table into a 0/1 presence matrix and hands that matrix to an association-rule
miner.

The model has five modules:

- `Wrappers`: the `Option` type. `None` stands for pandas' NaN and Python's `None`.
- `Binarize`: `preprocess_data`. A cell is `Num(r)`, `NonNumeric` or `Missing`.
  `pd.to_numeric(errors="coerce")`, `fillna(0)` and the `x > 0` indicator are
  three element-wise passes (`MapTable`) over the table.
- `AgeGroups`: `pd.cut` with bins `[0, 18, 30, 45, 60, 100]`, right-closed bins and
  `include_lowest=False`. It also holds the per-label counts of
  `value_counts().sort_index()`.
- `Frame`: the uploaded table (`Data`) and the script's `data` variable
  (`DataFrame`). `data["Age Group"] = ...` writes a column in place: it
  overwrites a column of that name or appends a new one.
- `Dashboard`: `st.session_state.username` as the `Session` class. One script
  run is `Session.Rerun`: the login section reacts to the pressed button, then
  the gate decides what the page shows. `NextUser` and `Replay` describe the
  username across a whole session.

Modelling decisions:

- A label written to the "Age Group" column is a `NonNumeric` cell, because its
  text ("0-18", ..., "60+") is not a number. An age outside every bin is a
  `Missing` cell. Both binarize to 0, so that column is all zeros in the matrix
  given to the miner (`Frame.AgeGroupColumnIsZero`).
- A text cell in the "Age" column makes read_csv give the column an object
  dtype, and `pd.cut` then raises. The model reports this as `AgeNotNumeric`.
  The page then shows `AgeCutError`, and nothing after index.py:122 runs.
- Only the button rendered on the previous run can be pressed: "Log In" while
  logged out, "Log Out" while logged in. The model treats a press of the other
  button as no press.
- The script does not group rows by a transaction key: it binarizes the
  uploaded table cell by cell (index.py:139-157), and the model does the same.

## Model

| member | source | states |
|---|---|---|
| `Binarize.MapTable` | index.py:146-152 | an element-wise pass keeps every row and every column and applies the function to each cell |
| `Binarize.PreprocessData` | index.py:139-154 | composes the three passes `ToNumeric` (line 146), `FillNaZero` (line 149) and `Presence` (line 152); same shape as the input; every cell is 0 or 1; a cell is 1 exactly when the input cell is a number strictly above 0, so zero, negative, text and missing cells become 0 and are not dropped |
| `Binarize.BinaryIsFixedPoint` | index.py:146-152 | a matrix that is already 0/1 comes out of binarization unchanged |
| `Binarize.PreprocessIdempotent` | index.py:139-154 | binarizing the binarized table again gives the same table |
| `AgeGroups.BinIndex` | index.py:122 | for a value inside the outer edges, the returned bin k satisfies edges[k] < x <= edges[k+1] |
| `AgeGroups.Cut` | index.py:122 | a value gets a bin exactly when it lies in (first edge, last edge]; the bin is right-closed and open on the left |
| `AgeGroups.AgeGroup` | index.py:122-123 | (0,18] gives "0-18", (18,30] "19-30", (30,45] "31-45", (45,60] "46-60", (60,100] "60+"; a missing age, an age at most 0 or above 100 gets no group |
| `AgeGroups.Groups` | index.py:122 | the group column has one entry per age, the group of that age |
| `AgeGroups.CountLabel` | index.py:124 | the count of a label is the number of times that category occurs in the group column |
| `AgeGroups.AgeGroupCounts` | index.py:124 | one pair per label, all five labels present, in label order, each with the number of occurrences of its category in the group column |
| `AgeGroups.LabelsNamedInOrder` | index.py:123 | the k-th label is shown as the k-th text of "0-18", "19-30", "31-45", "46-60", "60+" |
| `AgeGroups.LabelCountsPartition` | index.py:122-124 | the five group counts add up to the number of ages in (0,100] |
| `AgeGroups.CountsSumToInRange` | index.py:122-124 | the reported counts add up to the ages in (0,100]; other ages are counted nowhere |
| `Frame.IndexOf` | index.py:119 | a column is found exactly when its name is among the columns, at a position holding that name |
| `Frame.SetColumn` | index.py:122 | assigning a column overwrites an existing column of that name or appends one at the right; the table stays rectangular and every other cell is unchanged |
| `Frame.AgeColumn` | index.py:122 | the ages are readable exactly when no "Age" cell is text; then there is one age per row, taken from that row's cell |
| `Frame.GroupCells` | index.py:122 | one group cell per age: a label when the age has a group, NaN otherwise |
| `Frame.AgeStage` | index.py:119-124 | without an "Age" column, or with a text cell in it, the table is unchanged; with an "Age" column, the cut fails exactly when some "Age" cell is text; otherwise the counts are those of the ages of the "Age" column, the "Age Group" column holds each row's group cell and every other cell is unchanged |
| `Frame.AgeStageCountsTotal` | index.py:119-124 | the chart's counts add up to the ages of the "Age" column in (0,100] |
| `Frame.SetColumnBinarizes` | index.py:146-152 | writing a column with no positive number in it gives a zero column after binarization and leaves every other column's bits as they were |
| `Frame.UploadedColumnsKeepBits` | index.py:122-157 | after the age block, every uploaded column other than "Age Group" binarizes to 1 exactly where the uploaded cell is a positive number |
| `Frame.AgeGroupColumnIsZero` | index.py:122-157 | the "Age Group" column written by the age block binarizes to all zeros |
| `Frame.DataFrame.constructor` | index.py:101 | the frame holds the uploaded columns and rows |
| `Frame.DataFrame.AddAgeGroups` | index.py:119-124 | the frame's new columns and rows, and the chart data, are those of `AgeStage` on the old table |
| `Dashboard.NextUser` | index.py:80-91 | Log In with a non-empty name while logged out sets the name; with an empty name it changes nothing; Log Out while logged in clears the name; a name that is set after a run was set before or was just typed |
| `Dashboard.ReplayUserWasTyped` | index.py:76-91 | from the unset start, the username is always unset or a non-empty name that was typed when Log In was pressed |
| `Dashboard.LogOutClears` | index.py:88-91 | after Log Out the username is unset, whatever came before |
| `Dashboard.Page` | index.py:94-159 | the login prompt shows exactly when nobody is logged in; the upload prompt exactly when logged in with no file; the pipeline runs exactly when logged in with a file; its matrix is 0/1 with one row per uploaded row |
| `Dashboard.AnalysisBasket` | index.py:119-157 | in the matrix given to the miner, each uploaded column's cell is 1 exactly when the uploaded cell is a positive number, and a written "Age Group" column is all zeros |
| `Dashboard.Session.constructor` | index.py:76-77 | a new session has no username |
| `Dashboard.Session.LogIn` | index.py:80-87 | while logged out, a non-empty name is stored and reported; an empty name is refused with an error and the session stays logged out |
| `Dashboard.Session.LogOut` | index.py:88-91 | the username is cleared |
| `Dashboard.Session.Rerun` | index.py:76-159 | one script run: the username moves by `NextUser`, the sidebar notice matches the login section, and the page is `Page` of the new username and the upload |

## Left out

- Frequent-itemset mining and rule generation (`apriori`, `association_rules`, index.py:164 and index.py:176): these are calls into mlxtend, whose code is not part of this model. The model stops at the binarized matrix handed to `apriori`.
- The support, metric and threshold widgets (index.py:163, 169-170): they only configure the mining calls.
- CSV parsing (`pd.read_csv`, index.py:101) and the file uploader: I/O. An upload is given as an already parsed `Frame.Data`.
- String-to-number parsing inside `pd.to_numeric`: whether a text cell is a number is taken as given in the `Cell` constructor. Boolean and infinite cells are not modelled.
- All plotting and page text: the sex chart and its counts (index.py:106-117), the age bar chart (index.py:125-130), the rule network and its layout (index.py:182-191), the support/confidence chart (index.py:193-196), and the CSS theme (index.py:9-67).
- `Dashboard.AnalysisBasket`: it says nothing about an "Age Group" column that was already in the upload when the file has no "Age" column. That column binarizes like any other column.
