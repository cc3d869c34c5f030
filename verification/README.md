# Intelligent Data Visualization — a Dafny model of its core

Intelligent Data Visualization is a Streamlit app. A user uploads a CSV or
Excel file, and the app does three things with it. It classifies the
columns as numerical, categorical or date. It picks up to three key metrics
and builds an automatic dashboard of up to six charts. Its Data Copilot
sends questions to a language model and runs the pandas code that comes
back. This project models the decision logic of that core as pure Dafny
functions and a few methods:

- `Loader` (src/loader.py): the reader chosen by file suffix and the
  removal of all-empty rows.
- `Analysis` (src/analysis.py): column classification, key-metric scoring
  and ranking, and the summary line.
- `Visualizer` (src/visualizer.py): number formatting and the six chart
  steps of the automatic dashboard.
- `Copilot` (src/copilot.py): client creation, extraction of code fences,
  execution of generated code, and the bounded retry loop of
  `ask_copilot`.
- `Session`, `Navigation`, `Filters`, `ManualBuilder` and `DashboardView`
  (app.py): the session state and its upload and chat callbacks, the
  `nav` query parameter and menu, the sidebar filters, the Manual
  Exploration canvas, and the Dashboard page.
- Supporting modules: `Optional` (option type), `Seqs` (filters,
  subsequences, first-match search), `StableSort` (a stable insertion
  sort, which is how Python's `list.sort` behaves), `Text` (Python's
  `in`, `split`, `strip`, `lower`, `endswith` and decimal rendering) and
  `Frames` (a data frame as typed columns over rows of cells).

Things that are outside pure logic become parameters:

- `pd.to_datetime` is a `parse` oracle: a day number, or `None` for NaT.
- The CSV and Excel readers are a `read` oracle.
- The Gemini model is a `model` oracle: reply number `k` is the text of
  call `k`, or the exception it raised.
- Python's `exec` of generated code is an `exec` oracle.
- Widget values are plain arguments: the date range, the multiselect
  choices and the stored select-box choices.

A dtype is an abstract tag. A cell is either missing or carries its text.
`nunique` counts the distinct non-missing texts of a column.

In the model, `ask_copilot` never reaches its final fallback line. On the
third attempt a transient error is reported as an error message (see
`Copilot.CountCalls`).

## Model

| member | source | states |
|---|---|---|
| Analysis.GetColumnTypes | src/analysis.py:6-29 | each of the three lists keeps frame order: numerical is a subsequence of the columns; date and categorical are subsequences of the object/category columns |
| Analysis.ClassificationMembers | src/analysis.py:10-23 | membership: numerical iff the dtype is a number kind of `np.number` (integer, float, complex or timedelta); date iff object/category and every non-missing value parses; categorical iff object/category and not date |
| Analysis.ColumnClassification | src/analysis.py:10-23 | for every column: the date test is all-or-nothing (a single unparsable value keeps the column categorical); a numeric or timedelta column is numerical; boolean and datetime columns are in no list |
| Analysis.ClassificationDisjoint | src/analysis.py:10-23 | the three lists name only frame columns and are pairwise disjoint |
| Analysis.ClassificationSplitsCandidates | src/analysis.py:11-23 | categorical and date together are exactly the object/category columns, counted as a multiset |
| Analysis.ClassificationFitsColumns | src/analysis.py:10-23 | the three lists together are no longer than the column list |
| Analysis.EmptyFramePromotesAll | src/analysis.py:15-20 | with no rows every object/category column parses, so all of them become dates and categorical is empty |
| Analysis.Score | src/analysis.py:41-47 | a score lies in 0..3; it is at least 2 iff the lower-cased name contains a priority keyword; it is odd iff the column has more than 10 distinct values |
| Analysis.RankedEntries | src/analysis.py:40-49 | the ranking holds exactly the candidates, each keyed by its negated score |
| Analysis.IdentifyKeyMetrics | src/analysis.py:31-50 | returns min(3, number of numerical columns) names, all of them numerical |
| Analysis.FewNumericalAllChosen | src/analysis.py:31-50 | with at most three numerical columns, every numerical column is a key metric |
| Analysis.KeyMetricsOrdered | src/analysis.py:49-50 | the chosen metrics come in non-increasing score order |
| Analysis.KeyMetricBeats | src/analysis.py:49-50 | a numerical column left out never scores higher than a chosen one |
| Analysis.KeyMetricsAreBest | src/analysis.py:49-50 | all chosen metrics score at least as high as every numerical column left out |
| Analysis.KeyMetricsKeepTieOrder | src/analysis.py:49-50 | among columns of equal score, the chosen ones are a prefix of those columns in their original order, because the sort is stable |
| Analysis.SummaryText | src/analysis.py:83-87 | the line opens with the row and column counts and closes with the numerical and categorical counts, each in decimal |
| Analysis.SummaryIgnoresDates | src/analysis.py:83-87 | the summary line does not depend on the date list |
| Analysis.SummaryDeterminesCounts | src/analysis.py:83-87 | two equal summary lines have equal row, column, numerical and categorical counts |
| StableSort.Sort | src/analysis.py:49 | the result is a permutation of the input (as a multiset), in ascending key order |
| StableSort.SortIsStable | src/analysis.py:49 | for every key, the entries with that key keep their input order |
| StableSort.SortedPrefixWithKey | src/analysis.py:49-50 | the entries with one key in a prefix of the sorted list are a prefix of that key's entries in input order |
| Seqs.FilterMembers | src/analysis.py:23 | a list comprehension with a condition keeps exactly the elements that satisfy it |
| Seqs.FilterIsSubseq | src/analysis.py:23 | a list comprehension keeps the order of the elements it keeps |
| Seqs.FilterCounts | src/analysis.py:23 | a list comprehension keeps every copy of an element it keeps: each element occurs as often as in the input when it passes the test, and not at all otherwise |
| Seqs.FilterOfFilter | app.py:313 | filtering by a wider test and then by a narrower one is filtering by the narrower one alone |
| Seqs.CountsNoDuplicates | app.py:316 | a list in which every element occurs at most once has no element at two positions |
| Seqs.FilterSplits | src/analysis.py:15-23 | filtering by a test and by its negation splits a list into two parts whose multisets add up to the list |
| Seqs.FirstIndex | src/visualizer.py:40-43 | a `for ... break` search: the index found satisfies the test and no earlier index does; none is found iff no element satisfies it |
| Seqs.IndexOr | app.py:245-248 | `list.index`, with a fallback when the item is absent: the item's first position, or the fallback |
| Text.IndexOfSpec | src/copilot.py:95-98 | the index found is the first occurrence of the pattern; none is found iff the pattern does not occur |
| Text.ContainsIff | src/copilot.py:95 | `sep in text` holds iff the pattern occurs at some position |
| Text.Split | src/copilot.py:96-98 | `text.split(sep)` always has at least one piece |
| Text.SplitPieces | src/copilot.py:96-98 | `text.split(sep)[0]` is the text before the first separator; a second piece exists iff the separator occurs; that piece is the text between the first and second separators |
| Text.PrefixBeforeFirstLacks | src/copilot.py:96-98 | the piece before the first separator does not contain the separator |
| Text.Strip | src/copilot.py:99 | the result is a slice `s[a..b]` of the input with only whitespace before `a` and after `b`; it neither starts nor ends with whitespace, and contains no substring the input lacks |
| Text.Lower | src/analysis.py:43 | `col.lower()` keeps the length and lower-cases each character on its own |
| Text.StripIdempotent | src/copilot.py:99 | stripping twice gives the same result as stripping once |
| Text.NatToStringRoundTrip | src/analysis.py:87 | reading back the decimal rendering of a count gives the count |
| Analysis.NatToStringInjective | src/analysis.py:87 | distinct counts render as distinct text |
| Frames.ColumnOf | src/analysis.py:45 | `df[col]` finds the column with that name; with unique names it is the only one |
| Frames.WithRows | app.py:309-320 | selecting rows keeps the columns and keeps the frame rectangular |
| Loader.ChooseReader | src/loader.py:10-15 | the CSV reader iff the name ends in `.csv`; the Excel reader iff it ends in `.xlsx`; no reader iff neither |
| Loader.SuffixesExclusive | src/loader.py:10-13 | no name ends with both `.csv` and `.xlsx`, so the branch order does not matter |
| Loader.DropEmptyRows | src/loader.py:17-18 | every copy of a row with at least one value survives and no copy of an all-empty row does, in order |
| Loader.DropKeepsValuedRows | src/loader.py:18 | rows that all hold a value come back unchanged, in the same order |
| Loader.DropEmptyRowsIdempotent | src/loader.py:18 | dropping empty rows twice gives the same result as dropping them once |
| Loader.LoadData | src/loader.py:4-22 | an unsupported suffix gives no frame and no message; a reader failure gives no frame and the "Error loading file: " message; a successful read gives that frame with the same columns and, in order, every copy of each row that has a value and none of an all-empty row |
| Loader.UnsupportedIgnoresReaders | src/loader.py:14-15 | for an unsupported suffix the readers are never consulted |
| Loader.LoadKeepsShape | src/loader.py:17-19 | a loaded frame keeps the reader's columns and is still well formed |
| Visualizer.FormatNumber | src/visualizer.py:4-9 | suffix M iff above 1,000,000; K iff above 1,000 and not above 1,000,000; none otherwise; scaled times unit gives back the number |
| Visualizer.SuffixMonotone | src/visualizer.py:4-9 | a larger number never gets a smaller suffix |
| Visualizer.Primary | src/visualizer.py:18 | the primary metric exists iff there are KPIs, and it is the first one |
| Visualizer.RankingColumn | src/visualizer.py:50-56 | the ranking column is categorical; it is the first wide column whenever that one is truthy |
| Visualizer.Groups | src/visualizer.py:59 | a ranking bar has at most 8 groups, and no more than the column's distinct values |
| Visualizer.GenerateDashboardCharts | src/visualizer.py:11-85 | at most six charts, with kinds in strictly increasing step order (so no kind appears twice) |
| Visualizer.DashboardMembers | src/visualizer.py:31-83 | a chart is on the dashboard iff the step of its kind drew it |
| Visualizer.DashboardKindOf | src/visualizer.py:31-83 | one chart of each kind is on the dashboard iff its own step produced it |
| Visualizer.DashboardKinds | src/visualizer.py:31-83 | every chart on the dashboard comes from the step of its kind |
| Visualizer.TrendChart | src/visualizer.py:31-36 | a trend line appears iff the primary metric is truthy and a date column exists; it plots that metric over the first date column |
| Visualizer.CompositionChart | src/visualizer.py:38-47 | a pie appears iff a 2-to-8-valued categorical column was found and the primary metric is truthy; it splits by the first such column |
| Visualizer.RankingChart | src/visualizer.py:49-62 | a ranking bar appears iff a ranking column was chosen and the primary metric is truthy; it has at most 8 bars |
| Visualizer.PieAndRankingDiffer | src/visualizer.py:39-56 | the pie and the ranking bar never split by the same column |
| Visualizer.RelationshipAndDistribution | src/visualizer.py:64-73 | a scatter appears iff there are two KPIs and plots the first two; a histogram appears iff the primary metric is truthy |
| Visualizer.SecondaryChart | src/visualizer.py:75-83 | a secondary bar appears iff there are at least two categorical columns and the second one is neither the pie column nor the ranking column; it splits by that column and counts at most 8 of its values |
| Visualizer.NoKpiDashboard | src/visualizer.py:18-85 | without KPIs only the secondary bar can appear; without KPIs or categorical columns the dashboard is empty |
| Visualizer.PieColumn | src/visualizer.py:38-43 | the pie column is the first categorical column with 2 to 8 distinct values; there is none iff no categorical column has that many |
| Visualizer.PieColumnFound | src/visualizer.py:39-43 | a pie column is found iff some categorical column has 2 to 8 distinct values |
| Visualizer.WideColumnFound | src/visualizer.py:50-54 | a wide column is found iff some categorical column has more than 8 distinct values |
| Visualizer.BlankFreeComposition | src/visualizer.py:39-47 | if no column name is empty, a pie appears iff there are KPIs and some categorical column has 2 to 8 values |
| Visualizer.BlankFreeRanking | src/visualizer.py:50-62 | if no column name is empty, a ranking bar appears iff there are KPIs and either a wide column exists, or no pie column exists and there are categorical columns |
| Copilot.CleanCodeBlock | src/copilot.py:93-99 | the extracted code never contains a triple backtick and has no surrounding whitespace |
| Copilot.CleanFenceFree | src/copilot.py:99 | text without a fence comes back stripped |
| Copilot.CleanIdempotent | src/copilot.py:93-99 | cleaning cleaned code changes nothing |
| Copilot.CleanBareFence | src/copilot.py:97-98 | for a reply with a fence but no python fence, the code is the stripped text between the first two fences |
| Copilot.CleanPythonBlock | src/copilot.py:95-96 | for a reply with a python fence and no four backticks in a row anywhere after that fence, the code is the stripped text between the python fence and the next fence |
| Copilot.CleanPythonBlockOverlap | src/copilot.py:95-96 | when a python fence follows five backticks, `split` finds the earlier overlapping python fence, so the code keeps two backticks; the next fence alone would give less |
| Copilot.ExecuteGeneratedCode | src/copilot.py:73-91 | an exception gives "Error executing code: " followed by its text; a missing `result` gives the fixed message; otherwise the result's text |
| Copilot.GetApiClient | src/copilot.py:13-24 | there is a client iff the key is set and non-empty and construction succeeds; the client carries that key |
| Copilot.AttemptAnswer | src/copilot.py:150-176 | an attempt that raised answers with its numbered error message; the answer is code iff the reply text holds a fence, and then it is the cleaned code with its execution |
| Copilot.PythonReplyRunsBlock | src/copilot.py:95-96 | for a python-fenced reply with no four backticks in a row after the python fence, the code run is the stripped text between the python fence and the next fence, and an exception in it gives "Error executing code: " followed by its text |
| Copilot.AttemptAnswerCases | src/copilot.py:152-176 | a reply with a fence gives a code answer holding the cleaned code and its execution; one without a fence gives the text; a raised error gives the attempt-numbered message |
| Copilot.CopilotReply | src/copilot.py:143-178 | the reply to the first attempt answers unless it failed transiently; after one transient failure the second reply answers; after two the third answers, whatever it is |
| Copilot.CallsFrom | src/copilot.py:146-176 | starting from attempt k, the loop makes between k+1 and 3 calls |
| Copilot.CallsFromStops | src/copilot.py:170-176 | the loop makes exactly `calls` calls when every earlier call failed transiently and the last one did not, or the last one was the third |
| Copilot.CountCalls | src/copilot.py:143-178 | the loop makes 1 to 3 calls; every call but the last failed with a 503 or 429; the last did not, unless it was the third; the final fallback line is unreachable |
| Copilot.Consult | src/copilot.py:143-178 | the answer is that of the last call, made after exactly as many calls as the reference count |
| Copilot.ConsultAgrees | src/copilot.py:146-176 | the counting loop agrees with the recursive reference count |
| Copilot.ThirdTransientReported | src/copilot.py:171-176 | three transient failures make three calls and report the third error with "Attempt 3/3" |
| Copilot.AskCopilotAsWritten | src/copilot.py:111-178 | without a client: the missing-key message and no call; with a client but no data: `df.dtypes` raises before any call; with data: the reply of the retry loop |
| Copilot.AskCopilot | src/copilot.py:111-178 | as written, except that a client without data answers "No data available." without calling the model |
| Copilot.AskCopilotWithKey | src/copilot.py:13-24 | from the environment on: a missing or empty key, or a client that fails to build, gives the missing-key message with no model call, whatever the model would reply |
| Session.InitialConsistent | app.py:30-52 | the state of the first run (no frame, no classification, no file name) satisfies the invariant that the frame and its classification are set together and match |
| Session.UploadFile | app.py:769-786 | a repeated file name changes nothing; a failed load keeps the state and reports the loader's message; a successful load replaces the frame and its classification, records the name and resets the dashboard; other fields are untouched |
| Session.UploadPreservesConsistent | app.py:773-779 | an upload keeps the frame and its classification together and consistent |
| Session.UploadIdempotent | app.py:773 | the rerun after an upload changes nothing |
| Session.UnsupportedUploadIgnored | app.py:769-786 | a file that is neither `.csv` nor `.xlsx` leaves the state as it was, with no message |
| Session.InitialPaired | app.py:51-52 | the history starts as the greeting alone |
| Session.ExchangeKeepsPairing | app.py:1218-1229 | a question followed by its answer keeps the history alternating |
| Session.HandleInput | app.py:1218-1229 | an empty input changes nothing; otherwise the question and its answer are appended and the input is cleared; the pairing is kept; the model is called at most 3 times, and only with a client and data |
| Session.HandleInputAsWritten | app.py:1218-1229 | the callback raises iff the input is non-empty, a client exists and no frame is loaded; then the history ends on the question and the input stays |
| Session.UnansweredQuestionBreaksPairing | app.py:1222-1225 | a question left without an answer breaks the alternation |
| Navigation.HandleNav | app.py:21-27 | a listed `nav` parameter opens its page and clears the parameters; anything else changes nothing |
| Navigation.HandleNavIdempotent | app.py:21-27 | handling the parameter a second time changes nothing |
| Navigation.NavChangesPageOnlyToListed | app.py:21-27 | the page only ever changes to the listed page named by `nav` |
| Navigation.MenuIndex | app.py:242-248 | the menu position of a listed page is that page; an unlisted page gets position 0 |
| Navigation.MenuIndexRoundTrip | app.py:242-248 | each menu entry maps back to its own position |
| Navigation.NavPagesInMenu | app.py:242-248 | every page `nav` can open is in the menu, and none is at position 0 |
| ManualBuilder.ColumnOptions | app.py:1374-1376 | the options are "None" followed by the column names, in order |
| ManualBuilder.Shown | app.py:1383-1394 | a select box shows the stored choice if it is an option, and the first option otherwise |
| ManualBuilder.ManualCanvas | app.py:1433-1442 | a chart is drawn iff both shown axes are columns; its kind is one of the four; the colour is set iff a colour column is shown |
| ManualBuilder.StaleAxisShowsPlaceholder | app.py:1378-1442 | a stored axis that is no longer a column falls back to "None", and nothing is drawn |
| ManualBuilder.ChosenColumnsArePlotted | app.py:1378-1442 | two stored columns are plotted with the stored kind, or as a scatter when the kind is unknown |
| ManualBuilder.InitialCanvasEmpty | app.py:43-50 | the initial choices draw nothing |
| DashboardView.DashboardScreen | app.py:1478-1527 | no frame gives the warning; not generated gives the builder card; with a valid focus, the chart in focus; without focus, the grid when no tiled KPI is a timedelta column, and otherwise the TypeError of the first such tile |
| DashboardView.GridView | app.py:1523-1527 | the tiles render in order; the first timedelta column among them raises TypeError in `format_number`'s comparison (src/visualizer.py:5), and with none the grid appears |
| DashboardView.GridTiles | app.py:1523-1527 | with no timedelta numerical column the grid appears; the grid shows min(3, number of numerical columns) KPI tiles, each a numerical column; a tile error names a timedelta numerical column |
| DashboardView.TimedeltaTileRaises | app.py:1523-1527 | with at most three numerical columns, any timedelta one among them gets a tile, so the grid page raises |
| DashboardView.EnlargeThenBack | app.py:1511-1541 | Enlarge on chart i shows chart i; Back shows the grid again |
| DashboardView.LayOutGrid | app.py:1532-1539 | the grid rows hold chart indices 0..n-1 in order, three per row, with only the last row shorter |
| Filters.Days | app.py:297-299 | the days of the date column are exactly the coerced values that are not NaT |
| Filters.Min | app.py:298 | the minimum is a day of the column and no later than any other |
| Filters.Max | app.py:299 | the maximum is a day of the column and no earlier than any other |
| Filters.DateFiltered | app.py:294-310 | the date filter keeps the columns and the row order; it changes nothing without a date column or when every date is NaT; otherwise it keeps every copy of each row whose day lies in the range and no copy of any other row |
| Filters.DefaultRangeHoldsDays | app.py:298-310 | every row whose date coerces lies within the default range from the earliest to the latest day, and no NaT row does |
| Filters.DefaultRangeDropsOnlyNaT | app.py:298-310 | at the default range the filter drops every copy of each NaT row and keeps every copy of each other row |
| Filters.SortedSmall | app.py:313-314 | a permutation of the categorical columns with fewer than 50 values, each keyed by its `nunique`, in ascending order of `nunique` |
| Filters.FilterColumns | app.py:313-316 | three filter columns, or all of the eligible ones when there are fewer; each is categorical with fewer than 50 values |
| Filters.FilterColumnsKeepTieOrder | app.py:313-316 | ties keep column order: among the columns with any one `nunique`, the filter columns are the first such categorical columns, in order |
| Filters.SortedSmallDistinct | app.py:313-314 | distinct categorical columns give distinct sorted entries |
| Filters.FilterColumnsDistinct | app.py:313-316 | distinct categorical columns give distinct filter columns |
| Filters.FilterColumnsAscending | app.py:314-316 | the filter columns come in ascending order of `nunique` |
| Filters.FilterColumnBeats | app.py:313-316 | an eligible column left out has at least as many values as any filter column |
| Filters.FilterColumnsAreSmallest | app.py:313-316 | the three filter columns have the fewest values among the eligible columns |
| Filters.FilterStep | app.py:316-320 | each multiselect narrows the frame to the rows whose text is selected, or leaves it whole when nothing is selected |
| Filters.EmptySelectionPasses | app.py:319 | an empty selection filters nothing |
| Filters.ApplySelections | app.py:316-320 | the result keeps, in order, every copy of each row that passes every non-empty selection and no copy of any other row; with no selection it is the frame itself |
| Filters.SelectionStep | app.py:317-320 | one pass of the loop keeps the columns, the row order and every copy of each row passing the first k+1 selections; an empty selection leaves the frame as it is |
| Filters.EmptySelectionCounts | app.py:319 | an empty selection keeps every copy of every row it is given |
| Filters.FilterStepCounts | app.py:319-320 | one multiselect keeps every copy of a row that passes it and the earlier ones, and no copy of any other row |
| Filters.DisplayFrame | app.py:284-320 | off the Dashboard page the frame is shown whole; on it, the date filter runs first and then the selections, each keeping the columns, the row order and every copy of a row it keeps |

## Left out

- Page layout, CSS and HTML, plotly figures and their styling, chart titles, and the aggregated values in the charts (`groupby(...).sum()`, `value_counts`). Charts are modelled by kind and columns. Of the ranking bar, only its group count is modelled.
- Visualizer.FormatNumber: models the threshold choice and the scaling. It does not model rounding to two decimals or the rendering of floats.
- The KPI tile values (`df[col].sum()`). An int64 column sums to an integer and a float column to a float; only whether the tile raises is modelled.
- Frames.Dtype: complex columns are folded into `Numeric`, so their tile is treated like a real number's; what `format_number` does with a complex sum is not modelled.
- `@st.cache_data` on `load_data`. Caching does not change the result.
- `st.toast`, `st.rerun`, `st.spinner` and the other Streamlit calls with no effect on the data.
- `demo_data.py` and `test_imports.py`. They are not part of the app's logic.
- `analyze_dependencies` and `calculate_correlations`. They depend on scikit-learn model fitting and floating-point statistics.
- `prepare_context`, apart from its "No data available." text. It renders pandas statistics, and `ask_copilot` does not call it.
- The Auto Exploration page. It only renders pandas and plotly output.
- The Gemini model, `exec` and `pd.to_datetime` are oracles. Their behaviour is a parameter, not modelled.
- The back-off sleep and its random jitter in `ask_copilot`. Sleeping changes no result.
- The `print` debug lines. They only write to the console.
- Filters.DateFiltered: the range compares whole days. The `.dt.date` truncation of a time of day is folded into the `parse` oracle.
- The in-place coercion of the date column in the displayed frame (app.py:297). This makes NaT cells display differently. The model keeps the cell text.
- Frames.NUnique: counts distinct cell texts, while pandas' `nunique` counts distinct values. The two differ for an object column whose values print alike but are unequal (the number `1` and the text `"1"`: pandas 2, the model 1) or are equal but print differently (`True` and `1`, or `0.0` and `-0.0`: pandas 1, the model 2). Cell values are modelled only by their text, so that difference is not represented; it reaches the pie window, the wide-column test, the score bonus and the filters' limit of 50.
- Text.Lower: lower-cases ASCII letters only. Python's full Unicode case mapping is not modelled.
- Analysis.ParsesAsDates: `parse` is applied to each value on its own. pandas 2 infers one format from the first value and applies it to the whole column, so a column of mixed but individually parsable formats can raise where the model reports a date column. The format inference is not modelled; the oracle is per value.
- Analysis.Score: column names are strings. A non-string label (an integer header, say) makes `col.lower()` raise at src/analysis.py:43, which the model does not represent.
- Filters.DateFiltered: `range` is always a full start and end pair. While the user has picked only a start date, `st.date_input` returns a one-element tuple and the unpacking at app.py:302 raises `ValueError`; that transient crash is not modelled.
- Session.UploadFile: the `except` branch of the upload handler (app.py:785-786) is not modelled. In the model, neither `load_data` nor the classification raises.
- The app sets no limit on the number of Copilot questions, so the model has none.

## Findings

| source | as written | input that shows it | evidently intended | confidence | as-written member | corrected member |
|---|---|---|---|---|---|---|
| src/copilot.py:116 | `ask_copilot` evaluates `str(df.dtypes)` as soon as a client exists, even when no frame is loaded. `handle_input` (app.py:1218-1229) has already appended the question, so the exception leaves it unanswered and the input box keeps it. | A Gemini key is set, no file has been uploaded, and the user sends "Hello" on the Data Copilot page | A reply such as "No data available." (the text `prepare_context` uses for a missing frame), so every question gets an answer | not executed | Session.HandleInputAsWritten | Session.HandleInput |
