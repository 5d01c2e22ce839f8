# Equipment analytics dashboard — a verified model

The dashboard takes a CSV file of plant equipment and shows it three ways:
- a web client (React and TypeScript);
- a REST backend (Django REST Framework and pandas);
- a desktop client (Qt for Python).

This project models the logic in those three that is more than presentation, in Dafny, and proves what that logic promises.

Web client:
- `calculateSummary` and the demo-data generators (`mock_data.dfy`). A list of records becomes a count, rounded means and three category counts.
- The record table's search filter, column sort, pagination and page buttons (`data_table.dfy`).
- The page's session state and its handlers for the initial load, an upload, and a click on a history entry, in demo and in connected mode (`index_page.dfy`).
- The stat cards and the operational rate (`stats_cards.dfy`).
- The upload box's `.csv` check and drag state (`csv_uploader.dfy`).
- The API client's mode switch, URLs and status checks (`api.dfy`).

Backend:
- The `create` view's summary JSON: normalised column names, the averages of the numeric columns with a guaranteed `cost` key, and two value counts.
- The latest-dataset view, the PDF report's data table, and the records view with its error answers (`backend_views.dfy`).
- The serializer's display file name (`serializers.dfy`).

Desktop client:
- The stat-card row built by `update_dashboard`: the skipped metrics, de-duplication by a simplified key, titles and cycling colours.
- The history table filled by `load_history_data` (`desktop_dashboard.dfy`).

Shared modules:
- `common.dfy`: `Option`, `Result`, `Min`, `Max`.
- `text.dfy`: the string operations the sources use (ASCII case mapping, Python `strip`, `replace`, substring search, `endsWith`, `split('/')[-1]`, decimal rendering and a lexicographic comparison).
- `numbers.dfy`: JavaScript's `Math.round` on an exact quotient.
- `equipment.dfy`: the record, summary and history types of `src/types/equipment.ts`.

## How numbers, randomness and I/O are modelled

**Numbers**
- Every number the web client handles is a decimal with at most one fractional digit: costs and runtimes are whole, and efficiency ratings carry one decimal. So a JavaScript number is held exactly as an integer count of tenths.
- `Math.round(a / n)` is `RoundHalfUp(a, n)`: the integer `q` with `2nq - n <= 2a < 2nq + n`.
- A mean over no records is `NaN`, as in JavaScript.
- pandas means are exact reals, or `AvgNaN` when a column has no values.

**Randomness, clocks and parsing**
- Each `Math.random()` draw is a parameter of type `Unit` (a real in [0, 1)).
- Timestamps, generated ids and formatted dates are parameters.
- Parsing a CSV file (PapaParse, `pd.read_csv`) is a parameter of type `Result`: a frame or an error message.
- Date parsing in the desktop history table is a parameter `parse: string -> Option<string>`.

**Network**
- Every response a handler receives is a parameter. For the web client's checked calls, a failed call is a `Failure`.

**Sorting**
- `localeCompare` is a code-point lexicographic comparison, not the browser's collation (see "## Left out").
- `Array.prototype.sort` is a stable insertion sort. It is specified by the three facts that fix a stable sort: it permutes, it orders, and equal keys keep their order.

### Behaviour of the code worth knowing

- `calculateSummary` divides by `records.length` with no guard (src/services/mockData.ts:44-50). For no records all three means are `NaN`. See `MockData.SummaryOfNothing`.
- The connected upload commits its steps one at a time (src/pages/Index.tsx:110-143). It first shows the new records, summary and file name. If the history fetch then fails, the history, selection and tab stay as they were. See `IndexPage.Dashboard.HandleDataLoadedConnected`.
- The summary type declares a `manufacturer_distribution` (src/types/equipment.ts:28). Only the generated summaries of the web client have one; the backend summary never carries that key (backend/api/views.py:39-64).
- The backend `averages` object holds the mean of every numeric column, plus `cost` (backend/api/views.py:47-57). It is not limited to cost, efficiency and runtime.
- The PDF report takes as its cost column the first column of any type whose name contains "cost", and averages it outside any `try` (backend/api/views.py:162-163). When that column holds at least one text value, pandas raises and the request ends in a server error; a text column without values (a file with a header and no rows) has a NaN mean and the report is built. See `BackendViews.PdfExport`.

## Model

| member | source | states |
|---|---|---|
| MockData.CalculateSummary | src/services/mockData.ts:26-55 | the one-pass loop returns exactly the summary `Summarize(records)`; `total_count` is the number of records; the counts of each of the three distributions add up to the number of records |
| MockData.HistogramCounts | src/services/mockData.ts:35-38 | a category value is a key of the counting map exactly when some record has it, and its count is the number of records that have it |
| MockData.HistogramSum | src/services/mockData.ts:35-38 | the counts of a counting map add up to the number of records counted |
| MockData.SummaryDistributions | src/services/mockData.ts:44-54 | in the returned summary, each distribution has a key exactly for the values that occur (never a key with count 0), with the number of occurrences, and its counts sum to `total_count` |
| MockData.SummaryMeans | src/services/mockData.ts:46-50 | for at least one record, the cost and runtime means are whole numbers, the half-up rounding of total/n, and the efficiency mean is total/n rounded half up to tenths |
| MockData.WholeMeanRounds | src/services/mockData.ts:47 | `Math.round(total / n)` for n > 0 is a whole number, the nearest integer to the exact quotient with halves rounded up |
| MockData.TenthsMeanRounds | src/services/mockData.ts:48 | `Math.round(total / n * 10) / 10` for n > 0 is the exact quotient rounded half up to a whole number of tenths |
| MockData.SummaryOfNothing | src/services/mockData.ts:44-54 | with no records the count is 0, the three distributions are empty and every mean is NaN |
| MockData.MeanWithinBounds | src/services/mockData.ts:47-49 | a rounded mean of values that all lie in [lo, hi] lies in [lo, hi] |
| MockData.SummaryExample | src/services/mockData.ts:26-55 | two pumps, one operational costing 1000 and one faulty costing 3000, give count 2, `{Pump: 2}`, `{operational: 1, faulty: 1}` and a mean cost of 2000 |
| MockData.Scale | src/services/mockData.ts:13-22 | `Math.floor(Math.random() * k)` is an index below k |
| MockData.Pick | src/services/mockData.ts:13-19 | picking with a random index yields a member of the list |
| MockData.EfficiencyTenths | src/services/mockData.ts:21 | the generated efficiency rating lies in [70.0, 100.0] |
| MockData.MockIdRoundTrip | src/services/mockData.ts:11-12 | the id at index i is "EQ-" followed by digits that read back as i + 1, seven characters long while i + 1 has at most four digits |
| MockData.MockIdsDistinct | src/services/mockData.ts:11-12 | records at different indexes get different ids |
| MockData.MockRecordsShape | src/services/mockData.ts:4-24 | `generateMockRecords(n)` returns n records (none for a negative n); record i has id = equipment_id = the id of index i, a cost in [5000, 54999], a runtime in [1000, 15999], an efficiency in [70.0, 100.0], one of the four statuses, and a type, manufacturer and location from the fixed lists |
| MockData.MockMeansWithinBounds | src/services/mockData.ts:4-24 | the rounded means over generated records stay within the generator's cost, runtime and efficiency bounds |
| MockData.MockHistoryShape | src/services/mockData.ts:57-76 | the demo history has five entries, "upload-1" to "upload-5", with the five demo file names; each entry's record count equals its summary's total count and lies in [30, 129] |
| MockData.MockHistoryIdsDistinct | src/services/mockData.ts:69 | the demo history ids are pairwise different |
| Numbers.RoundHalfUp | src/services/mockData.ts:47-49 | the result is the integer nearest to a / n, with halves rounded up |
| Numbers.RoundHalfUpUnique | src/services/mockData.ts:47-49 | only one integer is the half-up rounding of a quotient |
| Numbers.RoundHalfUpBounds | src/services/mockData.ts:47-49 | rounding a quotient that lies between lo and hi gives a result between lo and hi |
| Text.PadStart | src/services/mockData.ts:11 | `padStart` makes a string of length max(|s|, width): fill characters, then s |
| Text.NatToStringRoundTrip | src/services/mockData.ts:11 | `String(n)` reads back as n |
| Text.ContainsSpec | src/components/dashboard/DataTable.tsx:43 | `includes` holds exactly when the substring occurs at some position |
| Text.CompareAntisymmetric | src/components/dashboard/DataTable.tsx:56-58 | swapping the operands of the string comparison negates its result |
| Text.CompareZeroIffEqual | src/components/dashboard/DataTable.tsx:56-58 | the string comparison ties exactly equal strings |
| Text.CompareTransitive | src/components/dashboard/DataTable.tsx:56-58 | the string comparison is transitive |
| DataTable.FieldKind | src/components/dashboard/DataTable.tsx:49-52 | a sort column holds numbers in every record exactly when it is cost, efficiency or runtime |
| DataTable.FilterCounts | src/components/dashboard/DataTable.tsx:41-45 | the filter keeps every copy of a matching record and no copy of any other |
| DataTable.FilterWithKey | src/components/dashboard/DataTable.tsx:37-45 | filtering and picking out the records with one key commute, so the filter moves no record |
| DataTable.SearchFilterOrder | src/components/dashboard/DataTable.tsx:37-45 | the search keeps the relative order of the records it keeps: for every key, the kept records with that key are the search of the records with that key |
| DataTable.SearchFilterSpec | src/components/dashboard/DataTable.tsx:37-45 | an empty search returns the records unchanged; a non-empty one keeps exactly the records some value of which, rendered and lower-cased, contains the lower-cased search, with their multiplicities |
| DataTable.DescendingSwaps | src/components/dashboard/DataTable.tsx:52-58 | descending order compares the operands the other way round |
| DataTable.KeyCompareAntisymmetric | src/components/dashboard/DataTable.tsx:48-59 | the comparator is antisymmetric, for numbers and for strings, in both directions |
| DataTable.KeyCompareZero | src/components/dashboard/DataTable.tsx:48-59 | the comparator ties two records exactly when they hold the same value in the sort column |
| DataTable.KeyCompareTransitive | src/components/dashboard/DataTable.tsx:48-59 | the comparator is transitive, so it is a total preorder on records |
| DataTable.InsertPermutes | src/components/dashboard/DataTable.tsx:48 | inserting a record adds exactly that record |
| DataTable.SortPermutes | src/components/dashboard/DataTable.tsx:48 | sorting neither adds nor drops a record |
| DataTable.InsertOrdered | src/components/dashboard/DataTable.tsx:48-59 | inserting into an ordered list keeps it ordered |
| DataTable.SortOrdered | src/components/dashboard/DataTable.tsx:48-59 | the sorted list is ordered by the comparator: every record sorts no later than every record after it |
| DataTable.WithKeyCons | src/components/dashboard/DataTable.tsx:48 | selecting the records with one key distributes over a leading record |
| DataTable.InsertWithKey | src/components/dashboard/DataTable.tsx:48 | inserting a record puts it in front of the records of the list that share its key; since the sort inserts each head into its sorted tail, equal keys keep their input order |
| DataTable.SortStable | src/components/dashboard/DataTable.tsx:48 | records with equal keys keep their input order |
| DataTable.QuerySpec | src/components/dashboard/DataTable.tsx:36-62 | the filtered table is a permutation of the search result (of all the records for an empty search), ordered by the chosen column and direction, and stable |
| DataTable.TotalPages | src/components/dashboard/DataTable.tsx:64 | the page count is the least k with 10k >= n |
| DataTable.Slice | src/components/dashboard/DataTable.tsx:65 | `slice` clamps both bounds to the length and is the subsequence when the bounds are in range |
| DataTable.PageOf | src/components/dashboard/DataTable.tsx:65 | a page has at most ten rows |
| DataTable.FirstPagesPrefix | src/components/dashboard/DataTable.tsx:64-65 | the first k pages, one after the other, are the first 10k records |
| DataTable.PagesCoverList | src/components/dashboard/DataTable.tsx:28-65 | a page below the page count is the slice [10p, min(n, 10p+10)), a later page is empty, and the pages in order make up the whole list |
| DataTable.NextPageIndex | src/components/dashboard/DataTable.tsx:181 | the next page is page + 1, held at the last page, and always below the page count |
| DataTable.PrevPageIndex | src/components/dashboard/DataTable.tsx:173 | the previous page is page − 1, held at 0 |
| DataTable.SortToggle | src/components/dashboard/DataTable.tsx:67-74 | a click on the sort column flips the direction; a click on another column selects it ascending |
| DataTable.SortToggleTwice | src/components/dashboard/DataTable.tsx:67-74 | two clicks on the sort column restore its direction |
| DataTable.StatusStyleSpec | src/components/dashboard/DataTable.tsx:21-26 | the four statuses get four different badge styles; any other status is drawn like "retired" (the fallback at line 139) |
| DataTable.TableState.constructor | src/components/dashboard/DataTable.tsx:31-34 | empty search, sorted by equipment id ascending, first page |
| DataTable.TableState.HandleSort | src/components/dashboard/DataTable.tsx:67-74 | the sort column and direction become the toggle of the clicked column; search and page are unchanged |
| DataTable.TableState.OnSearchChange | src/components/dashboard/DataTable.tsx:104-107 | typing sets the search and returns to the first page; the sort is unchanged |
| DataTable.TableState.PrevPage | src/components/dashboard/DataTable.tsx:173 | the page becomes the previous page index; nothing else changes |
| DataTable.TableState.NextPage | src/components/dashboard/DataTable.tsx:181 | the page becomes the next page index, below the page count; nothing else changes |
| DataTable.TableState.View | src/components/dashboard/DataTable.tsx:36-65 | the shown rows are the current page of the filtered and sorted records, the count is the number of records passing the search, and the page count is its ceiling over ten |
| IndexPage.FindById | src/pages/Index.tsx:147 | `find` returns the first history entry with the id, and nothing exactly when no entry has it |
| IndexPage.PrependHistory | src/pages/Index.tsx:95 | the new history is the new entry followed by the first (at most four) previous entries in order, so it has at most five entries |
| IndexPage.Dashboard.constructor | src/pages/Index.tsx:19-25 | no records, no summary, empty history, nothing selected, empty file name, not loading, charts tab |
| IndexPage.Dashboard.InitialLoadMock | src/pages/Index.tsx:31-43 | the history is the generated demo history; its first entry is selected, its stored summary shown, and records are generated to its record count; the demo invariant holds |
| IndexPage.Dashboard.InitialLoadConnected | src/pages/Index.tsx:44-68 | a fetched history replaces the history; records, summary, selection and file name come from its first entry when it has one and both fetches succeed, and otherwise stay as they were |
| IndexPage.Dashboard.HandleDataLoadedMock | src/pages/Index.tsx:71-109 | a parse error changes nothing but ends loading; a parsed file shows its records and their summary, prepends a history entry with that record count and summary, selects it and opens the charts tab; the demo invariant is preserved |
| IndexPage.Dashboard.HandleDataLoadedConnected | src/pages/Index.tsx:110-143 | a failed upload or records fetch changes nothing but ends loading; otherwise records, summary and file name are shown; history, selection and tab change only when the history fetch succeeds |
| IndexPage.Dashboard.HandleSelectDatasetMock | src/pages/Index.tsx:146-171 | an unknown id changes nothing; a known id gets fresh records to its entry's record count with their summary, and is selected with its file name; the demo invariant is preserved |
| IndexPage.Dashboard.HandleSelectDatasetConnected | src/pages/Index.tsx:146-171 | an unknown id changes nothing; a known id is selected with its file name even when a fetch fails; records and summary change only when both fetches succeed |
| StatsCards.BuildStats | src/components/dashboard/StatsCards.tsx:28-68 | the total card comes first; a cost card exactly when the cost average is present (0 and NaN included); efficiency and runtime cards exactly when their averages are neither missing, 0 nor NaN; the cards are in the fixed order, at most four |
| StatsCards.CardsInRankOrder | src/components/dashboard/StatsCards.tsx:28-68 | the conditional pushes give between one and four cards in strictly increasing rank |
| StatsCards.CardsPresent | src/components/dashboard/StatsCards.tsx:30-68 | each kind of card is in the list exactly when its condition holds, carrying the summary's value |
| StatsCards.StatusCount | src/components/dashboard/StatsCards.tsx:23-26 | a missing status key counts as 0, a present one as its count |
| StatsCards.OperationalRate | src/components/dashboard/StatsCards.tsx:23-25 | the rate is 0 without records, otherwise 100 · operational / total rounded half up; it is never negative, and at most 100 while the operational count does not exceed the total |
| StatsCards.PercentBounds | src/components/dashboard/StatsCards.tsx:25 | a rounded percentage of a part of a whole lies in [0, 100] |
| StatsCards.RateOfSummarizedRecords | src/components/dashboard/StatsCards.tsx:23-26 | for a summary of records, the rate is the rounded share of operational records, in [0, 100], and the faulty count is the number of faulty records |
| StatsCards.Render | src/components/dashboard/StatsCards.tsx:10-68 | without a summary, four placeholders; with one, one to four cards: the total card first, then in the fixed order the cost card exactly when the cost average is present (0 and NaN included), and the efficiency and runtime cards exactly when their averages are neither missing, 0 nor NaN |
| CsvUploader.IsCsvNameSpec | src/components/dashboard/CSVUploader.tsx:19 | a name is accepted exactly when it is some string followed by ".csv" |
| CsvUploader.IsCsvNameExamples | src/components/dashboard/CSVUploader.tsx:19 | the check is case-sensitive and looks only at the end of the name |
| CsvUploader.DragActiveAfter | src/components/dashboard/CSVUploader.tsx:34-38 | dragenter and dragover switch the highlight on, dragleave switches it off, any other event leaves it |
| CsvUploader.FirstFile | src/components/dashboard/CSVUploader.tsx:52 | the first file exists exactly when there is a non-empty file list |
| CsvUploader.Uploader.constructor | src/components/dashboard/CSVUploader.tsx:14-16 | no highlight, no error, no file name, nothing handed off |
| CsvUploader.Uploader.ProcessFile | src/components/dashboard/CSVUploader.tsx:18-29 | a rejected name sets the error and keeps the file name and the hand-offs; an accepted file clears the error, becomes the file name and is handed off exactly once with its own name |
| CsvUploader.Uploader.HandleDrag | src/components/dashboard/CSVUploader.tsx:31-39 | only the highlight changes, as `DragActiveAfter` says |
| CsvUploader.Uploader.HandleDrop | src/components/dashboard/CSVUploader.tsx:41-49 | the highlight goes off and only the first dropped file, if any, is processed |
| CsvUploader.Uploader.HandleFileInput | src/components/dashboard/CSVUploader.tsx:51-55 | only the first selected file is processed, and no selection changes nothing |
| Api.BaseUrl | src/services/api.ts:9 | the base URL is `VITE_API_URL`, the default "http://localhost:8000/api" in mock mode (unset or empty), and `VITE_API_URL` itself otherwise |
| Api.SummaryUrlSpec | src/services/api.ts:49-52 | with a non-empty id the URL is base + "/datasets/" + id + "/", otherwise base + "/datasets/latest/" |
| Api.LatestIdAlias | src/services/api.ts:50-52 | the id "latest" addresses the same URL as no id |
| Api.RecordsUrlSpec | src/services/api.ts:81 | the records URL is base + "/datasets/" + id + "/records/" |
| Api.RecordsUrlInjective | src/services/api.ts:81 | different ids give different records URLs |
| Api.Checked | src/services/api.ts:42-46 | a non-ok response fails with the prefix and the status text; an ok one yields the body |
| Api.StatusDecisions | src/services/api.ts:30-93 | upload, history and records fail exactly on a non-ok response; the summary call returns the body's summary whatever the status |
| Serializers.GetFilename | backend/api/serializers.py:12-15 | no name for a dataset without a file; otherwise the part after the last "/", a suffix of the stored name containing no "/", and the whole name when it has no "/" |
| Serializers.GetFilenameSplits | backend/api/serializers.py:14 | the stored name is the display name, or a directory ending in "/" followed by it |
| Serializers.GetFilenameUploadDir | backend/api/models.py:4 | a file stored under `datasets/` is shown under its own name |
| Text.LastSegment | backend/api/serializers.py:14 | `split('/')[-1]` is the longest suffix without "/", preceded by "/" when shorter than the string |
| Text.SegmentLength | backend/api/serializers.py:14 | the number of trailing characters after the last "/": none of them is "/", and the character before them is "/" unless they are the whole string |
| BackendViews.ColumnNamed | backend/api/views.py:60-64 | the column of a name, present exactly when the frame has a column of that name |
| BackendViews.NormalizeNameSpec | backend/api/views.py:36 | a normalised column name has no space, no surrounding whitespace, no upper-case ASCII letter, and normalising it again changes nothing |
| BackendViews.NormalizeFrame | backend/api/views.py:36 | every column name is normalised and every column keeps its data; a well-formed frame stays well formed |
| BackendViews.MeanWithin | backend/api/views.py:49 | the mean of a column's values lies between their lower and upper bounds |
| BackendViews.DictSetSpec | backend/api/views.py:47-57 | setting a key makes it map to the value and leaves every other key; a new key goes at the end of the key order, an existing one keeps its place |
| BackendViews.DictGetPresent | backend/api/views.py:47-57 | a lookup succeeds exactly for the keys of the dict |
| BackendViews.NumericColumns | backend/api/views.py:47 | the selected columns are numeric columns of the frame |
| BackendViews.NumericColumnsComplete | backend/api/views.py:47 | a column is selected exactly when it is a numeric column of the frame |
| BackendViews.LastNamed | backend/api/views.py:48-49 | a column of that name (the only one, since column names are taken as distinct), present exactly when a column has that name |
| BackendViews.AveragesKeys | backend/api/views.py:47-49 | the averages loop gives distinct keys, exactly the names of the numeric columns |
| BackendViews.AveragesGet | backend/api/views.py:47-49 | each numeric column name maps to that column's mean |
| BackendViews.FirstCostColumn | backend/api/views.py:52-53 | the result is the column at some position whose lower-cased name contains "cost" while no column before it has such a name, and there is none exactly when no column has such a name |
| BackendViews.NumericCostAverage | backend/api/views.py:47-57 | on the frame itself: the "cost" average is the mean of the first numeric column, in frame order, whose lower-cased name contains "cost", and 0.0 when there is no such column |
| BackendViews.NumericColumnsOrder | backend/api/views.py:47 | the selected columns are the frame read at strictly increasing positions, and those positions are exactly the numeric columns |
| BackendViews.ValueCountsSpec | backend/api/views.py:60-64 | `value_counts` has a key exactly for the non-missing values of the column, each with its number of occurrences |
| BackendViews.DistributionOf | backend/api/views.py:60-64 | a distribution is empty when its column is absent |
| BackendViews.BuildSummary | backend/api/views.py:39-64 | the loop builds `SummaryOf(df)`: total count = row count; "cost" maps to the mean of the frame's first numeric column whose lower-cased name contains "cost", and to 0.0 when the frame has no such column |
| BackendViews.SummaryOfSpec | backend/api/views.py:39-64 | total count = row count; "cost" is always present, holding the mean of the frame's first numeric column whose lower-cased name contains "cost", or 0.0 when there is none; keys are distinct; any other key is present exactly for a numeric column and holds its mean; each distribution is empty without its column and otherwise counts its values |
| BackendViews.CostAveragesSpec | backend/api/views.py:47-57 | after the "cost" entry is set: "cost" holds the cost average, keys are distinct, and any other key is present exactly for a numeric column and holds the mean of the last column of that name |
| BackendViews.Create | backend/api/views.py:24-73 | failed validation answers 400 with the errors and stores nothing; otherwise the dataset is stored, its summary is that of the normalised frame, or none when the file does not read, and the answer is 201 with the serialised dataset |
| BackendViews.Latest | backend/api/views.py:84 | the latest dataset is one of the datasets, uploaded no earlier than any other |
| BackendViews.LatestView | backend/api/views.py:83-89 | 404 "No datasets found." exactly when there is no dataset, otherwise the latest one serialised |
| BackendViews.PresentTargets | backend/api/views.py:234 | exactly the target columns the frame has, no more than there are targets (their order is stated by `PresentTargetsOrder`) |
| BackendViews.PresentTargetsOrder | backend/api/views.py:233-234 | the present targets are the target list read at strictly increasing positions, and those positions are exactly the targets the frame has |
| BackendViews.PdfColumns | backend/api/views.py:233-238 | at most four columns of the frame: the present targets when some target is present, otherwise the first four columns; none only for a frame without columns |
| BackendViews.PdfColumnsOrder | backend/api/views.py:233-236 | when some target is present, the PDF columns are the target list read at strictly increasing positions, exactly those of the targets the frame has |
| BackendViews.PdfColumnsExample | backend/api/views.py:233-236 | a file with "status" before "equipment_id" gets the columns "equipment_id", "status" |
| BackendViews.TitleFrom | backend/api/views.py:242 | title-casing keeps the length |
| BackendViews.HeaderSpec | backend/api/views.py:242 | a header keeps the length of its column name, turns "_" into a space, upper-cases a letter that starts a word and lower-cases every other letter |
| BackendViews.SpacedUnitId | backend/api/views.py:242 | replacing "_" with a space in "unit_id" gives "unit id" |
| BackendViews.HeaderExample | backend/api/views.py:242 | the header of "unit_id" is "Unit Id" |
| BackendViews.BuildPdfTable | backend/api/views.py:240-254 | no table exactly for a frame without columns; otherwise one header per selected column and the selected cells of the first min(50, rows) rows, in order |
| BackendViews.PdfTableOfSpec | backend/api/views.py:240-254 | the report's table is absent exactly for a frame without columns; otherwise it has one header per selected column and, for each of the first min(50, rows) rows, that row's cells of the selected columns |
| BackendViews.PdfCostColumn | backend/api/views.py:162 | the report's cost column is the first column, of any type, whose name contains "cost", and there is none exactly when no name contains it |
| BackendViews.CostColumnOrder | backend/api/views.py:162-163 | a text "cost_center" column in front of a numeric "maintenance_cost" makes the cost mean fail; in the other order it does not |
| BackendViews.NoCostColumn | backend/api/views.py:162-163 | with no column named with "cost" the cost mean cannot fail |
| BackendViews.EmptyTextCostColumn | backend/api/views.py:162-163 | a "cost_center" text column without values is the report's cost column, and its mean does not fail |
| BackendViews.PdfExport | backend/api/views.py:111-163 | 404 when there is no dataset or the latest lacks a file or a summary (older datasets are not tried); 400 "Could not read file: …" when it does not read; a server error when the report's cost column holds at least one text value; otherwise the table of the normalised frame, absent exactly when the frame has no columns |
| BackendViews.FindDataSet | backend/api/views.py:285-288 | the dataset with the key, or none exactly when no dataset has it |
| BackendViews.RecordsView | backend/api/views.py:284-304 | 404 "Dataset not found." for an unknown key, 404 "Dataset file not found." without a file, 500 with the read error, otherwise the frame with its original column names |
| DesktopDashboard.Classify | desktop/main.py:344-356 | one classification per average, in order |
| DesktopDashboard.ClassifyIndex | desktop/main.py:345-354 | entry i is the cleaned key, the skip decision and the simplified key of average i |
| DesktopDashboard.ClassifyAll | desktop/main.py:344-356 | the loop computes exactly `Classify(items)` |
| DesktopDashboard.FirstNull | desktop/main.py:359 | the cards before the first null average are made; at the first null `float` raises |
| DesktopDashboard.SeenKeysSpec | desktop/main.py:341-356 | the seen set holds exactly the simplified keys of the averages not skipped |
| DesktopDashboard.ShownItemsSpec | desktop/main.py:344-356 | an average gets a card exactly when it is not skipped and no earlier average that was not skipped has the same simplified key |
| DesktopDashboard.ShownInSeen | desktop/main.py:355-356 | every shown simplified key is in the seen set |
| DesktopDashboard.ShownDistinct | desktop/main.py:342-356 | no shown average is a skipped metric, and the shown simplified keys are pairwise different |
| DesktopDashboard.ShownPrefix | desktop/main.py:344-356 | the cards for a prefix of the averages are a prefix of the cards for all of them |
| DesktopDashboard.NullStops | desktop/main.py:359 | a null average stops the loop: the cards are those made before it, and an error is raised |
| DesktopDashboard.TitleSpec | desktop/main.py:358 | a title keeps the key's length, turns "_" into a space, upper-cases every other character, and has no "_" and no lower-case letter |
| DesktopDashboard.AverageCardsSpec | desktop/main.py:358-361 | card i has the title of the i-th shown average and colour `colors[i mod 5]`, for a shown average that is not a skipped metric; there are at most as many cards as shown averages |
| DesktopDashboard.DashboardCardsSpec | desktop/main.py:321-365 | a null summary leaves no card; a missing one leaves only "TOTAL RECORDS" 0; otherwise the total card with the count (0 when missing) comes first, followed by the average cards |
| DesktopDashboard.ColorsCycle | desktop/main.py:360-361 | two average cards share a colour exactly when their positions agree modulo 5 |
| DesktopDashboard.IdCell | desktop/main.py:301 | the id cell is "" exactly for an absent id, "None" exactly for a null one, and otherwise the decimal digits reading back as the id |
| DesktopDashboard.HistoryFilename | desktop/main.py:314-315 | "Unknown" for a missing or empty file; otherwise a suffix of the path containing no "/" |
| DesktopDashboard.HistoryFilenameAgrees | desktop/main.py:315 | the desktop and the serializer derive the same file name from a stored path (the model's `file` field is that path) |
| DesktopDashboard.Window.constructor | desktop/main.py:325-328 | no stat cards, no history rows |
| DesktopDashboard.Window.ClearStats | desktop/main.py:325-328 | the draining loop leaves no stat card and keeps the history table |
| DesktopDashboard.Window.UpdateDashboard | desktop/main.py:321-365 | the stat row becomes `DashboardCards(field)`; an error is raised exactly for a null summary or a null average among the shown ones; the history table is unchanged |
| DesktopDashboard.Window.AddAverageCards | desktop/main.py:344-365 | the loop appends exactly the average cards and raises exactly at a shown null average |
| DesktopDashboard.Window.LoadHistory | desktop/main.py:295-317 | a failed request keeps the table; otherwise the table has one row per returned entry, in order, with its id cell (`IdCell`), date and file name |

## Left out

- LoadHistory: a null `uploaded_at` is not modelled. The code would then fail on `None.replace`, catch that in its bare `except`, and hand `None` to the table cell. The backend always sends a date, so the model takes the field as absent or a string.
- I/O, the network and authorisation: `fetch`, `requests`, the bearer token, `localStorage`, the Django ORM and routing. Every response is a parameter.
- CSV parsing (PapaParse, `pd.read_csv`) and pandas type inference: a parsed frame or error is a parameter.
- IndexPage.Dashboard.HandleDataLoadedMock: the parse result is taken as typed records, but the demo upload parses with `header: true` and no `dynamicTyping` (src/pages/Index.tsx:76-80), so every field arrives as a string. `totalCost += record.cost` (src/services/mockData.ts:39-41) then concatenates: costs "5000" and "6000" give "050006000", whose mean shows as 25003000, and the table sorts such columns as text. The model's summary of an uploaded file (`Summarize`) is what the code computes for numeric records, not what the page shows after a demo upload.
- Floating point and number formatting: `toLocaleString`, `:.2f`, the `$…` cost cells and `str()` of PDF cells, and the float arithmetic of the generators. Numbers are exact tenths or exact reals.
- StatsCards.OperationalRate: rounds the exact quotient `100 · operational / total`, whereas JavaScript rounds the float `operational / total * 100`, which can differ at an exact half.
- Date formatting: `toISOString`, `fromisoformat` and `strftime` are parameters.
- Randomness and clocks: `Math.random`, `Date.now()`, `new Date()` are parameters.
- Async timing: the 500 ms `setTimeout` and React's re-rendering. Each handler is one atomic step.
- BackendViews.SummaryOfSpec: assumes distinct column names. For duplicate names pandas makes `df[col]` a frame, which the model does not represent; with duplicates the model keeps the last column's mean under the name.
- JSON encoding: key order and the rendering of `value_counts` keys.
- Unicode case mapping and whitespace: the model's case mapping is ASCII only, for Python's `lower`, `upper` and `title` and for JavaScript's `toLowerCase` (src/components/dashboard/DataTable.tsx:40, 43), which also map the rest of Unicode. Its `strip` removes ASCII whitespace only, while Python's and pandas' `strip` (backend/api/views.py:36, desktop/main.py:345) also remove Unicode spaces.
- DataTable.KeyCompare: `localeCompare` is modelled as code-point order, which is a total order but not the browser's collation. The two differ on mixed case ("Banana" before "apple" here; locale collation puts "apple" first) and on accented letters, which collation sorts next to their base letter. The sort properties proved (permutation, order, stability) hold for the code-point order.
- BackendViews.Create: the serializer's validation, its errors and DRF's rules for an empty file are the parameter `invalid`.
- BackendViews.Create: a summary average that is NaN (`AvgNaN`, a numeric column without values) is answered with 201 here. DRF's default JSON renderer is strict and refuses NaN after the view has returned. The request would then end in a server error, with the dataset already stored. The project's settings are not part of this model, so this rests on DRF's default.
- BackendViews.LatestView: the latest dataset is answered with 200 here even when its summary holds a NaN average. Under DRF's strict default renderer that answer becomes a server error.
- BackendViews.RecordsView: the rows are answered with 200 here even when a cell is blank. `to_dict(orient='records')` gives NaN for a blank cell, and DRF's strict default renderer refuses NaN, so such a file would end in a server error.
- BackendViews.Serialize: `file` is the stored path. DRF's `FileField` sends the media URL instead, absolute and percent-encoded, so `DesktopDashboard.HistoryFilenameAgrees` holds on the stored path and not on the string the desktop receives.
- BackendViews.PdfExport: the report's average-cost figure, its distribution tables and the PDF rendering are not modelled. Of the summary section only the failure of the cost mean on a text column is kept, answered with Django's default server error. Other exceptions raised while building the PDF are not modelled.
- DesktopDashboard.Window.UpdateDashboard: an averages value is a number, NaN or null. A string value that `float` cannot parse is not modelled. Null summary fields other than the whole summary are not modelled.
- DesktopDashboard.Window.UpdateDashboard: the source's single loop is modelled as a classification pass followed by a selection pass. Because classification is pure, the resulting cards and error are the same.
- `load_latest_data`'s status check and other desktop plumbing are not part of this model.
- The history view (`DataSetHistoryView`) and the DRF retrieve view serialise querysets; they are not part of this model beyond `Serialize`.
- Presentation: Qt widgets, matplotlib, Chart.js (`ChartsGrid.tsx`), ReportLab layout and the rest of the PDF, `PDFExport.tsx`, `HistoryPanel.tsx`, `DashboardHeader.tsx` and the login screens.
- JavaScript prototype keys (`constructor`, `__proto__`) in the counting objects: the model's maps treat every string as an ordinary key.
