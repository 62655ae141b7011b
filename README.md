# Observability performance tools, modelled in Dafny

The repository holds two small command-line tools for OpenShift clusters.
This project models their core logic.

- **The Prometheus query tool** (`main.py` with `prometheus_client.py`).
  It checks its command line and creates a client. It probes the server and runs a test query.
  It then runs the *observability impact analysis* on the `observability` NooBaa bucket.
  - Given a start time, the analysis plans three consecutive day windows. It queries each window's usage with a 24-hour step and shows the answers in one table under a title built from the first window's label.
  - It then queries the hourly average over the whole span, shows it as a table, and prepares a graph of it.
  - Without a start time, it asks for the average over the last 24 hours.
- **The CSV combiner** (`csv_combiner.py`).
  It reads several CSV time-series files into one timestamp-to-value dictionary, where the last write of a timestamp wins. It sorts the dictionary into two parallel lists, counts duplicates, and lays out a graph: the x-axis range, day boundaries, the y-axis top and a statistics box.

## How the system is represented

- Timestamps are integer seconds. Values are exact `real`s.
- Each library call the logic depends on becomes a function parameter. This covers `strptime`, `strftime`, `float()`, and the `:.2f` and `:,.0f` formattings. A parameter returns `None` where the call raises. The hourly graph's `datetime.fromtimestamp` is not a parameter: the graph keeps the epoch seconds themselves (see "## Left out").
- The Prometheus HTTP session is a *backend*: a function from a `Request` to either a decoded `QueryResult` or a `BackendError`.
- The analysis methods also return the list of requests they sent, in order. This makes "which queries run, in which order, and when the run stops" part of the contracts.
- A CSV file is a `CsvSource`: either missing, or the rows `csv.DictReader` yields, each a map from column name to cell text. Every cell is text: the `None` cells `csv.DictReader` gives a row shorter than the header are not modelled (see "## Left out").
- The combiner's dictionary is a sequence of distinct-key entries in insertion order (module `OrderedDict`). Assigning to an existing key overwrites its entry in place; assigning to a new key appends one.
- Python's string operations are modelled in module `Strings`: `strip`, `rstrip`, `split`, slicing, `replace`, `str(int)` and string ordering. "White space" throughout is the set `str.isspace()` accepts and `strip()` removes (`Strings.IsSpace`): tab to carriage return, U+001C to U+001F, the space, U+0085, U+00A0, U+1680, U+2000 to U+200A, U+2028, U+2029, U+202F, U+205F and U+3000.
- Python's sort is modelled in module `Sorting` as a stable insertion sort by a total preorder.
- The statistics box of both graphs is module `Statistics`.

Module layout: `wrappers.dfy` (Option, Result, `dict.get`), `strings.dfy`, `sorting.dfy`, `statistics.dfy`, `ordered_dict.dfy`, `csv_combiner.dfy` (class `Combiner`), `prometheus_client.dfy` and `main.dfy`.

## Model

| member | source | states |
|---|---|---|
| CsvCombiner.Combiner.constructor | csv_combiner.py:32-36 | A new combiner has an empty dictionary and an empty metric name and unit. |
| CsvCombiner.SelectValueFound | csv_combiner.py:62-73 | A value cell is selected exactly when the row has at least one of the five value columns. |
| CsvCombiner.SelectValuePriority | csv_combiner.py:62-73 | The selected cell is the stripped cell of the first column present, in the order value_seconds, value_bytes, value_bytes_per_s, value, Value. |
| CsvCombiner.BlankPreferredColumnSkips | csv_combiner.py:62-74 | A row whose highest-priority present column is blank is skipped, whatever its lower-priority columns hold. |
| CsvCombiner.IncompleteRowSkips | csv_combiner.py:59-74 | A row with a blank timestamp or with no value column is skipped. |
| CsvCombiner.CleanRowAccepted | csv_combiner.py:59-81 | Any row whose timestamp cell and selected value cell are non-empty, carry no surrounding white space and both parse contributes exactly that (timestamp, value) pair, whatever its other columns hold. |
| CsvCombiner.Combiner.ReadRow | csv_combiner.py:54-85 | One row: names the metric only while the name is empty, stores the row's pair exactly when the row is accepted, reports whether it was, and keeps the dictionary's keys distinct. |
| CsvCombiner.Combiner.ReadRows | csv_combiner.py:54-85 | The row loop stores the parsed rows in order, names the metric from the first row while it is unnamed, counts the accepted rows and keeps the keys distinct. |
| CsvCombiner.Combiner.ReadCsvFile | csv_combiner.py:38-92 | A file's rows are stored in order and the count is the number of accepted rows, overwrites included. A missing file returns 0 and changes nothing. The keys stay distinct. |
| CsvCombiner.RowStep | csv_combiner.py:54-82 | One more row extends the stored dictionary, the count and the metric name by exactly that row's effect. |
| CsvCombiner.StoreEffect | csv_combiner.py:80-82 | An accepted row sets its timestamp to its value and leaves every other timestamp as it was. A skipped row changes nothing. |
| CsvCombiner.UntouchedTimestamp | csv_combiner.py:74-82 | A timestamp that no accepted row carries keeps its earlier value, or stays absent. |
| CsvCombiner.ApplyAppend | csv_combiner.py:54-82 | Reading rows `a` and then rows `b` gives the same dictionary and count as reading `a + b`. |
| CsvCombiner.LastWriteWins | csv_combiner.py:80-81 | A timestamp holds the value of the last accepted row that carries it. |
| CsvCombiner.ApplySize | csv_combiner.py:80-82 | The dictionary grows by at most one entry per accepted row. |
| CsvCombiner.IngestAllSize | csv_combiner.py:109-119 | After all files, the dictionary has at most as many entries as rows were read, so in the model no duplicate count is negative. (The source's count can be negative when a short row aborts a file; see "## Left out".) |
| CsvCombiner.NameSticks | csv_combiner.py:56-57 | Once the metric is named, later rows never rename it. |
| CsvCombiner.NameAppend | csv_combiner.py:54-57 | Naming over `a + b` is naming over `a` and then over `b`. |
| CsvCombiner.FirstRowNames | csv_combiner.py:56-57 | When the first row read supplies a non-empty name, the metric is named after it, accepted or not, with `Unknown Metric` when that row has no `metric_name` column. |
| CsvCombiner.Combiner.CombineCsvFiles | csv_combiner.py:97-126 | The files are read in order into the dictionary. The two lists have equal length, and the timestamps are strictly ascending and are exactly the dictionary's keys. Each value is the one stored under its timestamp. The duplicate count is the total rows read minus the unique count, and in the model it is non-negative from a fresh combiner (the source's can be negative when a short row aborts a file; see "## Left out"). |
| CsvCombiner.LaterFileWins | csv_combiner.py:109-124 | For a file with 00:00=10 followed by a file with 00:00=20 and 01:00=30, the result is [(00:00, 20), (01:00, 30)]: three rows read and one duplicate removed. |
| CsvCombiner.LaterFileWinsFor | csv_combiner.py:109-119 | The same two-file scenario, stated for any rows that parse to those pairs. |
| CsvCombiner.ScenarioStores | csv_combiner.py:80-81 | In that scenario, the second file overwrites the 00:00 entry in place and appends the 01:00 entry. |
| CsvCombiner.ScenarioRows | csv_combiner.py:54-82 | In that scenario, each file's rows parse to the listed pairs, in order. |
| CsvCombiner.DayBoundaries | csv_combiner.py:205-218 | Boundary 0 is at the start. Boundary k is k days after the start, with index k. There are never more boundaries than labels (one when there are none). Every boundary after the first is not after the end. The loop stops only when the labels run out or the next boundary would pass the end. |
| CsvCombiner.Combiner.GenerateGraph | csv_combiner.py:143-233 | No layout exactly when there are no timestamps or no values. The layout gives the x-range by the three cases, the left limit three hours before the start, the y top at 1.15 times the maximum, and the statistics box. The title is custom or generated, and the y label is `Value` or `Value (unit)`. There is one boundary per label when a start date is given. Every boundary is at or before the end when the start precedes it. |
| CsvCombiner.DayLabelsRejoin | csv_combiner.py:315-316 | For `--days` text without white space, joining the labels with commas gives the text back: stripping removes only white space. |
| CsvCombiner.DayLabelsClean | csv_combiner.py:315-316 | No day label contains a comma, and none starts or ends with white space. |
| CsvCombiner.RunCombiner | csv_combiner.py:313-346 | Exit status 1 exactly when no row was accepted, and 0 with a layout otherwise. The statistics count every unique timestamp. There are never more boundaries than `--days` pieces. |
| OrderedDict.HasKeyAt | csv_combiner.py:81 | A key is present exactly when some entry carries it. |
| OrderedDict.DistinctCons | csv_combiner.py:80-81 | Keys are distinct exactly when the first key does not recur and the remaining keys are distinct. |
| OrderedDict.LookupFound | csv_combiner.py:81 | `d.get(k)` finds a value exactly when `k` is present. |
| OrderedDict.LookupAt | csv_combiner.py:81 | With distinct keys, `d.get` of an entry's key is that entry's value. |
| OrderedDict.PutSize | csv_combiner.py:81 | Assignment adds an entry only for a new key. |
| OrderedDict.PutKeys | csv_combiner.py:81 | After assignment, the keys are the old ones plus the assigned one. |
| OrderedDict.PutLookup | csv_combiner.py:81 | After `d[k] = v`, `k` holds `v` and every other key holds what it held. |
| OrderedDict.PutDistinct | csv_combiner.py:80-81 | Assignment never creates a second entry for a key. |
| OrderedDict.InsertEntryAbove | csv_combiner.py:114 | Inserting a key above a bound among keys above it keeps every key above it. |
| OrderedDict.InsertEntrySorted | csv_combiner.py:114 | Inserting a new key into entries with strictly increasing keys keeps them strictly increasing. |
| OrderedDict.SortedItems | csv_combiner.py:114 | The items sorted by key: strictly increasing keys, the same entries and the same number of them. |
| OrderedDict.SortedItemsAgree | csv_combiner.py:114-116 | The sorted keys are exactly the dictionary's keys, each paired with the value stored under it. |
| Statistics.Minimum | csv_combiner.py:171 | `min(values)` is one of the values and is at most every value. |
| Statistics.Maximum | csv_combiner.py:172 | `max(values)` is one of the values and is at least every value. |
| Statistics.Growth | csv_combiner.py:173 | Growth is 0 when the first value is 0. Otherwise it is the percentage change from first to last. For a positive first value, it is non-negative exactly when the last value is not below the first. |
| Statistics.SumBounds | csv_combiner.py:170 | A sum of values in [lo, hi] lies between `n*lo` and `n*hi`. |
| Statistics.Summarise | prometheus_client.py:501-504 | The box counts the values. Its minimum and maximum are values bounding all of them. Its average is the mean and lies between them. Its growth is taken from first to last. |
| Sorting.Sort | prometheus_client.py:406 | The sort result is sorted by the key order and is a permutation of its input. |
| Prometheus.NewClient | prometheus_client.py:41-42 | The base URL is the URL without its trailing slashes: a prefix of the URL, not ending in `/`, with only `/` cut off. The token is kept. |
| Prometheus.NewClientIdempotent | prometheus_client.py:41 | Trimming a trimmed URL changes nothing. |
| Strings.TrimStartFacts | csv_combiner.py:59 | `strip` drops only leading white space: the result is a suffix not starting with white space, and everything before it is white space. |
| Strings.TrimEndFacts | prometheus_client.py:41 | `rstrip('/')` keeps a prefix that does not end with `/`, and everything after it is `/`. |
| Strings.StripAddsNothing | csv_combiner.py:316 | Stripping never adds a character, so a stripped day label has no comma. |
| Strings.BlankIsAllSpace | prometheus_client.py:104 | A name is refused as blank exactly when all its characters are white space (the empty name included). |
| Prometheus.AverageUsageValidatesFirst | prometheus_client.py:104-108 | A blank name or non-positive hours fails with the argument error, whatever the backend answers, so no request counts. A blank name gets the bucket-name message. |
| Prometheus.UnicodeSpaceNameRefused | prometheus_client.py:104-105 | A name of a no-break space and an ideographic space is refused with the bucket-name message by both the average and the range query, since `strip()` removes both characters. |
| Prometheus.DateRangeUsageValidatesFirst | prometheus_client.py:159-160 | A blank name fails with `Bucket name cannot be empty`, whatever the backend answers. |
| Prometheus.AverageUsageOutcome | prometheus_client.py:110-141 | A valid average query depends only on the backend's answer to the average request for the stripped name. A non-empty result is passed through. An empty one becomes a `success` vector result carrying 4 suggestions and the query used. A backend failure becomes a query failure. |
| Prometheus.DateRangeUsageOutcome | prometheus_client.py:162-203 | The same for the range query, for the stripped name: an empty result becomes a `success` matrix result with 5 suggestions, the time range `start to end`, and no query text. |
| Prometheus.RangeAnswer | prometheus_client.py:174-203 | Once validated, the range query fails exactly when the backend call fails. |
| Prometheus.StrippedQueries | prometheus_client.py:104-111 | For a valid name with nothing to strip, each query is its post-validation answer, sent for the name as given. |
| Prometheus.Truncate | prometheus_client.py:231 | `int(x)` truncates toward zero. |
| Prometheus.FormatBytes | prometheus_client.py:219-233 | The division loop computes the text of the scaling function `HumanReadable`. |
| Prometheus.ScaleProduct | prometheus_client.py:225-228 | From any state of the loop, the size times 1024^index where it stops equals that product where it started. |
| Prometheus.ScaleRange | prometheus_client.py:225-228 | From any state of the loop, the unit index only grows and stays at most 5. Every size after a division is at least 1. Below PB the loop stops under 1024. |
| Prometheus.ScaleBounds | prometheus_client.py:222-228 | The unit index never passes 5 (PB), and the scaled size times 1024^index is the input. For KB to TB the size lies in [1, 1024). Below 1024 the unit stays B and the size is unchanged. |
| Prometheus.SmallValuesInBytes | prometheus_client.py:219-231 | `format_bytes(0)` is `0 B`. Any other value below 1024 is printed as a whole number of bytes. |
| Prometheus.LargeValuesScaled | prometheus_client.py:226-233 | From 1024 bytes up, the text is the two-decimal scaled size with a unit from KB to PB. |
| Prometheus.FailedCount | prometheus_client.py:336-339 | There are never more failed queries than ranges. |
| Prometheus.AppendSeriesRows | prometheus_client.py:351-383 | The loop over one series appends exactly that series' rows, in order. |
| Prometheus.AppendResultRows | prometheus_client.py:347-383 | The loop over a result's series appends exactly their rows, in order. |
| Prometheus.RowLeTotalPreorder | prometheus_client.py:406 | Ordering rows by their timestamp text is a total preorder, so the sort is well defined. |
| Prometheus.BuildRangeTable | prometheus_client.py:318-406 | Failed queries and ranges are counted. The diagnostic appears exactly when no row was built. Otherwise the table holds every row of every successful range, and only those, sorted by timestamp. |
| Prometheus.ResultRowsCount | prometheus_client.py:347-383 | A successful result adds exactly one row per pair of each of its series. |
| Prometheus.AllRowsCount | prometheus_client.py:336-383 | The number of rows is the number of pairs in the successful results. A failed result adds none. |
| Prometheus.RowLabels | prometheus_client.py:367-382 | With several ranges, every row carries a non-empty range label: its own label, or `Range {i+1}`. With one range, no row carries a label. |
| Prometheus.AllFailed | prometheus_client.py:336-391 | When every query failed, no row is built and all of them count as failed. |
| Prometheus.TimeLeTotalPreorder | prometheus_client.py:474 | Ordering points by time is a total preorder. |
| Prometheus.AppendValidPoints | prometheus_client.py:456-466 | The loop over one series appends exactly its valid points, in order. |
| Prometheus.ValidPointsMembers | prometheus_client.py:454-466 | A point is kept exactly when both fields of some pair parse, and its value is in GiB. |
| Prometheus.ValidPointsAtMost | prometheus_client.py:457-466 | There are never more points than pairs. |
| Prometheus.ZipUnzip | prometheus_client.py:473-475 | `zip` of the time column and the value column of a list of points gives back the points, so `zip(*combined)` splits the sorted points into two columns without loss. |
| Prometheus.AlignedExtract | prometheus_client.py:457-466 | When no pair has a timestamp that parses and a value that does not, the source's `timestamps` and `values` lists for a series are exactly `Unzip` of its valid points: their time column and their value column. |
| Prometheus.AlignedPoints | prometheus_client.py:457-473 | Under the same condition, the source's pairing of one series gives exactly its valid points. |
| Prometheus.AlignedHourly | prometheus_client.py:449-473 | When every series of the result is aligned, the points the source pairs up across all series (none when either list is empty) are exactly the points `CreateHourlyUsageGraph` graphs: the misalignment is the only difference. |
| Prometheus.MisalignedPairs | prometheus_client.py:457-475 | Take a series whose first value does not parse. As written, the source pairs the first timestamp with the second value. The corrected extraction keeps the second pair intact. |
| Prometheus.StampPart | prometheus_client.py:525-526 | The file-name stamp holds at most 19 characters and contains no `:` and no `T`. |
| Prometheus.StampPartOfRfc3339 | prometheus_client.py:525-526 | An RFC 3339 time `YYYY-MM-DDTHH:MM:SS…` becomes `YYYY-MM-DD_HH-MM-SS`. |
| Prometheus.JoinPath | prometheus_client.py:528 | `os.path.join` ends with the file name. |
| Prometheus.CreateHourlyUsageGraph | prometheus_client.py:449-541 | No graph exactly when no point is valid. Otherwise the graph holds every valid point and only those, sorted by epoch time. Its statistics are taken over the sorted values. The file is `results/<bucket>_NooBaa_bucket_used_bytes_<start>_to_<end>.png` under the output directory. |
| Strings.JoinSplit | csv_combiner.py:316 | Joining the comma pieces back with commas gives the `--days` text, so no text is lost. |
| ImpactAnalysis.BucketClean | main.py:147 | The bucket name `observability` passes validation and has nothing to strip. |
| ImpactAnalysis.BucketQueries | main.py:147 | Hence every analysis query is the post-validation answer for `observability` itself. |
| ImpactAnalysis.QueryWindow | main.py:142-153 | One pass of the loop. Window i starts at the current time, ends 86364 s later, and is labelled `Day {i+1}: start to end`. It is queried with step 24, and the pass fails exactly when the backend fails. |
| ImpactAnalysis.QueryDays | main.py:139-156 | The windows are queried in order, and the first failure stops the loop. Window k is the plan's window k, starting at T0 + 24h·k. Each answered window is paired with its label. Without a failure there are exactly three. |
| ImpactAnalysis.DaysFollowPlan | main.py:141-156 | The requests of the day loop are the plan's first ones, and every answered window was answered successfully. |
| ImpactAnalysis.DaysAnsweredByLoop | main.py:139-156 | Three answered windows are the three planned days, in order, each with its answer and label. |
| ImpactAnalysis.AbortedPlan | main.py:141-156 | When a day query fails, the requests sent so far are a prefix of the plan and the analysis is aborted. |
| ImpactAnalysis.CompletedPlan | main.py:141-174 | The three day queries followed by the hourly one are the whole plan, whatever the hourly query answers. |
| ImpactAnalysis.PlannedPrefix | main.py:141-174 | Requests that match the plan one by one form a prefix of it. |
| ImpactAnalysis.SplitAtColon | main.py:162 | Splitting at `:` when the first `:` is at position k gives the text before it, then the split of the text after it. |
| ImpactAnalysis.SecondColonPiece | main.py:162 | For a label `Day 1: ` + time + rest, the second `:`-piece is a space followed by the time up to its hour. |
| ImpactAnalysis.CaptionHasColon | main.py:150-162 | The first label always has a `:` after its day number, so the title's `split(':')[1]` never fails. |
| ImpactAnalysis.TitleShowsStartHour | main.py:162 | For an RFC 3339 start time, the title shows only `YYYY-MM-DDTHH`: splitting the label at `:` also splits the time. |
| ImpactAnalysis.WindowsGap | main.py:143-156 | Consecutive windows do not overlap: each ends 36 s before the next starts, and each ends after it starts. |
| ImpactAnalysis.HourlySpansWindows | main.py:140-174 | The hourly query runs from the first window's start to the third window's end (2 days + 86364 s) with step 1. |
| ImpactAnalysis.ShowHourly | main.py:176-198 | The hourly table and graph are shown exactly when the result succeeded and is non-empty. Otherwise the error record's message, if any, is reported. |
| ImpactAnalysis.Report | main.py:157-198 | After the days come the daily table and its title, then the hourly query over the whole span. The report always holds the days unchanged with their table and title. It ends as `HourlyFailed`, with the failure's message, exactly when the hourly query fails; otherwise it adds the hourly part. |
| ImpactAnalysis.ThreeDayAnalysis | main.py:135-198 | The requests are a prefix of the plan: three daily queries, then the hourly one. Each request but the last was answered. The analysis stops exactly when the last request failed: `Aborted` when a daily query failed, `HourlyFailed` when the hourly one did. Both a completed analysis and one whose hourly query failed hold the three planned days, their table and title; the first adds the hourly part, the second the hourly failure's message. |
| ImpactAnalysis.ObservabilityImpactAnalysis | main.py:122-212 | Without a start time, one 24-hour average query is sent and its result or error message returned. With one, the three-day analysis follows the plan. A completed one shows the report with the graph written under the default directory `.`; one whose hourly query failed shows the daily table and title and the failure's message. |
| ImpactAnalysis.RunTool | main.py:215-357 | The checks run in a fixed order, each failing exit being the first check that fails: help (exit 0); missing token or url, bad scheme, short token (exit 1, no client); no connection (exit 1); failed test query (exit 1); bad date (exit 0); `--spoke` (exit 0 before any analysis). The client exists exactly when the argument checks pass. The requests are the test query followed by the analysis' requests. Without `--date` the analysis is the 24-hour average's result or its error message; with it, the analysis follows the plan and stops exactly when its last request failed. A completed three-day analysis answers the planned days and shows the report, with the graph under `./results`; one whose hourly query failed shows the daily table and the failure's message. |

## Left out

- Network I/O: the HTTP session, SSL settings, `urljoin` and timeouts are the backend parameter. The connection probe `check_connection` is the boolean `connected` given to `RunTool`.
- Rendering: printing, emoji text, `tabulate`, matplotlib drawing, `os.makedirs` and `savefig`. The model stops at the numbers, rows, strings and file paths that feed them.
- Library parsing and formatting are function parameters, not modelled: `strptime`, `strftime`, `float()`, the `:.2f` and `:,.0f` formattings, `os.path.basename`, and the `csv` reader.
- Floating point: `/ 1024`, the mean, the growth, the 1.15 margin and `/ 1024**3` are exact real arithmetic, without IEEE rounding. `timedelta(hours=23.99)` is the 86364 seconds it rounds to.
- NaN and infinities: a number parameter returns a real or `None`, so the texts `nan`, `inf` and `-inf` that `float()` accepts are not modelled. In the source, `int(nan)` in `format_bytes` (prometheus_client.py:231) raises `ValueError`, and the table cell (prometheus_client.py:356) falls back to the raw text. `int(-inf)` or `int(inf)` raises `OverflowError`, which that `except` does not catch, so it escapes the display. The graph keeps a NaN point, and the combiner (csv_combiner.py:78) stores and counts a `nan` cell.
- CsvCombiner.Combiner.ReadCsvFile: the generic `except Exception` path is left out, and so are short rows. `csv.DictReader` gives a row with fewer cells than the header `None` for the missing cells, so `.strip()` on a missing timestamp or value cell (csv_combiner.py:59, 64-72) raises `AttributeError`. The `except Exception` at csv_combiner.py:93-95 then returns 0 although the file's earlier rows were already stored, which can make `duplicates_removed` (csv_combiner.py:119) negative. A missing `metric_name` cell sets the name to `None`, so the next row names the metric again. Read or decode errors in mid-file take the same path. A missing file is modelled.
- CsvCombiner.RunCombiner: argparse and the two-format fallback parse of `--date` are left out. The parsed start date, or `None`, is a parameter.
- ImpactAnalysis.RunTool: argparse itself is left out: unknown options and its own exit status 2. The arguments are modelled without the program name, so `len(sys.argv) == 1` becomes an empty list. `KeyboardInterrupt` and the `Unexpected error` path for exceptions other than a failed test query are left out. `show_help`'s text is left out.
- ImpactAnalysis.ObservabilityImpactAnalysis: the last-24-hours display `display_bucket_usage_results` is not part of this model; the result is returned as it is. The second `except Exception` (main.py:210-212) can never run. The unused `hourly_avg_query` string is not modelled.
- Prometheus.AverageAnswer: the backend decides whether a failure is a request error (message prefixed `Failed to execute query:`) or an unreadable response.
- Sorting.Sort: it states sorted order and a permutation, not that the sort is stable. Python's sort keeps equal keys in their original order; the model's insertion sort does too, but no contract says so.
- Prometheus.BuildRangeTable: this states sorted order and the same rows, not the order of rows with equal timestamp text (see `Sorting.Sort`). The same holds for Prometheus.CreateHourlyUsageGraph. The table's title is rendering.
- Prometheus.CreateHourlyUsageGraph: the broad `except Exception` around plotting and writing is left out. It is file-system and rendering failure.
- Prometheus.AppendValidPoints: it is the corrected extraction loop, which appends a point only when both its fields parse, not the loop of prometheus_client.py:456-466 as written (see "## Findings"). `ExtractAsWritten` is the loop as written, and `AlignedExtract` proves the two agree whenever no pair strands its timestamp.
- Prometheus.CreateHourlyUsageGraph: it graphs the corrected extraction (`ValidPoints`), not the source's misaligned one (see "## Findings"). `HourlyPointsAsWritten` is the source's extraction, and `AlignedHourly` proves the two agree whenever no pair strands its timestamp.
- Prometheus.CreateHourlyUsageGraph: points are sorted by their epoch seconds. The source sorts by the naive local `datetime` that `fromtimestamp` gives, which orders differently inside a repeated hour when clocks go back. An `OverflowError` or `OSError` from `fromtimestamp` goes to the outer `except` and returns `None`; that path is not modelled. A `ValueError` from `fromtimestamp`, for a `nan` timestamp or one past the year 9999, is caught by the inner `except (ValueError, TypeError)` at prometheus_client.py:465 and skips the point; the model keeps every point whose timestamp the number parameter parses.
- Series entries are always (timestamp, value) pairs of text. A malformed entry raising `TypeError` in the unpacking is not modelled.
- `setup.py` is not part of this model: it only runs `pip` and `chmod`.

## Notes on the code

- Windows: each window ends 23.99 h (86364 s) after it starts, so consecutive windows are 36 s apart (`WindowsGap`). There are always exactly three windows, with generated labels; no label list or day count is configurable.
- Hourly window: the hourly query runs from T0 to the third window's end (`HourlySpansWindows`).
- Ordering: the `--date` text is parsed only after the connection probe and the test query succeed. A bad date is therefore reported after the backend was contacted, and the run exits 0 (`RunTool`).
- Times are rendered with a literal `Z` suffix; the start time itself is naive wall-clock time.
- The daily title's start text is cut at the second `:` of the first label, so it shows only the date and the hour (`TitleShowsStartHour`).
- The combiner's `metric_unit` is never assigned, so the y label is always `Value`.
- Day boundaries are drawn only when day labels are given (csv_combiner.py:196). Boundary 0 is drawn at the x start without comparing it to the x end. With a start date the x end is that many days after the start, so boundary 0 is never past it; without one, the x range is the first to the last timestamp, which `main` passes sorted. Only a direct call with timestamps that do not run forwards puts boundary 0 past the x end. With only `--date`, later than the data, the x range is inverted and no boundary is drawn. `GenerateGraph` proves every boundary is at or before the end when a start date is given or the data runs forwards.

## Findings

| source | as written | input that shows it | evidently intended | confidence | as-written member | corrected member |
|---|---|---|---|---|---|---|
| prometheus_client.py:457-466 | The timestamp is appended as soon as it parses, before the value is parsed. When the value then fails, an unmatched timestamp stays behind, and `zip` pairs later timestamps with earlier values. | A series `[["1", "x"], ["2", "5"]]` gives the single point (1, 5 bytes in GiB) instead of (2, 5 bytes in GiB). | A point is kept only when both fields parse, with its own timestamp and value. | not executed | Prometheus.MisalignedPairs | Prometheus.ValidPointsMembers |

`CreateHourlyUsageGraph` uses the corrected extraction (`ValidPoints`).
