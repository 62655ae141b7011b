/** The Prometheus client's result shaping: base-URL trimming, the validation and
    empty-result wrapping of the two bucket-usage queries, `format_bytes`, the rows of the
    date-range table and the points, statistics and file name of the hourly graph. The
    HTTP backend is a function from a request to a decoded response or an error. */
module Prometheus {
  import opened Wrappers
  import opened Strings
  import Sorting
  import Statistics

  /** The client as `__init__` leaves it; the HTTP session is part of the backend. */
  datatype Client = Client(baseUrl: string, token: string)

  /** `url.rstrip('/')`. */
  function NewClient(url: string, token: string): (c: Client)
    ensures c.token == token
    ensures StartsWith(url, c.baseUrl)
    ensures c.baseUrl == [] || c.baseUrl[|c.baseUrl| - 1] != '/'
    ensures forall i :: |c.baseUrl| <= i < |url| ==> url[i] == '/'
  {
    var slash := c => c == '/';
    TrimEndFacts(url, slash);
    Client(TrimEnd(url, slash), token)
  }

  /** Trimming is idempotent: a client built from a client's base URL keeps it. */
  lemma NewClientIdempotent(url: string, token: string)
    ensures NewClient(NewClient(url, token).baseUrl, token) == NewClient(url, token)
  {
    var b := NewClient(url, token).baseUrl;
    var b2 := NewClient(b, token).baseUrl;
    assert |b2| == |b|;
  }

  // ----- Query results -----

  /** One `[timestamp, "value"]` pair of a range series, both as text. */
  datatype RawPoint = RawPoint(timestamp: string, value: string)

  /** One series of `data.result`: its labels and its `values` (`[]` when absent). */
  datatype Series = Series(metric: map<string, string>, values: seq<RawPoint>)

  datatype ErrorInfo = ErrorInfo(
    message: string,
    suggestions: seq<string>,
    queryUsed: Option<string>,
    timeRange: Option<string>)

  /** A decoded response: `status`, `data.resultType`, `data.result` and the `error_info`
      record the client adds to an empty result. */
  datatype QueryResult = QueryResult(
    status: string,
    resultType: string,
    result: seq<Series>,
    errorInfo: Option<ErrorInfo>)

  /** A request as the backend receives it: an instant PromQL query, or one of the two
      bucket-usage queries given by its parameters (the stripped bucket name, the averaging
      window or the range and its step in hours); `QueryText` renders their PromQL. */
  datatype Request =
    | InstantQuery(query: string)
    | AverageQuery(bucket: string, hours: int)
    | RangeQuery(bucket: string, start: string, end: string, step: int)

  /** How a backend call fails: the request itself (a `RequestException`), or a response
      that cannot be read (bad JSON, a missing `data.result`). */
  datatype BackendError = RequestFailed(reason: string) | Unreadable(reason: string)

  /** What the query functions raise: a `ValueError` before any request, or the wrapped
      failure of the request. */
  datatype QueryError = InvalidArgument(message: string) | QueryFailed(message: string)

  const AverageSuggestions: seq<string> := [
    "Verify the bucket name is correct",
    "Check if the bucket exists in NooBaa/OpenShift Data Foundation",
    "Ensure bucket monitoring is enabled",
    "Verify you have access to the bucket metrics"]

  const RangeSuggestions: seq<string> := [
    "Verify the bucket name is correct",
    "Check if the bucket exists in NooBaa/OpenShift Data Foundation",
    "Ensure bucket monitoring is enabled",
    "Verify the date range contains data",
    "Check if the time range is too far in the past (data retention)"]

  function UsageQuery(bucket: string, window: string): string
  {
    "avg_over_time(NooBaa_bucket_used_bytes{bucket_name=\"" + bucket + "\"}[" + window + "])"
  }

  /** The PromQL text of a request; a range query always averages over one hour, and its
      step parameter is sent as `{step}h`. */
  function QueryText(r: Request): string
  {
    match r
    case InstantQuery(q) => q
    case AverageQuery(b, hours) => UsageQuery(b, IntToString(hours) + "h")
    case RangeQuery(b, _, _, _) => UsageQuery(b, "1h")
  }

  function AverageRequest(bucket: string, hours: int): Request
  {
    AverageQuery(Strip(bucket), hours)
  }

  function RangeRequest(bucket: string, start: string, end: string, step: int): Request
  {
    RangeQuery(Strip(bucket), start, end, step)
  }

  /** `get_bucket_average_usage`: the name is validated, then stripped. */
  function AverageUsage(bucket: string, hours: int, backend: Request -> Result<QueryResult, BackendError>)
    : Result<QueryResult, QueryError>
  {
    if IsBlank(bucket) then Failure(InvalidArgument("Bucket name cannot be empty"))
    else if hours <= 0 then Failure(InvalidArgument("Hours must be a positive integer"))
    else AverageAnswer(Strip(bucket), hours, backend)
  }

  /** The average query once its arguments passed validation, for the stripped name. */
  function AverageAnswer(name: string, hours: int, backend: Request -> Result<QueryResult, BackendError>)
    : Result<QueryResult, QueryError>
  {
    var request := AverageQuery(name, hours);
    match backend(request)
    case Failure(RequestFailed(reason)) =>
      Failure(QueryFailed("Failed to query bucket usage: Failed to execute query: " + reason))
    case Failure(Unreadable(reason)) =>
      Failure(QueryFailed("Failed to query bucket usage: " + reason))
    case Success(r) =>
      if r.result != [] then Success(r)
      else Success(QueryResult("success", "vector", [], Some(ErrorInfo(
        "No bucket usage data found for bucket \"" + name + "\"",
        AverageSuggestions, Some(QueryText(request)), None))))
  }

  /** `get_bucket_usage_for_date_range`; the series window is always one hour, `step` is
      in hours. */
  function DateRangeUsage(bucket: string, start: string, end: string, step: int,
                          backend: Request -> Result<QueryResult, BackendError>)
    : Result<QueryResult, QueryError>
  {
    if IsBlank(bucket) then Failure(InvalidArgument("Bucket name cannot be empty"))
    else RangeAnswer(Strip(bucket), start, end, step, backend)
  }

  /** The date-range query once the name passed validation, for the stripped name. */
  function RangeAnswer(name: string, start: string, end: string, step: int,
                       backend: Request -> Result<QueryResult, BackendError>)
    : (r: Result<QueryResult, QueryError>)
    ensures r.Failure? <==> backend(RangeQuery(name, start, end, step)).Failure?
  {
    match backend(RangeQuery(name, start, end, step))
    case Failure(e) => Failure(QueryFailed("Failed to query bucket usage for date range: " + e.reason))
    case Success(r) =>
      if r.result != [] then Success(r)
      else Success(QueryResult("success", "matrix", [], Some(ErrorInfo(
        "No bucket usage data found for bucket \"" + name + "\" in the specified time range",
        RangeSuggestions, None, Some(start + " to " + end)))))
  }

  /** For a name that passes validation and has nothing to strip, each query is its
      validated answer, sent for the name as given. */
  lemma StrippedQueries(bucket: string, start: string, end: string, step: int, hours: int,
                        backend: Request -> Result<QueryResult, BackendError>)
    requires !IsBlank(bucket) && Strip(bucket) == bucket && hours > 0
    ensures DateRangeUsage(bucket, start, end, step, backend) == RangeAnswer(bucket, start, end, step, backend)
    ensures RangeRequest(bucket, start, end, step) == RangeQuery(bucket, start, end, step)
    ensures AverageUsage(bucket, hours, backend) == AverageAnswer(bucket, hours, backend)
    ensures AverageRequest(bucket, hours) == AverageQuery(bucket, hours)
  {
  }

  /** A blank bucket name or a non-positive number of hours is refused before any request:
      the result does not depend on the backend. */
  lemma AverageUsageValidatesFirst(bucket: string, hours: int,
                                   b1: Request -> Result<QueryResult, BackendError>,
                                   b2: Request -> Result<QueryResult, BackendError>)
    requires IsBlank(bucket) || hours <= 0
    ensures AverageUsage(bucket, hours, b1) == AverageUsage(bucket, hours, b2)
    ensures AverageUsage(bucket, hours, b1).Failure? && AverageUsage(bucket, hours, b1).error.InvalidArgument?
    ensures IsBlank(bucket) ==> AverageUsage(bucket, hours, b1).error.message == "Bucket name cannot be empty"
  {
  }

  lemma DateRangeUsageValidatesFirst(bucket: string, start: string, end: string, step: int,
                                     b1: Request -> Result<QueryResult, BackendError>,
                                     b2: Request -> Result<QueryResult, BackendError>)
    requires IsBlank(bucket)
    ensures DateRangeUsage(bucket, start, end, step, b1) == DateRangeUsage(bucket, start, end, step, b2)
    ensures DateRangeUsage(bucket, start, end, step, b1) == Failure(InvalidArgument("Bucket name cannot be empty"))
  {
  }

  /** A name made only of Unicode white space, here a no-break space and an ideographic
      space, is refused like an empty one. */
  lemma UnicodeSpaceNameRefused(b: Request -> Result<QueryResult, BackendError>)
    ensures AverageUsage("\U{A0}\U{3000}", 24, b) == Failure(InvalidArgument("Bucket name cannot be empty"))
    ensures DateRangeUsage("\U{A0}\U{3000}", "", "", 1, b) == Failure(InvalidArgument("Bucket name cannot be empty"))
  {
    BlankIsAllSpace("\U{A0}\U{3000}");
  }

  /** A valid average query sends exactly one request, the average over `hours` of the
      stripped bucket name: backends that agree on it give the same outcome. A non-empty
      result is passed through; an empty one becomes a success with four suggestions and
      the query used. */
  lemma AverageUsageOutcome(bucket: string, hours: int,
                            b1: Request -> Result<QueryResult, BackendError>,
                            b2: Request -> Result<QueryResult, BackendError>)
    requires !IsBlank(bucket) && hours > 0
    requires b1(AverageRequest(bucket, hours)) == b2(AverageRequest(bucket, hours))
    ensures AverageUsage(bucket, hours, b1) == AverageUsage(bucket, hours, b2)
    ensures b1(AverageRequest(bucket, hours)).Success? && b1(AverageRequest(bucket, hours)).value.result != [] ==>
              AverageUsage(bucket, hours, b1) == Success(b1(AverageRequest(bucket, hours)).value)
    ensures b1(AverageRequest(bucket, hours)).Success? && b1(AverageRequest(bucket, hours)).value.result == [] ==>
              var r := AverageUsage(bucket, hours, b1);
              && r.Success? && r.value.status == "success" && r.value.result == []
              && r.value.resultType == "vector"
              && r.value.errorInfo.Some? && |r.value.errorInfo.value.suggestions| == 4
              && r.value.errorInfo.value.queryUsed == Some(QueryText(AverageRequest(bucket, hours)))
    ensures b1(AverageRequest(bucket, hours)).Failure? ==>
              AverageUsage(bucket, hours, b1).Failure? && AverageUsage(bucket, hours, b1).error.QueryFailed?
  {
  }

  /** The same for the date-range query: five suggestions and the time range instead of
      the query. */
  lemma DateRangeUsageOutcome(bucket: string, start: string, end: string, step: int,
                              b1: Request -> Result<QueryResult, BackendError>,
                              b2: Request -> Result<QueryResult, BackendError>)
    requires !IsBlank(bucket)
    requires b1(RangeRequest(bucket, start, end, step)) == b2(RangeRequest(bucket, start, end, step))
    ensures DateRangeUsage(bucket, start, end, step, b1) == DateRangeUsage(bucket, start, end, step, b2)
    ensures b1(RangeRequest(bucket, start, end, step)).Success? && b1(RangeRequest(bucket, start, end, step)).value.result != [] ==>
              DateRangeUsage(bucket, start, end, step, b1) == Success(b1(RangeRequest(bucket, start, end, step)).value)
    ensures b1(RangeRequest(bucket, start, end, step)).Success? && b1(RangeRequest(bucket, start, end, step)).value.result == [] ==>
              var r := DateRangeUsage(bucket, start, end, step, b1);
              && r.Success? && r.value.status == "success" && r.value.result == []
              && r.value.resultType == "matrix"
              && r.value.errorInfo.Some? && |r.value.errorInfo.value.suggestions| == 5
              && r.value.errorInfo.value.timeRange == Some(start + " to " + end)
              && r.value.errorInfo.value.queryUsed.None?
    ensures b1(RangeRequest(bucket, start, end, step)).Failure? ==>
              DateRangeUsage(bucket, start, end, step, b1).Failure? &&
              DateRangeUsage(bucket, start, end, step, b1).error.QueryFailed?
  {
  }

  // ----- format_bytes -----

  const Units: seq<string> := ["B", "KB", "MB", "GB", "TB", "PB"]

  /** `x * 1024 ** n`. */
  function TimesPow1024(x: real, n: nat): real
    decreases n
  {
    if n == 0 then x else TimesPow1024(1024.0 * x, n - 1)
  }

  /** Where the division loop of `format_bytes` stops, from `size` at unit `index`. */
  function Scale(size: real, index: nat): (real, nat)
    requires index <= 5
    decreases 5 - index
  {
    if size >= 1024.0 && index < 5 then Scale(size / 1024.0, index + 1) else (size, index)
  }

  /** Python's `int(x)`: truncation toward zero. */
  function Truncate(x: real): (n: int)
    ensures x >= 0.0 ==> n as real <= x < n as real + 1.0
    ensures x < 0.0 ==> n as real - 1.0 < x <= n as real
  {
    if x >= 0.0 then x.Floor else -((-x).Floor)
  }

  /** The text `format_bytes` returns; `fixed2` is the `:.2f` formatting. */
  function HumanReadable(bytes: real, fixed2: real -> string): string
  {
    if bytes == 0.0 then "0 B"
    else
      var (size, index) := Scale(bytes, 0);
      if index == 0 then IntToString(Truncate(size)) + " " + Units[0]
      else fixed2(size) + " " + Units[index]
  }

  /** `format_bytes`. */
  method FormatBytes(bytes: real, fixed2: real -> string) returns (text: string)
    ensures text == HumanReadable(bytes, fixed2)
  {
    if bytes == 0.0 {
      return "0 B";
    }
    var unitIndex: nat := 0;
    var size := bytes;
    while size >= 1024.0 && unitIndex < |Units| - 1
      invariant unitIndex <= 5
      invariant Scale(size, unitIndex) == Scale(bytes, 0)
      decreases 5 - unitIndex
    {
      size := size / 1024.0;
      unitIndex := unitIndex + 1;
    }
    if unitIndex == 0 {
      text := IntToString(Truncate(size)) + " " + Units[unitIndex];
    } else {
      text := fixed2(size) + " " + Units[unitIndex];
    }
  }

  /** The loop keeps size times 1024^index: wherever it stops, that product is the one it
      started from. */
  lemma {:induction false} ScaleProduct(size: real, index: nat)
    requires index <= 5
    ensures TimesPow1024(Scale(size, index).0, Scale(size, index).1) == TimesPow1024(size, index)
    decreases 5 - index
  {
    if size >= 1024.0 && index < 5 {
      ScaleProduct(size / 1024.0, index + 1);
      assert 1024.0 * (size / 1024.0) == size;
    }
  }

  /** The loop's bounds from any point: the unit index only grows and stays at most 5,
      sizes reached after a division are at least 1, and below PB the loop stops under
      1024. */
  lemma {:induction false} ScaleRange(size: real, index: nat)
    requires index <= 5
    requires index >= 1 ==> size >= 1.0
    ensures var (s, i) := Scale(size, index);
      && index <= i <= 5
      && (i >= 1 ==> s >= 1.0)
      && (i < 5 ==> s < 1024.0)
      && (i == index ==> s == size)
    decreases 5 - index
  {
    if size >= 1024.0 && index < 5 {
      ScaleRange(size / 1024.0, index + 1);
    }
  }

  /** The unit index never passes 5 (PB); the scaled size times 1024^index is the input;
      for KB to TB the scaled size lies in [1, 1024); below 1024 the unit stays B. */
  lemma ScaleBounds(bytes: real)
    ensures var (s, i) := Scale(bytes, 0);
      && i <= 5
      && TimesPow1024(s, i) == bytes
      && (1 <= i <= 4 ==> 1.0 <= s < 1024.0)
      && (i == 5 ==> s >= 1.0)
      && (bytes < 1024.0 ==> i == 0 && s == bytes)
  {
    ScaleProduct(bytes, 0);
    ScaleRange(bytes, 0);
  }

  /** `format_bytes(0) == "0 B"`, and any other value below 1024 is printed as a whole
      number of bytes. */
  lemma SmallValuesInBytes(bytes: real, fixed2: real -> string)
    requires bytes < 1024.0
    ensures HumanReadable(bytes, fixed2) ==
              if bytes == 0.0 then "0 B" else IntToString(Truncate(bytes)) + " B"
  {
    ScaleBounds(bytes);
  }

  /** At or above 1024 bytes the text is the two-decimal scaled size with a unit from KB to PB. */
  lemma LargeValuesScaled(bytes: real, fixed2: real -> string)
    requires bytes >= 1024.0
    ensures var (s, i) := Scale(bytes, 0);
      && 1 <= i <= 5
      && HumanReadable(bytes, fixed2) == fixed2(s) + " " + Units[i]
  {
    ScaleBounds(bytes);
  }

  // ----- display_bucket_usage_date_range_results -----

  /** The library calls the table and the graph depend on: `float()`, the local-time
      `fromtimestamp(...).strftime('%Y-%m-%d %H:%M:%S')` (`None` where it raises), and the
      `:,.0f` and `:.2f` formattings. */
  datatype Formats = Formats(
    number: string -> Option<real>,
    dateTime: real -> Option<string>,
    grouped: real -> string,
    fixed2: real -> string)

  /** A bare result, or a list of (result, label) pairs. */
  datatype RangeInput = Single(result: QueryResult) | Labelled(ranges: seq<(QueryResult, string)>)

  /** The backward-compatible normalisation: a bare result is one range with an empty label. */
  function Ranges(input: RangeInput): (ranges: seq<(QueryResult, string)>)
    ensures input.Single? ==> ranges == [(input.result, "")]
  {
    match input
    case Single(r) => [(r, "")]
    case Labelled(rs) => rs
  }

  /** A table row; the range label is present only when there are several ranges. */
  datatype TableRow = TableRow(
    rangeLabel: Option<string>,
    timestamp: string,
    bucket: string,
    bytesText: string,
    readable: string)

  /** The outcome of the table builder: the diagnostic when no row was built, or the sorted
      rows; both with the number of failed queries and of ranges. */
  datatype Table =
    | NoData(failedQueries: nat, rangeCount: nat)
    | Filled(rows: seq<TableRow>, failedQueries: nat, rangeCount: nat)

  /** The formatted timestamp of a point: local time, or the raw text when it does not convert. */
  function TimestampText(text: string, fm: Formats): string
  {
    match fm.number(text)
    case None => text
    case Some(t) =>
      match fm.dateTime(t)
      case None => text
      case Some(formatted) => formatted
  }

  /** The row one point of range `i` contributes. */
  function PointRow(multi: bool, tag: string, i: nat, bucket: string, metric: map<string, string>,
                    point: RawPoint, fm: Formats): TableRow
  {
    var rangeLabel := if multi then Some(if tag != "" then tag else "Range " + NatToString(i + 1)) else None;
    var texts :=
      match fm.number(point.value)
      case None => (point.value, point.value)
      case Some(x) => (fm.grouped(x), HumanReadable(x, fm.fixed2));
    TableRow(rangeLabel, TimestampText(point.timestamp, fm), Get(metric, "bucket_name", bucket), texts.0, texts.1)
  }

  /** The rows the points `points` of one series add, in order. */
  function SeriesRows(multi: bool, tag: string, i: nat, bucket: string, metric: map<string, string>,
                      points: seq<RawPoint>, fm: Formats): seq<TableRow>
  {
    seq(|points|, k requires 0 <= k < |points| => PointRow(multi, tag, i, bucket, metric, points[k], fm))
  }

  /** The rows of the successful result `r` of range `i`; a failed result adds none. */
  function ResultRows(multi: bool, tag: string, i: nat, bucket: string, series: seq<Series>, fm: Formats)
    : seq<TableRow>
  {
    if series == [] then []
    else ResultRows(multi, tag, i, bucket, series[..|series| - 1], fm) +
         SeriesRows(multi, tag, i, bucket, series[|series| - 1].metric, series[|series| - 1].values, fm)
  }

  function RangeRows(multi: bool, i: nat, bucket: string, range: (QueryResult, string), fm: Formats): seq<TableRow>
  {
    if range.0.status != "success" then [] else ResultRows(multi, range.1, i, bucket, range.0.result, fm)
  }

  /** All rows of the first `n` ranges, before sorting. */
  function AllRows(multi: bool, ranges: seq<(QueryResult, string)>, n: nat, bucket: string, fm: Formats): seq<TableRow>
    requires n <= |ranges|
  {
    if n == 0 then [] else AllRows(multi, ranges, n - 1, bucket, fm) + RangeRows(multi, n - 1, bucket, ranges[n - 1], fm)
  }

  /** The number of results among the first `n` whose status is not `success`. */
  function FailedCount(ranges: seq<(QueryResult, string)>, n: nat): (c: nat)
    requires n <= |ranges|
    ensures c <= n
  {
    if n == 0 then 0 else FailedCount(ranges, n - 1) + if ranges[n - 1].0.status != "success" then 1 else 0
  }

  /** The number of points in the successful results among the first `n`. */
  function PointCount(ranges: seq<(QueryResult, string)>, n: nat): nat
    requires n <= |ranges|
  {
    if n == 0 then 0
    else PointCount(ranges, n - 1) + if ranges[n - 1].0.status != "success" then 0 else SeriesPoints(ranges[n - 1].0.result)
  }

  function SeriesPoints(series: seq<Series>): nat
  {
    if series == [] then 0 else SeriesPoints(series[..|series| - 1]) + |series[|series| - 1].values|
  }

  /** Rows are ordered by their timestamp text, as Python orders strings. */
  predicate RowLe(a: TableRow, b: TableRow)
  {
    StrLe(a.timestamp, b.timestamp)
  }

  lemma RowLeTotalPreorder()
    ensures Sorting.TotalPreorder(RowLe)
  {
    forall a: TableRow, b: TableRow ensures RowLe(a, b) || RowLe(b, a) {
      StrLeTotal(a.timestamp, b.timestamp);
    }
    forall a: TableRow, b: TableRow, c: TableRow | RowLe(a, b) && RowLe(b, c) ensures RowLe(a, c) {
      StrLeTransitive(a.timestamp, b.timestamp, c.timestamp);
    }
  }

  /** The loop over the series of one successful result. */
  method AppendResultRows(rows: seq<TableRow>, multi: bool, tag: string, i: nat, bucket: string,
                          series: seq<Series>, fm: Formats) returns (out: seq<TableRow>)
    ensures out == rows + ResultRows(multi, tag, i, bucket, series, fm)
  {
    out := rows;
    var j := 0;
    while j < |series|
      invariant 0 <= j <= |series|
      invariant out == rows + ResultRows(multi, tag, i, bucket, series[..j], fm)
    {
      out := AppendSeriesRows(out, multi, tag, i, bucket, series[j].metric, series[j].values, fm);
      ResultRowsStep(multi, tag, i, bucket, series, j, fm);
      j := j + 1;
    }
    assert series[..j] == series;
  }

  /** The loop over the (timestamp, value) pairs of one series: one row each. */
  method AppendSeriesRows(rows: seq<TableRow>, multi: bool, tag: string, i: nat, bucket: string,
                          metric: map<string, string>, points: seq<RawPoint>, fm: Formats)
    returns (out: seq<TableRow>)
    ensures out == rows + SeriesRows(multi, tag, i, bucket, metric, points, fm)
  {
    out := rows;
    var k := 0;
    while k < |points|
      invariant 0 <= k <= |points|
      invariant out == rows + SeriesRows(multi, tag, i, bucket, metric, points[..k], fm)
    {
      SeriesRowsStep(multi, tag, i, bucket, metric, points, k, fm);
      out := out + [PointRow(multi, tag, i, bucket, metric, points[k], fm)];
      k := k + 1;
    }
    assert points[..k] == points;
  }

  /** The rows of `display_bucket_usage_date_range_results`, before rendering. */
  /** What the table of `input` holds: the failure and range counts, the diagnostic exactly
      when no point gave a row, and otherwise every row, sorted by timestamp text. */
  ghost predicate TableFor(table: Table, input: RangeInput, bucket: string, fm: Formats)
  {
    var ranges := Ranges(input);
    var rows := AllRows(|ranges| > 1, ranges, |ranges|, bucket, fm);
    && table.failedQueries == FailedCount(ranges, |ranges|)
    && table.rangeCount == |ranges|
    && (table.NoData? <==> rows == [])
    && (table.Filled? ==> Sorting.SortedBy(table.rows, RowLe) && multiset(table.rows) == multiset(rows))
  }

  method BuildRangeTable(input: RangeInput, bucket: string, fm: Formats) returns (table: Table)
    ensures TableFor(table, input, bucket, fm)
  {
    var ranges := Ranges(input);
    var multi := |ranges| > 1;
    var allRows: seq<TableRow> := [];
    var failedQueries: nat := 0;
    var i := 0;
    while i < |ranges|
      invariant 0 <= i <= |ranges|
      invariant allRows == AllRows(multi, ranges, i, bucket, fm)
      invariant failedQueries == FailedCount(ranges, i)
    {
      var (result, tag) := ranges[i];
      if result.status != "success" {
        failedQueries := failedQueries + 1;
      } else {
        allRows := AppendResultRows(allRows, multi, tag, i, bucket, result.result, fm);
      }
      i := i + 1;
    }
    if allRows == [] {
      table := NoData(failedQueries, |ranges|);
    } else {
      RowLeTotalPreorder();
      table := Filled(Sorting.Sort(allRows, RowLe), failedQueries, |ranges|);
    }
  }

  lemma SeriesRowsStep(multi: bool, tag: string, i: nat, bucket: string, metric: map<string, string>,
                       points: seq<RawPoint>, k: nat, fm: Formats)
    requires k < |points|
    ensures SeriesRows(multi, tag, i, bucket, metric, points[..k + 1], fm) ==
              SeriesRows(multi, tag, i, bucket, metric, points[..k], fm) + [PointRow(multi, tag, i, bucket, metric, points[k], fm)]
  {
    var before := SeriesRows(multi, tag, i, bucket, metric, points[..k], fm);
    var after := SeriesRows(multi, tag, i, bucket, metric, points[..k + 1], fm);
    var row := PointRow(multi, tag, i, bucket, metric, points[k], fm);
    assert |after| == |before + [row]|;
    forall j | 0 <= j < |after| ensures after[j] == (before + [row])[j] {
      assert points[..k + 1][j] == points[j];
    }
  }

  lemma ResultRowsStep(multi: bool, tag: string, i: nat, bucket: string, series: seq<Series>, j: nat, fm: Formats)
    requires j < |series|
    ensures ResultRows(multi, tag, i, bucket, series[..j + 1], fm) ==
              ResultRows(multi, tag, i, bucket, series[..j], fm) + SeriesRows(multi, tag, i, bucket, series[j].metric, series[j].values, fm)
  {
    assert series[..j + 1][..j] == series[..j];
  }

  lemma {:induction false} ResultRowsCount(multi: bool, tag: string, i: nat, bucket: string,
                                           series: seq<Series>, fm: Formats)
    ensures |ResultRows(multi, tag, i, bucket, series, fm)| == SeriesPoints(series)
  {
    if series != [] {
      ResultRowsCount(multi, tag, i, bucket, series[..|series| - 1], fm);
    }
  }

  /** Each (timestamp, value) pair of each successful series adds exactly one row. */
  lemma {:induction false} AllRowsCount(multi: bool, ranges: seq<(QueryResult, string)>, n: nat, bucket: string, fm: Formats)
    requires n <= |ranges|
    ensures |AllRows(multi, ranges, n, bucket, fm)| == PointCount(ranges, n)
  {
    if n > 0 {
      AllRowsCount(multi, ranges, n - 1, bucket, fm);
      var range := ranges[n - 1];
      if range.0.status == "success" {
        ResultRowsCount(multi, range.1, n - 1, bucket, range.0.result, fm);
      }
      assert AllRows(multi, ranges, n, bucket, fm) ==
             AllRows(multi, ranges, n - 1, bucket, fm) + RangeRows(multi, n - 1, bucket, range, fm);
    }
  }

  /** With several ranges every row carries a non-empty label (its own or `Range {i+1}`);
      with one range no row does. */
  lemma {:induction false} RowLabels(multi: bool, ranges: seq<(QueryResult, string)>, n: nat, bucket: string, fm: Formats)
    requires n <= |ranges|
    ensures forall r :: r in AllRows(multi, ranges, n, bucket, fm) ==>
              (r.rangeLabel.Some? <==> multi) && (r.rangeLabel.Some? ==> r.rangeLabel.value != "")
  {
    if n > 0 {
      RowLabels(multi, ranges, n - 1, bucket, fm);
      RangeLabels(multi, n - 1, bucket, ranges[n - 1], fm);
      assert AllRows(multi, ranges, n, bucket, fm) ==
             AllRows(multi, ranges, n - 1, bucket, fm) + RangeRows(multi, n - 1, bucket, ranges[n - 1], fm);
    }
  }

  lemma RangeLabels(multi: bool, i: nat, bucket: string, range: (QueryResult, string), fm: Formats)
    ensures forall r :: r in RangeRows(multi, i, bucket, range, fm) ==>
              (r.rangeLabel.Some? <==> multi) && (r.rangeLabel.Some? ==> r.rangeLabel.value != "")
  {
    if range.0.status == "success" {
      ResultLabels(multi, range.1, i, bucket, range.0.result, fm);
    }
  }

  lemma {:induction false} ResultLabels(multi: bool, tag: string, i: nat, bucket: string, series: seq<Series>, fm: Formats)
    ensures forall r :: r in ResultRows(multi, tag, i, bucket, series, fm) ==>
              (r.rangeLabel.Some? <==> multi) && (r.rangeLabel.Some? ==> r.rangeLabel.value != "")
  {
    if series != [] {
      ResultLabels(multi, tag, i, bucket, series[..|series| - 1], fm);
      var last := series[|series| - 1];
      SeriesLabels(multi, tag, i, bucket, last.metric, last.values, fm);
    }
  }

  lemma {:induction false} SeriesLabels(multi: bool, tag: string, i: nat, bucket: string,
                                        metric: map<string, string>, points: seq<RawPoint>, fm: Formats)
    ensures forall r :: r in SeriesRows(multi, tag, i, bucket, metric, points, fm) ==>
              (r.rangeLabel.Some? <==> multi) && (r.rangeLabel.Some? ==> r.rangeLabel.value != "")
  {
    var rows := SeriesRows(multi, tag, i, bucket, metric, points, fm);
    forall r | r in rows ensures (r.rangeLabel.Some? <==> multi) && (r.rangeLabel.Some? ==> r.rangeLabel.value != "") {
      var k :| 0 <= k < |rows| && rows[k] == r;
      assert r == PointRow(multi, tag, i, bucket, metric, points[k], fm);
    }
  }

  /** When every query failed, the table is the diagnostic and counts them all. */
  lemma {:induction false} AllFailed(ranges: seq<(QueryResult, string)>, n: nat, bucket: string, fm: Formats)
    requires n <= |ranges|
    requires forall i :: 0 <= i < n ==> ranges[i].0.status != "success"
    ensures AllRows(|ranges| > 1, ranges, n, bucket, fm) == []
    ensures FailedCount(ranges, n) == n
  {
    if n > 0 {
      AllFailed(ranges, n - 1, bucket, fm);
    }
  }

  // ----- create_hourly_usage_graph -----

  /** Bytes per GiB, the graph's unit. */
  const GiB: real := 1073741824.0

  /** A graph point: seconds since the epoch and GiB. */
  type Point = (real, real)

  /** The points of one series that `float()` accepts in both fields, in order. */
  function ValidPoints(points: seq<RawPoint>, number: string -> Option<real>): seq<Point>
  {
    if points == [] then []
    else
      var init := ValidPoints(points[..|points| - 1], number);
      var last := points[|points| - 1];
      match (number(last.timestamp), number(last.value))
      case (Some(t), Some(v)) => init + [(t, v / GiB)]
      case _ => init
  }

  function SeriesValidPoints(series: seq<Series>, number: string -> Option<real>): seq<Point>
  {
    if series == [] then []
    else SeriesValidPoints(series[..|series| - 1], number) + ValidPoints(series[|series| - 1].values, number)
  }

  /** The points the graph is drawn from: those of a successful, non-empty result. */
  function HourlyPoints(r: QueryResult, number: string -> Option<real>): seq<Point>
  {
    if r.status == "success" && r.result != [] then SeriesValidPoints(r.result, number) else []
  }

  predicate TimeLe(a: Point, b: Point)
  {
    a.0 <= b.0
  }

  lemma TimeLeTotalPreorder()
    ensures Sorting.TotalPreorder(TimeLe)
  {
  }

  function Values(points: seq<Point>): (vs: seq<real>)
    ensures |vs| == |points| && forall i :: 0 <= i < |points| ==> vs[i] == points[i].1
  {
    seq(|points|, i requires 0 <= i < |points| => points[i].1)
  }

  /** `start[:19].replace(':', '-').replace('T', '_')`. */
  function StampPart(s: string): (r: string)
    ensures |r| == if |s| < 19 then |s| else 19
    ensures ':' !in r && 'T' !in r
  {
    ReplaceChar(ReplaceChar(Take(s, 19), ':', '-'), 'T', '_')
  }

  function GraphFileName(bucket: string, start: string, end: string): string
  {
    bucket + "_NooBaa_bucket_used_bytes_" + StampPart(start) + "_to_" + StampPart(end) + ".png"
  }

  /** `os.path.join(dir, name)` for POSIX paths. */
  function JoinPath(dir: string, name: string): (path: string)
    ensures EndsWith(path, name)
  {
    if StartsWith(name, "/") || dir == [] then name
    else if EndsWith(dir, "/") then dir + name
    else dir + "/" + name
  }

  /** An RFC3339 instant `YYYY-MM-DDTHH:MM:SS...` becomes `YYYY-MM-DD_HH-MM-SS`. */
  lemma StampPartOfRfc3339(s: string)
    requires |s| >= 19 && s[10] == 'T' && s[13] == ':' && s[16] == ':'
    requires forall i :: 0 <= i < 19 && i != 10 && i != 13 && i != 16 ==> s[i] != ':' && s[i] != 'T'
    ensures StampPart(s) == s[..10] + "_" + s[11..13] + "-" + s[14..16] + "-" + s[17..19]
  {
    var r := StampPart(s);
    var e := s[..10] + "_" + s[11..13] + "-" + s[14..16] + "-" + s[17..19];
    assert |r| == |e| == 19;
    forall i | 0 <= i < 19 ensures r[i] == e[i] {
      var t := Take(s, 19);
      assert t[i] == s[i];
    }
  }

  /** What `create_hourly_usage_graph` computes before drawing. */
  datatype HourlyGraph = HourlyGraph(points: seq<Point>, stats: Statistics.Summary, path: string)

  /** What the graph of `r` holds: nothing exactly when no point is valid, and otherwise every
      valid point in time order, their statistics and the file the image goes to. */
  ghost predicate GraphFor(graph: Option<HourlyGraph>, r: QueryResult, bucket: string, start: string, end: string,
                     outputDir: string, number: string -> Option<real>)
  {
    && (graph.None? <==> HourlyPoints(r, number) == [])
    && (graph.Some? ==>
      var g := graph.value;
      && Sorting.SortedBy(g.points, TimeLe)
      && multiset(g.points) == multiset(HourlyPoints(r, number))
      && |g.points| > 0
      && g.stats == Statistics.Summarise(Values(g.points))
      && g.path == JoinPath(JoinPath(outputDir, "results"), GraphFileName(bucket, start, end)))
  }

  /** `create_hourly_usage_graph`, with each point kept only when both of its fields parse;
      `None` where it reports that no valid data was found. */
  method CreateHourlyUsageGraph(r: QueryResult, bucket: string, start: string, end: string, outputDir: string,
                                number: string -> Option<real>)
    returns (graph: Option<HourlyGraph>)
    ensures GraphFor(graph, r, bucket, start, end, outputDir, number)
  {
    var points: seq<Point> := [];
    if r.status == "success" && r.result != [] {
      var j := 0;
      while j < |r.result|
        invariant 0 <= j <= |r.result|
        invariant points == SeriesValidPoints(r.result[..j], number)
      {
        points := AppendValidPoints(points, r.result[j].values, number);
        assert r.result[..j + 1][..j] == r.result[..j];
        j := j + 1;
      }
      assert r.result[..j] == r.result;
    }
    if points == [] {
      return None;
    }
    TimeLeTotalPreorder();
    var sorted := Sorting.Sort(points, TimeLe);
    var stats := Statistics.Summarise(Values(sorted));
    var path := JoinPath(JoinPath(outputDir, "results"), GraphFileName(bucket, start, end));
    graph := Some(HourlyGraph(sorted, stats, path));
  }

  /** The loop over the pairs of one series. */
  method AppendValidPoints(acc: seq<Point>, points: seq<RawPoint>, number: string -> Option<real>)
    returns (out: seq<Point>)
    ensures out == acc + ValidPoints(points, number)
  {
    out := acc;
    var k := 0;
    while k < |points|
      invariant 0 <= k <= |points|
      invariant out == acc + ValidPoints(points[..k], number)
    {
      assert points[..k + 1][..k] == points[..k];
      var t := number(points[k].timestamp);
      var v := number(points[k].value);
      if t.Some? && v.Some? {
        out := out + [(t.value, v.value / GiB)];
      }
      k := k + 1;
    }
    assert points[..k] == points;
  }

  /** A point survives exactly when both its fields parse, and in GiB. */
  lemma {:induction false} ValidPointsMembers(points: seq<RawPoint>, number: string -> Option<real>, q: Point)
    ensures q in ValidPoints(points, number) <==>
              exists i :: 0 <= i < |points| && number(points[i].timestamp) == Some(q.0) &&
                          number(points[i].value).Some? && q.1 == number(points[i].value).value / GiB
  {
    if points != [] {
      var init := points[..|points| - 1];
      ValidPointsMembers(init, number, q);
      var n := |points| - 1;
      if exists i :: 0 <= i < |init| && number(init[i].timestamp) == Some(q.0) &&
                     number(init[i].value).Some? && q.1 == number(init[i].value).value / GiB {
        var i :| 0 <= i < |init| && number(init[i].timestamp) == Some(q.0) &&
                 number(init[i].value).Some? && q.1 == number(init[i].value).value / GiB;
        assert points[i] == init[i];
      }
      if exists i :: 0 <= i < |points| && number(points[i].timestamp) == Some(q.0) &&
                     number(points[i].value).Some? && q.1 == number(points[i].value).value / GiB {
        var i :| 0 <= i < |points| && number(points[i].timestamp) == Some(q.0) &&
                 number(points[i].value).Some? && q.1 == number(points[i].value).value / GiB;
        if i < n {
          assert init[i] == points[i];
        }
      }
    }
  }

  /** There are at most as many points as pairs. */
  lemma {:induction false} ValidPointsAtMost(points: seq<RawPoint>, number: string -> Option<real>)
    ensures |ValidPoints(points, number)| <= |points|
  {
    if points != [] {
      ValidPointsAtMost(points[..|points| - 1], number);
    }
  }

  // The extraction as the source writes it: the timestamp is appended as soon as it
  // parses, before the value is parsed, so a point whose value does not parse leaves an
  // unmatched timestamp behind, and `zip` then pairs later timestamps with earlier values.

  /** The `timestamps` and `values` lists of the source's extraction loop. */
  function ExtractAsWritten(points: seq<RawPoint>, number: string -> Option<real>): (seq<real>, seq<real>)
  {
    if points == [] then ([], [])
    else
      var prev := ExtractAsWritten(points[..|points| - 1], number);
      var last := points[|points| - 1];
      match number(last.timestamp)
      case None => prev
      case Some(t) =>
        match number(last.value)
        case None => (prev.0 + [t], prev.1)
        case Some(v) => (prev.0 + [t], prev.1 + [v / GiB])
  }

  /** Python's `zip`: pairs up to the shorter list. */
  function Zip(ts: seq<real>, vs: seq<real>): (ps: seq<Point>)
    ensures |ps| == if |ts| < |vs| then |ts| else |vs|
    ensures forall i :: 0 <= i < |ps| ==> ps[i] == (ts[i], vs[i])
  {
    var n := if |ts| < |vs| then |ts| else |vs|;
    seq(n, i requires 0 <= i < n => (ts[i], vs[i]))
  }

  /** The points the source pairs up from one series, before sorting. */
  function PointsAsWritten(points: seq<RawPoint>, number: string -> Option<real>): seq<Point>
  {
    var columns := ExtractAsWritten(points, number);
    Zip(columns.0, columns.1)
  }

  /** `zip(*combined)`: the time column and the value column of the points. */
  function Unzip(points: seq<Point>): (columns: (seq<real>, seq<real>))
    ensures |columns.0| == |points| && |columns.1| == |points|
    ensures forall i :: 0 <= i < |points| ==> columns.0[i] == points[i].0 && columns.1[i] == points[i].1
  {
    (seq(|points|, i requires 0 <= i < |points| => points[i].0), Values(points))
  }

  /** `zip(*combined)` undone by `zip`: pairing the two columns again gives back the points. */
  lemma ZipUnzip(points: seq<Point>)
    ensures Zip(Unzip(points).0, Unzip(points).1) == points
  {
    var columns := Unzip(points);
    var z := Zip(columns.0, columns.1);
    assert |z| == |points|;
    forall i | 0 <= i < |points| ensures z[i] == points[i] {
      assert z[i] == (columns.0[i], columns.1[i]);
    }
  }

  /** No pair of `points` has a timestamp that parses and a value that does not: the case
      where the source's two lists stay aligned. */
  predicate Aligned(points: seq<RawPoint>, number: string -> Option<real>)
  {
    forall i :: 0 <= i < |points| && number(points[i].timestamp).Some? ==> number(points[i].value).Some?
  }

  /** For aligned pairs, the source's two lists are the two columns of the valid points. */
  lemma {:induction false} AlignedExtract(points: seq<RawPoint>, number: string -> Option<real>)
    requires Aligned(points, number)
    ensures ExtractAsWritten(points, number) == Unzip(ValidPoints(points, number))
  {
    if points != [] {
      var init := points[..|points| - 1];
      assert Aligned(init, number) by {
        forall i | 0 <= i < |init| && number(init[i].timestamp).Some? ensures number(init[i].value).Some? {
          assert init[i] == points[i];
        }
      }
      AlignedExtract(init, number);
      var last := points[|points| - 1];
      var before := ValidPoints(init, number);
      if number(last.timestamp).Some? {
        assert number(last.value).Some?;
        var q := (number(last.timestamp).value, number(last.value).value / GiB);
        assert ValidPoints(points, number) == before + [q];
        ColumnsAppend(before, [q]);
        assert Unzip([q]).0 == [q.0] && Unzip([q]).1 == [q.1];
      }
    }
  }

  /** Where no pair strands its timestamp, the source's extraction of one series gives
      exactly the valid points. */
  lemma AlignedPoints(points: seq<RawPoint>, number: string -> Option<real>)
    requires Aligned(points, number)
    ensures PointsAsWritten(points, number) == ValidPoints(points, number)
  {
    AlignedExtract(points, number);
    ZipUnzip(ValidPoints(points, number));
  }

  /** The `timestamps` and `values` lists after the source's loop over every series. */
  function ExtractAllAsWritten(series: seq<Series>, number: string -> Option<real>): (seq<real>, seq<real>)
  {
    if series == [] then ([], [])
    else
      var prev := ExtractAllAsWritten(series[..|series| - 1], number);
      var more := ExtractAsWritten(series[|series| - 1].values, number);
      (prev.0 + more.0, prev.1 + more.1)
  }

  /** The points the source graphs from `r`, before sorting: `zip` of its two lists, or none
      when either list is empty. */
  function HourlyPointsAsWritten(r: QueryResult, number: string -> Option<real>): seq<Point>
  {
    if r.status != "success" || r.result == [] then []
    else
      var columns := ExtractAllAsWritten(r.result, number);
      if columns.0 == [] || columns.1 == [] then [] else Zip(columns.0, columns.1)
  }

  lemma {:induction false} AlignedExtractAll(series: seq<Series>, number: string -> Option<real>)
    requires forall k :: 0 <= k < |series| ==> Aligned(series[k].values, number)
    ensures ExtractAllAsWritten(series, number) == Unzip(SeriesValidPoints(series, number))
  {
    if series != [] {
      var init := series[..|series| - 1];
      var last := series[|series| - 1].values;
      assert forall k :: 0 <= k < |init| ==> init[k] == series[k];
      AlignedExtractAll(init, number);
      AlignedExtract(last, number);
      ColumnsAppend(SeriesValidPoints(init, number), ValidPoints(last, number));
    }
  }

  /** Unzipping a concatenation concatenates the columns. */
  lemma ColumnsAppend(a: seq<Point>, b: seq<Point>)
    ensures Unzip(a + b) == (Unzip(a).0 + Unzip(b).0, Unzip(a).1 + Unzip(b).1)
  {
    assert Unzip(a + b).0 == Unzip(a).0 + Unzip(b).0;
    assert Unzip(a + b).1 == Unzip(a).1 + Unzip(b).1;
  }

  /** Where no pair of any series strands its timestamp, the source graphs exactly the
      points `CreateHourlyUsageGraph` graphs: the misalignment is the only difference. */
  lemma AlignedHourly(r: QueryResult, number: string -> Option<real>)
    requires forall k :: 0 <= k < |r.result| ==> Aligned(r.result[k].values, number)
    ensures HourlyPointsAsWritten(r, number) == HourlyPoints(r, number)
  {
    if r.status == "success" && r.result != [] {
      var ps := SeriesValidPoints(r.result, number);
      AlignedExtractAll(r.result, number);
      ZipUnzip(ps);
    }
  }

  /** A series whose first pair has an unparsable value: the source pairs the first
      timestamp with the second value, and drops the second timestamp; the corrected
      extraction keeps the second pair intact. */
  lemma MisalignedPairs(number: string -> Option<real>)
    requires number("1") == Some(1.0) && number("x").None?
    requires number("2") == Some(2.0) && number("5") == Some(5.0)
    ensures PointsAsWritten([RawPoint("1", "x"), RawPoint("2", "5")], number) == [(1.0, 5.0 / GiB)]
    ensures ValidPoints([RawPoint("1", "x"), RawPoint("2", "5")], number) == [(2.0, 5.0 / GiB)]
  {
    MisalignedPairsFor(number, RawPoint("1", "x"), RawPoint("2", "5"));
  }

  lemma MisalignedPairsFor(number: string -> Option<real>, p1: RawPoint, p2: RawPoint)
    requires number(p1.timestamp) == Some(1.0) && number(p1.value).None?
    requires number(p2.timestamp) == Some(2.0) && number(p2.value) == Some(5.0)
    ensures PointsAsWritten([p1, p2], number) == [(1.0, 5.0 / GiB)]
    ensures ValidPoints([p1, p2], number) == [(2.0, 5.0 / GiB)]
  {
    var pts := [p1, p2];
    assert pts[..1] == [p1] && pts[1] == p2;
    assert [p1][..0] == [] && [p1][0] == p1;
    var none: seq<real> := [];
    assert ExtractAsWritten([], number) == (none, none);
    assert none + [1.0] == [1.0];
    var first := ExtractAsWritten([p1], number);
    assert first == ([1.0], none);
    assert [1.0] + [2.0] == [1.0, 2.0];
    assert none + [5.0 / GiB] == [5.0 / GiB];
    assert ExtractAsWritten(pts, number) == ([1.0, 2.0], [5.0 / GiB]);
    var nothing: seq<Point> := [];
    assert ValidPoints([p1], number) == nothing;
    assert nothing + [(2.0, 5.0 / GiB)] == [(2.0, 5.0 / GiB)];
  }
}
