/** The command-line front end: the argument checks of `main`, in the order they run, and
    the observability impact analysis, which plans three consecutive day windows from a
    start time, queries each, and then queries the hourly average over the whole span.
    Times are seconds of wall-clock time; `rfc` is the `%Y-%m-%dT%H:%M:%SZ` rendering of
    such a time, and the backend is the client's HTTP session. */
module ImpactAnalysis {
  import opened Wrappers
  import opened Strings
  import opened Prometheus

  const Bucket: string := "observability"

  /** `timedelta(hours=24)`: the distance between consecutive window starts. */
  const WindowStep: int := 24 * 3600

  /** `timedelta(hours=23.99)`: 86363.99999999999 seconds as a float, which `timedelta`
      rounds to the microsecond, giving exactly 86364 seconds. */
  const WindowLength: int := 86364

  const WindowCount: nat := 3

  /** The tool rejects tokens shorter than this. */
  const MinTokenLength: nat := 10

  /** One day window: its first and last second and its `Day n: start to end` label. */
  datatype Window = Window(start: int, end: int, caption: string)

  /** The `i`-th window planned from the start time `t0` (counting from 0). */
  function PlannedWindow(t0: int, i: nat, rfc: int -> string): Window
  {
    var start := t0 + WindowStep * i;
    var end := start + WindowLength;
    Window(start, end, "Day " + NatToString(i + 1) + ": " + rfc(start) + " to " + rfc(end))
  }

  /** The daily query of a window: one average per 24 hours. */
  function DailyRequest(bucket: string, w: Window, rfc: int -> string): Request
  {
    RangeQuery(bucket, rfc(w.start), rfc(w.end), 24)
  }

  /** The hourly query: from the first window's start to the last window's end, one point per hour. */
  function HourlyRequest(bucket: string, t0: int, rfc: int -> string): Request
  {
    RangeQuery(bucket, rfc(t0), rfc(PlannedWindow(t0, WindowCount - 1, rfc).end), 1)
  }

  /** The `k`-th request of a complete three-day analysis: the daily queries, then the hourly one. */
  function PlannedRequest(bucket: string, t0: int, rfc: int -> string, k: nat): Request
  {
    if k < WindowCount then DailyRequest(bucket, PlannedWindow(t0, k, rfc), rfc) else HourlyRequest(bucket, t0, rfc)
  }

  /** Every request of a complete three-day analysis, in the order they are sent. */
  function PlannedRequests(bucket: string, t0: int, rfc: int -> string): (rs: seq<Request>)
  {
    seq(WindowCount + 1, k requires 0 <= k => PlannedRequest(bucket, t0, rfc, k))
  }

  /** The start text of the title: the second `:`-piece of the first label, stripped,
      up to ` to `; `None` where the piece does not exist (an `IndexError`). */
  function TitleStart(caption: string): Option<string>
  {
    var parts := Split(caption, ":");
    if |parts| < 2 then None else Some(Split(Strip(parts[1]), " to ")[0])
  }

  function DailyTitle(caption: string): Option<string>
  {
    match TitleStart(caption)
    case None => None
    case Some(text) => Some("\U{1F4CA} 3-Day Observability Impact Analysis (starting " + text + ")")
  }

  /** What the hourly part shows: its table and graph, or the message of the error record. */
  datatype Hourly =
    | HourlyShown(title: string, table: Table, graph: Option<HourlyGraph>)
    | HourlyMissing(message: Option<string>)

  /** The outcome of `observability_impact_analysis`. A failing hourly query ends the
      analysis after the daily table is already shown, so that outcome keeps the table. */
  datatype Analysis =
    | ThreeDay(windows: seq<Window>, ranges: seq<(QueryResult, string)>, title: string, table: Table,
               hourlyResult: QueryResult, hourly: Hourly)
    | HourlyFailed(windows: seq<Window>, ranges: seq<(QueryResult, string)>, title: string, table: Table,
                   message: string)
    | LastDay(result: QueryResult)
    | Aborted(message: string)

  /** How the requests of an analysis from `t0` follow the plan: they are the plan's first
      requests, in order; every one but the last was answered; and the analysis stops early
      exactly when the last one failed. */
  ghost predicate FollowsPlan(bucket: string, t0: int, rfc: int -> string,
                              backend: Request -> Result<QueryResult, BackendError>,
                              analysis: Analysis, requests: seq<Request>)
  {
    && 1 <= |requests| <= WindowCount + 1
    && requests == PlannedRequests(bucket, t0, rfc)[..|requests|]
    && (forall k :: 0 <= k < |requests| - 1 ==> backend(requests[k]).Success?)
    && (analysis.Aborted? || analysis.HourlyFailed? <==> backend(requests[|requests| - 1]).Failure?)
    && (analysis.ThreeDay? || analysis.HourlyFailed? || analysis.Aborted?)
    && (analysis.ThreeDay? || analysis.HourlyFailed? <==> requests == PlannedRequests(bucket, t0, rfc))
  }

  /** The three windows of a completed analysis: the planned ones, each with its answer,
      labelled with its caption. */
  ghost predicate DaysAnswered(bucket: string, t0: int, rfc: int -> string,
                               backend: Request -> Result<QueryResult, BackendError>,
                               windows: seq<Window>, ranges: seq<(QueryResult, string)>)
  {
    && |windows| == WindowCount && |ranges| == WindowCount
    && forall k :: 0 <= k < WindowCount ==>
      && windows[k] == PlannedWindow(t0, k, rfc)
      && ranges[k].1 == windows[k].caption
      && RangeAnswer(bucket, rfc(windows[k].start), rfc(windows[k].end), 24, backend) == Success(ranges[k].0)
  }

  /** What is shown once the three days are answered: the daily table under the title made
      from the first label. */
  ghost predicate DailyShown(bucket: string, fm: Formats, windows: seq<Window>,
                             ranges: seq<(QueryResult, string)>, title: string, table: Table)
    requires |windows| == WindowCount
  {
    && DailyTitle(windows[0].caption) == Some(title)
    && TableFor(table, Labelled(ranges), bucket, fm)
  }

  /** What a completed analysis shows: the daily table under its title, and the hourly query
      over the whole span with its table and graph, or its error message. */
  ghost predicate ReportShown(bucket: string, t0: int, rfc: int -> string, fm: Formats, outputDir: string,
                              backend: Request -> Result<QueryResult, BackendError>,
                              windows: seq<Window>, ranges: seq<(QueryResult, string)>, title: string,
                              table: Table, hourlyResult: QueryResult, hourly: Hourly)
    requires |windows| == WindowCount
  {
    var first := rfc(t0);
    var last := rfc(windows[WindowCount - 1].end);
    && DailyShown(bucket, fm, windows, ranges, title, table)
    && RangeAnswer(bucket, first, last, 1, backend) == Success(hourlyResult)
    && (hourly.HourlyShown? <==> hourlyResult.status == "success" && hourlyResult.result != [])
    && (hourly.HourlyShown? ==>
          && hourly.title == "\U{1F4C8} Hourly Average Consumption (" + first + " to " + last + ")"
          && TableFor(hourly.table, Single(hourlyResult), bucket, fm)
          && GraphFor(hourly.graph, hourlyResult, bucket, first, last, outputDir, fm.number))
    && (hourly.HourlyMissing? ==>
          hourly.message == if hourlyResult.errorInfo.Some? then Some(hourlyResult.errorInfo.value.message) else None)
  }

  /** What an analysis whose hourly query failed shows: the daily table under its title, and
      the message of the hourly query's failure. */
  ghost predicate HourlyFailureShown(bucket: string, t0: int, rfc: int -> string, fm: Formats,
                                     backend: Request -> Result<QueryResult, BackendError>,
                                     windows: seq<Window>, ranges: seq<(QueryResult, string)>, title: string,
                                     table: Table, message: string)
    requires |windows| == WindowCount
  {
    var answer := RangeAnswer(bucket, rfc(t0), rfc(windows[WindowCount - 1].end), 1, backend);
    && DailyShown(bucket, fm, windows, ranges, title, table)
    && answer.Failure? && answer.error.message == message
  }

  /** The directory the hourly graph is written under: `create_hourly_usage_graph` is
      called without `output_dir`, so its default applies. */
  const GraphDir: string := "."

  /** The analysis. With a start time it queries the three planned windows in order, builds
      their table, and then queries and shows the hourly average; without one it queries the
      last 24 hours. Any failing query ends it with the failure's message. */
  method ObservabilityImpactAnalysis(start: Option<int>, rfc: int -> string, fm: Formats,
                                     backend: Request -> Result<QueryResult, BackendError>)
    returns (analysis: Analysis, requests: seq<Request>)
    ensures start.None? ==> requests == [AverageRequest(Bucket, 24)]
    ensures start.None? ==>
      match AverageUsage(Bucket, 24, backend)
      case Success(r) => analysis == LastDay(r)
      case Failure(e) => analysis == Aborted(e.message)
    ensures start.Some? ==> FollowsPlan(Bucket, start.value, rfc, backend, analysis, requests)
    ensures analysis.ThreeDay? ==>
      && start.Some?
      && DaysAnswered(Bucket, start.value, rfc, backend, analysis.windows, analysis.ranges)
      && ReportShown(Bucket, start.value, rfc, fm, GraphDir, backend, analysis.windows, analysis.ranges,
                     analysis.title, analysis.table, analysis.hourlyResult, analysis.hourly)
    ensures analysis.HourlyFailed? ==>
      && start.Some?
      && DaysAnswered(Bucket, start.value, rfc, backend, analysis.windows, analysis.ranges)
      && HourlyFailureShown(Bucket, start.value, rfc, fm, backend, analysis.windows, analysis.ranges,
                            analysis.title, analysis.table, analysis.message)
  {
    if start.None? {
      requests := [AverageRequest(Bucket, 24)];
      var outcome := AverageUsage(Bucket, 24, backend);
      if outcome.Success? {
        analysis := LastDay(outcome.value);
      } else {
        analysis := Aborted(outcome.error.message);
      }
    } else {
      analysis, requests := ThreeDayAnalysis(Bucket, start.value, rfc, fm, GraphDir, backend);
    }
  }

  /** The analysis from a start time. */
  method ThreeDayAnalysis(bucket: string, t0: int, rfc: int -> string, fm: Formats, outputDir: string,
                          backend: Request -> Result<QueryResult, BackendError>)
    returns (analysis: Analysis, requests: seq<Request>)
    ensures FollowsPlan(bucket, t0, rfc, backend, analysis, requests)
    ensures analysis.ThreeDay? ==>
      && DaysAnswered(bucket, t0, rfc, backend, analysis.windows, analysis.ranges)
      && ReportShown(bucket, t0, rfc, fm, outputDir, backend, analysis.windows, analysis.ranges,
                     analysis.title, analysis.table, analysis.hourlyResult, analysis.hourly)
    ensures analysis.HourlyFailed? ==>
      && DaysAnswered(bucket, t0, rfc, backend, analysis.windows, analysis.ranges)
      && HourlyFailureShown(bucket, t0, rfc, fm, backend, analysis.windows, analysis.ranges,
                            analysis.title, analysis.table, analysis.message)
  {
    var windows, ranges, failure;
    windows, ranges, requests, failure := QueryDays(bucket, t0, rfc, backend);
    DaysFollowPlan(bucket, t0, rfc, backend, windows, ranges, requests, failure.Some?);
    if failure.Some? {
      analysis := Aborted(failure.value);
      AbortedPlan(bucket, t0, rfc, backend, requests, failure.value);
      return;
    }
    DaysAnsweredByLoop(bucket, t0, rfc, backend, windows, ranges, requests);
    var hourlyRequest;
    analysis, hourlyRequest := Report(bucket, t0, rfc, fm, outputDir, backend, windows, ranges);
    CompletedPlan(bucket, t0, rfc, backend, analysis, requests, hourlyRequest);
    requests := requests + [hourlyRequest];
  }

  /** After the days: the daily table and title, then the hourly query and its display. A
      failing hourly query ends the analysis with its message, after the daily table. */
  method Report(bucket: string, t0: int, rfc: int -> string, fm: Formats, outputDir: string,
                backend: Request -> Result<QueryResult, BackendError>,
                windows: seq<Window>, ranges: seq<(QueryResult, string)>)
    returns (analysis: Analysis, hourlyRequest: Request)
    requires DaysAnswered(bucket, t0, rfc, backend, windows, ranges)
    ensures hourlyRequest == HourlyRequest(bucket, t0, rfc)
    ensures analysis.ThreeDay? || analysis.HourlyFailed?
    ensures analysis.HourlyFailed? <==> backend(hourlyRequest).Failure?
    ensures analysis.windows == windows && analysis.ranges == ranges
    ensures analysis.ThreeDay? ==>
      ReportShown(bucket, t0, rfc, fm, outputDir, backend, windows, ranges,
                  analysis.title, analysis.table, analysis.hourlyResult, analysis.hourly)
    ensures analysis.HourlyFailed? ==>
      HourlyFailureShown(bucket, t0, rfc, fm, backend, windows, ranges, analysis.title, analysis.table,
                         analysis.message)
  {
    var table := BuildRangeTable(Labelled(ranges), bucket, fm);
    assert windows[0] == PlannedWindow(t0, 0, rfc);
    CaptionHasColon(t0, rfc);
    var title := MakeTitle(ranges[0].1);
    var first := rfc(t0);
    var last := rfc(windows[WindowCount - 1].end);
    hourlyRequest := RangeQuery(bucket, first, last, 1);
    var hourlyOutcome := RangeAnswer(bucket, first, last, 1, backend);
    if hourlyOutcome.Failure? {
      analysis := HourlyFailed(windows, ranges, title, table, hourlyOutcome.error.message);
      return;
    }
    var r := hourlyOutcome.value;
    var hourly := ShowHourly(bucket, r, first, last, fm, outputDir);
    analysis := ThreeDay(windows, ranges, title, table, r, hourly);
  }

  /** The title of the daily table, built from the first label. */
  method MakeTitle(caption: string) returns (title: string)
    requires TitleStart(caption).Some?
    ensures DailyTitle(caption) == Some(title)
  {
    title := "\U{1F4CA} 3-Day Observability Impact Analysis (starting " + TitleStart(caption).value + ")";
  }

  /** The loop over the three windows: each is queried in turn, and the first failing query
      ends the loop with its message. */
  method QueryDays(bucket: string, t0: int, rfc: int -> string, backend: Request -> Result<QueryResult, BackendError>)
    returns (windows: seq<Window>, ranges: seq<(QueryResult, string)>, requests: seq<Request>,
             failure: Option<string>)
    ensures 1 <= |requests| <= WindowCount
    ensures |windows| == |ranges| == if failure.Some? then |requests| - 1 else |requests|
    ensures forall k :: 0 <= k < |windows| ==> Queried(bucket, t0, k, rfc, backend, windows[k], requests[k], ranges[k])
    ensures failure.Some? ==>
      var last := |requests| - 1;
      requests[last] == DailyRequest(bucket, PlannedWindow(t0, last, rfc), rfc) && backend(requests[last]).Failure?
    ensures failure.None? ==> |requests| == WindowCount
  {
    var current := t0;
    windows, ranges, requests := [], [], [];
    var i: nat := 0;
    while i < WindowCount
      invariant i <= WindowCount
      invariant current == t0 + WindowStep * i
      invariant |windows| == i && |ranges| == i && |requests| == i
      invariant forall k :: 0 <= k < i ==> Queried(bucket, t0, k, rfc, backend, windows[k], requests[k], ranges[k])
    {
      var w, request, outcome := QueryWindow(bucket, current, i, rfc, backend);
      assert w == PlannedWindow(t0, i, rfc);
      requests := requests + [request];
      if outcome.Failure? {
        return windows, ranges, requests, Some(outcome.error.message);
      }
      windows := windows + [w];
      ranges := ranges + [(outcome.value, w.caption)];
      current := current + WindowStep;
      i := i + 1;
    }
    failure := None;
  }

  /** The `k`-th window was planned, asked for and answered. */
  ghost predicate Queried(bucket: string, t0: int, k: nat, rfc: int -> string,
                          backend: Request -> Result<QueryResult, BackendError>,
                          w: Window, request: Request, range: (QueryResult, string))
  {
    && w == PlannedWindow(t0, k, rfc)
    && request == DailyRequest(bucket, w, rfc)
    && backend(request).Success?
    && range.1 == w.caption
    && RangeAnswer(bucket, rfc(w.start), rfc(w.end), 24, backend) == Success(range.0)
  }

  /** One pass of the loop: the window starting at `current`, its request and its outcome. */
  method QueryWindow(bucket: string, current: int, i: nat, rfc: int -> string,
                     backend: Request -> Result<QueryResult, BackendError>)
    returns (w: Window, request: Request, outcome: Result<QueryResult, QueryError>)
    ensures w == PlannedWindow(current - WindowStep * i, i, rfc)
    ensures request == DailyRequest(bucket, w, rfc)
    ensures outcome == RangeAnswer(bucket, rfc(w.start), rfc(w.end), 24, backend)
    ensures outcome.Failure? <==> backend(request).Failure?
  {
    var rangeStart := rfc(current);
    var rangeEnd := current + WindowLength;
    var rangeEndText := rfc(rangeEnd);
    request := RangeQuery(bucket, rangeStart, rangeEndText, 24);
    outcome := RangeAnswer(bucket, rangeStart, rangeEndText, 24, backend);
    w := Window(current, rangeEnd, "Day " + NatToString(i + 1) + ": " + rangeStart + " to " + rangeEndText);
  }

  /** The hourly part: its table and graph for a successful, non-empty result, and otherwise
      the message of the error record, if any. */
  method ShowHourly(bucket: string, r: QueryResult, first: string, last: string, fm: Formats, outputDir: string)
    returns (hourly: Hourly)
    ensures hourly.HourlyShown? <==> r.status == "success" && r.result != []
    ensures hourly.HourlyShown? ==>
      && hourly.title == "\U{1F4C8} Hourly Average Consumption (" + first + " to " + last + ")"
      && TableFor(hourly.table, Single(r), bucket, fm)
      && GraphFor(hourly.graph, r, bucket, first, last, outputDir, fm.number)
    ensures hourly.HourlyMissing? ==>
      hourly.message == if r.errorInfo.Some? then Some(r.errorInfo.value.message) else None
  {
    if r.status == "success" && r.result != [] {
      var table := BuildRangeTable(Single(r), bucket, fm);
      var graph := CreateHourlyUsageGraph(r, bucket, first, last, outputDir, fm.number);
      hourly := HourlyShown("\U{1F4C8} Hourly Average Consumption (" + first + " to " + last + ")", table, graph);
    } else {
      hourly := HourlyMissing(if r.errorInfo.Some? then Some(r.errorInfo.value.message) else None);
    }
  }

  /** The analysis' bucket name passes validation and is already stripped. */
  lemma BucketClean(bucket: string)
    requires bucket == Bucket
    ensures !IsBlank(bucket) && Strip(bucket) == bucket
  {
    StripUnpadded(bucket);
  }

  /** So the analysis' queries are exactly the validated answers for its bucket name. */
  lemma BucketQueries(bucket: string, start: string, end: string, step: int,
                      backend: Request -> Result<QueryResult, BackendError>)
    requires bucket == Bucket
    ensures DateRangeUsage(bucket, start, end, step, backend) == RangeAnswer(bucket, start, end, step, backend)
    ensures RangeRequest(bucket, start, end, step) == RangeQuery(bucket, start, end, step)
    ensures AverageUsage(bucket, 24, backend) == AverageAnswer(bucket, 24, backend)
    ensures AverageRequest(bucket, 24) == AverageQuery(bucket, 24)
  {
    BucketClean(bucket);
    StrippedQueries(bucket, start, end, step, 24, backend);
  }

  /** The requests of the day loop are the plan's first ones, and each answered window was
      answered successfully. */
  lemma DaysFollowPlan(bucket: string, t0: int, rfc: int -> string,
                       backend: Request -> Result<QueryResult, BackendError>,
                       windows: seq<Window>, ranges: seq<(QueryResult, string)>, requests: seq<Request>,
                       failed: bool)
    requires 1 <= |requests| <= WindowCount
    requires |windows| == |ranges| == if failed then |requests| - 1 else |requests|
    requires forall k :: 0 <= k < |windows| ==> Queried(bucket, t0, k, rfc, backend, windows[k], requests[k], ranges[k])
    requires failed ==>
      requests[|requests| - 1] == DailyRequest(bucket, PlannedWindow(t0, |requests| - 1, rfc), rfc)
    ensures forall k :: 0 <= k < |requests| ==> requests[k] == PlannedRequest(bucket, t0, rfc, k)
    ensures forall k :: 0 <= k < |windows| ==> backend(requests[k]).Success?
  {
    forall k | 0 <= k < |requests| ensures requests[k] == PlannedRequest(bucket, t0, rfc, k) {
      if k < |windows| {
        assert Queried(bucket, t0, k, rfc, backend, windows[k], requests[k], ranges[k]);
      } else {
        assert k == |requests| - 1;
        assert PlannedRequest(bucket, t0, rfc, k) == DailyRequest(bucket, PlannedWindow(t0, k, rfc), rfc);
      }
    }
    forall k | 0 <= k < |windows| ensures backend(requests[k]).Success? {
      assert Queried(bucket, t0, k, rfc, backend, windows[k], requests[k], ranges[k]);
    }
  }

  /** Three answered windows are the answered days of the plan. */
  lemma DaysAnsweredByLoop(bucket: string, t0: int, rfc: int -> string,
                           backend: Request -> Result<QueryResult, BackendError>,
                           windows: seq<Window>, ranges: seq<(QueryResult, string)>, requests: seq<Request>)
    requires |windows| == |ranges| == |requests| == WindowCount
    requires forall k :: 0 <= k < |windows| ==> Queried(bucket, t0, k, rfc, backend, windows[k], requests[k], ranges[k])
    ensures DaysAnswered(bucket, t0, rfc, backend, windows, ranges)
  {
    forall k | 0 <= k < WindowCount
      ensures && windows[k] == PlannedWindow(t0, k, rfc)
              && ranges[k].1 == windows[k].caption
              && RangeAnswer(bucket, rfc(windows[k].start), rfc(windows[k].end), 24, backend) == Success(ranges[k].0)
    {
      assert Queried(bucket, t0, k, rfc, backend, windows[k], requests[k], ranges[k]);
    }
  }

  /** Requests matching the plan one by one form a prefix of the plan. */
  lemma PlannedPrefix(bucket: string, t0: int, rfc: int -> string, requests: seq<Request>)
    requires |requests| <= WindowCount + 1
    requires forall k :: 0 <= k < |requests| ==> requests[k] == PlannedRequest(bucket, t0, rfc, k)
    ensures requests == PlannedRequests(bucket, t0, rfc)[..|requests|]
  {
  }

  /** A day query that failed ends the analysis after the requests planned so far. */
  lemma AbortedPlan(bucket: string, t0: int, rfc: int -> string,
                    backend: Request -> Result<QueryResult, BackendError>, requests: seq<Request>, message: string)
    requires 1 <= |requests| <= WindowCount
    requires forall k :: 0 <= k < |requests| ==> requests[k] == PlannedRequest(bucket, t0, rfc, k)
    requires forall k :: 0 <= k < |requests| - 1 ==> backend(requests[k]).Success?
    requires backend(requests[|requests| - 1]).Failure?
    ensures FollowsPlan(bucket, t0, rfc, backend, Aborted(message), requests)
  {
    PlannedPrefix(bucket, t0, rfc, requests);
  }

  /** The three day queries followed by the hourly one are the whole plan, whatever the
      hourly query answers. */
  lemma CompletedPlan(bucket: string, t0: int, rfc: int -> string,
                      backend: Request -> Result<QueryResult, BackendError>, analysis: Analysis,
                      daily: seq<Request>, hourly: Request)
    requires |daily| == WindowCount
    requires forall k :: 0 <= k < |daily| ==> daily[k] == PlannedRequest(bucket, t0, rfc, k)
    requires forall k :: 0 <= k < |daily| ==> backend(daily[k]).Success?
    requires hourly == HourlyRequest(bucket, t0, rfc)
    requires analysis.ThreeDay? || analysis.HourlyFailed?
    requires analysis.HourlyFailed? <==> backend(hourly).Failure?
    ensures FollowsPlan(bucket, t0, rfc, backend, analysis, daily + [hourly])
  {
    var requests := daily + [hourly];
    assert requests == PlannedRequests(bucket, t0, rfc);
    assert requests == PlannedRequests(bucket, t0, rfc)[..|requests|];
  }

  /** Every planned label has a `:` after its day number, so the title's `[1]` exists. */
  lemma CaptionHasColon(t0: int, rfc: int -> string)
    ensures TitleStart(PlannedWindow(t0, 0, rfc).caption).Some?
  {
    var w := PlannedWindow(t0, 0, rfc);
    assert NatToString(1) == "1";
    assert OccursAt(w.caption, ":", 5);
    SplitFound(w.caption, ":", 5);
  }

  /** A separator occurring in the text splits it into at least two pieces. */
  lemma SplitFound(s: string, sep: string, i: nat)
    requires |sep| > 0 && OccursAt(s, sep, i)
    ensures |Split(s, sep)| >= 2
  {
    assert FindFrom(s, sep, 0).Some?;
  }

  /** Consecutive windows neither overlap nor touch: each ends 36 seconds before the next begins. */
  lemma WindowsGap(t0: int, i: nat, rfc: int -> string)
    ensures PlannedWindow(t0, i, rfc).end + 36 == PlannedWindow(t0, i + 1, rfc).start
    ensures PlannedWindow(t0, i, rfc).start < PlannedWindow(t0, i, rfc).end
  {
  }

  /** The hourly query spans exactly the three windows: from the first start to the last end. */
  lemma HourlySpansWindows(bucket: string, t0: int, rfc: int -> string)
    ensures HourlyRequest(bucket, t0, rfc) ==
      RangeQuery(bucket, rfc(PlannedWindow(t0, 0, rfc).start), rfc(PlannedWindow(t0, WindowCount - 1, rfc).end), 1)
    ensures PlannedWindow(t0, WindowCount - 1, rfc).end - PlannedWindow(t0, 0, rfc).start
      == 2 * WindowStep + WindowLength
  {
  }

  /** A time rendered as `YYYY-MM-DDTHH:MM:SSZ`: the hour is followed by `:` and nothing
      before it is a `:` or white space. */
  predicate HourPrefixed(text: string)
  {
    |text| > 13 && text[13] == ':' && forall j :: 0 <= j < 13 ==> text[j] != ':' && !IsSpace(text[j])
  }

  /** The title's start text is the start time cut after its hour (`2024-01-15T14`), since
      splitting the label at `:` also splits the time. */
  lemma TitleShowsStartHour(t0: int, rfc: int -> string)
    requires HourPrefixed(rfc(t0))
    ensures TitleStart(PlannedWindow(t0, 0, rfc).caption) == Some(rfc(t0)[..13])
    ensures DailyTitle(PlannedWindow(t0, 0, rfc).caption)
      == Some("\U{1F4CA} 3-Day Observability Impact Analysis (starting " + rfc(t0)[..13] + ")")
  {
    var text := rfc(t0);
    var w := PlannedWindow(t0, 0, rfc);
    var tail := rfc(w.end);
    assert NatToString(1) == "1";
    var c := w.caption;
    assert c == "Day 1: " + text + " to " + tail;
    TitleStartOf(c, text, tail);
  }

  lemma TitleStartOf(c: string, text: string, tail: string)
    requires HourPrefixed(text)
    requires c == "Day 1: " + text + " to " + tail
    ensures TitleStart(c) == Some(text[..13])
  {
    var head := "Day 1: ";
    var sep := ":";
    var rest := " to " + tail;
    assert c == head + text + rest;
    SecondColonPiece(c, head, text, rest, sep);
    var hour := text[..13];
    LeadingSpaceStripped(hour);
    NoSpacedWord(hour, " to ");
  }

  /** The second `:`-piece of a label `head + text + rest`, where the head holds its only `:`
      just before a space, is that space and the hour part of `text`. */
  lemma SecondColonPiece(c: string, head: string, text: string, rest: string, sep: string)
    requires sep == [':']
    requires HourPrefixed(text)
    requires c == head + text + rest
    requires |head| == 7 && head[5] == ':' && head[6] == ' ' && forall j :: 0 <= j < 5 ==> head[j] != ':'
    ensures |Split(c, sep)| >= 2 && Split(c, sep)[1] == [' '] + text[..13]
  {
    assert c[..7] == head;
    HeadColon(c, head, sep);
    assert c[6..] == [' '] + text + rest;
    HourColon(c[6..], text, rest, sep);
  }

  /** The first `:` of a text that starts with the head is the one of the head. */
  lemma HeadColon(c: string, head: string, sep: string)
    requires sep == [':']
    requires |head| == 7 && head[5] == ':' && forall j :: 0 <= j < 5 ==> head[j] != ':'
    requires |c| >= 7 && c[..7] == head
    ensures Split(c, sep) == [c[..5]] + Split(c[6..], sep)
  {
    forall j | 0 <= j < 5 ensures c[j] != ':' {
      assert c[j] == head[j];
    }
    assert c[5] == head[5];
    SplitAtColon(c, sep, 5);
  }

  /** After the head, the first `:` is the one after the hour. */
  lemma HourColon(after: string, text: string, rest: string, sep: string)
    requires sep == [':']
    requires HourPrefixed(text)
    requires after == [' '] + text + rest
    ensures Split(after, sep)[0] == [' '] + text[..13]
  {
    forall j | 0 <= j < 14 ensures after[j] != ':' {
      if j > 0 {
        assert after[j] == text[j - 1];
      }
    }
    assert after[14] == text[13];
    SplitAtColon(after, sep, 14);
    assert after[..14] == [' '] + text[..13];
  }

  /** Splitting at `:` when the first `:` is at `k`. */
  lemma SplitAtColon(s: string, sep: string, k: nat)
    requires sep == [':']
    requires k < |s| && s[k] == ':' && forall j :: 0 <= j < k ==> s[j] != ':'
    ensures Split(s, sep) == [s[..k]] + Split(s[k + 1..], sep)
  {
    forall j | 0 <= j < k ensures !OccursAt(s, sep, j) {
      assert s[j..j + 1] == [s[j]];
    }
    assert s[k..k + 1] == [s[k]];
    SplitAtFirst(s, sep, k);
  }

  /** Stripping a single leading space from unpadded text. */
  lemma LeadingSpaceStripped(s: string)
    requires s != [] && !IsSpace(s[0]) && !IsSpace(s[|s| - 1])
    ensures Strip([' '] + s) == s
  {
    var t := [' '] + s;
    assert t[1..] == s;
    assert TrimStart(t, IsSpace) == TrimStart(s, IsSpace);
    StripUnpadded(s);
  }

  /** Text without white space contains no separator that starts with a space. */
  lemma NoSpacedWord(s: string, sep: string)
    requires |sep| > 0 && IsSpace(sep[0])
    requires forall j :: 0 <= j < |s| ==> !IsSpace(s[j])
    ensures Split(s, sep) == [s]
  {
    forall j | 0 <= j ensures !OccursAt(s, sep, j) {
      if j + |sep| <= |s| {
        assert s[j..j + |sep|][0] == s[j];
      }
    }
    SplitAbsent(s, sep);
  }

  /** The parsed command line: the arguments after the program name and the four options. */
  datatype Arguments = Arguments(argv: seq<string>, token: Option<string>, url: Option<string>,
                                 date: Option<string>, spoke: bool)

  /** Where a run ends. */
  datatype Stage =
    | Help
    | MissingParameters
    | BadScheme
    | ShortToken
    | NoConnection
    | TestQueryFailed
    | BadDate
    | Spoke
    | Analysed(start: Option<int>, analysis: Analysis)

  predicate WantsHelp(argv: seq<string>)
  {
    argv == [] || "--help" in argv || "-h" in argv
  }

  /** An option given with a non-empty value. */
  predicate Given(o: Option<string>)
  {
    o.Some? && o.value != []
  }

  predicate HasScheme(url: string)
  {
    StartsWith(url, "http://") || StartsWith(url, "https://")
  }

  /** The arguments every check before the client accepts. */
  predicate Accepted(args: Arguments)
  {
    && !WantsHelp(args.argv)
    && Given(args.token) && Given(args.url)
    && HasScheme(args.url.value)
    && |args.token.value| >= MinTokenLength
  }

  const TestQuery: Request := InstantQuery("up")

  /** `main`. `connected` is the answer of the connection probe and `parseDate` the
      `%d/%m/%Y %H:%M:%S` parser. */
  method RunTool(args: Arguments, connected: bool, parseDate: string -> Option<int>, rfc: int -> string,
                 fm: Formats, backend: Request -> Result<QueryResult, BackendError>)
    returns (exitCode: int, stage: Stage, client: Option<Client>, requests: seq<Request>)
    ensures exitCode == if stage.Help? || stage.BadDate? || stage.Spoke? || stage.Analysed? then 0 else 1
    ensures stage.Help? <==> WantsHelp(args.argv)
    ensures stage.MissingParameters? <==> !WantsHelp(args.argv) && (!Given(args.token) || !Given(args.url))
    ensures stage.BadScheme? <==>
      !WantsHelp(args.argv) && Given(args.token) && Given(args.url) && !HasScheme(args.url.value)
    ensures stage.ShortToken? <==>
      && !WantsHelp(args.argv) && Given(args.token) && Given(args.url) && HasScheme(args.url.value)
      && |args.token.value| < MinTokenLength
    ensures client.Some? <==> Accepted(args)
    ensures client.Some? ==> client.value == NewClient(args.url.value, args.token.value)
    ensures client.None? ==> requests == []
    ensures stage.NoConnection? <==> Accepted(args) && !connected
    ensures stage.NoConnection? ==> requests == []
    ensures Accepted(args) && connected ==> |requests| >= 1 && requests[0] == TestQuery
    ensures stage.TestQueryFailed? <==> Accepted(args) && connected && backend(TestQuery).Failure?
    ensures stage.BadDate? <==>
      && Accepted(args) && connected && backend(TestQuery).Success?
      && Given(args.date) && parseDate(args.date.value).None?
    ensures stage.Spoke? <==>
      && Accepted(args) && connected && backend(TestQuery).Success?
      && !(Given(args.date) && parseDate(args.date.value).None?) && args.spoke
    ensures stage.TestQueryFailed? || stage.BadDate? || stage.Spoke? ==> requests == [TestQuery]
    ensures stage.Analysed? ==>
      && Accepted(args) && connected && backend(TestQuery).Success? && !args.spoke
      && stage.start == (if Given(args.date) then parseDate(args.date.value) else None)
      && (stage.start.Some? ==>
            && 2 <= |requests| <= WindowCount + 2
            && requests[1..] == PlannedRequests(Bucket, stage.start.value, rfc)[..|requests| - 1])
      && (stage.start.None? ==> requests == [TestQuery, AverageRequest(Bucket, 24)])
    ensures stage.Analysed? && stage.start.Some? ==>
      FollowsPlan(Bucket, stage.start.value, rfc, backend, stage.analysis, requests[1..])
    ensures stage.Analysed? && stage.start.None? ==>
      match AverageUsage(Bucket, 24, backend)
      case Success(r) => stage.analysis == LastDay(r)
      case Failure(e) => stage.analysis == Aborted(e.message)
    ensures stage.Analysed? && stage.analysis.ThreeDay? ==>
      && stage.start.Some?
      && DaysAnswered(Bucket, stage.start.value, rfc, backend, stage.analysis.windows, stage.analysis.ranges)
      && ReportShown(Bucket, stage.start.value, rfc, fm, GraphDir, backend, stage.analysis.windows,
                     stage.analysis.ranges, stage.analysis.title, stage.analysis.table,
                     stage.analysis.hourlyResult, stage.analysis.hourly)
    ensures stage.Analysed? && stage.analysis.HourlyFailed? ==>
      && stage.start.Some?
      && DaysAnswered(Bucket, stage.start.value, rfc, backend, stage.analysis.windows, stage.analysis.ranges)
      && HourlyFailureShown(Bucket, stage.start.value, rfc, fm, backend, stage.analysis.windows,
                            stage.analysis.ranges, stage.analysis.title, stage.analysis.table,
                            stage.analysis.message)
  {
    client := None;
    requests := [];
    if WantsHelp(args.argv) {
      return 0, Help, client, requests;
    }
    if !Given(args.token) || !Given(args.url) {
      return 1, MissingParameters, client, requests;
    }
    var token := args.token.value;
    var url := args.url.value;
    if !HasScheme(url) {
      return 1, BadScheme, client, requests;
    }
    if |token| < MinTokenLength {
      return 1, ShortToken, client, requests;
    }
    client := Some(NewClient(url, token));
    if !connected {
      return 1, NoConnection, client, requests;
    }
    requests := [TestQuery];
    if backend(TestQuery).Failure? {
      return 1, TestQueryFailed, client, requests;
    }
    var start: Option<int> := None;
    if Given(args.date) {
      start := parseDate(args.date.value);
      if start.None? {
        return 0, BadDate, client, requests;
      }
    }
    if args.spoke {
      return 0, Spoke, client, requests;
    }
    var analysis, sent := ObservabilityImpactAnalysis(start, rfc, fm, backend);
    requests := requests + sent;
    assert requests[1..] == sent;
    stage := Analysed(start, analysis);
    exitCode := 0;
  }
}
