/** The CSV time-series combiner: rows of several CSV files are merged into one
    timestamp-to-value dictionary (the last write of a timestamp wins), sorted into two
    parallel lists, and laid out as a graph with day boundaries and a statistics box. */
module CsvCombiner {
  import opened Wrappers
  import opened Strings
  import opened OrderedDict
  import Statistics

  /** One day and the left margin of the x axis, in seconds. */
  const Day: int := 86400
  const LeftMargin: int := 3 * 3600

  /** The value columns a row may carry, highest priority first. */
  const ValueColumns: seq<string> := ["value_seconds", "value_bytes", "value_bytes_per_s", "value", "Value"]
  const UnknownMetric: string := "Unknown Metric"

  /** A row as `csv.DictReader` yields it: column name to cell text. */
  type Row = map<string, string>

  /** A file path as the combiner sees it: absent from the file system, or its data rows. */
  datatype CsvSource = Missing | Rows(rows: seq<Row>)

  /** `datetime.strptime(s, '%Y-%m-%d %H:%M:%S')` (as seconds) and `float(s)`; `None` where
      they raise `ValueError`. */
  datatype Parsers = Parsers(timestamp: string -> Option<int>, number: string -> Option<real>)

  /** The cell of the highest-priority value column present in `row`; `None` when the row
      has none of them. A present column wins even when its cell is empty. */
  function ValueCell(row: Row): Option<string>
  {
    if "value_seconds" in row then Some(row["value_seconds"])
    else if "value_bytes" in row then Some(row["value_bytes"])
    else if "value_bytes_per_s" in row then Some(row["value_bytes_per_s"])
    else if "value" in row then Some(row["value"])
    else if "Value" in row then Some(row["Value"])
    else None
  }

  /** `value_str`: the stripped text of the selected value cell. */
  function SelectValue(row: Row): Option<string>
  {
    match ValueCell(row)
    case None => None
    case Some(cell) => Some(Strip(cell))
  }

  /** A value is selected exactly when the row has one of the value columns. */
  lemma SelectValueFound(row: Row)
    ensures SelectValue(row).None? <==> forall j :: 0 <= j < |ValueColumns| ==> ValueColumns[j] !in row
  {
    assert ValueColumns[0] == "value_seconds" && ValueColumns[1] == "value_bytes";
    assert ValueColumns[2] == "value_bytes_per_s" && ValueColumns[3] == "value" && ValueColumns[4] == "Value";
  }

  /** The column chosen is the first of the priority list that the row has. */
  lemma SelectValuePriority(row: Row, j: nat)
    requires j < |ValueColumns| && ValueColumns[j] in row
    requires forall k :: 0 <= k < j ==> ValueColumns[k] !in row
    ensures SelectValue(row) == Some(Strip(row[ValueColumns[j]]))
  {
    assert ValueColumns[0] == "value_seconds" && ValueColumns[1] == "value_bytes";
    assert ValueColumns[2] == "value_bytes_per_s" && ValueColumns[3] == "value" && ValueColumns[4] == "Value";
  }

  /** The sample a row contributes, or `None` when the row is skipped. */
  function ParseRow(row: Row, p: Parsers): Option<(int, real)>
  {
    var tsText := Strip(Get(row, "timestamp", ""));
    var valueText := SelectValue(row);
    if tsText == "" || valueText.None? || valueText.value == "" then None
    else match (p.timestamp(tsText), p.number(valueText.value))
      case (Some(t), Some(v)) => Some((t, v))
      case _ => None
  }

  /** The metric name after looking at one row: it is assigned only while it is empty. */
  function NameAfterRow(name: string, row: Row): string
  {
    if name == "" then Get(row, "metric_name", UnknownMetric) else name
  }

  /** A parsed row: its sample, or `None` when it is skipped. */
  type Parsed = Option<(int, real)>

  /** What the row loop of `read_csv_file` does with each row. */
  function ParseRows(rows: seq<Row>, p: Parsers): (es: seq<Parsed>)
    ensures |es| == |rows|
  {
    if rows == [] then [] else ParseRows(rows[..|rows| - 1], p) + [ParseRow(rows[|rows| - 1], p)]
  }

  /** Each row is parsed on its own. */
  lemma {:induction false} ParseRowsAt(rows: seq<Row>, p: Parsers, i: nat)
    requires i < |rows|
    ensures ParseRows(rows, p)[i] == ParseRow(rows[i], p)
  {
    if i < |rows| - 1 {
      ParseRowsAt(rows[..|rows| - 1], p, i);
    }
  }

  /** `combined_data[timestamp] = value` for an accepted row; nothing for a skipped one. */
  function Store(d: Dict, e: Parsed): Dict
  {
    match e
    case None => d
    case Some(sample) => Put(d, sample.0, sample.1)
  }

  /** The dictionary after the parsed rows `es` have been stored into `d`, in order. */
  function Apply(d: Dict, es: seq<Parsed>): Dict
  {
    if es == [] then d else Store(Apply(d, es[..|es| - 1]), es[|es| - 1])
  }

  /** The number of accepted rows among `es`. */
  function Accepted(es: seq<Parsed>): nat
  {
    if es == [] then 0 else Accepted(es[..|es| - 1]) + if es[|es| - 1].Some? then 1 else 0
  }

  function NameAfter(name: string, rows: seq<Row>): string
  {
    if rows == [] then name else NameAfterRow(NameAfter(name, rows[..|rows| - 1]), rows[|rows| - 1])
  }

  function IngestSource(d: Dict, source: CsvSource, p: Parsers): Dict
  {
    match source
    case Missing => d
    case Rows(rows) => Apply(d, ParseRows(rows, p))
  }

  function AcceptedSource(source: CsvSource, p: Parsers): nat
  {
    match source
    case Missing => 0
    case Rows(rows) => Accepted(ParseRows(rows, p))
  }

  function NameAfterSource(name: string, source: CsvSource): string
  {
    match source
    case Missing => name
    case Rows(rows) => NameAfter(name, rows)
  }

  /** The dictionary after every file of `sources` has been read, in order. */
  function IngestAll(d: Dict, sources: seq<CsvSource>, p: Parsers): Dict
  {
    if sources == [] then d
    else IngestSource(IngestAll(d, sources[..|sources| - 1], p), sources[|sources| - 1], p)
  }

  function AcceptedAll(sources: seq<CsvSource>, p: Parsers): nat
  {
    if sources == [] then 0
    else AcceptedAll(sources[..|sources| - 1], p) + AcceptedSource(sources[|sources| - 1], p)
  }

  function NameAfterAll(name: string, sources: seq<CsvSource>): string
  {
    if sources == [] then name
    else NameAfterSource(NameAfterAll(name, sources[..|sources| - 1]), sources[|sources| - 1])
  }

  /** `[label.strip() for label in days.split(',')]`. */
  function ParseDayLabels(days: string): (labels: seq<string>)
    ensures |labels| == |Split(days, ",")|
    ensures forall i :: 0 <= i < |labels| ==> labels[i] == Strip(Split(days, ",")[i])
  {
    var parts := Split(days, ",");
    seq(|parts|, i requires 0 <= i < |parts| => Strip(parts[i]))
  }

  /** The label drawn at boundary `index`: the user's label, or `Day {index}` past the end. */
  function LabelFor(dayLabels: seq<string>, index: nat): string
  {
    if index < |dayLabels| then dayLabels[index] else "Day " + NatToString(index)
  }

  datatype Boundary = Boundary(at: int, index: nat, caption: string)

  /** What `generate_graph` computes before drawing: title, y label, the x-axis range and its
      left limit, the y-axis top, the day boundaries and the statistics box. */
  datatype GraphLayout = GraphLayout(
    title: string, yLabel: string,
    xStart: int, xEnd: int, xLeft: int,
    yTop: real,
    boundaries: seq<Boundary>,
    stats: Statistics.Summary)

  /** The day-boundary loop of `generate_graph`: boundary 0 at `first`, then one every 24 h
      while fewer than `labelCount` have been placed and the next one is not after `last`. */
  method DayBoundaries(first: int, last: int, labelCount: nat) returns (positions: seq<(int, nat)>)
    ensures |positions| >= 1
    ensures forall k :: 0 <= k < |positions| ==> positions[k] == (first + k * Day, k)
    ensures |positions| <= if labelCount == 0 then 1 else labelCount
    ensures forall k :: 1 <= k < |positions| ==> positions[k].0 <= last
    ensures |positions| >= labelCount || first + |positions| * Day > last
  {
    positions := [(first, 0)];
    var dayCount: nat := 1;
    var current := first + Day;
    while dayCount < labelCount && current <= last
      invariant 1 <= dayCount == |positions|
      invariant dayCount <= if labelCount == 0 then 1 else labelCount
      invariant current == first + dayCount * Day
      invariant forall k :: 0 <= k < |positions| ==> positions[k] == (first + k * Day, k)
      invariant forall k :: 1 <= k < |positions| ==> positions[k].0 <= last
      decreases labelCount - dayCount
    {
      positions := positions + [(current, dayCount)];
      current := current + Day;
      dayCount := dayCount + 1;
    }
  }

  class Combiner {
    var combinedData: Dict
    var metricName: string
    var metricUnit: string

    ghost predicate Valid()
      reads this
    {
      DistinctKeys(combinedData)
    }

    constructor ()
      ensures Valid()
      ensures combinedData == [] && metricName == "" && metricUnit == ""
    {
      combinedData := [];
      metricName := "";
      metricUnit := "";
    }

    /** `read_csv_file`: adds the accepted rows of one file and returns how many there were;
        a missing file returns 0 and changes nothing. */
    method ReadCsvFile(source: CsvSource, p: Parsers) returns (count: nat)
      requires Valid()
      modifies this
      ensures Valid()
      ensures combinedData == IngestSource(old(combinedData), source, p)
      ensures metricName == NameAfterSource(old(metricName), source)
      ensures count == AcceptedSource(source, p)
      ensures metricUnit == old(metricUnit)
    {
      if source.Missing? {
        return 0;
      }
      count := ReadRows(source.rows, p);
    }

    /** The row loop of `read_csv_file`. */
    method ReadRows(rows: seq<Row>, p: Parsers) returns (count: nat)
      requires Valid()
      modifies this
      ensures Valid()
      ensures combinedData == Apply(old(combinedData), ParseRows(rows, p))
      ensures metricName == NameAfter(old(metricName), rows)
      ensures count == Accepted(ParseRows(rows, p))
      ensures metricUnit == old(metricUnit)
    {
      ghost var es := ParseRows(rows, p);
      ghost var d0, n0 := combinedData, metricName;
      count := 0;
      var i := 0;
      while i < |rows|
        invariant 0 <= i <= |rows|
        invariant Valid()
        invariant combinedData == Apply(d0, es[..i])
        invariant metricName == NameAfter(n0, rows[..i])
        invariant count == Accepted(es[..i])
        invariant metricUnit == old(metricUnit)
      {
        RowStep(d0, n0, rows, p, i);
        var accepted := ReadRow(rows[i], p);
        if accepted {
          count := count + 1;
        }
        i := i + 1;
      }
      assert es[..|es|] == es;
      assert rows[..|rows|] == rows;
    }

    /** The body of the row loop of `read_csv_file`: names the metric if it is still
        unnamed, then stores the row's sample if the row is accepted. */
    method ReadRow(row: Row, p: Parsers) returns (accepted: bool)
      requires Valid()
      modifies this
      ensures Valid()
      ensures accepted == ParseRow(row, p).Some?
      ensures combinedData == Store(old(combinedData), ParseRow(row, p))
      ensures metricName == NameAfterRow(old(metricName), row)
      ensures metricUnit == old(metricUnit)
    {
      if metricName == "" {
        metricName := Get(row, "metric_name", UnknownMetric);
      }
      accepted := false;
      var tsText := Strip(Get(row, "timestamp", ""));
      var valueText := SelectValue(row);
      if tsText != "" && valueText.Some? && valueText.value != "" {
        var t := p.timestamp(tsText);
        var v := p.number(valueText.value);
        if t.Some? && v.Some? {
          PutDistinct(combinedData, t.value, v.value);
          combinedData := Put(combinedData, t.value, v.value);
          accepted := true;
        }
      }
    }

    /** `combine_csv_files`: reads every file, then returns the dictionary's items sorted by
        timestamp as two parallel lists, with the number of rows read and the number of
        them that were overwritten by a later row of the same timestamp. */
    method CombineCsvFiles(sources: seq<CsvSource>, p: Parsers)
      returns (timestamps: seq<int>, values: seq<real>, totalRead: nat, duplicatesRemoved: int)
      requires Valid()
      modifies this
      ensures Valid()
      ensures combinedData == IngestAll(old(combinedData), sources, p)
      ensures metricName == NameAfterAll(old(metricName), sources)
      ensures metricUnit == old(metricUnit)
      ensures totalRead == AcceptedAll(sources, p)
      ensures |timestamps| == |values| == |combinedData|
      ensures StrictlyIncreasing(timestamps)
      ensures forall t :: t in timestamps <==> t in Keys(combinedData)
      ensures forall i :: 0 <= i < |timestamps| ==> Lookup(combinedData, timestamps[i]) == Some(values[i])
      ensures duplicatesRemoved == totalRead - |timestamps|
      ensures old(combinedData) == [] ==> duplicatesRemoved >= 0
    {
      totalRead := 0;
      var i := 0;
      while i < |sources|
        invariant 0 <= i <= |sources|
        invariant Valid()
        invariant combinedData == IngestAll(old(combinedData), sources[..i], p)
        invariant metricName == NameAfterAll(old(metricName), sources[..i])
        invariant totalRead == AcceptedAll(sources[..i], p)
        invariant metricUnit == old(metricUnit)
      {
        assert sources[..i + 1][..i] == sources[..i];
        var n := ReadCsvFile(sources[i], p);
        totalRead := totalRead + n;
        i := i + 1;
      }
      assert sources[..|sources|] == sources;
      IngestAllSize(old(combinedData), sources, p);
      var sorted := SortedItems(combinedData);
      SortedItemsAgree(combinedData);
      timestamps := Keys(sorted);
      values := seq(|sorted|, k requires 0 <= k < |sorted| => sorted[k].1);
      duplicatesRemoved := totalRead - |timestamps|;
    }

    /** The computations of `generate_graph`; `None` where it prints "No data to plot". */
    method GenerateGraph(timestamps: seq<int>, values: seq<real>, title: string,
                         dayLabels: seq<string>, startDate: Option<int>, format: int -> string)
      returns (layout: Option<GraphLayout>)
      requires timestamps != [] && values != [] ==> |timestamps| == |values|
      ensures layout.None? <==> timestamps == [] || values == []
      ensures layout.Some? ==>
        var g := layout.value;
        var n := |timestamps|;
        && g.xStart == (if startDate.Some? then startDate.value else timestamps[0])
        && g.xEnd == (if startDate.Some? && dayLabels != [] then startDate.value + |dayLabels| * Day
                      else timestamps[n - 1])
        && g.xLeft == g.xStart - LeftMargin
        && g.stats == Statistics.Summarise(values)
        && g.yTop == g.stats.maximum * 1.15
        && (g.stats.maximum >= 0.0 ==> forall i :: 0 <= i < |values| ==> values[i] <= g.yTop)
        && g.title == (if title != "" then title
                       else "Combined Time Series - " + metricName + "\n" + format(g.xStart) + " to " + format(g.xEnd))
        && g.yLabel == (if metricUnit != "" then "Value (" + metricUnit + ")" else "Value")
    ensures layout.Some? && dayLabels == [] ==> layout.value.boundaries == []
    ensures layout.Some? && dayLabels != [] ==>
        var g := layout.value;
        && 1 <= |g.boundaries| <= |dayLabels|
        && (forall k :: 0 <= k < |g.boundaries| ==>
              g.boundaries[k] == Boundary(g.xStart + k * Day, k, dayLabels[k]))
        && (forall k :: 1 <= k < |g.boundaries| ==> g.boundaries[k].at <= g.xEnd)
        && (startDate.Some? || timestamps[0] <= timestamps[|timestamps| - 1] ==>
              forall k :: 0 <= k < |g.boundaries| ==> g.boundaries[k].at <= g.xEnd)
        && (startDate.Some? ==> |g.boundaries| == |dayLabels|)
    {
      if timestamps == [] || values == [] {
        return None;
      }
      var xStart, xEnd;
      if startDate.Some? {
        xStart := startDate.value;
        if dayLabels != [] {
          xEnd := startDate.value + |dayLabels| * Day;
        } else {
          xEnd := timestamps[|timestamps| - 1];
        }
      } else {
        xStart, xEnd := timestamps[0], timestamps[|timestamps| - 1];
      }
      var stats := Statistics.Summarise(values);
      var graphTitle := if title != "" then title
                        else "Combined Time Series - " + metricName + "\n" + format(xStart) + " to " + format(xEnd);
      var yLabel := if metricUnit != "" then "Value (" + metricUnit + ")" else "Value";
      var boundaries: seq<Boundary> := [];
      if dayLabels != [] {
        var positions := DayBoundaries(xStart, xEnd, |dayLabels|);
        if startDate.Some? {
          assert |positions| == |dayLabels|;
        }
        boundaries := seq(|positions|, k requires 0 <= k < |positions| =>
                            Boundary(positions[k].0, positions[k].1, LabelFor(dayLabels, positions[k].1)));
      }
      var yMargin := stats.maximum * 0.15;
      var yTop := stats.maximum + yMargin;
      layout := Some(GraphLayout(graphTitle, yLabel, xStart, xEnd, xStart - LeftMargin, yTop, boundaries, stats));
    }
  }

  /** An accepted row stores its value under its timestamp and leaves every other timestamp
      as it was; a skipped row changes nothing. */
  lemma StoreEffect(d: Dict, e: Parsed, j: int)
    ensures e.None? ==> Store(d, e) == d
    ensures e.Some? ==> Lookup(Store(d, e), j) == if j == e.value.0 then Some(e.value.1) else Lookup(d, j)
  {
    if e.Some? {
      PutLookup(d, e.value.0, e.value.1, j);
    }
  }

  /** No accepted row of `es` has timestamp `t`. */
  predicate NoWriteOf(es: seq<Parsed>, t: int)
  {
    forall j :: 0 <= j < |es| ==> es[j].None? || es[j].value.0 != t
  }

  /** A timestamp no accepted row carries keeps its earlier value (or stays absent). */
  lemma {:induction false} UntouchedTimestamp(d: Dict, es: seq<Parsed>, t: int)
    requires NoWriteOf(es, t)
    ensures Lookup(Apply(d, es), t) == Lookup(d, t)
  {
    if es != [] {
      var init := es[..|es| - 1];
      assert NoWriteOf(init, t) by {
        forall j | 0 <= j < |init| ensures init[j].None? || init[j].value.0 != t {
          assert init[j] == es[j];
        }
      }
      UntouchedTimestamp(d, init, t);
      StoreEffect(Apply(d, init), es[|es| - 1], t);
    }
  }

  /** Storing `a` then `b` is storing `a + b`. */
  lemma {:induction false} ApplyAppend(d: Dict, a: seq<Parsed>, b: seq<Parsed>)
    ensures Apply(d, a + b) == Apply(Apply(d, a), b)
    ensures Accepted(a + b) == Accepted(a) + Accepted(b)
    decreases |b|
  {
    if b == [] {
      assert a + b == a;
    } else {
      var init := b[..|b| - 1];
      ApplyAppend(d, a, init);
      assert (a + b)[..|a + b| - 1] == a + init;
    }
  }

  /** The last write wins: the value stored under `t` is the one of the last accepted row
      with timestamp `t`. */
  lemma LastWriteWins(d: Dict, es: seq<Parsed>, i: nat, t: int, v: real)
    requires i < |es| && es[i] == Some((t, v))
    requires NoWriteOf(es[i + 1..], t)
    ensures Lookup(Apply(d, es), t) == Some(v)
  {
    var upTo := es[..i + 1];
    assert upTo[..i] == es[..i];
    StoreEffect(Apply(d, es[..i]), es[i], t);
    ApplyAppend(d, upTo, es[i + 1..]);
    assert upTo + es[i + 1..] == es;
    UntouchedTimestamp(Apply(d, upTo), es[i + 1..], t);
  }

  /** The dictionary grows by at most one entry per accepted row. */
  lemma {:induction false} ApplySize(d: Dict, es: seq<Parsed>)
    ensures |Apply(d, es)| <= |d| + Accepted(es)
  {
    if es != [] {
      ApplySize(d, es[..|es| - 1]);
      var last := es[|es| - 1];
      if last.Some? {
        PutSize(Apply(d, es[..|es| - 1]), last.value.0, last.value.1);
      }
    }
  }

  lemma {:induction false} IngestAllSize(d: Dict, sources: seq<CsvSource>, p: Parsers)
    ensures |IngestAll(d, sources, p)| <= |d| + AcceptedAll(sources, p)
  {
    if sources != [] {
      var init := sources[..|sources| - 1];
      IngestAllSize(d, init, p);
      match sources[|sources| - 1]
      case Missing =>
      case Rows(rows) => ApplySize(IngestAll(d, init, p), ParseRows(rows, p));
    }
  }

  /** The highest-priority value column present decides: when its cell is blank the row is
      skipped, whatever the lower-priority columns hold. */
  lemma BlankPreferredColumnSkips(row: Row, p: Parsers, j: nat)
    requires j < |ValueColumns| && ValueColumns[j] in row
    requires forall k :: 0 <= k < j ==> ValueColumns[k] !in row
    requires IsBlank(row[ValueColumns[j]])
    ensures ParseRow(row, p).None?
  {
    SelectValuePriority(row, j);
  }

  /** A row without a timestamp or without any value column is skipped. */
  lemma IncompleteRowSkips(row: Row, p: Parsers)
    requires IsBlank(Get(row, "timestamp", "")) || forall j :: 0 <= j < |ValueColumns| ==> ValueColumns[j] !in row
    ensures ParseRow(row, p).None?
  {
    SelectValueFound(row);
  }

  /** Once the metric is named, later rows never rename it. */
  lemma {:induction false} NameSticks(name: string, rows: seq<Row>)
    requires name != ""
    ensures NameAfter(name, rows) == name
  {
    if rows != [] {
      NameSticks(name, rows[..|rows| - 1]);
    }
  }

  lemma {:induction false} NameAppend(name: string, a: seq<Row>, b: seq<Row>)
    ensures NameAfter(name, a + b) == NameAfter(NameAfter(name, a), b)
    decreases |b|
  {
    if b == [] {
      assert a + b == a;
    } else {
      NameAppend(name, a, b[..|b| - 1]);
      assert (a + b)[..|a + b| - 1] == a + b[..|b| - 1];
    }
  }

  /** The metric is named after the first row read, whether or not that row is accepted,
      unless that row's `metric_name` cell is empty. */
  lemma FirstRowNames(rows: seq<Row>)
    requires rows != [] && Get(rows[0], "metric_name", UnknownMetric) != ""
    ensures NameAfter("", rows) == Get(rows[0], "metric_name", UnknownMetric)
  {
    assert rows == [rows[0]] + rows[1..];
    NameAppend("", [rows[0]], rows[1..]);
    assert NameAfter("", [rows[0]]) == Get(rows[0], "metric_name", UnknownMetric);
    NameSticks(Get(rows[0], "metric_name", UnknownMetric), rows[1..]);
  }

  /** Day labels contain no comma and carry no surrounding whitespace. */
  lemma DayLabelsClean(days: string)
    ensures forall i :: 0 <= i < |ParseDayLabels(days)| ==> ',' !in ParseDayLabels(days)[i]
    ensures forall i :: 0 <= i < |ParseDayLabels(days)| && ParseDayLabels(days)[i] != [] ==>
              !IsSpace(ParseDayLabels(days)[i][0]) && !IsSpace(ParseDayLabels(days)[i][|ParseDayLabels(days)[i]| - 1])
  {
    var parts := Split(days, ",");
    var labels := ParseDayLabels(days);
    SplitPiecesAvoidChar(days, ',');
    forall i | 0 <= i < |labels| ensures ',' !in labels[i] {
      StripAddsNothing(parts[i], ',');
    }
    forall i | 0 <= i < |labels| && labels[i] != []
      ensures !IsSpace(labels[i][0]) && !IsSpace(labels[i][|labels[i]| - 1])
    {
      var t := TrimStart(parts[i], IsSpace);
      TrimEndFacts(t, IsSpace);
      TrimStartFacts(parts[i], IsSpace);
      assert labels[i] == t[..|labels[i]|];
    }
  }

  /** Stripping loses nothing from `--days` text without white space: joining the labels
      with commas gives the text back. */
  lemma DayLabelsRejoin(days: string)
    requires forall j :: 0 <= j < |days| ==> !IsSpace(days[j])
    ensures Join(ParseDayLabels(days), ",") == days
  {
    var parts := Split(days, ",");
    SplitPiecesWithin(days, ",");
    forall i | 0 <= i < |parts| ensures Strip(parts[i]) == parts[i] {
      if parts[i] != [] {
        assert parts[i][0] in days && parts[i][|parts[i]| - 1] in days;
      }
      StripUnpadded(parts[i]);
    }
    assert ParseDayLabels(days) == parts;
    JoinSplit(days, ",");
  }

  /** A row whose timestamp cell and selected value cell are non-empty, carry no surrounding
      white space and parse contributes exactly that pair, whatever its other columns hold. */
  lemma CleanRowAccepted(row: Row, p: Parsers, t: int, v: real)
    requires "timestamp" in row && ValueCell(row).Some?
    requires row["timestamp"] != [] && !IsSpace(row["timestamp"][0])
    requires !IsSpace(row["timestamp"][|row["timestamp"]| - 1])
    requires ValueCell(row).value != [] && !IsSpace(ValueCell(row).value[0])
    requires !IsSpace(ValueCell(row).value[|ValueCell(row).value| - 1])
    requires p.timestamp(row["timestamp"]) == Some(t) && p.number(ValueCell(row).value) == Some(v)
    ensures ParseRow(row, p) == Some((t, v))
  {
    StripUnpadded(row["timestamp"]);
    StripUnpadded(ValueCell(row).value);
  }

  /** The dictionary steps of `LaterFileWins`: the second file overwrites 00:00 and
      appends 01:00. */
  lemma ScenarioStores(t0: int)
    ensures Apply([(t0, 10.0)], [Some((t0, 20.0)), Some((t0 + 3600, 30.0))]) == [(t0, 20.0), (t0 + 3600, 30.0)]
  {
    var e23: seq<Parsed> := [Some((t0, 20.0)), Some((t0 + 3600, 30.0))];
    var e2 := e23[..1];
    assert e2 == [Some((t0, 20.0))];
    assert e2[..0] == [];
    assert Put([(t0, 10.0)], t0, 20.0) == [(t0, 20.0)];
    var d: Dict := [(t0, 20.0)];
    assert d[1..] == [];
    assert Put(d, t0 + 3600, 30.0) == [(t0, 20.0), (t0 + 3600, 30.0)];
    assert Apply([(t0, 10.0)], e2) == Store([(t0, 10.0)], Some((t0, 20.0)));
    assert Apply([(t0, 10.0)], e23) == Store(d, Some((t0 + 3600, 30.0)));
  }

  /** The parsed rows of the two files of `LaterFileWinsFor`. */
  lemma ScenarioRows(r1: Row, r2: Row, r3: Row, p: Parsers, t0: int)
    requires ParseRow(r1, p) == Some((t0, 10.0))
    requires ParseRow(r2, p) == Some((t0, 20.0))
    requires ParseRow(r3, p) == Some((t0 + 3600, 30.0))
    ensures ParseRows([r1], p) == [Some((t0, 10.0))]
    ensures ParseRows([r2, r3], p) == [Some((t0, 20.0)), Some((t0 + 3600, 30.0))]
  {
    ParseRowsAt([r1], p, 0);
    ParseRowsAt([r2, r3], p, 0);
    ParseRowsAt([r2, r3], p, 1);
  }

  /** Two files, the first with a row of timestamp `t0`, the second with a row of timestamp
      `t0` and one an hour later: the second file's value for `t0` wins, and of the three
      rows read one is a removed duplicate. */
  lemma LaterFileWinsFor(r1: Row, r2: Row, r3: Row, p: Parsers, t0: int)
    requires ParseRows([r1], p) == [Some((t0, 10.0))]
    requires ParseRows([r2, r3], p) == [Some((t0, 20.0)), Some((t0 + 3600, 30.0))]
    ensures IngestAll([], [Rows([r1]), Rows([r2, r3])], p) == [(t0, 20.0), (t0 + 3600, 30.0)]
    ensures AcceptedAll([Rows([r1]), Rows([r2, r3])], p) == 3
  {
    ScenarioStores(t0);
    var sources := [Rows([r1]), Rows([r2, r3])];
    var e1: seq<Parsed> := [Some((t0, 10.0))];
    var e23: seq<Parsed> := [Some((t0, 20.0)), Some((t0 + 3600, 30.0))];
    assert sources[..1] == [Rows([r1])];
    assert sources[..1][..0] == [];
    assert e1[..0] == [];
    assert e23[..1][..0] == [];
    assert Apply([], e1) == [(t0, 10.0)];
    assert IngestAll([], sources[..1], p) == [(t0, 10.0)];
    assert Accepted(e23[..1]) == 1;
    assert AcceptedAll(sources[..1], p) == 1;
  }

  /** The two-file example with the source's own timestamps and values. */
  lemma LaterFileWins(p: Parsers, t0: int, r1: Row, r2: Row, r3: Row)
    requires p.timestamp("2024-01-01 00:00:00") == Some(t0)
    requires p.timestamp("2024-01-01 01:00:00") == Some(t0 + 3600)
    requires p.number("10") == Some(10.0) && p.number("20") == Some(20.0) && p.number("30") == Some(30.0)
    requires r1 == map["timestamp" := "2024-01-01 00:00:00", "value" := "10"]
    requires r2 == map["timestamp" := "2024-01-01 00:00:00", "value" := "20"]
    requires r3 == map["timestamp" := "2024-01-01 01:00:00", "value" := "30"]
    ensures IngestAll([], [Rows([r1]), Rows([r2, r3])], p) == [(t0, 20.0), (t0 + 3600, 30.0)]
    ensures AcceptedAll([Rows([r1]), Rows([r2, r3])], p) - 2 == 1
  {
    assert ValueCell(r1) == Some("10") && ValueCell(r2) == Some("20") && ValueCell(r3) == Some("30");
    CleanRowAccepted(r1, p, t0, 10.0);
    CleanRowAccepted(r2, p, t0, 20.0);
    CleanRowAccepted(r3, p, t0 + 3600, 30.0);
    ScenarioRows(r1, r2, r3, p, t0);
    LaterFileWinsFor(r1, r2, r3, p, t0);
  }

  /** One pass of the row loop of `read_csv_file`, stated on the folds. */
  lemma RowStep(d: Dict, name: string, rows: seq<Row>, p: Parsers, i: nat)
    requires i < |rows|
    ensures Apply(d, ParseRows(rows, p)[..i + 1]) == Store(Apply(d, ParseRows(rows, p)[..i]), ParseRow(rows[i], p))
    ensures Accepted(ParseRows(rows, p)[..i + 1]) ==
              Accepted(ParseRows(rows, p)[..i]) + if ParseRow(rows[i], p).Some? then 1 else 0
    ensures NameAfter(name, rows[..i + 1]) == NameAfterRow(NameAfter(name, rows[..i]), rows[i])
  {
    var es := ParseRows(rows, p);
    ParseRowsAt(rows, p, i);
    assert es[..i + 1][..i] == es[..i];
    assert rows[..i + 1][..i] == rows[..i];
  }

  /** `main` of the combiner: exit status 1 when the combined data is empty, otherwise 0 and
      the graph layout; `days` is the `--days` text, `startDate` the parsed `--date`. */
  method RunCombiner(sources: seq<CsvSource>, title: string, days: Option<string>, startDate: Option<int>,
                     p: Parsers, format: int -> string)
    returns (exitCode: int, layout: Option<GraphLayout>)
    ensures exitCode == (if IngestAll([], sources, p) == [] then 1 else 0)
    ensures exitCode == 0 <==> layout.Some?
    ensures layout.Some? ==> layout.value.stats.count == |IngestAll([], sources, p)|
    ensures layout.Some? && days.Some? && days.value != "" ==>
              |layout.value.boundaries| <= |Split(days.value, ",")|
  {
    var dayLabels: seq<string> := [];
    if days.Some? && days.value != "" {
      dayLabels := ParseDayLabels(days.value);
    }
    var combiner := new Combiner();
    var timestamps, values, _, _ := combiner.CombineCsvFiles(sources, p);
    if timestamps != [] && values != [] {
      layout := combiner.GenerateGraph(timestamps, values, title, dayLabels, startDate, format);
      exitCode := 0;
    } else {
      exitCode, layout := 1, None;
    }
  }
}
