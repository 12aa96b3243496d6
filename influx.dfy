/**
  * The text the connector sends to InfluxDB: `queryEnergyData` builds a Flux
  * query from a time range, a measurement, optional filters and a bucket, and
  * `executeFluxQuery` refuses a blank query and substitutes `${key}`
  * placeholders. Running the query is outside the model; a row it returns is
  * a record of labelled scalar values.
  */
module Influx {
  import opened Wrappers
  import opened JsStrings

  /** A column value of a returned row: boolean, number, string or null. */
  datatype Scalar = Bool(b: bool) | Num(n: real) | Str(s: string) | Null

  /** One labelled column of a row, in column order. */
  datatype Column = Column(name: string, value: Scalar)

  type Row = seq<Column>

  const FluxQueryRequired: string := "Flux query is required"
  const DefaultBucket: string := "energy-data"
  const DefaultMeasurement: string := "energy"

  /* ---------------- executeFluxQuery: blank check and parameter substitution ---------------- */

  /** The literal text the regular expression built for `key` matches: `${key}`. */
  function Placeholder(key: string): (p: string)
    ensures |p| == |key| + 3
    ensures p[..2] == "${" && p[2..|p| - 1] == key && p[|p| - 1] == '}'
  {
    "${" + key + "}"
  }

  /**
    * The query after replacing, for each parameter in entry order, every `${key}`
    * with its value; a query holding no `$` has no placeholder and is kept as it is.
    */
  function Substituted(query: string, params: seq<(string, string)>): (r: string)
    ensures '$' !in query ==> r == query
    decreases |params|
  {
    if |params| == 0 then query
    else
      assert '$' !in query ==> ReplaceAll(query, Placeholder(params[0].0), params[0].1) == query by {
        if '$' !in query {
          ReplaceAllUnchanged(query, Placeholder(params[0].0), params[0].1);
        }
      }
      Substituted(ReplaceAll(query, Placeholder(params[0].0), params[0].1), params[1..])
  }

  /** Source: influx.ts `executeFluxQuery` lines 64-68: the loop that rewrites `finalQuery` once per parameter. */
  method SubstituteParams(query: string, params: seq<(string, string)>) returns (finalQuery: string)
    ensures finalQuery == Substituted(query, params)
  {
    finalQuery := query;
    var i := 0;
    while i < |params|
      invariant 0 <= i <= |params|
      invariant Substituted(finalQuery, params[i..]) == Substituted(query, params)
    {
      assert params[i..][1..] == params[i + 1..];
      finalQuery := ReplaceAll(finalQuery, Placeholder(params[i].0), params[i].1);
      i := i + 1;
    }
  }

  /**
    * Source: influx.ts `executeFluxQuery` up to the hand-over to the client: a
    * blank query is refused, otherwise the parameters (if any) are substituted.
    */
  method PrepareFluxQuery(flux: string, params: Option<seq<(string, string)>>) returns (r: Result<string, string>)
    ensures r.Failure? <==> Trim(flux) == ""
    ensures r.Failure? ==> r.error == FluxQueryRequired
    ensures r.Success? ==> r.value == if params.Some? then Substituted(flux, params.value) else flux
  {
    if flux == "" || |Trim(flux)| == 0 {
      return Failure(FluxQueryRequired);
    }
    var finalQuery := flux;
    if params.Some? {
      finalQuery := SubstituteParams(flux, params.value);
    }
    r := Success(finalQuery);
  }

  /**
    * A placeholder preceded by `$`-free text is replaced by its parameter's value,
    * which then takes no further part in substitution when it holds no `$` either.
    */
  lemma PlaceholderReplaced(x: string, key: string, value: string, y: string)
    requires '$' !in x && '$' !in y && '$' !in value
    ensures Substituted(x + Placeholder(key) + y, [(key, value)]) == x + value + y
  {
    ReplaceAllAt(x, Placeholder(key), y, value);
    ReplaceAllUnchanged(y, Placeholder(key), value);
  }

  /* ---------------- queryEnergyData: building the Flux text ---------------- */

  /** The options `queryEnergyData` receives; an absent option is `None`. */
  datatype EnergyQuery = EnergyQuery(
    start: string,
    end: string,
    measurement: Option<string>,
    filters: Option<seq<(string, string)>>,
    bucket: Option<string>)

  /** `bucket || config.influxDefault.bucket || 'energy-data'`. */
  function TargetBucket(bucket: Option<string>, configured: Option<string>): (b: string)
    ensures b != ""
    ensures Truthy(bucket) ==> b == bucket.value
    ensures !Truthy(bucket) && Truthy(configured) ==> b == configured.value
    ensures !Truthy(bucket) && !Truthy(configured) ==> b == DefaultBucket
  {
    if Truthy(bucket) then bucket.value
    else if Truthy(configured) then configured.value
    else DefaultBucket
  }

  predicate IsDigit(c: char) {
    '0' <= c <= '9'
  }

  /** The regular expression `^\d{4}-\d{2}-\d{2}` matches a prefix of `s`. */
  predicate IsoDatePrefix(s: string) {
    && |s| >= 10
    && IsDigit(s[0]) && IsDigit(s[1]) && IsDigit(s[2]) && IsDigit(s[3]) && s[4] == '-'
    && IsDigit(s[5]) && IsDigit(s[6]) && s[7] == '-' && IsDigit(s[8]) && IsDigit(s[9])
  }

  /** Normalisation of `start`, branch for branch as written: only `now` is rewritten. */
  function StartParam(start: string): (r: string)
    ensures start == "now" ==> r == "now()"
    ensures start != "now" ==> r == start
  {
    assert !StartsWith("now", "-") by { assert "now"[..1][0] == 'n'; }
    if StartsWith(start, "-") || IsoDatePrefix(start) then start
    else if start == "now" then "now()"
    else start
  }

  /** Normalisation of `end`, branch for branch as written: only `now` and the empty string are rewritten. */
  function EndParam(end: string): (r: string)
    ensures end == "now" || end == "" ==> r == "now()"
    ensures end != "now" && end != "" ==> r == end
  {
    if end == "now" || end == "" then "now()"
    else if StartsWith(end, "-") || IsoDatePrefix(end) then end
    else end
  }

  /** How a normalised bound is written into the query: `now()` and relative durations bare, anything else quoted. */
  function FluxTime(param: string): (r: string)
    ensures r == param <==> param == "now()" || StartsWith(param, "-")
    ensures r != param ==> r == "\"" + param + "\""
  {
    if param == "now()" then "now()"
    else if StartsWith(param, "-") then param
    else "\"" + param + "\""
  }

  function BucketLine(bucket: string): string {
    "from(bucket: \"" + bucket + "\")"
  }

  function RangeLine(startFlux: string, endFlux: string): string {
    "  |> range(start: " + startFlux + ", stop: " + endFlux + ")"
  }

  function MeasurementLine(measurement: string): string {
    "  |> filter(fn: (r) => r._measurement == \"" + measurement + "\")"
  }

  function FilterLine(key: string, value: string): string {
    "  |> filter(fn: (r) => r." + key + " == \"" + value + "\")"
  }

  /** The filter lines of the entries, in entry order, each introduced by a newline. */
  function FilterText(filters: seq<(string, string)>): string {
    if |filters| == 0 then ""
    else FilterText(filters[..|filters| - 1]) + "\n" + FilterLine(filters[|filters| - 1].0, filters[|filters| - 1].1)
  }

  /** The lines of the filter entries, in entry order. */
  function FilterLines(filters: seq<(string, string)>): (lines: seq<string>)
    ensures |lines| == |filters|
  {
    if |filters| == 0 then []
    else FilterLines(filters[..|filters| - 1]) + [FilterLine(filters[|filters| - 1].0, filters[|filters| - 1].1)]
  }

  /** Line `k` is the filter line of entry `k`. */
  lemma {:induction false} FilterLinesAt(filters: seq<(string, string)>)
    ensures forall k :: 0 <= k < |filters| ==> FilterLines(filters)[k] == FilterLine(filters[k].0, filters[k].1)
    decreases |filters|
  {
    if |filters| > 0 {
      var init := filters[..|filters| - 1];
      FilterLinesAt(init);
      forall k | 0 <= k < |filters| - 1
        ensures FilterLines(filters)[k] == FilterLine(filters[k].0, filters[k].1)
      {
        assert filters[k] == init[k];
      }
    }
  }

  /** The measurement option, defaulting to `energy` when absent. */
  function MeasurementOf(q: EnergyQuery): string {
    if q.measurement.Some? then q.measurement.value else DefaultMeasurement
  }

  /** The filters option, defaulting to no filters when absent. */
  function FiltersOf(q: EnergyQuery): seq<(string, string)> {
    if q.filters.Some? then q.filters.value else []
  }

  /** The three-line prefix: bucket, range and measurement filter. */
  function QueryHead(q: EnergyQuery, configuredBucket: Option<string>): string {
    BucketLine(TargetBucket(q.bucket, configuredBucket)) + "\n"
      + RangeLine(FluxTime(StartParam(q.start)), FluxTime(EndParam(q.end))) + "\n"
      + MeasurementLine(MeasurementOf(q))
  }

  /** The complete query text `queryEnergyData` hands to `executeFluxQuery`; its first line reads from the bucket. */
  function QueryText(q: EnergyQuery, configuredBucket: Option<string>): (r: string)
    ensures StartsWith(r, BucketLine(TargetBucket(q.bucket, configuredBucket)) + "\n")
  {
    var first := BucketLine(TargetBucket(q.bucket, configuredBucket)) + "\n";
    var withRange := first + RangeLine(FluxTime(StartParam(q.start)), FluxTime(EndParam(q.end)));
    StartsWithAppend(first, first, RangeLine(FluxTime(StartParam(q.start)), FluxTime(EndParam(q.end))));
    StartsWithAppend(withRange, first, "\n");
    StartsWithAppend(withRange + "\n", first, MeasurementLine(MeasurementOf(q)));
    StartsWithAppend(QueryHead(q, configuredBucket), first, FilterText(FiltersOf(q)));
    QueryHead(q, configuredBucket) + FilterText(FiltersOf(q))
  }

  /**
    * Source: influx.ts `queryEnergyData` lines 113-148: the defaults, the bound
    * normalisation and quoting, the three-line prefix and the loop that appends
    * one filter line per entry.
    */
  method BuildEnergyQuery(q: EnergyQuery, configuredBucket: Option<string>) returns (fluxQuery: string)
    ensures fluxQuery == QueryText(q, configuredBucket)
  {
    var measurement := MeasurementOf(q);
    var filters := FiltersOf(q);
    var targetBucket := TargetBucket(q.bucket, configuredBucket);
    var startFlux := FluxTime(StartParam(q.start));
    var endFlux := FluxTime(EndParam(q.end));
    fluxQuery := BucketLine(targetBucket) + "\n" + RangeLine(startFlux, endFlux) + "\n" + MeasurementLine(measurement);
    ghost var head := fluxQuery;
    assert head == QueryHead(q, configuredBucket);
    if |filters| > 0 {
      var i := 0;
      while i < |filters|
        invariant 0 <= i <= |filters|
        invariant fluxQuery == head + FilterText(filters[..i])
      {
        var line := FilterLine(filters[i].0, filters[i].1);
        FilterTextStep(head, filters, i);
        fluxQuery := fluxQuery + "\n" + line;
        i := i + 1;
      }
      assert filters[..|filters|] == filters;
    }
  }

  /** One more loop round appends exactly the next entry's filter line. */
  lemma FilterTextStep(head: string, filters: seq<(string, string)>, i: nat)
    requires i < |filters|
    ensures head + FilterText(filters[..i + 1]) == head + FilterText(filters[..i]) + "\n" + FilterLine(filters[i].0, filters[i].1)
  {
    assert filters[..i + 1][..i] == filters[..i];
  }

  /**
    * Start bound rendering: `now` (and the literal `now()`) become the bare call
    * `now()`, relative durations stay bare, anything else is double-quoted; the
    * ISO-date test does not change the outcome.
    */
  lemma StartRendering(start: string)
    ensures start == "now" || start == "now()" ==> FluxTime(StartParam(start)) == "now()"
    ensures start != "now" && start != "now()" && StartsWith(start, "-") ==> FluxTime(StartParam(start)) == start
    ensures start != "now" && start != "now()" && !StartsWith(start, "-") ==>
      FluxTime(StartParam(start)) == "\"" + start + "\""
  {
    assert !StartsWith("now", "-") by { assert "now"[..1][0] == 'n'; }
    if start == "now()" {
      assert !StartsWith(start, "-") by { assert start[..1][0] == 'n'; }
    }
  }

  /** End bound rendering: `now`, the empty string and `now()` give `now()`; otherwise as for the start. */
  lemma EndRendering(end: string)
    ensures end == "now" || end == "" || end == "now()" ==> FluxTime(EndParam(end)) == "now()"
    ensures end != "now" && end != "" && end != "now()" && StartsWith(end, "-") ==> FluxTime(EndParam(end)) == end
    ensures end != "now" && end != "" && end != "now()" && !StartsWith(end, "-") ==>
      FluxTime(EndParam(end)) == "\"" + end + "\""
  {
  }

  /** Joining lines one more at a time: the shape of the filter loop. */
  lemma {:induction false} JoinSnoc(lines: seq<string>, last: string)
    requires |lines| >= 1
    ensures Join(lines + [last], '\n') == Join(lines, '\n') + "\n" + last
    decreases |lines|
  {
    if |lines| == 1 {
      assert (lines + [last])[1..] == [last];
    } else {
      assert (lines + [last])[1..] == lines[1..] + [last];
      JoinSnoc(lines[1..], last);
    }
  }

  /** The query text is its three prefix lines followed by the filter lines, joined by newlines. */
  lemma {:induction false} QueryTextIsJoin(head: seq<string>, filters: seq<(string, string)>)
    requires |head| >= 1
    ensures Join(head, '\n') + FilterText(filters) == Join(head + FilterLines(filters), '\n')
    decreases |filters|
  {
    if |filters| == 0 {
      assert head + [] == head;
    } else {
      var init := filters[..|filters| - 1];
      var last := FilterLine(filters[|filters| - 1].0, filters[|filters| - 1].1);
      QueryTextIsJoin(head, init);
      JoinExtend(head, FilterLines(init), FilterText(init), last);
      assert head + FilterLines(filters) == head + FilterLines(init) + [last];
    }
  }

  /** Text that joins `head` and `lines` still does so after one more line on both sides. */
  lemma JoinExtend(head: seq<string>, lines: seq<string>, text: string, last: string)
    requires |head| >= 1 && Join(head, '\n') + text == Join(head + lines, '\n')
    ensures Join(head, '\n') + (text + "\n" + last) == Join(head + lines + [last], '\n')
  {
    JoinSnoc(head + lines, last);
  }

  /** Three lines joined by newlines. */
  lemma JoinThree(l1: string, l2: string, l3: string)
    ensures Join([l1, l2, l3], '\n') == l1 + "\n" + l2 + "\n" + l3
  {
    var head := [l1, l2, l3];
    assert head[1..] == [l2, l3];
    assert [l2, l3][1..] == [l3];
    assert Join([l3], '\n') == l3;
    assert Join([l2, l3], '\n') == l2 + "\n" + l3;
    assert Join(head, '\n') == l1 + "\n" + (l2 + "\n" + l3);
    assert l1 + "\n" + (l2 + "\n" + l3) == l1 + "\n" + l2 + "\n" + l3;
  }

  /** Concatenations of newline-free text are newline-free. */
  lemma NoNewlineInLines(bucket: string, startFlux: string, endFlux: string, measurement: string,
                         filters: seq<(string, string)>)
    requires '\n' !in bucket && '\n' !in startFlux && '\n' !in endFlux && '\n' !in measurement
    requires forall k :: 0 <= k < |filters| ==> '\n' !in filters[k].0 && '\n' !in filters[k].1
    ensures var lines := [BucketLine(bucket), RangeLine(startFlux, endFlux), MeasurementLine(measurement)]
                         + FilterLines(filters);
      forall k :: 0 <= k < |lines| ==> '\n' !in lines[k]
  {
    var lines := [BucketLine(bucket), RangeLine(startFlux, endFlux), MeasurementLine(measurement)]
                 + FilterLines(filters);
    FilterLinesAt(filters);
    BucketLineOneLine(bucket);
    RangeLineOneLine(startFlux, endFlux);
    MeasurementLineOneLine(measurement);
    forall k | 0 <= k < |lines| ensures '\n' !in lines[k] {
      if k >= 3 {
        assert lines[k] == FilterLine(filters[k - 3].0, filters[k - 3].1);
        FilterLineOneLine(filters[k - 3].0, filters[k - 3].1);
      }
    }
  }

  /** The bucket line holds no newline when the bucket holds none. */
  lemma BucketLineOneLine(bucket: string)
    requires '\n' !in bucket
    ensures '\n' !in BucketLine(bucket)
  {
  }

  /** The range line holds no newline when its bounds hold none. */
  lemma RangeLineOneLine(startFlux: string, endFlux: string)
    requires '\n' !in startFlux && '\n' !in endFlux
    ensures '\n' !in RangeLine(startFlux, endFlux)
  {
  }

  /** The measurement line holds no newline when the measurement holds none. */
  lemma MeasurementLineOneLine(measurement: string)
    requires '\n' !in measurement
    ensures '\n' !in MeasurementLine(measurement)
  {
    var open := "  |> filter(fn: (r) => r._measurement == \"";
    assert '\n' !in open;
    OneLineConcat(open, measurement);
    OneLineConcat(open + measurement, "\")");
  }

  /** Joining two newline-free texts gives a newline-free text. */
  lemma OneLineConcat(a: string, b: string)
    requires '\n' !in a && '\n' !in b
    ensures '\n' !in a + b
  {
  }

  /** A filter line holds no newline when its key and value hold none. */
  lemma FilterLineOneLine(key: string, value: string)
    requires '\n' !in key && '\n' !in value
    ensures '\n' !in FilterLine(key, value)
  {
  }

  /** A bound written into the query holds a newline only if the bound itself does. */
  lemma FluxTimeNoNewline(param: string)
    requires '\n' !in param
    ensures '\n' !in FluxTime(param)
  {
  }

  /**
    * When no piece of the input holds a newline, the query has exactly three
    * prefix lines (bucket, range, measurement) and then one filter line per
    * entry, in entry order.
    */
  lemma QueryLines(q: EnergyQuery, configuredBucket: Option<string>)
    requires var bucket := TargetBucket(q.bucket, configuredBucket);
      && '\n' !in bucket && '\n' !in q.start && '\n' !in q.end
      && (q.measurement.Some? ==> '\n' !in q.measurement.value)
      && (q.filters.Some? ==> forall k :: 0 <= k < |q.filters.value| ==>
            '\n' !in q.filters.value[k].0 && '\n' !in q.filters.value[k].1)
    ensures Split(QueryText(q, configuredBucket), '\n') ==
      [ BucketLine(TargetBucket(q.bucket, configuredBucket)),
        RangeLine(FluxTime(StartParam(q.start)), FluxTime(EndParam(q.end))),
        MeasurementLine(MeasurementOf(q)) ] + FilterLines(FiltersOf(q))
  {
    var measurement := MeasurementOf(q);
    var filters := FiltersOf(q);
    var startFlux, endFlux := FluxTime(StartParam(q.start)), FluxTime(EndParam(q.end));
    var l1 := BucketLine(TargetBucket(q.bucket, configuredBucket));
    var l2 := RangeLine(startFlux, endFlux);
    var l3 := MeasurementLine(measurement);
    JoinThree(l1, l2, l3);
    QueryTextIsJoin([l1, l2, l3], filters);
    FluxTimeNoNewline(StartParam(q.start));
    FluxTimeNoNewline(EndParam(q.end));
    NoNewlineInLines(TargetBucket(q.bucket, configuredBucket), startFlux, endFlux, measurement, filters);
    SplitJoin([l1, l2, l3] + FilterLines(filters), '\n');
  }

  /** The built query always starts with `from(`, so the blank-query check never fires on it. */
  lemma BuiltQueryNotBlank(q: EnergyQuery, configuredBucket: Option<string>)
    ensures Trim(QueryText(q, configuredBucket)) != ""
  {
    var text := QueryText(q, configuredBucket);
    assert text[0] == 'f';
    assert TrimStart(text) == text;
  }
}
