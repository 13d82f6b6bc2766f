/**
 * The agriculture-prediction tool (`get_agriculture_predictions`): it maps a
 * period to an endpoint of the prediction API, fetches the predictions and
 * lays them out as a short report.
 *
 * The HTTP request is a function parameter from request to decoded JSON
 * (or the text of the request exception). How a number is written with two
 * decimals is a parameter too; what happens when a value is not a number
 * is modelled.
 */
module AgriculturePredictions {
  import opened Wrappers
  import opened PyStrings
  import opened PyValues

  /** The period names the API knows, each with its endpoint path. */
  const PeriodEndpoints: map<string, string> := map[
    "tomorrow" := "/api/Prediction/tomorrowPrediction",
    "week" := "/api/Prediction/weekPrediction",
    "month" := "/api/Prediction/monthPrediction",
    "quarter" := "/api/Prediction/cuarterPrediction"]

  const BaseUrl := "https://nasaanalisisapi-production.up.railway.app"

  /** The coordinates every request carries, as they appear in its query string. */
  const FixedLatitude := "4.8616"
  const FixedLongitude := "-74.0321"

  /** The endpoint for a period, looked up after lower-casing it. */
  function EndpointFor(period: string): (r: Option<string>)
    ensures r.Some? <==> Lower(period) in {"tomorrow", "week", "month", "quarter"}
    ensures r.Some? ==> r.value == PeriodEndpoints[Lower(period)]
  {
    var key := Lower(period);
    if key in PeriodEndpoints then Some(PeriodEndpoints[key]) else None
  }

  /** The lookup ignores case: a period and its lower-case form select the same endpoint. */
  lemma EndpointIgnoresCase(period: string)
    ensures EndpointFor(period) == EndpointFor(Lower(period))
  {
    LowerIdempotent(period);
  }

  function InvalidPeriodMessage(period: string): string {
    "The period '" + period + "' is invalid. Valid periods are: tomorrow, week, month, quarter."
  }

  /** A GET request: URL, query parameters in order, headers. */
  datatype PredictionRequest = PredictionRequest(url: string, params: seq<(string, string)>, headers: map<string, string>)

  function RequestFor(endpoint: string): PredictionRequest {
    PredictionRequest(
      BaseUrl + endpoint,
      [("latitude", FixedLatitude), ("longitude", FixedLongitude)],
      map["accept" := "application/json"])
  }

  /** One predicted parameter: its name, the unit written after each value, and its emoji. */
  datatype Parameter = Parameter(name: string, unit: string, emoji: string)

  const T2M := Parameter("T2M", "\U{B0}C", "\U{1F321}\U{FE0F}")
  const PRECTOT := Parameter("PRECTOT", " mm", "\U{2614}")
  const WS10M := Parameter("WS10M", " m/s", "\U{1F4A8}")
  const RH2M := Parameter("RH2M", "%", "\U{1F4A7}")

  /** The report's parameters, in report order. */
  const Parameters := [T2M, PRECTOT, WS10M, RH2M]

  /**
   * 2^1024 - 2^970, the least magnitude of an int that rounds beyond the
   * largest double (2^1024 - 2^971, rounding half to even), so that
   * converting it to float overflows.
   */
  const FloatOverflowBound: int :=
    179769313486231580793728971405303415079934132710037826936173778980444968292764750946649017977587207096330286416692887910946555547851940402630657488671505820681908902000708383676273854845817711531764475730270069855571366959622842914819860834936475292719074168444365510704342711559699508093042880177904174497792

  /** An int `:.2f` can format: one that converts to a float. */
  predicate FitsFloat(i: int) {
    -FloatOverflowBound < i < FloatOverflowBound
  }

  /**
   * `f"{v:.2f}"`. A number (a bool counts as one) is written by `render`,
   * after an int is converted to float, which overflows for an int too
   * large for a double; a string, None, list or dict cannot take the `f`
   * format.
   */
  function FormatFixed2(v: Json, render: Json -> string): (r: Result<string, PyError>)
    ensures r.Ok? <==> (v.JInt? && FitsFloat(v.i)) || v.JFloat? || v.JBool?
    ensures r.Ok? ==> r.value == render(v)
    ensures v.JInt? && !FitsFloat(v.i) ==> r == Err(OverflowError("int too large to convert to float"))
  {
    match v
    case JInt(i) => if FitsFloat(i) then Ok(render(v)) else Err(OverflowError("int too large to convert to float"))
    case JFloat(_) => Ok(render(v))
    case JBool(_) => Ok(render(v))
    case JStr(_) => Err(ValueError("Unknown format code 'f' for object of type 'str'"))
    case JNull => Err(TypeError("unsupported format string passed to NoneType.__format__"))
    case JList(_) => Err(TypeError("unsupported format string passed to list.__format__"))
    case JDict(_) => Err(TypeError("unsupported format string passed to dict.__format__"))
  }

  function UnpackCountError(n: nat): PyError {
    if n > 4 then ValueError("too many values to unpack (expected 4)")
    else ValueError("not enough values to unpack (expected 4, got " + DecimalString(n) + ")")
  }

  /**
   * `t2m, prectot, ws10m, rh2m = v`: a list or string of exactly four
   * elements unpacks; other sizes and non-iterables raise. A dict unpacks to
   * its four keys, all strings, so formatting the first one fails whatever
   * order they come in; that failure is returned here directly.
   */
  function UnpackFour(v: Json): (r: Result<seq<Json>, PyError>)
    ensures r.Ok? ==> |r.value| == 4
    ensures v.JList? ==> (r.Ok? <==> |v.items| == 4) && (r.Ok? ==> r.value == v.items)
  {
    match v
    case JList(items) => if |items| == 4 then Ok(items) else Err(UnpackCountError(|items|))
    case JStr(s) => if |s| == 4 then Ok([JStr([s[0]]), JStr([s[1]]), JStr([s[2]]), JStr([s[3]])]) else Err(UnpackCountError(|s|))
    case JDict(fields) =>
      if |fields| == 4 then Err(ValueError("Unknown format code 'f' for object of type 'str'"))
      else Err(UnpackCountError(|fields|))
    case _ => Err(TypeError("cannot unpack non-iterable " + TypeName(v) + " object"))
  }

  function TomorrowLine(p: Parameter, value: string): string {
    "- **" + p.name + "**: " + value + p.unit + " " + p.emoji
  }

  function RangeLine(p: Parameter, min: string, max: string, average: string): string {
    "- **" + p.name + "**: Min: " + min + p.unit + ", Max: " + max + p.unit + ", Average: " + average + p.unit + " " + p.emoji
  }

  const TomorrowHeader := "Prediction for tomorrow:"

  /** The lines of the "tomorrow" report for the four formatted values. */
  function TomorrowLines(values: seq<string>): seq<string>
    requires |values| == 4
  {
    [TomorrowHeader, TomorrowLine(T2M, values[0]), TomorrowLine(PRECTOT, values[1]),
     TomorrowLine(WS10M, values[2]), TomorrowLine(RH2M, values[3])]
  }

  /** The report for "tomorrow": one value per parameter, formatted in report order. */
  function TomorrowReport(predictions: Json, render: Json -> string): Result<string, PyError> {
    var values :- UnpackFour(predictions);
    var t2m :- FormatFixed2(values[0], render);
    var prectot :- FormatFixed2(values[1], render);
    var ws10m :- FormatFixed2(values[2], render);
    var rh2m :- FormatFixed2(values[3], render);
    Ok(JoinLines(TomorrowLines([t2m, prectot, ws10m, rh2m])))
  }

  /** `x['min']`, `x['max']`, `x['average']`, each read and formatted in that order. */
  function RangeValues(x: Json, render: Json -> string): Result<(string, string, string), PyError> {
    var min :- Subscript(x, Name("min"));
    var minText :- FormatFixed2(min, render);
    var max :- Subscript(x, Name("max"));
    var maxText :- FormatFixed2(max, render);
    var average :- Subscript(x, Name("average"));
    var averageText :- FormatFixed2(average, render);
    Ok((minText, maxText, averageText))
  }

  function RangeLineOf(p: Parameter, x: Json, render: Json -> string): Result<string, PyError> {
    var (min, max, average) :- RangeValues(x, render);
    Ok(RangeLine(p, min, max, average))
  }

  /** The report for the other periods: minimum, maximum and average per parameter. */
  function PeriodReport(period: string, predictions: Json, render: Json -> string): Result<string, PyError> {
    var t2m :- Subscript(predictions, Position(0));
    var prectot :- Subscript(predictions, Position(1));
    var ws10m :- Subscript(predictions, Position(2));
    var rh2m :- Subscript(predictions, Position(3));
    var t2mLine :- RangeLineOf(T2M, t2m, render);
    var prectotLine :- RangeLineOf(PRECTOT, prectot, render);
    var ws10mLine :- RangeLineOf(WS10M, ws10m, render);
    var rh2mLine :- RangeLineOf(RH2M, rh2m, render);
    Ok(JoinLines([Capitalize(period) + " prediction:", t2mLine, prectotLine, ws10mLine, rh2mLine]))
  }

  /** What one call of the tool produced: its output (or the exception it raised) and the request it made, if any. */
  datatype ToolRun = ToolRun(output: Result<string, PyError>, request: Option<PredictionRequest>)

  /**
   * `get_agriculture_predictions`. `lat` and `lon` are accepted and unused.
   * A request exception becomes text; a payload of the wrong shape raises.
   */
  function GetAgriculturePredictions(
    lat: string, lon: string, period: string,
    fetch: PredictionRequest -> Result<Json, string>, render: Json -> string): (r: ToolRun)
    ensures r.request.None? <==> EndpointFor(period).None?
    ensures r.request.None? ==> r.output == Ok(InvalidPeriodMessage(period))
    ensures r.request.Some? ==>
              && r.request.value.url == BaseUrl + PeriodEndpoints[Lower(period)]
              && r.request.value.params == [("latitude", "4.8616"), ("longitude", "-74.0321")]
    ensures r.request.Some? && fetch(r.request.value).Err? ==>
              r.output == Ok("Error retrieving predictions: " + fetch(r.request.value).error)
    ensures r.request.Some? && fetch(r.request.value).Ok? ==>
              var predictions := Subscript(fetch(r.request.value).value, Name("predictions"));
              && (predictions.Err? ==> r.output == Err(predictions.error))
              && (predictions.Ok? && Lower(period) == "tomorrow" ==> r.output == TomorrowReport(predictions.value, render))
              && (predictions.Ok? && Lower(period) != "tomorrow" ==> r.output == PeriodReport(period, predictions.value, render))
  {
    match EndpointFor(period)
    case None => ToolRun(Ok(InvalidPeriodMessage(period)), None)
    case Some(endpoint) =>
      var request := RequestFor(endpoint);
      match fetch(request)
      case Err(text) => ToolRun(Ok("Error retrieving predictions: " + text), Some(request))
      case Ok(data) =>
        var output := (
          var predictions :- Subscript(data, Name("predictions"));
          if Lower(period) == "tomorrow" then TomorrowReport(predictions, render)
          else PeriodReport(period, predictions, render));
        ToolRun(output, Some(request))
  }

  /** The coordinates passed in never matter: every request uses the fixed ones. */
  lemma CoordinatesIgnored(
    lat1: string, lon1: string, lat2: string, lon2: string, period: string,
    fetch: PredictionRequest -> Result<Json, string>, render: Json -> string)
    ensures GetAgriculturePredictions(lat1, lon1, period, fetch, render)
            == GetAgriculturePredictions(lat2, lon2, period, fetch, render)
  {
  }

  /** The periods of the Spanish-speaking flow are all unknown to the tool. */
  lemma SpanishPeriodsUnknown()
    ensures EndpointFor("diaria").None? && EndpointFor("semanal").None? && EndpointFor("mensual").None?
  {
    assert |Lower("diaria")| == 6;
    assert Lower("semanal")[0] == 's' && "quarter"[0] == 'q';
    assert Lower("mensual")[0] == 'm' && "quarter"[0] == 'q';
  }

  /** A value `:.2f` formats: a float, a bool, or an int that converts to a float. */
  predicate IsNumber(v: Json) {
    (v.JInt? && FitsFloat(v.i)) || v.JFloat? || v.JBool?
  }

  lemma NoNewlineConcat(a: string, b: string)
    requires NoNewline(a) && NoNewline(b)
    ensures NoNewline(a + b)
  {
    forall k | 0 <= k < |a + b| ensures (a + b)[k] != '\n' {
      if k >= |a| {
        assert (a + b)[k] == b[k - |a|];
      }
    }
  }

  lemma TomorrowLineOneLine(p: Parameter, value: string)
    requires p in Parameters && NoNewline(value)
    ensures NoNewline(TomorrowLine(p, value))
  {
    NoNewlineConcat("- **", p.name);
    NoNewlineConcat("- **" + p.name, "**: ");
    NoNewlineConcat("- **" + p.name + "**: ", value);
    NoNewlineConcat("- **" + p.name + "**: " + value, p.unit);
    NoNewlineConcat("- **" + p.name + "**: " + value + p.unit, " ");
    NoNewlineConcat("- **" + p.name + "**: " + value + p.unit + " ", p.emoji);
  }

  lemma TomorrowLinePrefix(p: Parameter, value: string)
    ensures StartsWith(TomorrowLine(p, value), "- **" + p.name + "**: " + value)
  {
    var prefix := "- **" + p.name + "**: " + value;
    assert TomorrowLine(p, value) == prefix + (p.unit + " " + p.emoji);
  }

  /** Each line of the "tomorrow" report is one line, and line k + 1 is about parameter k. */
  lemma TomorrowLinesSplit(values: seq<string>)
    requires |values| == 4 && forall k :: 0 <= k < 4 ==> NoNewline(values[k])
    ensures SplitLines(JoinLines(TomorrowLines(values))) == TomorrowLines(values)
    ensures forall k :: 0 <= k < 4 ==>
              StartsWith(TomorrowLines(values)[k + 1], "- **" + Parameters[k].name + "**: " + values[k])
  {
    var lines := TomorrowLines(values);
    forall j | 1 <= j < 5 ensures NoNewline(lines[j]) {
      TomorrowLineOneLine(Parameters[j - 1], values[j - 1]);
    }
    SplitJoinLines(lines);
    forall k | 0 <= k < 4
      ensures StartsWith(lines[k + 1], "- **" + Parameters[k].name + "**: " + values[k])
    {
      assert lines[k + 1] == TomorrowLine(Parameters[k], values[k]);
      TomorrowLinePrefix(Parameters[k], values[k]);
    }
  }

  /**
   * A first prediction too large for a double ends the "tomorrow" report in
   * the conversion's OverflowError, whatever the other three values are.
   */
  lemma HugePredictionOverflows(predictions: seq<Json>, render: Json -> string)
    requires |predictions| == 4 && predictions[0].JInt? && !FitsFloat(predictions[0].i)
    ensures TomorrowReport(JList(predictions), render) == Err(OverflowError("int too large to convert to float"))
  {
  }

  /**
   * With four numbers, the "tomorrow" report has exactly five lines: the
   * heading, then one line per parameter in the order T2M, PRECTOT, WS10M,
   * RH2M, each naming its parameter and carrying its one value.
   */
  lemma TomorrowReportLines(predictions: seq<Json>, render: Json -> string)
    requires |predictions| == 4 && forall k :: 0 <= k < 4 ==> IsNumber(predictions[k])
    requires forall k :: 0 <= k < 4 ==> NoNewline(render(predictions[k]))
    ensures TomorrowReport(JList(predictions), render).Ok?
    ensures var lines := SplitLines(TomorrowReport(JList(predictions), render).value);
            && |lines| == 5 && lines[0] == "Prediction for tomorrow:"
            && forall k :: 0 <= k < 4 ==>
                 StartsWith(lines[k + 1], "- **" + Parameters[k].name + "**: " + render(predictions[k]))
  {
    var values := [render(predictions[0]), render(predictions[1]), render(predictions[2]), render(predictions[3])];
    assert FormatFixed2(predictions[0], render) == Ok(values[0]);
    assert FormatFixed2(predictions[1], render) == Ok(values[1]);
    assert FormatFixed2(predictions[2], render) == Ok(values[2]);
    assert FormatFixed2(predictions[3], render) == Ok(values[3]);
    assert TomorrowReport(JList(predictions), render) == Ok(JoinLines(TomorrowLines(values)));
    TomorrowLinesSplit(values);
  }

  lemma CapitalizedName(name: string, capitalized: string)
    requires |name| > 0 && IsLowerLetter(name[0])
    requires forall i :: 1 <= i < |name| ==> !IsUpperLetter(name[i])
    requires |capitalized| == |name| && capitalized[0] == UpperChar(name[0]) && capitalized[1..] == name[1..]
    ensures Capitalize(name) == capitalized
  {
    LowerOfLowercase(name[1..]);
  }

  lemma CapitalizedPeriodNames()
    ensures Capitalize("week") == "Week" && Capitalize("month") == "Month" && Capitalize("quarter") == "Quarter"
  {
    CapitalizedName("week", "Week");
    CapitalizedName("month", "Month");
    CapitalizedName("quarter", "Quarter");
  }

  /** For a valid period other than "tomorrow" the heading names the period capitalised, whatever case it came in. */
  lemma PeriodHeading(period: string)
    requires EndpointFor(period).Some? && Lower(period) != "tomorrow"
    ensures Capitalize(period) in {"Week", "Month", "Quarter"}
  {
    CapitalizeOfLower(period);
    CapitalizedPeriodNames();
  }

  /** A statistics record as the API sends it: numeric "min", "max" and "average". */
  predicate IsRange(x: Json) {
    && x.JDict? && "min" in x.fields && "max" in x.fields && "average" in x.fields
    && IsNumber(x.fields["min"]) && IsNumber(x.fields["max"]) && IsNumber(x.fields["average"])
  }

  lemma RangeLineOfRange(p: Parameter, x: Json, render: Json -> string)
    requires IsRange(x)
    ensures RangeLineOf(p, x, render)
            == Ok(RangeLine(p, render(x.fields["min"]), render(x.fields["max"]), render(x.fields["average"])))
  {
  }

  lemma RangeLineOneLine(p: Parameter, min: string, max: string, average: string)
    requires p in Parameters && NoNewline(min) && NoNewline(max) && NoNewline(average)
    ensures NoNewline(RangeLine(p, min, max, average))
  {
    var s1 := "- **" + p.name;
    NoNewlineConcat("- **", p.name);
    var s2 := s1 + "**: Min: ";
    NoNewlineConcat(s1, "**: Min: ");
    var s3 := s2 + min;
    NoNewlineConcat(s2, min);
    var s4 := s3 + p.unit;
    NoNewlineConcat(s3, p.unit);
    var s5 := s4 + ", Max: ";
    NoNewlineConcat(s4, ", Max: ");
    var s6 := s5 + max;
    NoNewlineConcat(s5, max);
    var s7 := s6 + p.unit;
    NoNewlineConcat(s6, p.unit);
    var s8 := s7 + ", Average: ";
    NoNewlineConcat(s7, ", Average: ");
    var s9 := s8 + average;
    NoNewlineConcat(s8, average);
    var s10 := s9 + p.unit;
    NoNewlineConcat(s9, p.unit);
    var s11 := s10 + " ";
    NoNewlineConcat(s10, " ");
    NoNewlineConcat(s11, p.emoji);
  }

  /** Line k + 1 of a period report: parameter k with its three statistics, as `render` writes them. */
  function RangeLineFor(items: seq<Json>, k: nat, render: Json -> string): string
    requires k < |items| && k < |Parameters| && IsRange(items[k])
  {
    RangeLine(Parameters[k], render(items[k].fields["min"]), render(items[k].fields["max"]), render(items[k].fields["average"]))
  }

  predicate RendersOnOneLine(x: Json, render: Json -> string)
    requires IsRange(x)
  {
    NoNewline(render(x.fields["min"])) && NoNewline(render(x.fields["max"])) && NoNewline(render(x.fields["average"]))
  }

  lemma PeriodReportOfRanges(period: string, items: seq<Json>, render: Json -> string)
    requires |items| >= 4 && forall k :: 0 <= k < 4 ==> IsRange(items[k])
    ensures PeriodReport(period, JList(items), render)
            == Ok(JoinLines([Capitalize(period) + " prediction:", RangeLineFor(items, 0, render), RangeLineFor(items, 1, render),
                             RangeLineFor(items, 2, render), RangeLineFor(items, 3, render)]))
  {
    RangeLineOfRange(T2M, items[0], render);
    RangeLineOfRange(PRECTOT, items[1], render);
    RangeLineOfRange(WS10M, items[2], render);
    RangeLineOfRange(RH2M, items[3], render);
  }

  lemma HeadingOneLine(period: string)
    requires EndpointFor(period).Some? && Lower(period) != "tomorrow"
    ensures NoNewline(Capitalize(period) + " prediction:")
  {
    PeriodHeading(period);
    var name := Capitalize(period);
    assert NoNewline(name) by {
      if name == "Week" {
        assert NoNewline("Week");
      } else if name == "Month" {
        assert NoNewline("Month");
      } else {
        assert NoNewline("Quarter");
      }
    }
    NoNewlineConcat(name, " prediction:");
  }

  lemma RangeLineForOneLine(items: seq<Json>, k: nat, render: Json -> string)
    requires k < |items| && k < |Parameters| && IsRange(items[k]) && RendersOnOneLine(items[k], render)
    ensures NoNewline(RangeLineFor(items, k, render))
  {
    var x := items[k];
    RangeLineOneLine(Parameters[k], render(x.fields["min"]), render(x.fields["max"]), render(x.fields["average"]));
  }

  lemma FiveLinesSplit(a: string, b: string, c: string, d: string, e: string)
    requires NoNewline(a) && NoNewline(b) && NoNewline(c) && NoNewline(d) && NoNewline(e)
    ensures SplitLines(JoinLines([a, b, c, d, e])) == [a, b, c, d, e]
  {
    SplitJoinLines([a, b, c, d, e]);
  }

  /**
   * With four statistics records, the report for a week, month or quarter
   * has exactly five lines: the capitalised period as heading, then one line
   * per parameter in the order T2M, PRECTOT, WS10M, RH2M, each giving its
   * minimum, maximum and average.
   */
  lemma PeriodReportLines(period: string, items: seq<Json>, render: Json -> string)
    requires EndpointFor(period).Some? && Lower(period) != "tomorrow"
    requires |items| >= 4 && forall k :: 0 <= k < 4 ==> IsRange(items[k]) && RendersOnOneLine(items[k], render)
    ensures PeriodReport(period, JList(items), render).Ok?
    ensures var lines := SplitLines(PeriodReport(period, JList(items), render).value);
            && |lines| == 5 && lines[0] == Capitalize(period) + " prediction:"
            && forall k :: 0 <= k < 4 ==> lines[k + 1] == RangeLineFor(items, k, render)
  {
    PeriodReportOfRanges(period, items, render);
    PeriodLinesSplit(period, items, render);
  }

  /** The heading and the four range lines are each one line, so they split back apart. */
  lemma PeriodLinesSplit(period: string, items: seq<Json>, render: Json -> string)
    requires EndpointFor(period).Some? && Lower(period) != "tomorrow"
    requires |items| >= 4 && forall k :: 0 <= k < 4 ==> IsRange(items[k]) && RendersOnOneLine(items[k], render)
    ensures var lines := [Capitalize(period) + " prediction:", RangeLineFor(items, 0, render), RangeLineFor(items, 1, render),
                          RangeLineFor(items, 2, render), RangeLineFor(items, 3, render)];
            SplitLines(JoinLines(lines)) == lines
  {
    HeadingOneLine(period);
    RangeLineForOneLine(items, 0, render);
    RangeLineForOneLine(items, 1, render);
    RangeLineForOneLine(items, 2, render);
    RangeLineForOneLine(items, 3, render);
    FiveLinesSplit(Capitalize(period) + " prediction:", RangeLineFor(items, 0, render), RangeLineFor(items, 1, render),
                   RangeLineFor(items, 2, render), RangeLineFor(items, 3, render));
  }


  /**
   * A fetch that succeeds with well-formed predictions makes the tool answer
   * with a five-line report: for "tomorrow" the heading and one value per
   * parameter, for the other periods the capitalised heading and minimum,
   * maximum and average per parameter, in the order T2M, PRECTOT, WS10M, RH2M.
   */
  lemma ToolReportLines(
    lat: string, lon: string, period: string,
    fetch: PredictionRequest -> Result<Json, string>, render: Json -> string, items: seq<Json>)
    requires EndpointFor(period).Some?
    requires fetch(RequestFor(EndpointFor(period).value)).Ok?
    requires Subscript(fetch(RequestFor(EndpointFor(period).value)).value, Name("predictions")) == Ok(JList(items))
    requires Lower(period) == "tomorrow" ==>
               |items| == 4 && forall k :: 0 <= k < 4 ==> IsNumber(items[k]) && NoNewline(render(items[k]))
    requires Lower(period) != "tomorrow" ==>
               |items| >= 4 && forall k :: 0 <= k < 4 ==> IsRange(items[k]) && RendersOnOneLine(items[k], render)
    ensures var r := GetAgriculturePredictions(lat, lon, period, fetch, render);
            && r.output.Ok? && |SplitLines(r.output.value)| == 5
            && (Lower(period) == "tomorrow" ==>
                  && SplitLines(r.output.value)[0] == "Prediction for tomorrow:"
                  && forall k :: 0 <= k < 4 ==>
                       StartsWith(SplitLines(r.output.value)[k + 1], "- **" + Parameters[k].name + "**: " + render(items[k])))
            && (Lower(period) != "tomorrow" ==>
                  && SplitLines(r.output.value)[0] == Capitalize(period) + " prediction:"
                  && forall k :: 0 <= k < 4 ==> SplitLines(r.output.value)[k + 1] == RangeLineFor(items, k, render))
  {
    var r := GetAgriculturePredictions(lat, lon, period, fetch, render);
    if Lower(period) == "tomorrow" {
      assert r.output == TomorrowReport(JList(items), render);
      TomorrowReportLines(items, render);
    } else {
      assert r.output == PeriodReport(period, JList(items), render);
      PeriodReportLines(period, items, render);
    }
  }
}
