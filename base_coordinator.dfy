/** The logic the single-station and multi-station coordinators share: the
    unit table, request URLs, the API error check, the base fetch-and-merge,
    the forecast accessor and the icon-code classifier. */
module BaseCoordinator {
  import opened PyJson
  import opened Text

  // Field names of the weather.com payloads.
  const FieldObservations := "observations"
  const FieldDaypart := "daypart"
  const FieldLatitude := "lat"
  const FieldLongitude := "lon"
  const FieldHumidity := "humidity"
  const FieldWindDir := "winddir"
  const FieldErrors := "errors"
  const FieldMessage := "message"
  const FieldTemperatureMax := "temperatureMax"
  const FieldTemperatureMin := "temperatureMin"
  const FieldCalendarDayTemperatureMax := "calendarDayTemperatureMax"
  const FieldCalendarDayTemperatureMin := "calendarDayTemperatureMin"
  const FieldValidTimeUtc := "validTimeUtc"
  const FieldIconCode := "iconCode"
  const FieldQpf := "qpf"
  const FieldPrecipChance := "precipChance"
  const FieldWindSpeed := "windSpeed"
  const FieldWindDirection := "windDirection"
  const FieldWindDirectionCardinal := "windDirectionCardinal"

  // ---------------------------------------------------------------------------
  // Unit table

  datatype TemperatureUnit = Celsius | Fahrenheit
  datatype LengthUnit = Millimeters | Inches
  datatype SpeedUnit = KilometersPerHour | MilesPerHour
  datatype PressureUnit = Millibar | InchesOfMercury

  /** `units_of_measurement`: the unit of each measured quantity. */
  datatype Units = Units(
    temperature: TemperatureUnit,
    length: LengthUnit,
    speed: SpeedUnit,
    pressure: PressureUnit)

  /** The table for an API unit-system code: the code `m` selects metric units
      for every quantity, and every other code selects imperial units for
      every quantity. */
  function UnitsOfMeasurement(unitSystemApi: string): (u: Units)
    ensures u.temperature == Celsius <==> unitSystemApi == "m"
    ensures u.length == Millimeters <==> unitSystemApi == "m"
    ensures u.speed == KilometersPerHour <==> unitSystemApi == "m"
    ensures u.pressure == Millibar <==> unitSystemApi == "m"
  {
    if unitSystemApi == "m" then Units(Celsius, Millimeters, KilometersPerHour, Millibar)
    else Units(Fahrenheit, Inches, MilesPerHour, InchesOfMercury)
  }

  // ---------------------------------------------------------------------------
  // Request URLs

  /** The two endpoints: current conditions of one station, and the 5-day
      forecast of a geocode. */
  datatype Resource = Current | Forecast

  const Host := "https://api.weather.com"
  const CurrentPath := Host + "/v2/pws/observations/current"
  const ForecastPath := Host + "/v3/wx/forecast/daily/5day"

  /** One `name=value` query parameter. */
  function Param(name: string, value: string): string {
    name + "=" + value
  }

  /** The shared tail of both URLs: `&format=json&apiKey=...&units=...`. */
  function SharedSuffix(apiKey: string, units: string): string {
    "&" + Param("format", "json") + "&" + Param("apiKey", apiKey) + "&" + Param("units", units)
  }

  /** The URL `_build_url` formats, once every placeholder value is rendered as
      text. The current-conditions URL carries the station and, unless the
      precision is `none`, the precision; the forecast URL carries the geocode
      and the language. */
  function FormatUrl(
    resource: Resource, stationId: string, latitude: string, longitude: string,
    lang: string, precision: string, apiKey: string, units: string): string
  {
    match resource
    case Current =>
      CurrentPath + "?" + Param("stationId", stationId)
      + (if precision != "none" then "&" + Param("numericPrecision", precision) else "")
      + SharedSuffix(apiKey, units)
    case Forecast =>
      ForecastPath + "?" + Param("geocode", latitude + "," + longitude)
      + "&" + Param("language", lang)
      + SharedSuffix(apiKey, units)
  }

  /** Every URL is its resource's endpoint, a `?`, and a query that ends
      with the shared parameters. */
  lemma FormatUrlShape(
    resource: Resource, stationId: string, latitude: string, longitude: string,
    lang: string, precision: string, apiKey: string, units: string)
    ensures var url := FormatUrl(resource, stationId, latitude, longitude, lang, precision, apiKey, units);
            var path := if resource == Current then CurrentPath else ForecastPath;
      && |url| > |path| + |SharedSuffix(apiKey, units)|
      && url[..|path| + 1] == path + "?"
      && url[|url| - |SharedSuffix(apiKey, units)|..] == SharedSuffix(apiKey, units)
  {
  }

  /** Python's `str()` of a value placed into a URL. Strings, `None` and booleans
      are spelled out; numbers (the float repr) are rendered by `show`. */
  function Str(j: Json, show: Json -> string): string {
    match j
    case JStr(s) => s
    case JNull => "None"
    case JBool(b) => if b then "True" else "False"
    case _ => show(j)
  }

  /** A query string `k1=v1&k2=v2...`. */
  function Query(params: seq<(string, string)>): string {
    Join(seq(|params|, k requires 0 <= k < |params| => Param(params[k].0, params[k].1)), "&")
  }

  /** The query parameters a server reads from a URL: the text after the first
      `?`, cut at every `&`, each piece cut at its first `=`. */
  function Params(url: string): seq<(string, string)> {
    var pieces := SplitOn(After(url, '?'), '&');
    seq(|pieces|, k requires 0 <= k < |pieces| => (Before(pieces[k], '='), After(pieces[k], '=')))
  }

  /** The names of a list of parameters, in order. */
  function Names(params: seq<(string, string)>): seq<string> {
    seq(|params|, k requires 0 <= k < |params| => params[k].0)
  }

  /** The parameters each URL is meant to carry: an independent statement of
      the two templates. */
  function ExpectedParams(
    resource: Resource, stationId: string, latitude: string, longitude: string,
    lang: string, precision: string, apiKey: string, units: string): seq<(string, string)>
  {
    match resource
    case Current =>
      [("stationId", stationId)]
      + (if precision != "none" then [("numericPrecision", precision)] else [])
      + SharedParams(apiKey, units)
    case Forecast =>
      [("geocode", latitude + "," + longitude), ("language", lang)] + SharedParams(apiKey, units)
  }

  function SharedParams(apiKey: string, units: string): seq<(string, string)> {
    [("format", "json"), ("apiKey", apiKey), ("units", units)]
  }

  /** No interpolated value can start a new parameter. */
  predicate NoAmpersand(values: seq<string>) {
    forall k :: 0 <= k < |values| ==> '&' !in values[k]
  }

  predicate WellFormedParams(params: seq<(string, string)>) {
    forall k :: 0 <= k < |params| ==>
      '&' !in params[k].0 && '=' !in params[k].0 && '&' !in params[k].1
  }

  lemma {:induction false} SplitJoin(parts: seq<string>, c: char)
    requires |parts| > 0
    requires forall k :: 0 <= k < |parts| ==> c !in parts[k]
    ensures SplitOn(Join(parts, [c]), c) == parts
    decreases |parts|
  {
    if |parts| == 1 {
      SplitOnNone(parts[0], c);
    } else {
      SplitJoin(parts[1..], c);
      SplitOnAppend(parts[0], c, Join(parts[1..], [c]));
      assert [parts[0]] + parts[1..] == parts;
    }
  }

  /** Reading back the parameters of `path?query` gives the parameters the query
      was built from. */
  lemma QueryRoundTrip(path: string, params: seq<(string, string)>)
    requires '?' !in path
    requires |params| > 0
    requires WellFormedParams(params)
    ensures Params(path + "?" + Query(params)) == params
  {
    var pieces := seq(|params|, k requires 0 <= k < |params| => Param(params[k].0, params[k].1));
    BeforeAfterAppend(path, '?', Query(params));
    assert path + "?" + Query(params) == path + ['?'] + Query(params);
    forall k | 0 <= k < |pieces| ensures '&' !in pieces[k] {
      assert pieces[k] == params[k].0 + "=" + params[k].1;
    }
    SplitJoin(pieces, '&');
    assert "&" == ['&'];
    forall k | 0 <= k < |params|
      ensures Before(pieces[k], '=') == params[k].0 && After(pieces[k], '=') == params[k].1
    {
      assert pieces[k] == params[k].0 + ['='] + params[k].1;
      BeforeAfterAppend(params[k].0, '=', params[k].1);
    }
  }

  lemma QueryCons(p: (string, string), rest: seq<(string, string)>)
    requires |rest| > 0
    ensures Query([p] + rest) == Param(p.0, p.1) + "&" + Query(rest)
  {
    var ps := [p] + rest;
    var pieces := seq(|ps|, k requires 0 <= k < |ps| => Param(ps[k].0, ps[k].1));
    var restPieces := seq(|rest|, k requires 0 <= k < |rest| => Param(rest[k].0, rest[k].1));
    assert pieces[1..] == restPieces;
  }

  lemma QueryOne(p: (string, string))
    ensures Query([p]) == Param(p.0, p.1)
  {
  }

  lemma SharedQuery(apiKey: string, units: string)
    ensures "&" + Query(SharedParams(apiKey, units)) == SharedSuffix(apiKey, units)
  {
    var shared := SharedParams(apiKey, units);
    QueryOne(("units", units));
    QueryCons(("apiKey", apiKey), [("units", units)]);
    assert [("apiKey", apiKey)] + [("units", units)] == shared[1..];
    QueryCons(("format", "json"), shared[1..]);
    assert [("format", "json")] + shared[1..] == shared;
  }

  lemma CurrentUrlIsQuery(stationId: string, latitude: string, longitude: string,
    lang: string, precision: string, apiKey: string, units: string)
    ensures FormatUrl(Current, stationId, latitude, longitude, lang, precision, apiKey, units)
         == CurrentPath + "?" + Query(ExpectedParams(Current, stationId, latitude, longitude, lang, precision, apiKey, units))
  {
    var shared := SharedParams(apiKey, units);
    SharedQuery(apiKey, units);
    if precision != "none" {
      var tail := [("numericPrecision", precision)] + shared;
      QueryCons(("numericPrecision", precision), shared);
      QueryCons(("stationId", stationId), tail);
      assert ExpectedParams(Current, stationId, latitude, longitude, lang, precision, apiKey, units)
          == [("stationId", stationId)] + tail;
    } else {
      QueryCons(("stationId", stationId), shared);
      assert ExpectedParams(Current, stationId, latitude, longitude, lang, precision, apiKey, units)
          == [("stationId", stationId)] + shared;
    }
  }

  lemma ForecastUrlIsQuery(stationId: string, latitude: string, longitude: string,
    lang: string, precision: string, apiKey: string, units: string)
    ensures FormatUrl(Forecast, stationId, latitude, longitude, lang, precision, apiKey, units)
         == ForecastPath + "?" + Query(ExpectedParams(Forecast, stationId, latitude, longitude, lang, precision, apiKey, units))
  {
    var shared := SharedParams(apiKey, units);
    SharedQuery(apiKey, units);
    var tail := [("language", lang)] + shared;
    QueryCons(("language", lang), shared);
    QueryCons(("geocode", latitude + "," + longitude), tail);
    assert ExpectedParams(Forecast, stationId, latitude, longitude, lang, precision, apiKey, units)
        == [("geocode", latitude + "," + longitude)] + tail;
  }

  /** Neither endpoint path holds a `?` of its own. */
  lemma PathsHaveNoQuery()
    ensures '?' !in CurrentPath && '?' !in ForecastPath
  {
    HostHasNoQuery();
    EndpointsHaveNoQuery();
  }

  lemma HostHasNoQuery()
    ensures '?' !in Host
  {
  }

  lemma EndpointsHaveNoQuery()
    ensures '?' !in "/v2/pws/observations/current"
    ensures '?' !in "/v3/wx/forecast/daily/5day"
  {
  }

  /** What the server reads from a formatted URL: exactly the expected
      parameters, in order, as long as no interpolated value contains `&`. */
  lemma UrlParams(
    resource: Resource, stationId: string, latitude: string, longitude: string,
    lang: string, precision: string, apiKey: string, units: string)
    requires NoAmpersand([stationId, latitude, longitude, lang, precision, apiKey, units])
    ensures Params(FormatUrl(resource, stationId, latitude, longitude, lang, precision, apiKey, units))
         == ExpectedParams(resource, stationId, latitude, longitude, lang, precision, apiKey, units)
  {
    var ps := ExpectedParams(resource, stationId, latitude, longitude, lang, precision, apiKey, units);
    var vals := [stationId, latitude, longitude, lang, precision, apiKey, units];
    assert '&' !in stationId && '&' !in lang && '&' !in precision && '&' !in apiKey && '&' !in units
      by { assert vals[0] == stationId && vals[3] == lang && vals[4] == precision && vals[5] == apiKey && vals[6] == units; }
    assert '&' !in latitude + "," + longitude by { assert vals[1] == latitude && vals[2] == longitude; }
    assert WellFormedParams(ps);
    if resource == Current {
      CurrentUrlIsQuery(stationId, latitude, longitude, lang, precision, apiKey, units);
      PathsHaveNoQuery();
      QueryRoundTrip(CurrentPath, ps);
    } else {
      ForecastUrlIsQuery(stationId, latitude, longitude, lang, precision, apiKey, units);
      PathsHaveNoQuery();
      QueryRoundTrip(ForecastPath, ps);
    }
  }

  lemma ExpectedNames(
    resource: Resource, stationId: string, latitude: string, longitude: string,
    lang: string, precision: string, apiKey: string, units: string)
    ensures Names(ExpectedParams(resource, stationId, latitude, longitude, lang, precision, apiKey, units))
         == match resource
            case Current =>
              ["stationId"] + (if precision != "none" then ["numericPrecision"] else []) + ["format", "apiKey", "units"]
            case Forecast => ["geocode", "language", "format", "apiKey", "units"]
  {
  }

  /** The names the server reads: the station id and, unless it is `none`, the
      precision for current conditions; the geocode and the language for the
      forecast; then format, key and units for both. */
  lemma UrlParamNames(
    resource: Resource, stationId: string, latitude: string, longitude: string,
    lang: string, precision: string, apiKey: string, units: string)
    requires NoAmpersand([stationId, latitude, longitude, lang, precision, apiKey, units])
    ensures Names(Params(FormatUrl(resource, stationId, latitude, longitude, lang, precision, apiKey, units)))
         == match resource
            case Current =>
              ["stationId"] + (if precision != "none" then ["numericPrecision"] else []) + ["format", "apiKey", "units"]
            case Forecast => ["geocode", "language", "format", "apiKey", "units"]
  {
    UrlParams(resource, stationId, latitude, longitude, lang, precision, apiKey, units);
    ExpectedNames(resource, stationId, latitude, longitude, lang, precision, apiKey, units);
  }

  /** The attributes the base `_build_url` reads from its coordinator; `None`
      stands for an attribute the coordinator does not have. */
  datatype UrlSettings = UrlSettings(
    apiKey: string,
    lang: string,
    unitSystemApi: string,
    numericPrecision: Option<string>,
    latitude: Option<Json>,
    longitude: Option<Json>)

  /** `latitude or getattr(self, '_latitude', '')`. */
  function ResolveCoordinate(argument: Json, attribute: Option<Json>): (c: Json)
    ensures Truthy(argument) ==> c == argument
    ensures !Truthy(argument) && attribute.Some? ==> c == attribute.value
    ensures !Truthy(argument) && attribute.None? ==> c == JStr("")
  {
    if Truthy(argument) then argument
    else if attribute.Some? then attribute.value
    else JStr("")
  }

  /** `getattr(self, '_numeric_precision', 'none')`. */
  function PrecisionOf(s: UrlSettings): string {
    if s.numericPrecision.Some? then s.numericPrecision.value else "none"
  }

  /** The base `_build_url`: explicit coordinates win only when truthy; the
      precision counts as `none` when the coordinator has none; the forecast
      URL never carries the station id. */
  function BuildUrl(
    s: UrlSettings, resource: Resource, stationId: string,
    latitude: Json, longitude: Json, show: Json -> string): (url: string)
    ensures var lat := Str(ResolveCoordinate(latitude, s.latitude), show);
            var lon := Str(ResolveCoordinate(longitude, s.longitude), show);
            NoAmpersand([stationId, lat, lon, s.lang, PrecisionOf(s), s.apiKey, s.unitSystemApi]) ==>
              Params(url) == ExpectedParams(resource, stationId, lat, lon, s.lang, PrecisionOf(s), s.apiKey, s.unitSystemApi)
  {
    var lat := Str(ResolveCoordinate(latitude, s.latitude), show);
    var lon := Str(ResolveCoordinate(longitude, s.longitude), show);
    var url := FormatUrl(resource, stationId, lat, lon, s.lang, PrecisionOf(s), s.apiKey, s.unitSystemApi);
    if NoAmpersand([stationId, lat, lon, s.lang, PrecisionOf(s), s.apiKey, s.unitSystemApi]) then
      UrlParams(resource, stationId, lat, lon, s.lang, PrecisionOf(s), s.apiKey, s.unitSystemApi);
      url
    else url
  }

  // ---------------------------------------------------------------------------
  // API error check

  /** `[e['message'] for e in errors]`, evaluated in order. */
  function MessageValues(errors: seq<Json>): (r: Py<seq<Json>>)
    ensures r.Ok? ==> |r.value| == |errors|
    ensures r.Ok? ==> forall k :: 0 <= k < |errors| ==> GetKey(errors[k], FieldMessage) == Ok(r.value[k])
    ensures r.Raise? ==> r.exc in {KeyError, TypeError}
    decreases |errors|
  {
    if |errors| == 0 then Ok([])
    else
      var m :- GetKey(errors[0], FieldMessage);
      var rest :- MessageValues(errors[1..]);
      Ok([m] + rest)
  }

  /** `str.join` accepts only strings. */
  function AsStrings(values: seq<Json>): (r: Py<seq<string>>)
    ensures r.Ok? <==> forall k :: 0 <= k < |values| ==> values[k].JStr?
    ensures r.Ok? ==> |r.value| == |values| && forall k :: 0 <= k < |values| ==> r.value[k] == values[k].s
    ensures r.Raise? ==> r.exc == TypeError
    decreases |values|
  {
    if |values| == 0 then Ok([])
    else if !values[0].JStr? then Raise(TypeError)
    else
      var rest :- AsStrings(values[1..]);
      Ok([values[0].s] + rest)
  }

  /** `_check_errors` (identical in the base, single- and multi-station
      coordinators): returns normally exactly when the payload has no `errors`
      entry or an empty one; otherwise it raises, a ValueError carrying every
      message when each entry is an object with a string `message`. */
  function CheckErrors(response: Json): (r: Py<()>)
    ensures response.JObj? ==>
      (r.Ok? <==> FieldErrors !in response.fields || !Truthy(response.fields[FieldErrors]))
    ensures r.Raise? ==> r.exc.ValueError? || r.exc in {KeyError, TypeError}
  {
    var has :- Contains(response, FieldErrors);
    if !has then Ok(())
    else
      var errors :- GetKey(response, FieldErrors);
      if !Truthy(errors) then Ok(())
      else match errors
        case JArr(es) =>
          var values :- MessageValues(es);
          var messages :- AsStrings(values);
          Raise(ValueError(ApiErrors(messages)))
        case _ => Raise(TypeError)
  }

  /** A well-formed error list raises ValueError with its messages in order. */
  lemma CheckErrorsReportsMessages(response: map<string, Json>, messages: seq<string>)
    requires |messages| > 0
    requires FieldErrors in response
    requires response[FieldErrors] == JArr(seq(|messages|, k requires 0 <= k < |messages| => JObj(map[FieldMessage := JStr(messages[k])])))
    ensures CheckErrors(JObj(response)) == Raise(ValueError(ApiErrors(messages)))
  {
    var es := response[FieldErrors].items;
    var values := MessageValues(es);
    assert values.Ok? by {
      if values.Raise? {
        // the first entry without a message would be the culprit; every entry has one
        MessageValuesOk(es);
      }
    }
    assert forall k :: 0 <= k < |es| ==> values.value[k] == JStr(messages[k]);
    var strings := AsStrings(values.value);
    assert strings.Ok?;
    assert |strings.value| == |messages|;
    assert strings.value == messages;
  }

  lemma {:induction false} MessageValuesOk(es: seq<Json>)
    requires forall k :: 0 <= k < |es| ==> es[k].JObj? && FieldMessage in es[k].fields
    ensures MessageValues(es).Ok?
    decreases |es|
  {
    if |es| > 0 {
      MessageValuesOk(es[1..]);
    }
  }

  /** The text of the ValueError `_check_errors` raises, as written: the
      f-string `'Error from {url}: '` and the literal `'; '` are adjacent, so
      Python joins them into one separator before `.join` applies it. */
  function ErrorTextAsWritten(url: string, messages: seq<string>): string {
    Join(messages, "Error from " + url + ": " + "; ")
  }

  /** As written, a single message comes out alone, without the URL. */
  lemma ErrorTextAsWrittenDropsUrl(url: string, message: string)
    ensures ErrorTextAsWritten(url, [message]) == message
  {
  }

  /** The text evidently intended: the URL, then the messages separated by
      `; `. */
  function ErrorText(url: string, messages: seq<string>): (t: string)
    ensures |t| >= |"Error from " + url + ": "|
    ensures t[..|"Error from " + url + ": "|] == "Error from " + url + ": "
  {
    "Error from " + url + ": " + Join(messages, "; ")
  }

  // ---------------------------------------------------------------------------
  // Fetching (network replies are given, not performed)

  /** What the network returned for one request: a status and a body that
      decoded as JSON (`None` when it did not), or no reply at all (timeout or
      connection failure). */
  datatype Reply = Reply(status: int, body: Option<Json>) | NoReply

  /** The status check and `response.json()`, then the null check. */
  function Payload(reply: Reply): (r: Py<Json>)
    ensures reply.Reply? && reply.status != 200 ==> r == Raise(ValueError(HttpStatus(reply.status)))
    ensures r.Ok? <==> reply.Reply? && reply.status == 200 && reply.body.Some? && reply.body.value != JNull
    ensures r.Ok? ==> r.value == reply.body.value
  {
    match reply
    case NoReply => Raise(TimeoutError)
    case Reply(status, body) =>
      if status != 200 then Raise(ValueError(HttpStatus(status)))
      else if body.None? then Raise(ValueError(BadJson))
      else if body.value == JNull then Raise(ValueError(NoResult))
      else Ok(body.value)
  }

  /** `'daypart' not in result or not result['daypart']` only logs, but
      evaluating it can raise on a payload of the wrong shape. */
  function DaypartProbe(result: Json): (r: Py<()>)
    ensures result.JObj? ==> r.Ok?
  {
    var has :- Contains(result, FieldDaypart);
    if !has then Ok(())
    else
      var _ :- GetKey(result, FieldDaypart);
      Ok(())
  }

  /** The forecast request of the base and multi-station fetchers. */
  function ForecastPayload(reply: Reply): (r: Py<Json>)
    ensures r.Ok? ==> Payload(reply) == r
    ensures Payload(reply).Ok? && Payload(reply).value.JObj? ==>
      (r.Ok? <==> CheckErrors(Payload(reply).value).Ok?)
    ensures Payload(reply).Raise? ==> r.Raise?
  {
    var result :- Payload(reply);
    var _ :- DaypartProbe(result);
    var _ :- CheckErrors(result);
    Ok(result)
  }

  /** The current-conditions request of `get_weather_data`. */
  function BaseCurrentPayload(reply: Reply): (r: Py<Json>)
    ensures r.Ok? ==> Payload(reply) == r
    ensures Payload(reply).Ok? ==> (r.Ok? <==> CheckErrors(Payload(reply).value).Ok?)
    ensures Payload(reply).Raise? ==> r.Raise?
  {
    var result :- Payload(reply);
    var _ :- CheckErrors(result);
    Ok(result)
  }

  /** The server as seen by one update: the reply to each URL requested. */
  type Network = string -> Reply

  /** `{**current, **forecast}` after both requests of `get_weather_data`; the
      forecast stands in as `{}` when forecasts are disabled. */
  function CombineReplies(current: Reply, forecast: Reply, forecastEnable: Option<bool>): (r: Py<Json>)
    ensures r.Ok? ==> r.value.JObj?
    ensures BaseCurrentPayload(current).Raise? ==> r.Raise?
    ensures current.Reply? && current.status != 200 ==> r == Raise(ValueError(HttpStatus(current.status)))
    ensures forecastEnable == Some(false) ==>
      (r.Ok? <==> BaseCurrentPayload(current).Ok? && BaseCurrentPayload(current).value.JObj?)
    ensures forecastEnable == Some(false) && r.Ok? ==> r == BaseCurrentPayload(current)
    ensures forecastEnable != Some(false) && ForecastPayload(forecast).Raise? ==> r.Raise?
    ensures forecastEnable != Some(false) && r.Ok? ==>
      && BaseCurrentPayload(current).Ok? && ForecastPayload(forecast).Ok?
      && BaseCurrentPayload(current).value.JObj? && ForecastPayload(forecast).value.JObj?
      && r.value.fields.Keys == BaseCurrentPayload(current).value.fields.Keys + ForecastPayload(forecast).value.fields.Keys
      && (forall k :: k in ForecastPayload(forecast).value.fields ==>
            r.value.fields[k] == ForecastPayload(forecast).value.fields[k])
      && (forall k :: k in BaseCurrentPayload(current).value.fields && k !in ForecastPayload(forecast).value.fields ==>
            r.value.fields[k] == BaseCurrentPayload(current).value.fields[k])
    ensures forecastEnable != Some(false) && BaseCurrentPayload(current).Ok? && ForecastPayload(forecast).Ok? ==>
      r == Merge(BaseCurrentPayload(current).value, ForecastPayload(forecast).value)
  {
    var c :- BaseCurrentPayload(current);
    var f :- if forecastEnable != Some(false) then ForecastPayload(forecast) else Ok(JObj(map[]));
    if c.JObj? && f == JObj(map[]) then
      assert c.fields + map[] == c.fields;
      Merge(c, f)
    else Merge(c, f)
  }

  /** `get_weather_data`: requests the current conditions of the station, then
      (unless forecasts are disabled) the forecast, and returns the merged
      document, or `None` when anything fails. */
  function GetWeatherData(
    s: UrlSettings, forecastEnable: Option<bool>, stationId: string,
    latitude: Json, longitude: Json, net: Network, show: Json -> string): (r: Json)
    ensures r == JNull || (r.JObj? && (FieldErrors !in r.fields || !Truthy(r.fields[FieldErrors])))
    ensures var current := net(BuildUrl(s, Current, stationId, latitude, longitude, show));
      && (current.Reply? && current.status != 200 ==> r == JNull)
      && (current.NoReply? ==> r == JNull)
      && (forecastEnable == Some(false) && r != JNull ==> current.Reply? && current.body == Some(r))
    ensures var outcome := CombineReplies(net(BuildUrl(s, Current, stationId, latitude, longitude, show)),
                                          net(BuildUrl(s, Forecast, stationId, latitude, longitude, show)),
                                          forecastEnable);
      && (outcome.Ok? ==> r == outcome.value)
      && (outcome.Raise? ==> r == JNull)
  {
    var current := net(BuildUrl(s, Current, stationId, latitude, longitude, show));
    var forecast := net(BuildUrl(s, Forecast, stationId, latitude, longitude, show));
    var outcome := CombineReplies(current, forecast, forecastEnable);
    if outcome.Ok? then
      MergedHasNoErrors(current, forecast, forecastEnable);
      outcome.value
    else JNull
  }

  /** A merged document never carries a non-empty `errors` entry: both payloads
      passed the error check, and the merge keeps one of their entries. */
  lemma MergedHasNoErrors(current: Reply, forecast: Reply, forecastEnable: Option<bool>)
    requires CombineReplies(current, forecast, forecastEnable).Ok?
    ensures var m := CombineReplies(current, forecast, forecastEnable).value.fields;
            FieldErrors !in m || !Truthy(m[FieldErrors])
  {
    var c := BaseCurrentPayload(current).value;
    assert CheckErrors(c).Ok?;
    if forecastEnable != Some(false) {
      var f := ForecastPayload(forecast).value;
      assert CheckErrors(f).Ok?;
    }
  }

  /** The outcome of one fetch before its exception handlers run: the merged
      document or the exception raised, and the coordinates afterwards. */
  datatype Attempt = Attempt(outcome: Py<Json>, latitude: Json, longitude: Json)

  /** `result[observations][0][field]`. */
  function ObservationField(result: Json, field: string): (r: Py<Json>)
    ensures FirstObservation(result).Some? && field in FirstObservation(result).value ==>
      r == Ok(FirstObservation(result).value[field])
    ensures r.Ok? ==> FirstObservation(result).Some? || !result.JObj?
    ensures r.Raise? ==> r.exc in {KeyError, IndexError, TypeError}
  {
    var observations :- GetKey(result, FieldObservations);
    var first :- GetIndex(observations, 0);
    GetKey(first, field)
  }

  /** `if not coordinate: coordinate = result[observations][0][field]`: a
      coordinate is learned from the payload only while it is unset. */
  function Learn(coordinate: Json, result: Json, field: string): (r: Py<Json>)
    ensures Truthy(coordinate) ==> r == Ok(coordinate)
    ensures !Truthy(coordinate) ==> r == ObservationField(result, field)
  {
    if Truthy(coordinate) then Ok(coordinate) else ObservationField(result, field)
  }

  /** How an attempt's coordinates follow from the payload they are learned
      from: an unset longitude becomes the first observation's, or its lookup
      fails the attempt with both coordinates as they were; then likewise the
      latitude, the longitude staying learned when the latitude fails. */
  predicate Learned(result: Json, latitude: Json, longitude: Json, a: Attempt) {
    && (!Truthy(longitude) && ObservationField(result, FieldLongitude).Raise? ==>
          a == Attempt(ObservationField(result, FieldLongitude), latitude, longitude))
    && (!Truthy(longitude) && ObservationField(result, FieldLongitude).Ok? ==>
          a.longitude == ObservationField(result, FieldLongitude).value)
    && (Learn(longitude, result, FieldLongitude).Ok? && !Truthy(latitude) && ObservationField(result, FieldLatitude).Raise? ==>
          a.outcome == ObservationField(result, FieldLatitude) && a.latitude == latitude)
    && (Learn(longitude, result, FieldLongitude).Ok? && !Truthy(latitude) && ObservationField(result, FieldLatitude).Ok? ==>
          a.latitude == ObservationField(result, FieldLatitude).value)
  }

  // ---------------------------------------------------------------------------
  // Accessors

  /** The first observation record of a document of the documented shape. */
  function FirstObservation(data: Json): Option<map<string, Json>> {
    if && data.JObj?
       && FieldObservations in data.fields
       && data.fields[FieldObservations].JArr?
       && |data.fields[FieldObservations].items| > 0
       && data.fields[FieldObservations].items[0].JObj?
    then Some(data.fields[FieldObservations].items[0].fields)
    else None
  }

  /** `record.get(field)`. */
  function Lookup(record: map<string, Json>, field: string): Json {
    if field in record then record[field] else JNull
  }

  /** The base `get_condition`: `None` without data; otherwise the field of the
      first observation (`None` when absent). */
  function GetCondition(data: Json, field: string): (r: Py<Json>)
    ensures !Truthy(data) ==> r == Ok(JNull)
    ensures FirstObservation(data).Some? ==> r == Ok(Lookup(FirstObservation(data).value, field))
    ensures data.JObj? && FieldObservations !in data.fields && Truthy(data) ==> r == Raise(KeyError)
  {
    if !Truthy(data) then Ok(JNull)
    else
      var observations :- GetKey(data, FieldObservations);
      var observation :- GetIndex(observations, 0);
      DictGet(observation, field, JNull)
  }

  /** The fields the forecast holds per day rather than per day part. */
  const DayFields := [FieldTemperatureMax, FieldTemperatureMin,
                      FieldCalendarDayTemperatureMax, FieldCalendarDayTemperatureMin,
                      FieldValidTimeUtc]

  /** `int(period / 2)`: half the period, truncated toward zero. */
  function HalfPeriod(period: int): (d: int)
    ensures period >= 0 ==> 0 <= d && 2 * d <= period <= 2 * d + 1
    ensures period < 0 ==> d <= 0 && 2 * d - 1 <= period <= 2 * d
  {
    if period >= 0 then period / 2 else -((-period) / 2)
  }

  /** The subscript chain `get_forecast` evaluates. */
  function ForecastLookup(data: Json, field: string, period: int): Py<Json> {
    if field in DayFields then
      var days :- GetKey(data, field);
      GetIndex(days, HalfPeriod(period))
    else
      var dayparts :- GetKey(data, FieldDaypart);
      var first :- GetIndex(dayparts, 0);
      var values :- GetKey(first, field);
      GetIndex(values, period)
  }

  /** The lookup raises only what `get_forecast` catches. */
  lemma ForecastLookupRaisesCaught(data: Json, field: string, period: int)
    ensures ForecastLookup(data, field, period).Raise? ==>
      ForecastLookup(data, field, period).exc in {KeyError, IndexError, TypeError}
  {
  }

  /** `get_forecast`: never raises. Day fields are read at `int(period / 2)` of
      their per-day list, every other field at `period` of the first day-part
      record; no data, a missing key, a wrong shape or an index out of range
      give `None`. */
  function GetForecast(data: Json, field: string, period: int): (r: Json)
    ensures !Truthy(data) ==> r == JNull
    ensures Truthy(data) && field in DayFields && data.JObj? && field in data.fields
            && data.fields[field].JArr? && 0 <= period ==>
      r == (if HalfPeriod(period) < |data.fields[field].items|
            then data.fields[field].items[HalfPeriod(period)] else JNull)
    ensures Truthy(data) && field !in DayFields && data.JObj? && FieldDaypart in data.fields
            && data.fields[FieldDaypart].JArr? && |data.fields[FieldDaypart].items| > 0
            && data.fields[FieldDaypart].items[0].JObj?
            && field in data.fields[FieldDaypart].items[0].fields
            && data.fields[FieldDaypart].items[0].fields[field].JArr? && 0 <= period ==>
      r == (if period < |data.fields[FieldDaypart].items[0].fields[field].items|
            then data.fields[FieldDaypart].items[0].fields[field].items[period] else JNull)
    ensures data.JObj? && field !in data.fields && field in DayFields ==> r == JNull
  {
    if !Truthy(data) then JNull
    else
      var v := ForecastLookup(data, field, period);
      if v.Ok? then v.value else JNull
  }

  /** Periods 2k and 2k+1 (day and night of day k) read the same per-day entry. */
  lemma {:induction false} DayFieldsIgnorePeriodParity(data: Json, field: string, k: nat)
    requires field in DayFields
    ensures GetForecast(data, field, 2 * k) == GetForecast(data, field, 2 * k + 1)
  {
    assert HalfPeriod(2 * k) == k;
    assert HalfPeriod(2 * k + 1) == k;
  }

  // ---------------------------------------------------------------------------
  // Icon codes

  /** `ICON_CONDITION_MAP`, in dictionary order: each condition with its codes. */
  type IconMap = seq<(string, set<int>)>

  /** The condition of the first entry whose codes contain `code`. */
  function FirstMatch(icons: IconMap, code: Json): (r: Option<string>)
    ensures r.None? <==> forall i :: 0 <= i < |icons| ==> !CodeIn(code, icons[i].1)
    ensures r.Some? ==> exists i :: 0 <= i < |icons| && CodeIn(code, icons[i].1) && icons[i].0 == r.value
                           && forall j :: 0 <= j < i ==> !CodeIn(code, icons[j].1)
    decreases |icons|
  {
    if |icons| == 0 then None
    else if CodeIn(code, icons[0].1) then Some(icons[0].0)
    else
      var r := FirstMatch(icons[1..], code);
      assert forall i :: 1 <= i < |icons| ==> icons[i] == icons[1..][i - 1];
      r
  }

  /** `_iconcode_to_condition` as a function: `None` for `None`; otherwise a
      condition whose codes contain the code (the first in dictionary order),
      or `None` for an unmapped code such as 44. */
  function IconCondition(icons: IconMap, code: Json): (r: Option<string>)
    ensures code == JNull ==> r == None
    ensures r.Some? ==> exists i :: 0 <= i < |icons| && icons[i].0 == r.value && CodeIn(code, icons[i].1)
    ensures r.None? && code != JNull ==> forall i :: 0 <= i < |icons| ==> !CodeIn(code, icons[i].1)
  {
    if code == JNull then None else FirstMatch(icons, code)
  }

  /** `_iconcode_to_condition`: the search loop with its early return. */
  method IconcodeToCondition(icons: IconMap, code: Json) returns (r: Option<string>)
    ensures r == IconCondition(icons, code)
  {
    if code == JNull {
      return None;
    }
    var i := 0;
    while i < |icons|
      invariant 0 <= i <= |icons|
      invariant FirstMatch(icons[i..], code) == FirstMatch(icons, code)
    {
      if CodeIn(code, icons[i].1) {
        return Some(icons[i].0);
      }
      assert icons[i..][1..] == icons[i + 1..];
      i := i + 1;
    }
    return None;
  }
}
