/** The single-station coordinator: one station, polled for its current
    conditions and the forecast at its coordinates. */
module SingleStation {
  import opened PyJson
  import opened BaseCoordinator

  /** The coordinator's configuration record. Coordinates may be unset (`None`
      or empty) and are then learned from the first observation. */
  datatype Config = Config(
    apiKey: string,
    pwsId: string,
    numericPrecision: string,
    unitSystemApi: string,
    unitSystem: string,
    lang: string,
    calendarday: bool,
    latitude: Json,
    longitude: Json,
    /** Read by the sensor platform; this coordinator's update requests the
        forecast whatever its value. */
    forecastEnable: bool)

  /** This coordinator's own `_build_url`: the stored coordinates are used as
      they are, so an unset coordinate is spelled `None`. The server reads
      from it the configured station, precision, language, key and units, and
      the stored coordinates. */
  function Url(c: Config, resource: Resource, latitude: Json, longitude: Json, show: Json -> string): (url: string)
    ensures NoAmpersand([c.pwsId, Str(latitude, show), Str(longitude, show), c.lang, c.numericPrecision, c.apiKey, c.unitSystemApi]) ==>
      Params(url) == ExpectedParams(resource, c.pwsId, Str(latitude, show), Str(longitude, show), c.lang, c.numericPrecision, c.apiKey, c.unitSystemApi)
  {
    var url := FormatUrl(resource, c.pwsId, Str(latitude, show), Str(longitude, show), c.lang, c.numericPrecision, c.apiKey, c.unitSystemApi);
    if NoAmpersand([c.pwsId, Str(latitude, show), Str(longitude, show), c.lang, c.numericPrecision, c.apiKey, c.unitSystemApi]) then
      UrlParams(resource, c.pwsId, Str(latitude, show), Str(longitude, show), c.lang, c.numericPrecision, c.apiKey, c.unitSystemApi);
      url
    else url
  }

  /** `response.json()` followed by the null check; this coordinator never
      looks at the HTTP status. */
  function Body(reply: Reply): (r: Py<Json>)
    ensures r.Ok? <==> reply.Reply? && reply.body.Some? && reply.body.value != JNull
    ensures r.Ok? ==> r.value == reply.body.value
    ensures r.Raise? ==> r.exc == TimeoutError || r.exc.ValueError?
  {
    match reply
    case NoReply => Raise(TimeoutError)
    case Reply(_, body) =>
      if body.None? then Raise(ValueError(BadJson))
      else if body.value == JNull then Raise(ValueError(NoResult))
      else Ok(body.value)
  }

  /** The exceptions the request steps raise on their own, before any
      payload is taken apart: timeouts and value errors, or a malformed error
      list. */
  predicate StepException(e: Exc) {
    e.ValueError? || e == TimeoutError || e in {KeyError, IndexError, TypeError}
  }

  /** The body of `get_weather`'s `try`: current conditions and their error
      check, then the coordinates and the forecast. A failed current request
      learns nothing; a set coordinate is never replaced. */
  function Fetch(c: Config, latitude: Json, longitude: Json, net: Network, show: Json -> string): (a: Attempt)
    ensures Truthy(latitude) ==> a.latitude == latitude
    ensures Truthy(longitude) ==> a.longitude == longitude
    ensures var current := Body(net(Url(c, Current, latitude, longitude, show)));
      current.Raise? ==> a == Attempt(Raise(current.exc), latitude, longitude)
    ensures var current := Body(net(Url(c, Current, latitude, longitude, show)));
      current.Ok? && CheckErrors(current.value).Raise? ==> a == Attempt(Raise(CheckErrors(current.value).exc), latitude, longitude)
    ensures var current := Body(net(Url(c, Current, latitude, longitude, show)));
      current.Ok? && CheckErrors(current.value).Ok? ==> Learned(current.value, latitude, longitude, a)
    ensures a.outcome.Raise? ==> StepException(a.outcome.exc)
  {
    var current := Body(net(Url(c, Current, latitude, longitude, show)));
    if current.Raise? then Attempt(Raise(current.exc), latitude, longitude)
    else
      var checked := CheckErrors(current.value);
      if checked.Raise? then Attempt(Raise(checked.exc), latitude, longitude)
      else Learning(c, current.value, latitude, longitude, net, show)
  }

  /** Longitude, then latitude, learned from the payload while unset; a
      coordinate learned before a later step fails stays learned. */
  function Learning(c: Config, current: Json, latitude: Json, longitude: Json, net: Network, show: Json -> string): (a: Attempt)
    ensures Truthy(latitude) ==> a.latitude == latitude
    ensures Truthy(longitude) ==> a.longitude == longitude
    ensures Learned(current, latitude, longitude, a)
    ensures a.outcome.Raise? ==> StepException(a.outcome.exc)
  {
    var lon := Learn(longitude, current, FieldLongitude);
    if lon.Raise? then Attempt(Raise(lon.exc), latitude, longitude)
    else
      var lat := Learn(latitude, current, FieldLatitude);
      if lat.Raise? then Attempt(Raise(lat.exc), latitude, lon.value)
      else Finish(c, current, lat.value, lon.value, net, show)
  }

  /** The forecast at the given coordinates, its error check and the merge. */
  function Finish(c: Config, current: Json, latitude: Json, longitude: Json, net: Network, show: Json -> string): (a: Attempt)
    ensures a.latitude == latitude && a.longitude == longitude
    ensures var forecast := Body(net(Url(c, Forecast, latitude, longitude, show)));
      a.outcome.Ok? ==>
        && forecast.Ok? && CheckErrors(forecast.value).Ok?
        && a.outcome == Merge(current, forecast.value)
        && current.JObj? && forecast.value.JObj?
    ensures var forecast := Body(net(Url(c, Forecast, latitude, longitude, show)));
      forecast.Ok? && CheckErrors(forecast.value).Ok? ==> a.outcome == Merge(current, forecast.value)
    ensures a.outcome.Raise? ==> StepException(a.outcome.exc)
  {
    var forecast := Body(net(Url(c, Forecast, latitude, longitude, show)));
    if forecast.Raise? then Attempt(Raise(forecast.exc), latitude, longitude)
    else
      var fchecked := CheckErrors(forecast.value);
      if fchecked.Raise? then Attempt(Raise(fchecked.exc), latitude, longitude)
      else Attempt(Merge(current, forecast.value), latitude, longitude)
  }

  /** The exceptions `get_weather` handles (and logs): ValueError, timeouts and
      client errors. */
  predicate Handled(e: Exc) {
    e.ValueError? || e == TimeoutError || e == ClientError
  }

  /** What `get_weather` returns: a handled exception becomes `None`; any
      other exception propagates to the caller. */
  function Settle(outcome: Py<Json>): (r: Py<Json>)
    ensures outcome.Ok? ==> r == outcome
    ensures outcome.Raise? && Handled(outcome.exc) ==> r == Ok(JNull)
    ensures outcome.Raise? && !Handled(outcome.exc) ==> r == outcome
  {
    if outcome.Raise? && Handled(outcome.exc) then Ok(JNull) else outcome
  }

  /** A successful update is the merge of two error-free payloads, the forecast
      winning on shared keys; the forecast was requested at the coordinates
      the update ends with. */
  lemma FetchSuccess(c: Config, latitude: Json, longitude: Json, net: Network, show: Json -> string)
    requires Fetch(c, latitude, longitude, net, show).outcome.Ok?
    ensures var a := Fetch(c, latitude, longitude, net, show);
            var current := Body(net(Url(c, Current, latitude, longitude, show)));
            var forecast := Body(net(Url(c, Forecast, a.latitude, a.longitude, show)));
      && current.Ok? && forecast.Ok?
      && current.value.JObj? && forecast.value.JObj?
      && CheckErrors(current.value).Ok? && CheckErrors(forecast.value).Ok?
      && a.outcome == Merge(current.value, forecast.value)
  {
    var current := Body(net(Url(c, Current, latitude, longitude, show)));
    assert current.Ok?;
    assert CheckErrors(current.value).Ok?;
    var lon := Learn(longitude, current.value, FieldLongitude);
    assert lon.Ok?;
    var lat := Learn(latitude, current.value, FieldLatitude);
    assert lat.Ok?;
    assert Fetch(c, latitude, longitude, net, show) == Finish(c, current.value, lat.value, lon.value, net, show);
  }

  /** Exceptions that escape `get_weather` come only from payloads of an
      unexpected shape: a missing key, an empty list, a wrong type. */
  lemma EscapingExceptions(c: Config, latitude: Json, longitude: Json, net: Network, show: Json -> string)
    ensures var r := Settle(Fetch(c, latitude, longitude, net, show).outcome);
            r.Raise? ==> r.exc in {KeyError, IndexError, TypeError}
  {
  }

  /** The single-station coordinator. */
  class Coordinator {
    const config: Config
    var latitude: Json
    var longitude: Json
    /** The last document fetched successfully (`None` before the first). */
    var data: Json

    constructor(config: Config)
      ensures this.config == config
      ensures latitude == config.latitude && longitude == config.longitude
      ensures data == JNull
    {
      this.config := config;
      latitude := config.latitude;
      longitude := config.longitude;
      data := JNull;
    }

    /** `get_weather`: one update. The coordinates and the stored document
        become those of the attempt described by `Fetch`; the document is
        replaced only on success. */
    method GetWeather(net: Network, show: Json -> string) returns (r: Py<Json>)
      modifies this
      ensures var a := Fetch(config, old(latitude), old(longitude), net, show);
        && latitude == a.latitude && longitude == a.longitude
        && r == Settle(a.outcome)
        && data == (if a.outcome.Ok? then a.outcome.value else old(data))
    {
      var current := Body(net(Url(config, Current, latitude, longitude, show)));
      if current.Raise? {
        return Settle(Raise(current.exc));
      }
      var checked := CheckErrors(current.value);
      if checked.Raise? {
        return Settle(Raise(checked.exc));
      }
      if !Truthy(longitude) {
        var lon := ObservationField(current.value, FieldLongitude);
        if lon.Raise? {
          return Settle(Raise(lon.exc));
        }
        longitude := lon.value;
      }
      if !Truthy(latitude) {
        var lat := ObservationField(current.value, FieldLatitude);
        if lat.Raise? {
          return Settle(Raise(lat.exc));
        }
        latitude := lat.value;
      }
      var forecast := Body(net(Url(config, Forecast, latitude, longitude, show)));
      if forecast.Raise? {
        return Settle(Raise(forecast.exc));
      }
      var fchecked := CheckErrors(forecast.value);
      if fchecked.Raise? {
        return Settle(Raise(fchecked.exc));
      }
      var result := Merge(current.value, forecast.value);
      if result.Ok? {
        data := result.value;
      }
      r := Settle(result);
    }
  }

  const UnitlessFields := [FieldHumidity, FieldWindDir]

  /** This coordinator's `get_condition`: humidity and wind direction are read
      from the first observation, `0` standing in for a falsy value; every
      other field from the observation's unit-system record (`metric`,
      `imperial`, ...). Nothing is caught: missing data raises. */
  function GetCondition(data: Json, unitSystem: string, field: string): (r: Py<Json>)
    ensures field in UnitlessFields && FirstObservation(data).Some? && field in FirstObservation(data).value ==>
      r == Ok(Or(FirstObservation(data).value[field], JNum(0.0)))
    ensures field in UnitlessFields && r.Ok? ==> Truthy(r.value) || r.value == JNum(0.0)
    ensures field !in UnitlessFields && FirstObservation(data).Some?
            && unitSystem in FirstObservation(data).value
            && FirstObservation(data).value[unitSystem].JObj?
            && field in FirstObservation(data).value[unitSystem].fields ==>
      r == Ok(FirstObservation(data).value[unitSystem].fields[field])
    ensures data == JNull ==> r == Raise(TypeError)
    ensures r.Raise? ==> r.exc in {KeyError, IndexError, TypeError}
  {
    var observations :- GetKey(data, FieldObservations);
    var observation :- GetIndex(observations, 0);
    if field in UnitlessFields then
      var v :- GetKey(observation, field);
      Ok(Or(v, JNum(0.0)))
    else
      var units :- GetKey(observation, unitSystem);
      GetKey(units, field)
  }
}
