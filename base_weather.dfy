/** The weather entity: the current condition, and the five-day forecast it
    assembles from the coordinator's document. */
module BaseWeather {
  import opened PyJson
  import opened BaseCoordinator
  import SingleStation
  import MultiStation

  /** Which coordinator the entity is attached to; they differ in
      `get_condition`. */
  datatype Kind = SingleStationKind | MultiStationKind

  /** What the entity reads from its coordinator. */
  datatype Coordinator = Coordinator(
    kind: Kind,
    data: Json,
    unitSystem: string,
    calendarday: bool,
    icons: IconMap)

  const FieldSolarRadiation := "solarRadiation"
  const FieldTemperature := "temperature"

  /** The coordinator's own `get_condition`. */
  function CoordinatorCondition(c: Coordinator, field: string): (r: Py<Json>)
    ensures c.kind == SingleStationKind && r.Raise? ==> r.exc in {KeyError, IndexError, TypeError}
    ensures r.Raise? ==> r.exc in {KeyError, IndexError, TypeError, AttributeError}
  {
    match c.kind
    case SingleStationKind => SingleStation.GetCondition(c.data, c.unitSystem, field)
    case MultiStationKind => MultiStation.GetCondition(c.data, c.unitSystem, field)
  }

  // ---------------------------------------------------------------------------
  // The current condition

  /** The condition a solar radiation reading suggests. */
  function SolarCategory(radiation: real): (condition: string)
    ensures condition == "sunny" <==> radiation > 800.0
    ensures condition == "partlycloudy" <==> 400.0 < radiation <= 800.0
    ensures condition == "cloudy" <==> radiation <= 400.0
  {
    if radiation > 800.0 then "sunny"
    else if radiation > 400.0 then "partlycloudy"
    else if radiation > 100.0 then "cloudy"
    else "cloudy"
  }

  /** The conditions in order of increasing sunshine. */
  function Brightness(condition: string): nat {
    if condition == "sunny" then 2 else if condition == "partlycloudy" then 1 else 0
  }

  /** More radiation never suggests a darker sky. */
  lemma SolarCategoryMonotone(x: real, y: real)
    requires x <= y
    ensures Brightness(SolarCategory(x)) <= Brightness(SolarCategory(y))
  {
  }

  /** `_estimate_condition_from_solar_radiation`: `None` without a reading, a
      category for a number (a boolean compares as 0 or 1); a reading that
      does not compare with a number, and a KeyError or TypeError of the
      lookup, give `None`. Other exceptions of the lookup propagate. */
  function SolarEstimate(c: Coordinator): (r: Py<Option<string>>)
    ensures var reading := CoordinatorCondition(c, FieldSolarRadiation);
      && (reading == Ok(JNull) ==> r == Ok(None))
      && (reading.Ok? && reading.value.JNum? ==> r == Ok(Some(SolarCategory(reading.value.x))))
      && (reading.Ok? && (reading.value.JStr? || reading.value.JArr? || reading.value.JObj?) ==> r == Ok(None))
      && (reading.Raise? && reading.exc in {KeyError, TypeError} ==> r == Ok(None))
    ensures r.Raise? ==> r.exc in {IndexError, AttributeError}
  {
    var reading := CoordinatorCondition(c, FieldSolarRadiation);
    if reading.Raise? then
      if reading.exc in {KeyError, TypeError} then Ok(None) else Raise(reading.exc)
    else match reading.value
      case JNull => Ok(None)
      case JNum(x) => Ok(Some(SolarCategory(x)))
      case JBool(b) => Ok(Some(SolarCategory(if b then 1.0 else 0.0)))
      case _ => Ok(None)
  }

  /** `condition`: the condition of the day icon, or of the night icon when
      the day icon is falsy; without a mapped condition, the solar estimate.
      TypeError, KeyError and IndexError give `None`; on the single-station
      coordinator nothing escapes. */
  function Condition(c: Coordinator): (r: Py<Option<string>>)
    ensures var code := Or(GetForecast(c.data, FieldIconCode, 0), GetForecast(c.data, FieldIconCode, 1));
      var hit := IconCondition(c.icons, code).Some? && |IconCondition(c.icons, code).value| > 0;
      && (hit ==> r == Ok(IconCondition(c.icons, code)))
      && (!hit && SolarEstimate(c).Ok? ==> r == SolarEstimate(c))
      && (!hit && SolarEstimate(c).Raise? && SolarEstimate(c).exc == IndexError ==> r == Ok(None))
      && (!hit && SolarEstimate(c).Raise? && SolarEstimate(c).exc == AttributeError ==> r == SolarEstimate(c))
    ensures c.kind == SingleStationKind ==> r.Ok?
    ensures r.Raise? ==> r.exc == AttributeError
  {
    var day := GetForecast(c.data, FieldIconCode, 0);
    var night := GetForecast(c.data, FieldIconCode, 1);
    var condition := IconCondition(c.icons, Or(day, night));
    if condition.Some? && |condition.value| > 0 then Ok(condition)
    else
      var estimate := SolarEstimate(c);
      if estimate.Raise? && estimate.exc in {TypeError, KeyError, IndexError} then Ok(None) else estimate
  }

  // ---------------------------------------------------------------------------
  // The forecast

  /** `_get_forecast_temperature_fields`: the calendar-day pair when the
      coordinator's `calendarday` flag is set, the plain pair otherwise. Both
      are per-day fields. */
  function TemperatureFields(calendarday: bool): (fields: (string, string))
    ensures fields.0 in DayFields && fields.1 in DayFields
    ensures calendarday <==> fields == (FieldCalendarDayTemperatureMax, FieldCalendarDayTemperatureMin)
    ensures !calendarday <==> fields == (FieldTemperatureMax, FieldTemperatureMin)
  {
    if calendarday then (FieldCalendarDayTemperatureMax, FieldCalendarDayTemperatureMin)
    else (FieldTemperatureMax, FieldTemperatureMin)
  }

  /** The periods of the five forecast days: the day part of each day, except
      that the first day starts with its night when its day temperature is
      gone (`None`). */
  function ForecastPeriods(data: Json): (periods: seq<int>)
    ensures |periods| == 5
    ensures periods[0] == (if GetForecast(data, FieldTemperature, 0) == JNull then 1 else 0)
    ensures forall k :: 1 <= k < 5 ==> periods[k] == 2 * k
  {
    [if GetForecast(data, FieldTemperature, 0) == JNull then 1 else 0, 2, 4, 6, 8]
  }

  /** Period `k` of the list always lies in day `k`, so the per-day fields
      are read for day `k`. */
  lemma PeriodsCoverEachDay(data: Json, k: nat)
    requires k < 5
    ensures HalfPeriod(ForecastPeriods(data)[k]) == k
  {
  }

  /** `_get_forecast_periods`: the list `[0, 2, 4, 6, 8]`, its first entry
      incremented in place when the day temperature of period 0 is `None`. */
  method GetForecastPeriods(data: Json) returns (periods: seq<int>)
    ensures periods == ForecastPeriods(data)
  {
    periods := [0, 2, 4, 6, 8];
    if GetForecast(data, FieldTemperature, 0) == JNull {
      periods := periods[0 := periods[0] + 1];
    }
  }

  /** A forecast entry. The time is the ISO form of the period's
      `validTimeUtc`. */
  datatype ForecastEntry = ForecastEntry(
    condition: Option<string>,
    precipitation: Json,
    precipitationProbability: Json,
    temperature: Json,
    templow: Json,
    datetime: string,
    windBearing: Json,
    windSpeed: Json)

  /** The exceptions a forecast entry's handler catches. */
  predicate CaughtByEntry(e: Exc) {
    e in {TypeError, KeyError} || e.ValueError?
  }

  /** The entry for one period. `isoformat` stands for converting the
      timestamp to ISO text; a TypeError, ValueError or KeyError there gives
      `None`, any other exception propagates. `bearingField` is the field
      read for the wind bearing. */
  function CreateEntry(c: Coordinator, period: int, fields: (string, string), bearingField: string,
                       isoformat: Json -> Py<string>): (r: Py<Option<ForecastEntry>>)
    ensures GetForecast(c.data, FieldValidTimeUtc, period) == JNull ==> r == Ok(None)
    ensures r.Ok? && r.value.Some? ==>
      && GetForecast(c.data, FieldValidTimeUtc, period) != JNull
      && isoformat(GetForecast(c.data, FieldValidTimeUtc, period)) == Ok(r.value.value.datetime)
      && r.value.value.temperature == GetForecast(c.data, fields.0, period)
      && r.value.value.templow == GetForecast(c.data, fields.1, period)
      && r.value.value.windBearing == GetForecast(c.data, bearingField, period)
      && r.value.value.condition == IconCondition(c.icons, GetForecast(c.data, FieldIconCode, period))
      && r.value.value.precipitation == GetForecast(c.data, FieldQpf, period)
      && r.value.value.precipitationProbability == GetForecast(c.data, FieldPrecipChance, period)
      && r.value.value.windSpeed == GetForecast(c.data, FieldWindSpeed, period)
    ensures (GetForecast(c.data, FieldValidTimeUtc, period) != JNull
             && isoformat(GetForecast(c.data, FieldValidTimeUtc, period)).Ok?) ==> r.Ok? && r.value.Some?
    ensures (&& GetForecast(c.data, FieldValidTimeUtc, period) != JNull
             && isoformat(GetForecast(c.data, FieldValidTimeUtc, period)).Raise?
             && CaughtByEntry(isoformat(GetForecast(c.data, FieldValidTimeUtc, period)).exc)) ==> r == Ok(None)
    ensures r.Raise? ==> isoformat(GetForecast(c.data, FieldValidTimeUtc, period)) == Raise(r.exc)
                         && !CaughtByEntry(r.exc)
  {
    var time := GetForecast(c.data, FieldValidTimeUtc, period);
    if time == JNull then Ok(None)
    else
      var stamp := isoformat(time);
      if stamp.Raise? then
        if CaughtByEntry(stamp.exc) then Ok(None) else Raise(stamp.exc)
      else
        Ok(Some(ForecastEntry(
          IconCondition(c.icons, GetForecast(c.data, FieldIconCode, period)),
          GetForecast(c.data, FieldQpf, period),
          GetForecast(c.data, FieldPrecipChance, period),
          GetForecast(c.data, fields.0, period),
          GetForecast(c.data, fields.1, period),
          stamp.value,
          GetForecast(c.data, bearingField, period),
          GetForecast(c.data, FieldWindSpeed, period))))
  }

  /** `_create_forecast_entry`: the legacy entry, whose bearing is the
      cardinal wind direction. */
  function CreateForecastEntry(c: Coordinator, period: int, fields: (string, string), isoformat: Json -> Py<string>): (r: Py<Option<ForecastEntry>>)
    ensures r.Ok? && r.value.Some? ==> r.value.value.windBearing == GetForecast(c.data, FieldWindDirectionCardinal, period)
  {
    CreateEntry(c, period, fields, FieldWindDirectionCardinal, isoformat)
  }

  /** `_create_forecast_entry_new_format`: the entry whose bearing is the wind
      direction in degrees. */
  function CreateForecastEntryNewFormat(c: Coordinator, period: int, fields: (string, string), isoformat: Json -> Py<string>): (r: Py<Option<ForecastEntry>>)
    ensures r.Ok? && r.value.Some? ==> r.value.value.windBearing == GetForecast(c.data, FieldWindDirection, period)
  {
    CreateEntry(c, period, fields, FieldWindDirection, isoformat)
  }

  /** The entries of the given periods, in order, missing ones dropped; the
      first exception propagates. */
  function Entries(c: Coordinator, periods: seq<int>, fields: (string, string), bearingField: string,
                   isoformat: Json -> Py<string>): (r: Py<seq<ForecastEntry>>)
    ensures r.Ok? ==> |r.value| <= |periods|
    decreases |periods|
  {
    if |periods| == 0 then Ok([])
    else
      var entry :- CreateEntry(c, periods[0], fields, bearingField, isoformat);
      var rest :- Entries(c, periods[1..], fields, bearingField, isoformat);
      Ok((if entry.Some? then [entry.value] else []) + rest)
  }

  /** When every period has a time that converts, no entry is dropped. */
  lemma {:induction false} EntriesComplete(c: Coordinator, periods: seq<int>, fields: (string, string), bearingField: string,
                                          isoformat: Json -> Py<string>)
    requires forall k :: 0 <= k < |periods| ==>
      GetForecast(c.data, FieldValidTimeUtc, periods[k]) != JNull
      && isoformat(GetForecast(c.data, FieldValidTimeUtc, periods[k])).Ok?
    ensures Entries(c, periods, fields, bearingField, isoformat).Ok?
    ensures |Entries(c, periods, fields, bearingField, isoformat).value| == |periods|
    decreases |periods|
  {
    if |periods| > 0 {
      assert forall k :: 0 <= k < |periods[1..]| ==> periods[1..][k] == periods[k + 1];
      EntriesComplete(c, periods[1..], fields, bearingField, isoformat);
    }
  }

  /** Without any `validTimeUtc` the forecast is empty. */
  lemma {:induction false} EntriesWithoutTimes(c: Coordinator, periods: seq<int>, fields: (string, string), bearingField: string,
                                              isoformat: Json -> Py<string>)
    requires forall k :: 0 <= k < |periods| ==> GetForecast(c.data, FieldValidTimeUtc, periods[k]) == JNull
    ensures Entries(c, periods, fields, bearingField, isoformat) == Ok([])
    decreases |periods|
  {
    if |periods| > 0 {
      assert forall k :: 0 <= k < |periods[1..]| ==> periods[1..][k] == periods[k + 1];
      EntriesWithoutTimes(c, periods[1..], fields, bearingField, isoformat);
    }
  }

  /** The entries collected before the loop reaches the rest of the periods. */
  function Prepend(done: seq<ForecastEntry>, rest: Py<seq<ForecastEntry>>): Py<seq<ForecastEntry>> {
    if rest.Ok? then Ok(done + rest.value) else rest
  }

  lemma PrependNothing(r: Py<seq<ForecastEntry>>)
    ensures Prepend([], r) == r
  {
    if r.Ok? {
      assert [] + r.value == r.value;
    }
  }

  /** One turn of the loop: the entry of period `i` is kept when there is one,
      and its exception ends the loop. */
  lemma EntriesStep(c: Coordinator, periods: seq<int>, i: nat, done: seq<ForecastEntry>, fields: (string, string),
                    bearingField: string, isoformat: Json -> Py<string>)
    requires i < |periods|
    ensures var entry := CreateEntry(c, periods[i], fields, bearingField, isoformat);
            var whole := Prepend(done, Entries(c, periods[i..], fields, bearingField, isoformat));
      && (entry.Raise? ==> whole == Raise(entry.exc))
      && (entry.Ok? ==> whole == Prepend(if entry.value.Some? then done + [entry.value.value] else done,
                                         Entries(c, periods[i + 1..], fields, bearingField, isoformat)))
  {
    assert periods[i..][1..] == periods[i + 1..];
    var rest := Entries(c, periods[i + 1..], fields, bearingField, isoformat);
    var entry := CreateEntry(c, periods[i], fields, bearingField, isoformat);
    if entry.Ok? && rest.Ok? {
      var kept := if entry.value.Some? then [entry.value.value] else [];
      assert done + (kept + rest.value) == (done + kept) + rest.value;
      assert done + [] == done;
    }
  }

  /** The loop of `_forecast_legacy` and `_forecast_new`. */
  method CollectEntries(c: Coordinator, periods: seq<int>, fields: (string, string), bearingField: string,
                        isoformat: Json -> Py<string>) returns (r: Py<seq<ForecastEntry>>)
    ensures r == Entries(c, periods, fields, bearingField, isoformat)
  {
    var forecast: seq<ForecastEntry> := [];
    var i := 0;
    assert periods[0..] == periods;
    PrependNothing(Entries(c, periods, fields, bearingField, isoformat));
    while i < |periods|
      invariant 0 <= i <= |periods|
      invariant Entries(c, periods, fields, bearingField, isoformat)
             == Prepend(forecast, Entries(c, periods[i..], fields, bearingField, isoformat))
    {
      EntriesStep(c, periods, i, forecast, fields, bearingField, isoformat);
      var entry := CreateEntry(c, periods[i], fields, bearingField, isoformat);
      if entry.Raise? {
        return Raise(entry.exc);
      }
      if entry.value.Some? {
        forecast := forecast + [entry.value.value];
      }
      i := i + 1;
    }
    assert periods[i..] == [];
    assert forecast + [] == forecast;
    return Ok(forecast);
  }

  /** `_forecast_legacy`: the legacy entries of the five periods, those
      without a time dropped, so at most five. */
  method ForecastLegacy(c: Coordinator, isoformat: Json -> Py<string>) returns (r: Py<seq<ForecastEntry>>)
    ensures r == Entries(c, ForecastPeriods(c.data), TemperatureFields(c.calendarday), FieldWindDirectionCardinal, isoformat)
    ensures r.Ok? ==> |r.value| <= 5
  {
    var fields := TemperatureFields(c.calendarday);
    var periods := GetForecastPeriods(c.data);
    r := CollectEntries(c, periods, fields, FieldWindDirectionCardinal, isoformat);
  }

  /** `_forecast_new`: the same filter over entries in the new format, but
      `None` instead of an empty list. */
  method ForecastNew(c: Coordinator, isoformat: Json -> Py<string>) returns (r: Py<Option<seq<ForecastEntry>>>)
    ensures var entries := Entries(c, ForecastPeriods(c.data), TemperatureFields(c.calendarday), FieldWindDirection, isoformat);
      && (entries.Raise? ==> r == Raise(entries.exc))
      && (entries == Ok([]) ==> r == Ok(None))
      && (entries.Ok? && |entries.value| > 0 ==> r == Ok(Some(entries.value)))
    ensures r.Ok? && r.value.Some? ==> 0 < |r.value.value| <= 5
  {
    var fields := TemperatureFields(c.calendarday);
    var periods := GetForecastPeriods(c.data);
    var forecast := CollectEntries(c, periods, fields, FieldWindDirection, isoformat);
    if forecast.Raise? {
      return Raise(forecast.exc);
    }
    r := if |forecast.value| > 0 then Ok(Some(forecast.value)) else Ok(None);
  }

  /** The entry of forecast day `k` carries the day's maximum and minimum
      temperature from the per-day lists, whichever pair is configured. */
  lemma EntryReadsDayTemperatures(c: Coordinator, k: nat, isoformat: Json -> Py<string>)
    requires k < 5
    requires c.data.JObj? && Truthy(c.data)
    requires var f := TemperatureFields(c.calendarday);
      f.0 in c.data.fields && c.data.fields[f.0].JArr? && k < |c.data.fields[f.0].items|
    ensures var f := TemperatureFields(c.calendarday);
            var e := CreateForecastEntry(c, ForecastPeriods(c.data)[k], f, isoformat);
      e.Ok? && e.value.Some? ==> e.value.value.temperature == c.data.fields[f.0].items[k]
  {
    PeriodsCoverEachDay(c.data, k);
  }
}
