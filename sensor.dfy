/** The sensor platform: which sensors exist, their identifiers, and the value
    each one reads out of the coordinator's merged document. */
module Sensor {
  import opened PyJson
  import opened Text
  import opened BaseCoordinator

  /** `MAX_FORECAST_DAYS`: the forecast covers five days, ten day parts. */
  const MaxForecastDays := 5

  /** What part of the document a sensor reads (`FEATURE_*`); any other
      feature name reads the whole document. */
  datatype Feature = Conditions | DailyForecast | ForecastDaypart | Observations | OtherFeature(name: string)

  /** The parts of a sensor description the platform itself uses. */
  datatype Description = Description(key: string, name: string, feature: Feature)

  // ---------------------------------------------------------------------------
  // `_get_sensor_data`

  /** The body of `_get_sensor_data`'s `try`: guarded subscripts, each raising
      what Python raises when the document has an unexpected shape. */
  function SensorLookup(sensors: Json, kind: string, unitSystem: string, feature: Feature, day: Option<int>): (r: Py<Json>)
    ensures r.Raise? ==> r.exc in {KeyError, IndexError, TypeError, AttributeError}
  {
    if !Truthy(sensors) then Ok(JNull)
    else match feature
      case Conditions =>
        var has :- Contains(sensors, FieldObservations);
        if !has then Ok(JNull)
        else
          var observations :- GetKey(sensors, FieldObservations);
          if !Truthy(observations) then Ok(JNull)
          else
            var observation :- GetIndex(observations, 0);
            var hasUnits :- Contains(observation, unitSystem);
            if !hasUnits then Ok(JNull)
            else
              var units :- GetKey(observation, unitSystem);
              if !Truthy(units) then Ok(JNull)
              else DictGet(units, kind, JNull)
      case DailyForecast =>
        var has :- Contains(sensors, kind);
        if !has then Ok(JNull)
        else
          var values :- GetKey(sensors, kind);
          if !Truthy(values) then Ok(JNull)
          else BoundedIndex(values, day)
      case ForecastDaypart =>
        var has :- Contains(sensors, FieldDaypart);
        if !has then Ok(JNull)
        else
          var dayparts :- GetKey(sensors, FieldDaypart);
          if !Truthy(dayparts) then Ok(JNull)
          else
            var first :- GetIndex(dayparts, 0);
            if !Truthy(first) then Ok(JNull)
            else
              var hasKind :- Contains(first, kind);
              if !hasKind then Ok(JNull)
              else
                var values :- GetKey(first, kind);
                if !Truthy(values) then Ok(JNull)
                else BoundedIndex(values, day)
      case Observations =>
        var has :- Contains(sensors, FieldObservations);
        if !has then Ok(JNull)
        else
          var observations :- GetKey(sensors, FieldObservations);
          if !Truthy(observations) then Ok(JNull)
          else
            var observation :- GetIndex(observations, 0);
            DictGet(observation, kind, JNull)
      case OtherFeature(_) => Ok(sensors)
  }

  /** `None if day >= len(values) else values[day]`; comparing a missing day
      (`None`) with a length raises TypeError. */
  function BoundedIndex(values: Json, day: Option<int>): (r: Py<Json>)
    ensures values.JArr? && day.Some? && 0 <= day.value ==>
      r == Ok(if day.value < |values.items| then values.items[day.value] else JNull)
    ensures r.Raise? ==> r.exc in {KeyError, IndexError, TypeError}
  {
    var n :- Len(values);
    if day.None? then Raise(TypeError)
    else if day.value >= n then Ok(JNull)
    else GetIndex(values, day.value)
  }

  /** `_get_sensor_data` as written: KeyError, IndexError and TypeError become
      `None`, but the AttributeError of `.get` on an observation or unit record
      that is not a dict escapes. */
  function SensorData(sensors: Json, kind: string, unitSystem: string, feature: Feature, day: Option<int>): (r: Py<Json>)
    ensures SensorLookup(sensors, kind, unitSystem, feature, day).Ok? ==>
      r == SensorLookup(sensors, kind, unitSystem, feature, day)
    ensures SensorLookup(sensors, kind, unitSystem, feature, day).Raise?
            && SensorLookup(sensors, kind, unitSystem, feature, day).exc in {KeyError, IndexError, TypeError} ==>
      r == Ok(JNull)
    ensures SensorLookup(sensors, kind, unitSystem, feature, day) == Raise(AttributeError) ==>
      r == Raise(AttributeError)
    ensures r.Raise? ==> r.exc == AttributeError
  {
    var r := SensorLookup(sensors, kind, unitSystem, feature, day);
    if r.Raise? && r.exc in {KeyError, IndexError, TypeError} then Ok(JNull) else r
  }

  /** An observations sensor over a document whose first observation is an
      empty list: `.get` is looked up on a list and the exception escapes. */
  lemma SensorDataRaisesOnListObservation()
    ensures SensorData(JObj(map[FieldObservations := JArr([JArr([])])]), "tempHigh", "metric", Observations, None)
         == Raise(AttributeError)
  {
    var doc := JObj(map[FieldObservations := JArr([JArr([])])]);
    assert Truthy(doc);
    assert Contains(doc, FieldObservations) == Ok(true);
    assert GetIndex(JArr([JArr([])]), 0) == Ok(JArr([]));
  }

  /** `_get_sensor_data` as intended: every failed lookup gives `None`. For a
      document of the documented shape it reads the value the feature names;
      a missing record, an empty list or a day past the end gives `None`. */
  function SensorValue(sensors: Json, kind: string, unitSystem: string, feature: Feature, day: Option<int>): (r: Json)
    ensures !Truthy(sensors) ==> r == JNull
    ensures feature == Conditions && FirstObservation(sensors).Some?
            && (unitSystem !in FirstObservation(sensors).value
                || FirstObservation(sensors).value[unitSystem].JObj?) ==>
      r == (if unitSystem in FirstObservation(sensors).value
            then Lookup(FirstObservation(sensors).value[unitSystem].fields, kind) else JNull)
    ensures feature in {Conditions, Observations} && sensors.JObj? && FieldObservations !in sensors.fields ==> r == JNull
    ensures feature == Observations && FirstObservation(sensors).Some? ==>
      r == Lookup(FirstObservation(sensors).value, kind)
    ensures feature == DailyForecast && sensors.JObj? && kind !in sensors.fields ==> r == JNull
    ensures feature == DailyForecast && sensors.JObj? && kind in sensors.fields && sensors.fields[kind].JArr?
            && day.Some? && 0 <= day.value ==>
      r == (if day.value < |sensors.fields[kind].items| then sensors.fields[kind].items[day.value] else JNull)
    ensures feature == ForecastDaypart && sensors.JObj? && FieldDaypart in sensors.fields
            && sensors.fields[FieldDaypart].JArr? && |sensors.fields[FieldDaypart].items| > 0
            && sensors.fields[FieldDaypart].items[0].JObj?
            && kind in sensors.fields[FieldDaypart].items[0].fields
            && sensors.fields[FieldDaypart].items[0].fields[kind].JArr?
            && day.Some? && 0 <= day.value ==>
      r == (if day.value < |sensors.fields[FieldDaypart].items[0].fields[kind].items|
            then sensors.fields[FieldDaypart].items[0].fields[kind].items[day.value] else JNull)
    ensures feature.OtherFeature? ==> r == (if Truthy(sensors) then sensors else JNull)
  {
    var r := SensorLookup(sensors, kind, unitSystem, feature, day);
    if r.Ok? then r.value else JNull
  }

  /** Wherever the code as written returns, it returns the intended value. */
  lemma SensorValueAgrees(sensors: Json, kind: string, unitSystem: string, feature: Feature, day: Option<int>)
    ensures SensorData(sensors, kind, unitSystem, feature, day).Ok? ==>
      SensorData(sensors, kind, unitSystem, feature, day).value == SensorValue(sensors, kind, unitSystem, feature, day)
  {
  }

  // ---------------------------------------------------------------------------
  // Identifiers

  /** `range(start, stop, step)` for a positive step. */
  function RangeStep(start: int, stop: int, step: nat): (r: seq<int>)
    requires step > 0
    ensures forall k :: 0 <= k < |r| ==> start <= r[k] < stop
    decreases stop - start
  {
    if start >= stop then [] else [start] + RangeStep(start + step, stop, step)
  }

  /** The members of `range(start, stop, 2)` are the numbers from `start`
      below `stop` with the parity of `start`. */
  lemma {:induction false} RangeByTwoMembers(start: int, stop: int, n: int)
    ensures n in RangeStep(start, stop, 2) <==> start <= n < stop && (n - start) % 2 == 0
    decreases stop - start
  {
    if start < stop {
      RangeByTwoMembers(start + 2, stop, n);
    }
  }

  /** The unique id of a sensor: `"{pws_id},{key}"`, with `_{day}fdp` for a
      day-part sensor and `_{day}f` for a daily forecast sensor, lower-cased. */
  function UniqueId(pwsId: string, d: Description, day: Option<nat>): (id: string)
    ensures day.None? ==> id == Lower(pwsId + "," + d.key)
    ensures day.Some? ==>
      id == Lower(pwsId + "," + d.key + "_") + NatToString(day.value) + (if d.feature == ForecastDaypart then "fdp" else "f")
  {
    match day
    case None => Lower(pwsId + "," + d.key)
    case Some(n) =>
      if d.feature == ForecastDaypart then
        LowerWithDay(pwsId + "," + d.key + "_", n, "fdp");
        Lower(pwsId + "," + d.key + "_" + NatToString(n) + "fdp")
      else
        LowerWithDay(pwsId + "," + d.key + "_", n, "f");
        Lower(pwsId + "," + d.key + "_" + NatToString(n) + "f")
  }

  /** The name the entity id is generated from: `{pws_id}_{name}`, with
      `_{day}` for a forecast sensor, and `d` (day) or `n` (night) after it for a
      day-part sensor, `d` exactly for the day parts in `range(0, 10, 2)`. */
  function EntityName(pwsId: string, d: Description, day: Option<nat>): (s: string)
    ensures day.None? ==> s == pwsId + "_" + d.name
    ensures day.Some? && d.feature != ForecastDaypart ==>
      s == pwsId + "_" + d.name + "_" + NatToString(day.value)
    ensures day.Some? && d.feature == ForecastDaypart ==>
      s == pwsId + "_" + d.name + "_" + NatToString(day.value)
           + (if day.value < 2 * MaxForecastDays && day.value % 2 == 0 then "d" else "n")
  {
    match day
    case None => pwsId + "_" + d.name
    case Some(n) =>
      var base := pwsId + "_" + d.name + "_" + NatToString(n);
      if d.feature == ForecastDaypart then
        RangeByTwoMembers(0, 2 * MaxForecastDays, n);
        if n in RangeStep(0, 2 * MaxForecastDays, 2) then base + "d" else base + "n"
      else base
  }

  /** Lower-casing leaves decimal digits alone. */
  lemma LowerDigits(s: string)
    requires forall k :: 0 <= k < |s| ==> IsDigit(s[k])
    ensures Lower(s) == s
  {
  }

  /** The lower-cased spelling of `prefix`, the day, and `suffix`. */
  lemma {:induction false} LowerWithDay(prefix: string, n: nat, suffix: string)
    ensures Lower(prefix + NatToString(n) + suffix) == Lower(prefix) + NatToString(n) + Lower(suffix)
  {
    LowerAppend(prefix + NatToString(n), suffix);
    LowerAppend(prefix, NatToString(n));
    LowerDigits(NatToString(n));
  }

  /** Two forecast sensors of one description and station, for different
      days, have different unique ids. */
  lemma {:induction false} UniqueIdsDistinctByDay(pwsId: string, d: Description, m: nat, n: nat)
    requires m != n
    ensures UniqueId(pwsId, d, Some(m)) != UniqueId(pwsId, d, Some(n))
  {
    var prefix := pwsId + "," + d.key + "_";
    var suffix := if d.feature == ForecastDaypart then "fdp" else "f";
    assert UniqueId(pwsId, d, Some(m)) == Lower(prefix + NatToString(m) + suffix);
    assert UniqueId(pwsId, d, Some(n)) == Lower(prefix + NatToString(n) + suffix);
    LowerWithDay(prefix, m, suffix);
    LowerWithDay(prefix, n, suffix);
    NatToStringInjective(m, n);
    var a := Lower(prefix) + NatToString(m) + Lower(suffix);
    var b := Lower(prefix) + NatToString(n) + Lower(suffix);
    var p := |Lower(prefix)|;
    var q := |Lower(suffix)|;
    assert a[p..|a| - q] == NatToString(m);
    assert b[p..|b| - q] == NatToString(n);
  }

  /** A day-part sensor's id ends in `p`, a daily forecast sensor's in `f`, so
      the two never share an id. */
  lemma DaypartAndDailyIdsDiffer(pwsId: string, daypart: Description, daily: Description, m: nat, n: nat)
    requires daypart.feature == ForecastDaypart && daily.feature != ForecastDaypart
    ensures UniqueId(pwsId, daypart, Some(m)) != UniqueId(pwsId, daily, Some(n))
  {
    var a := pwsId + "," + daypart.key + "_" + NatToString(m) + "fdp";
    var b := pwsId + "," + daily.key + "_" + NatToString(n) + "f";
    assert Lower(a)[|a| - 1] == LowerChar('p');
    assert Lower(b)[|b| - 1] == LowerChar('f');
  }

  // ---------------------------------------------------------------------------
  // `async_setup_entry`

  /** A sensor to be created: its description, its forecast day, and whether
      it is a forecast sensor (`WundergroundPWSForecastSensor`). */
  datatype Entity = Entity(description: Description, day: Option<nat>, forecastSensor: bool)

  /** The descriptions with the given feature, in order. */
  function WithFeature(descriptions: seq<Description>, feature: Feature): (r: seq<Description>)
    ensures |r| <= |descriptions|
    ensures forall k :: 0 <= k < |r| ==> r[k].feature == feature && r[k] in descriptions
    ensures forall d :: d in descriptions && d.feature == feature ==> d in r
    decreases |descriptions|
  {
    if |descriptions| == 0 then []
    else
      var rest := WithFeature(descriptions[1..], feature);
      (if descriptions[0].feature == feature then [descriptions[0]] else []) + rest
  }

  /** One forecast sensor per description for `day`. */
  function OnDay(descriptions: seq<Description>, day: nat): (r: seq<Entity>)
    ensures |r| == |descriptions|
    ensures forall k :: 0 <= k < |r| ==> r[k] == Entity(descriptions[k], Some(day), true)
  {
    seq(|descriptions|, k requires 0 <= k < |descriptions| => Entity(descriptions[k], Some(day), true))
  }

  /** `for day in range(days) for description in descriptions`. */
  function ForDays(days: nat, descriptions: seq<Description>): (r: seq<Entity>)
    ensures |r| == days * |descriptions|
    ensures forall k :: 0 <= k < |r| ==>
      r[k].forecastSensor && r[k].day.Some? && r[k].day.value < days && r[k].description in descriptions
    decreases days
  {
    if days == 0 then []
    else
      var prior := ForDays(days - 1, descriptions);
      assert (days - 1) * |descriptions| + |descriptions| == days * |descriptions|;
      prior + OnDay(descriptions, days - 1)
  }

  /** Every description gets a sensor on every day of the range. */
  lemma {:induction false} ForDaysComplete(days: nat, descriptions: seq<Description>, d: Description, day: nat)
    requires d in descriptions && day < days
    ensures Entity(d, Some(day), true) in ForDays(days, descriptions)
    decreases days
  {
    var k :| 0 <= k < |descriptions| && descriptions[k] == d;
    if day == days - 1 {
      assert OnDay(descriptions, day)[k] == Entity(d, Some(day), true);
    } else {
      ForDaysComplete(days - 1, descriptions, d, day);
    }
  }

  /** `async_setup_entry`: a sensor per observation description; with
      forecasts enabled, a daily sensor per forecast description and day
      `0..4`, then a day-part sensor per day-part description and day part
      `0..9`. */
  method SetupEntry(forecastEnable: bool, sensorDescriptions: seq<Description>, forecastDescriptions: seq<Description>)
    returns (sensors: seq<Entity>)
    ensures |sensors| == |sensorDescriptions|
      + (if forecastEnable
         then MaxForecastDays * |WithFeature(forecastDescriptions, DailyForecast)|
              + 2 * MaxForecastDays * |WithFeature(forecastDescriptions, ForecastDaypart)|
         else 0)
    ensures forall k :: 0 <= k < |sensorDescriptions| ==> sensors[k] == Entity(sensorDescriptions[k], None, false)
    ensures forall k :: |sensorDescriptions| <= k < |sensors| ==>
      && forecastEnable && sensors[k].forecastSensor && sensors[k].day.Some?
      && sensors[k].description in forecastDescriptions
      && sensors[k].description.feature in {DailyForecast, ForecastDaypart}
      && sensors[k].day.value < (if sensors[k].description.feature == DailyForecast then MaxForecastDays else 2 * MaxForecastDays)
    ensures forecastEnable ==> forall d, day: nat :: d in forecastDescriptions && d.feature == DailyForecast && day < MaxForecastDays ==>
      Entity(d, Some(day), true) in sensors
    ensures forecastEnable ==> forall d, day: nat :: d in forecastDescriptions && d.feature == ForecastDaypart && day < 2 * MaxForecastDays ==>
      Entity(d, Some(day), true) in sensors
  {
    sensors := seq(|sensorDescriptions|, k requires 0 <= k < |sensorDescriptions| => Entity(sensorDescriptions[k], None, false));
    if forecastEnable {
      var daily := WithFeature(forecastDescriptions, DailyForecast);
      var dayparts := WithFeature(forecastDescriptions, ForecastDaypart);
      var plain := sensors;
      sensors := sensors + ForDays(MaxForecastDays, daily);
      sensors := sensors + ForDays(2 * MaxForecastDays, dayparts);
      assert sensors == plain + ForDays(MaxForecastDays, daily) + ForDays(2 * MaxForecastDays, dayparts);
      forall d, day: nat | d in forecastDescriptions && d.feature == DailyForecast && day < MaxForecastDays
        ensures Entity(d, Some(day), true) in sensors
      {
        ForDaysComplete(MaxForecastDays, daily, d, day);
      }
      forall d, day: nat | d in forecastDescriptions && d.feature == ForecastDaypart && day < 2 * MaxForecastDays
        ensures Entity(d, Some(day), true) in sensors
      {
        ForDaysComplete(2 * MaxForecastDays, dayparts, d, day);
      }
    }
  }

  // ---------------------------------------------------------------------------
  // The sensor entity

  class SensorEntity {
    const description: Description
    const forecastDay: Option<nat>
    /** Whether this is a `WundergroundPWSForecastSensor`, whose updates pass
        its forecast day on. */
    const forecastSensor: bool
    const uniqueId: string
    const entityName: string
    const unitSystem: string
    /** The value last read out of the coordinator's document. */
    var sensorData: Json

    /** `__init__`: the ids, and the value read from the document the
        coordinator holds. */
    constructor(pwsId: string, unitSystem: string, data: Json, description: Description, forecastDay: Option<nat>, forecastSensor: bool)
      ensures this.description == description && this.forecastDay == forecastDay
      ensures this.forecastSensor == forecastSensor && this.unitSystem == unitSystem
      ensures uniqueId == UniqueId(pwsId, description, forecastDay)
      ensures entityName == EntityName(pwsId, description, forecastDay)
      ensures sensorData == SensorValue(data, description.key, unitSystem, description.feature,
                                        if forecastDay.Some? then Some(forecastDay.value as int) else None)
    {
      this.description := description;
      this.forecastDay := forecastDay;
      this.forecastSensor := forecastSensor;
      this.unitSystem := unitSystem;
      uniqueId := UniqueId(pwsId, description, forecastDay);
      entityName := EntityName(pwsId, description, forecastDay);
      sensorData := SensorValue(data, description.key, unitSystem, description.feature,
                                if forecastDay.Some? then Some(forecastDay.value as int) else None);
    }

    /** `_handle_coordinator_update`: the value is read again from the new
        document. A plain sensor reads without a day; a forecast sensor with
        its own. */
    method HandleCoordinatorUpdate(data: Json)
      modifies this`sensorData
      ensures sensorData == SensorValue(data, description.key, unitSystem, description.feature,
                                        if forecastSensor && forecastDay.Some? then Some(forecastDay.value as int) else None)
    {
      var day: Option<int> := None;
      if forecastSensor && forecastDay.Some? {
        day := Some(forecastDay.value);
      }
      sensorData := SensorValue(data, description.key, unitSystem, description.feature, day);
    }
  }
}
