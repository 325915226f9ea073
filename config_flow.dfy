/** The configuration flow of a multi-station group: the group's key, name and
    coordinates, then stations one at a time, then the config entry. */
module ConfigFlow {
  import opened PyJson
  import MultiStation

  // ---------------------------------------------------------------------------
  // Form schemas

  /** The station form's priority: 1 when left out; accepted only from 1 to
      10. A rejected value (`None`) never reaches the flow. */
  function SchemaPriority(priority: Option<int>): (r: Option<int>)
    ensures priority.None? ==> r == Some(1)
    ensures priority.Some? ==> (r.Some? <==> 1 <= priority.value <= 10)
    ensures r.Some? ==> 1 <= r.value <= 10 && (priority.Some? ==> r == priority)
  {
    match priority
    case None => Some(1)
    case Some(p) => if 1 <= p <= 10 then Some(p) else None
  }

  /** The precisions the options form accepts. */
  const Precisions := ["none", "decimal"]

  /** The options form's numeric precision. When left out, the form's default
      takes its place: the stored precision, or `none` when none is stored
      (see `OptionDefaults`). The default is checked like a submitted value,
      so either is accepted only when it is one of `Precisions`. A rejected
      value (`None`) never reaches the options. */
  function SchemaPrecision(stored: map<string, Json>, precision: Option<string>): (r: Option<string>)
    ensures precision.Some? ==> (r.Some? <==> precision.value in Precisions)
    ensures precision.Some? && r.Some? ==> r == precision
    ensures precision.None? ==>
      (r.Some? <==> OptionDefaults(stored).numericPrecision.JStr? && OptionDefaults(stored).numericPrecision.s in Precisions)
    ensures precision.None? && r.Some? ==> OptionDefaults(stored).numericPrecision == JStr(r.value)
    ensures OptNumericPrecision !in stored && precision.None? ==> r == Some("none")
    ensures r.Some? ==> r.value in Precisions
  {
    var candidate := match precision
      case Some(p) => JStr(p)
      case None => Get(stored, OptNumericPrecision, JStr("none"));
    if candidate.JStr? && candidate.s in Precisions then Some(candidate.s) else None
  }

  /** Option keys. The latitude and longitude keys are the host's own; the
      other four stand for the integration's constants. */
  const OptLatitude := "latitude"
  const OptLongitude := "longitude"
  const OptLang := "lang"
  const OptNumericPrecision := "numeric_precision"
  const OptCalendarday := "calendarday_temp"
  const OptForecastSensors := "forecast_sensors"

  /** The options a config entry is created with. */
  datatype Options = Options(
    latitude: Json,
    longitude: Json,
    lang: string,
    numericPrecision: string,
    calendarday: bool,
    forecastSensors: bool)

  /** The options as the entry stores them. */
  function OptionsMap(o: Options): (m: map<string, Json>)
    ensures m.Keys == {OptLatitude, OptLongitude, OptLang, OptNumericPrecision, OptCalendarday, OptForecastSensors}
  {
    map[OptLatitude := o.latitude, OptLongitude := o.longitude, OptLang := JStr(o.lang),
        OptNumericPrecision := JStr(o.numericPrecision), OptCalendarday := JBool(o.calendarday),
        OptForecastSensors := JBool(o.forecastSensors)]
  }

  /** The defaults the options form shows, one per option. */
  datatype OptionsForm = OptionsForm(
    latitude: Json,
    longitude: Json,
    lang: Json,
    numericPrecision: Json,
    calendarday: Json,
    forecastSensors: Json)

  function Get(m: map<string, Json>, k: string, default: Json): Json {
    if k in m then m[k] else default
  }

  /** The options form's defaults: each stored option, or else no
      coordinates, `en-US`, `none`, no calendar-day temperatures and no
      forecast sensors. */
  function OptionDefaults(stored: map<string, Json>): (f: OptionsForm)
    ensures OptLatitude in stored ==> f.latitude == stored[OptLatitude]
    ensures OptLatitude !in stored ==> f.latitude == JNull
    ensures OptLongitude in stored ==> f.longitude == stored[OptLongitude]
    ensures OptLongitude !in stored ==> f.longitude == JNull
    ensures OptLang in stored ==> f.lang == stored[OptLang]
    ensures OptLang !in stored ==> f.lang == JStr("en-US")
    ensures OptNumericPrecision in stored ==> f.numericPrecision == stored[OptNumericPrecision]
    ensures OptNumericPrecision !in stored ==> f.numericPrecision == JStr("none")
    ensures OptCalendarday in stored ==> f.calendarday == stored[OptCalendarday]
    ensures OptCalendarday !in stored ==> f.calendarday == JBool(false)
    ensures OptForecastSensors in stored ==> f.forecastSensors == stored[OptForecastSensors]
    ensures OptForecastSensors !in stored ==> f.forecastSensors == JBool(false)
  {
    OptionsForm(
      Get(stored, OptLatitude, JNull),
      Get(stored, OptLongitude, JNull),
      Get(stored, OptLang, JStr("en-US")),
      Get(stored, OptNumericPrecision, JStr("none")),
      Get(stored, OptCalendarday, JBool(false)),
      Get(stored, OptForecastSensors, JBool(false)))
  }

  /** The form of an entry's options shows exactly the options it holds. */
  lemma DefaultsShowStoredOptions(o: Options)
    ensures OptionDefaults(OptionsMap(o)) ==
      OptionsForm(o.latitude, o.longitude, JStr(o.lang), JStr(o.numericPrecision), JBool(o.calendarday), JBool(o.forecastSensors))
  {
  }

  /** What the options step shows or saves. */
  datatype OptionsResult =
    | ShowOptionsForm(stepId: string, defaults: OptionsForm)
    | SaveOptions(title: string, data: map<string, Json>)

  /** `async_step_init` of the options flow: without input, the form with the
      stored options as defaults; with input, the input saved as the new
      options under an empty title. */
  function OptionsStep(stored: map<string, Json>, input: Option<map<string, Json>>): (r: OptionsResult)
    ensures input.None? <==> r.ShowOptionsForm?
    ensures input.None? ==> r.stepId == "init" && r.defaults == OptionDefaults(stored)
    ensures input.Some? ==> r.title == "" && r.data == input.value
  {
    if input.Some? then SaveOptions("", input.value) else ShowOptionsForm("init", OptionDefaults(stored))
  }

  // ---------------------------------------------------------------------------
  // Flow results and the entry

  /** A station as the created entry lists it. */
  datatype StationRecord = StationRecord(pwsId: string, name: string, priority: int)

  datatype EntryData = EntryData(apiKey: Option<string>, groupName: Option<string>, stations: seq<StationRecord>)

  /** What a step shows or does next. */
  datatype FlowResult =
    | ShowForm(stepId: string, errors: map<string, string>)
    | ShowMenu(stepId: string, menuOptions: seq<string>)
    | Abort(reason: string)
    | CreateEntry(title: string, data: EntryData, options: Options)

  const StationMenu := ShowMenu("station_menu", ["add_another_station", "finish_setup"])

  /** The first step's input: the key, the group name, and optional
      coordinates. */
  datatype UserInput = UserInput(apiKey: string, groupName: string, latitude: Option<Json>, longitude: Option<Json>)

  /** The station form's input, after the schema has accepted it. */
  datatype StationInput = StationInput(pwsId: string, name: string, priority: int)

  /** `f"{value}"` of an optional string. */
  function Show(value: Option<string>): string {
    if value.Some? then value.value else "None"
  }

  /** The unique id of a group's entry. */
  function GroupUniqueId(groupName: Option<string>): (id: string)
    ensures |id| >= |"multi_station_"| && id[..|"multi_station_"|] == "multi_station_"
    ensures groupName.Some? ==> id[|"multi_station_"|..] == groupName.value
  {
    "multi_station_" + Show(groupName)
  }

  function Ids(stations: seq<MultiStation.StationConfig>): seq<string> {
    MultiStation.Ids(stations)
  }

  predicate HasId(stations: seq<MultiStation.StationConfig>, pwsId: string) {
    exists k :: 0 <= k < |stations| && stations[k].pwsId == pwsId
  }

  /** The entry `finish_setup` creates: the stations in the order they were
      added, and the default options with the group's coordinates. */
  function Entry(apiKey: Option<string>, groupName: Option<string>, latitude: Json, longitude: Json,
                 stations: seq<MultiStation.StationConfig>): (r: FlowResult)
    ensures r.CreateEntry? && r.title == "Multi-Station " + Show(groupName)
    ensures r.data.apiKey == apiKey && r.data.groupName == groupName
    ensures |r.data.stations| == |stations|
    ensures forall k :: 0 <= k < |stations| ==>
      r.data.stations[k] == StationRecord(stations[k].pwsId, stations[k].name, stations[k].priority)
    ensures r.options == Options(latitude, longitude, "en-US", "none", false, false)
  {
    CreateEntry(
      "Multi-Station " + Show(groupName),
      EntryData(apiKey, groupName,
        seq(|stations|, k requires 0 <= k < |stations| =>
          StationRecord(stations[k].pwsId, stations[k].name, stations[k].priority))),
      Options(latitude, longitude, "en-US", "none", false, false))
  }

  /** The stations of an entry, as the coordinator is configured from them. */
  function EntryStations(records: seq<StationRecord>): (r: seq<MultiStation.StationConfig>)
    ensures |r| == |records|
    ensures forall k :: 0 <= k < |records| ==> r[k].pwsId == records[k].pwsId
  {
    seq(|records|, k requires 0 <= k < |records| =>
      MultiStation.StationConfig(records[k].pwsId, records[k].priority, records[k].name))
  }

  // ---------------------------------------------------------------------------
  // The flow

  class Flow {
    var apiKey: Option<string>
    var groupName: Option<string>
    var latitude: Json
    var longitude: Json
    /** The stations added so far, in order. */
    var stations: seq<MultiStation.StationConfig>

    /** No two stations of the group share an id. */
    predicate Valid()
      reads this
    {
      MultiStation.Distinct(Ids(stations))
    }

    constructor()
      ensures Valid()
      ensures apiKey == None && groupName == None && latitude == JNull && longitude == JNull
      ensures stations == []
    {
      apiKey := None;
      groupName := None;
      latitude := JNull;
      longitude := JNull;
      stations := [];
    }

    /** `async_step_user`: without input, the form. With input, the key, name
        and coordinates are stored; a group whose unique id is already among
        `configured` aborts, any other continues with the empty station form. */
    method StepUser(input: Option<UserInput>, configured: set<string>) returns (result: FlowResult)
      requires Valid()
      modifies this
      ensures Valid()
      ensures input.None? ==> result == ShowForm("user", map[]) && unchanged(this)
      ensures input.Some? ==>
        && apiKey == Some(input.value.apiKey) && groupName == Some(input.value.groupName)
        && latitude == (if input.value.latitude.Some? then input.value.latitude.value else JNull)
        && longitude == (if input.value.longitude.Some? then input.value.longitude.value else JNull)
        && stations == old(stations)
        && result == (if GroupUniqueId(groupName) in configured then Abort("already_configured")
                      else ShowForm("add_station", map[]))
    {
      if input.None? {
        return ShowForm("user", map[]);
      }
      apiKey := Some(input.value.apiKey);
      groupName := Some(input.value.groupName);
      latitude := if input.value.latitude.Some? then input.value.latitude.value else JNull;
      longitude := if input.value.longitude.Some? then input.value.longitude.value else JNull;
      if GroupUniqueId(groupName) in configured {
        return Abort("already_configured");
      }
      result := AddStation(None);
    }

    /** `async_step_add_station`: a station whose id is already in the group
        is refused with `station_already_exists` and the list is unchanged;
        any other is appended and the menu is shown. Ids stay distinct. */
    method AddStation(input: Option<StationInput>) returns (result: FlowResult)
      requires Valid()
      modifies this`stations
      ensures Valid()
      ensures input.None? ==> result == ShowForm("add_station", map[]) && stations == old(stations)
      ensures input.Some? && HasId(old(stations), input.value.pwsId) ==>
        result == ShowForm("add_station", map["base" := "station_already_exists"]) && stations == old(stations)
      ensures input.Some? && !HasId(old(stations), input.value.pwsId) ==>
        && result == StationMenu
        && stations == old(stations) + [MultiStation.StationConfig(input.value.pwsId, input.value.priority, input.value.name)]
    {
      if input.None? {
        return ShowForm("add_station", map[]);
      }
      var pwsId := input.value.pwsId;
      var exists_ := false;
      var i := 0;
      while i < |stations|
        invariant 0 <= i <= |stations|
        invariant exists_ <==> exists k :: 0 <= k < i && stations[k].pwsId == pwsId
      {
        if stations[i].pwsId == pwsId {
          exists_ := true;
        }
        i := i + 1;
      }
      if exists_ {
        return ShowForm("add_station", map["base" := "station_already_exists"]);
      }
      var added := MultiStation.StationConfig(pwsId, input.value.priority, input.value.name);
      AppendKeepsDistinct(stations, added);
      stations := stations + [added];
      return StationMenu;
    }

    /** `async_step_add_another_station`: back to the empty station form. */
    method AddAnotherStation() returns (result: FlowResult)
      requires Valid()
      modifies this`stations
      ensures result == ShowForm("add_station", map[]) && stations == old(stations)
    {
      result := AddStation(None);
    }

    /** `async_step_finish_setup`: a group without stations aborts with
        `no_stations`; otherwise the entry is created from the flow's state. */
    method FinishSetup() returns (result: FlowResult)
      ensures |stations| == 0 ==> result == Abort("no_stations")
      ensures |stations| > 0 ==> result == Entry(apiKey, groupName, latitude, longitude, stations)
    {
      if |stations| == 0 {
        return Abort("no_stations");
      }
      result := Entry(apiKey, groupName, latitude, longitude, stations);
    }
  }

  /** Appending a station whose id is new keeps the ids distinct. */
  lemma AppendKeepsDistinct(stations: seq<MultiStation.StationConfig>, added: MultiStation.StationConfig)
    requires MultiStation.Distinct(Ids(stations))
    requires !HasId(stations, added.pwsId)
    ensures MultiStation.Distinct(Ids(stations + [added]))
  {
    var ids := Ids(stations + [added]);
    forall i, j | 0 <= i < j < |ids| ensures ids[i] != ids[j] {
      if j < |stations| {
        assert ids[i] == Ids(stations)[i] && ids[j] == Ids(stations)[j];
      } else {
        assert ids[i] == stations[i].pwsId;
      }
    }
  }

  /** The stations of an entry created from a valid flow have distinct ids,
      and so does the priority-sorted list the multi-station coordinator
      keeps, as its sweep expects. */
  lemma EntryStationsDistinct(apiKey: Option<string>, groupName: Option<string>, latitude: Json, longitude: Json,
                              stations: seq<MultiStation.StationConfig>)
    requires MultiStation.Distinct(Ids(stations))
    ensures MultiStation.Distinct(Ids(EntryStations(Entry(apiKey, groupName, latitude, longitude, stations).data.stations)))
    ensures MultiStation.Distinct(Ids(MultiStation.SortByPriority(
              EntryStations(Entry(apiKey, groupName, latitude, longitude, stations).data.stations))))
  {
    var configured := EntryStations(Entry(apiKey, groupName, latitude, longitude, stations).data.stations);
    var ids := Ids(configured);
    forall i, j | 0 <= i < j < |ids| ensures ids[i] != ids[j] {
      assert ids[i] == Ids(stations)[i] && ids[j] == Ids(stations)[j];
    }
    MultiStation.SortKeepsDistinct(configured);
  }
}
