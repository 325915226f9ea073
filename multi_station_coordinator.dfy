/** The multi-station coordinator: a group of stations tried in priority
    order on every update; the first that answers supplies the data. */
module MultiStation {
  import opened PyJson
  import opened BaseCoordinator

  /** One station of the group; a lower priority number is tried first. */
  datatype StationConfig = StationConfig(pwsId: string, priority: int, name: string)

  /** The group's configuration record, without its station list. */
  datatype Config = Config(
    apiKey: string,
    groupName: string,
    numericPrecision: string,
    unitSystemApi: string,
    unitSystem: string,
    lang: string,
    calendarday: bool,
    latitude: Json,
    longitude: Json,
    /** Read by the sensor platform; the station fetch requests the forecast
        whatever its value. */
    forecastEnable: bool,
    /** Stored by the coordinator and never read. */
    maxStationAgeMinutes: int)

  // ---------------------------------------------------------------------------
  // Priority order

  predicate SortedByPriority(s: seq<StationConfig>) {
    forall i, j :: 0 <= i < j < |s| ==> s[i].priority <= s[j].priority
  }

  /** The stations of `s` with priority `p`, in their order in `s`. */
  function WithPriority(s: seq<StationConfig>, p: int): (r: seq<StationConfig>)
    ensures |r| <= |s|
    decreases |s|
  {
    if |s| == 0 then []
    else (if s[0].priority == p then [s[0]] else []) + WithPriority(s[1..], p)
  }

  /** `x` placed after every station of `s` with a priority no greater than
      its own. */
  function Insert(s: seq<StationConfig>, x: StationConfig): (r: seq<StationConfig>)
    ensures |r| == |s| + 1
    decreases |s|
  {
    if |s| == 0 then [x]
    else if x.priority < s[0].priority then [x] + s
    else [s[0]] + Insert(s[1..], x)
  }

  lemma {:induction false} InsertPermutes(s: seq<StationConfig>, x: StationConfig)
    ensures multiset(Insert(s, x)) == multiset(s) + multiset{x}
    decreases |s|
  {
    if |s| > 0 && x.priority >= s[0].priority {
      InsertPermutes(s[1..], x);
      assert s == [s[0]] + s[1..];
    }
  }

  lemma {:induction false} InsertSorted(s: seq<StationConfig>, x: StationConfig)
    requires SortedByPriority(s)
    ensures SortedByPriority(Insert(s, x))
    ensures forall j :: 0 <= j < |Insert(s, x)| ==>
              Insert(s, x)[j].priority >= x.priority || (|s| > 0 && Insert(s, x)[j].priority >= s[0].priority)
    decreases |s|
  {
    if |s| > 0 && x.priority >= s[0].priority {
      InsertSorted(s[1..], x);
      var rest := Insert(s[1..], x);
      assert forall j :: 0 <= j < |rest| ==> s[0].priority <= rest[j].priority by {
        forall j | 0 <= j < |rest| ensures s[0].priority <= rest[j].priority {
          if |s| > 1 {
            assert s[0].priority <= s[1].priority;
          }
        }
      }
    }
  }

  /** `sorted(stations, key=lambda x: x.priority)`: Python's sort is stable,
      so stations of equal priority keep their configured order. */
  function SortByPriority(s: seq<StationConfig>): (r: seq<StationConfig>)
    ensures SortedByPriority(r)
    ensures multiset(r) == multiset(s)
    ensures |r| == |s|
    decreases |s|
  {
    if |s| == 0 then []
    else
      var init := s[..|s| - 1];
      var sortedInit := SortByPriority(init);
      InsertSorted(sortedInit, s[|s| - 1]);
      InsertPermutes(sortedInit, s[|s| - 1]);
      LastSplit(s);
      Insert(sortedInit, s[|s| - 1])
  }

  lemma LastSplit(s: seq<StationConfig>)
    requires |s| > 0
    ensures multiset(s) == multiset(s[..|s| - 1]) + multiset{s[|s| - 1]}
  {
    assert s == s[..|s| - 1] + [s[|s| - 1]];
  }

  lemma {:induction false} WithPriorityAppend(a: seq<StationConfig>, b: seq<StationConfig>, p: int)
    ensures WithPriority(a + b, p) == WithPriority(a, p) + WithPriority(b, p)
    decreases |a|
  {
    if |a| > 0 {
      WithPriorityAppend(a[1..], b, p);
      assert (a + b)[1..] == a[1..] + b;
    } else {
      assert a + b == b;
    }
  }

  lemma {:induction false} WithPriorityNone(s: seq<StationConfig>, p: int)
    requires SortedByPriority(s)
    requires |s| > 0 && s[0].priority > p
    ensures WithPriority(s, p) == []
    decreases |s|
  {
    if |s| > 1 {
      WithPriorityNone(s[1..], p);
    }
  }

  lemma {:induction false} InsertStable(s: seq<StationConfig>, x: StationConfig, p: int)
    requires SortedByPriority(s)
    ensures WithPriority(Insert(s, x), p) == WithPriority(s, p) + WithPriority([x], p)
    decreases |s|
  {
    if |s| == 0 {
    } else if x.priority < s[0].priority {
      WithPriorityAppend([x], s, p);
      if x.priority == p {
        WithPriorityNone(s, p);
      }
    } else {
      InsertStable(s[1..], x, p);
      WithPriorityAppend([s[0]], Insert(s[1..], x), p);
      WithPriorityAppend([s[0]], s[1..], p);
      assert [s[0]] + s[1..] == s;
      assert WithPriority([s[0]] + s[1..], p) == WithPriority([s[0]], p) + WithPriority(s[1..], p);
    }
  }

  /** The sort is stable: for every priority, the stations with that priority
      appear in the sorted list exactly in their configured order. */
  lemma {:induction false} SortStable(s: seq<StationConfig>, p: int)
    ensures WithPriority(SortByPriority(s), p) == WithPriority(s, p)
    decreases |s|
  {
    if |s| > 0 {
      var init := s[..|s| - 1];
      SortStable(init, p);
      InsertStable(SortByPriority(init), s[|s| - 1], p);
      assert s == init + [s[|s| - 1]];
      WithPriorityAppend(init, [s[|s| - 1]], p);
    }
  }

  // ---------------------------------------------------------------------------
  // Fetching one station

  /** This coordinator's `_build_url`: the stored coordinates are used as they
      are. */
  function Url(c: Config, resource: Resource, stationId: string, latitude: Json, longitude: Json, show: Json -> string): string {
    FormatUrl(resource, stationId, Str(latitude, show), Str(longitude, show), c.lang, c.numericPrecision, c.apiKey, c.unitSystemApi)
  }

  /** The server reads from this coordinator's URLs the given station, the
      configured precision, language, key and units, and the stored
      coordinates as they are. */
  lemma StationUrlParams(c: Config, resource: Resource, stationId: string, latitude: Json, longitude: Json, show: Json -> string)
    requires NoAmpersand([stationId, Str(latitude, show), Str(longitude, show), c.lang, c.numericPrecision, c.apiKey, c.unitSystemApi])
    ensures Params(Url(c, resource, stationId, latitude, longitude, show))
         == ExpectedParams(resource, stationId, Str(latitude, show), Str(longitude, show), c.lang, c.numericPrecision, c.apiKey, c.unitSystemApi)
  {
    UrlParams(resource, stationId, Str(latitude, show), Str(longitude, show), c.lang, c.numericPrecision, c.apiKey, c.unitSystemApi);
  }

  /** Every station of the group asks for the same forecast: the forecast URL
      depends on the coordinates and not on the station. */
  lemma ForecastUrlIgnoresStation(c: Config, a: string, b: string, latitude: Json, longitude: Json, show: Json -> string)
    ensures Url(c, Forecast, a, latitude, longitude, show) == Url(c, Forecast, b, latitude, longitude, show)
  {
  }

  /** `observations` must be present and non-empty. */
  function ObservationsPresent(result: Json): (r: Py<bool>)
    ensures result.JObj? ==>
      r == Ok(FieldObservations in result.fields && Truthy(result.fields[FieldObservations]))
  {
    var has :- Contains(result, FieldObservations);
    if !has then Ok(false)
    else
      var observations :- GetKey(result, FieldObservations);
      Ok(Truthy(observations))
  }

  /** The current-conditions request of `_fetch_station_data`: the status and
      null checks, then the observations check, then the error check. */
  function CurrentPayload(reply: Reply): (r: Py<Json>)
    ensures r.Ok? ==> Payload(reply) == r
    ensures Payload(reply).Raise? ==> r == Payload(reply)
    ensures Payload(reply).Ok? && Payload(reply).value.JObj? ==>
      var fields := Payload(reply).value.fields;
      (r.Ok? <==> FieldObservations in fields && Truthy(fields[FieldObservations])
                  && CheckErrors(Payload(reply).value).Ok?)
  {
    var result :- Payload(reply);
    var present :- ObservationsPresent(result);
    if !present then Raise(ValueError(NoObservations))
    else
      var _ :- CheckErrors(result);
      Ok(result)
  }

  /** The body of `_fetch_station_data`'s `try` for one station, with the
      coordinates the coordinator holds when it starts. A failed current
      request learns nothing; a set coordinate is never replaced. */
  function FetchStation(c: Config, station: StationConfig, latitude: Json, longitude: Json, net: Network, show: Json -> string): (a: Attempt)
    ensures Truthy(latitude) ==> a.latitude == latitude
    ensures Truthy(longitude) ==> a.longitude == longitude
    ensures var current := CurrentPayload(net(Url(c, Current, station.pwsId, latitude, longitude, show)));
      current.Raise? ==> a == Attempt(Raise(current.exc), latitude, longitude)
  {
    var current := CurrentPayload(net(Url(c, Current, station.pwsId, latitude, longitude, show)));
    if current.Raise? then Attempt(Raise(current.exc), latitude, longitude)
    else Learning(c, station, current.value, latitude, longitude, net, show)
  }

  /** Longitude, then latitude, learned from the payload while unset. */
  function Learning(c: Config, station: StationConfig, current: Json, latitude: Json, longitude: Json, net: Network, show: Json -> string): (a: Attempt)
    ensures Truthy(latitude) ==> a.latitude == latitude
    ensures Truthy(longitude) ==> a.longitude == longitude
    ensures Learned(current, latitude, longitude, a)
  {
    var lon := Learn(longitude, current, FieldLongitude);
    if lon.Raise? then Attempt(Raise(lon.exc), latitude, longitude)
    else
      var lat := Learn(latitude, current, FieldLatitude);
      if lat.Raise? then Attempt(Raise(lat.exc), latitude, lon.value)
      else Finish(c, station, current, lat.value, lon.value, net, show)
  }

  /** The forecast at the given coordinates and the merge. This coordinator
      requests the forecast whether or not forecasts are enabled. */
  function Finish(c: Config, station: StationConfig, current: Json, latitude: Json, longitude: Json, net: Network, show: Json -> string): (a: Attempt)
    ensures a.latitude == latitude && a.longitude == longitude
    ensures var forecast := ForecastPayload(net(Url(c, Forecast, station.pwsId, latitude, longitude, show)));
      a.outcome.Ok? ==>
        && forecast.Ok? && CheckErrors(forecast.value).Ok?
        && a.outcome == Merge(current, forecast.value)
        && current.JObj? && forecast.value.JObj?
    ensures var forecast := ForecastPayload(net(Url(c, Forecast, station.pwsId, latitude, longitude, show)));
      forecast.Ok? ==> a.outcome == Merge(current, forecast.value)
  {
    var forecast := ForecastPayload(net(Url(c, Forecast, station.pwsId, latitude, longitude, show)));
    if forecast.Raise? then Attempt(Raise(forecast.exc), latitude, longitude)
    else Attempt(Merge(current, forecast.value), latitude, longitude)
  }

  /** What `_fetch_station_data` returns: every exception is handled and
      becomes `None`. */
  function Document(a: Attempt): (doc: Json)
    ensures a.outcome.Raise? ==> doc == JNull
    ensures a.outcome.Ok? ==> doc == a.outcome.value
  {
    if a.outcome.Ok? then a.outcome.value else JNull
  }

  /** A station's successful fetch is the merge of its error-free current
      payload and the forecast, the forecast winning on shared keys; the
      forecast was requested at the coordinates the fetch ends with. */
  lemma FetchStationSuccess(c: Config, station: StationConfig, latitude: Json, longitude: Json, net: Network, show: Json -> string)
    requires FetchStation(c, station, latitude, longitude, net, show).outcome.Ok?
    ensures var a := FetchStation(c, station, latitude, longitude, net, show);
            var current := CurrentPayload(net(Url(c, Current, station.pwsId, latitude, longitude, show)));
            var forecast := ForecastPayload(net(Url(c, Forecast, station.pwsId, a.latitude, a.longitude, show)));
      && current.Ok? && forecast.Ok?
      && current.value.JObj? && forecast.value.JObj?
      && CheckErrors(current.value).Ok? && CheckErrors(forecast.value).Ok?
      && a.outcome == Merge(current.value, forecast.value)
  {
    var current := CurrentPayload(net(Url(c, Current, station.pwsId, latitude, longitude, show)));
    assert current.Ok?;
    var lon := Learn(longitude, current.value, FieldLongitude);
    assert lon.Ok?;
    var lat := Learn(latitude, current.value, FieldLatitude);
    assert lat.Ok?;
    assert FetchStation(c, station, latitude, longitude, net, show) == Finish(c, station, current.value, lat.value, lon.value, net, show);
  }

  /** The coordinates a station's fetch leaves behind once its current
      request has passed: an unset coordinate becomes the first observation's,
      or the fetch fails on that lookup. */
  lemma FetchStationLearns(c: Config, station: StationConfig, latitude: Json, longitude: Json, net: Network, show: Json -> string)
    ensures var current := CurrentPayload(net(Url(c, Current, station.pwsId, latitude, longitude, show)));
      current.Ok? ==> Learned(current.value, latitude, longitude, FetchStation(c, station, latitude, longitude, net, show))
  {
  }

  /** A document of a successful fetch holds the station's observations and
      no API errors. */
  lemma {:induction false} SuccessfulDocument(c: Config, station: StationConfig, latitude: Json, longitude: Json, net: Network, show: Json -> string)
    requires FetchStation(c, station, latitude, longitude, net, show).outcome.Ok?
    ensures var doc := Document(FetchStation(c, station, latitude, longitude, net, show));
      && doc.JObj? && Truthy(doc)
      && (FieldErrors !in doc.fields || !Truthy(doc.fields[FieldErrors]))
  {
    FetchStationSuccess(c, station, latitude, longitude, net, show);
    var a := FetchStation(c, station, latitude, longitude, net, show);
    var current := CurrentPayload(net(Url(c, Current, station.pwsId, latitude, longitude, show)));
    assert FieldObservations in current.value.fields;
    assert FieldObservations in a.outcome.value.fields;
  }

  // ---------------------------------------------------------------------------
  // One update over all stations

  /** The stations that answered, with their documents, and the coordinates
      after trying every station in turn. */
  datatype Sweep = Sweep(successes: seq<(StationConfig, Json)>, latitude: Json, longitude: Json)

  /** A fetch of one station from the coordinates held when it starts. */
  type Fetcher = (StationConfig, Json, Json) -> Attempt

  /** The fetch `get_weather` applies to each station. */
  function StationFetcher(c: Config, net: Network, show: Json -> string): Fetcher {
    (station: StationConfig, latitude: Json, longitude: Json) => FetchStation(c, station, latitude, longitude, net, show)
  }

  lemma FetcherApplies(c: Config, net: Network, show: Json -> string, station: StationConfig, latitude: Json, longitude: Json)
    ensures StationFetcher(c, net, show)(station, latitude, longitude) == FetchStation(c, station, latitude, longitude, net, show)
  {
  }

  /** The loop of `get_weather`: each station is fetched with the coordinates
      the previous fetches left behind; the stations whose document is truthy
      are kept, in order. */
  function SweepFrom(fetch: Fetcher, stations: seq<StationConfig>, latitude: Json, longitude: Json): (sw: Sweep)
    ensures |sw.successes| <= |stations|
    ensures forall j :: 0 <= j < |sw.successes| ==> Truthy(sw.successes[j].1)
    decreases |stations|
  {
    if |stations| == 0 then Sweep([], latitude, longitude)
    else
      var a := fetch(stations[0], latitude, longitude);
      var doc := Document(a);
      var rest := SweepFrom(fetch, stations[1..], a.latitude, a.longitude);
      Sweep((if Truthy(doc) then [(stations[0], doc)] else []) + rest.successes, rest.latitude, rest.longitude)
  }

  /** One step of the loop: the sweep from station `i` on is the fetch of
      station `i` followed by the sweep from the next station, from the
      coordinates that fetch left behind. */
  lemma SweepUnfold(fetch: Fetcher, stations: seq<StationConfig>, i: nat, latitude: Json, longitude: Json)
    requires i < |stations|
    ensures var a := fetch(stations[i], latitude, longitude);
            var rest := SweepFrom(fetch, stations[i + 1..], a.latitude, a.longitude);
      SweepFrom(fetch, stations[i..], latitude, longitude)
        == Sweep((if Truthy(Document(a)) then [(stations[i], Document(a))] else []) + rest.successes, rest.latitude, rest.longitude)
  {
    assert stations[i..][1..] == stations[i + 1..];
  }

  /** The sweep of a loop that has collected `successes` from the first `i`
      stations and holds the given coordinates. */
  function Resume(fetch: Fetcher, stations: seq<StationConfig>, i: nat, successes: seq<(StationConfig, Json)>, latitude: Json, longitude: Json): Sweep
    requires i <= |stations|
  {
    var rest := SweepFrom(fetch, stations[i..], latitude, longitude);
    Sweep(successes + rest.successes, rest.latitude, rest.longitude)
  }

  /** Before the loop, resuming is the whole sweep; after it, nothing is
      left to fetch. */
  lemma ResumeEnds(fetch: Fetcher, stations: seq<StationConfig>, successes: seq<(StationConfig, Json)>, latitude: Json, longitude: Json)
    ensures Resume(fetch, stations, 0, [], latitude, longitude) == SweepFrom(fetch, stations, latitude, longitude)
    ensures Resume(fetch, stations, |stations|, successes, latitude, longitude) == Sweep(successes, latitude, longitude)
  {
    assert stations[0..] == stations;
    assert stations[|stations|..] == [] && successes + [] == successes;
  }

  /** Fetching station `i` and keeping it when it answers leaves the sweep
      unchanged. */
  lemma ResumeStep(fetch: Fetcher, stations: seq<StationConfig>, i: nat, successes: seq<(StationConfig, Json)>, latitude: Json, longitude: Json)
    requires i < |stations|
    ensures var a := fetch(stations[i], latitude, longitude);
            var doc := Document(a);
      Resume(fetch, stations, i, successes, latitude, longitude)
        == Resume(fetch, stations, i + 1, if Truthy(doc) then successes + [(stations[i], doc)] else successes, a.latitude, a.longitude)
  {
    SweepUnfold(fetch, stations, i, latitude, longitude);
    var a := fetch(stations[i], latitude, longitude);
    var kept := if Truthy(Document(a)) then [(stations[i], Document(a))] else [];
    var rest := SweepFrom(fetch, stations[i + 1..], a.latitude, a.longitude);
    assert successes + (kept + rest.successes) == (successes + kept) + rest.successes;
    assert successes + [] == successes;
  }

  /** `successes` with `station` appended when its document is truthy. */
  function Kept(successes: seq<(StationConfig, Json)>, station: StationConfig, doc: Json): (r: seq<(StationConfig, Json)>)
    ensures Truthy(doc) ==> r == successes + [(station, doc)]
    ensures !Truthy(doc) ==> r == successes
  {
    if Truthy(doc) then successes + [(station, doc)] else successes
  }

  /** `ResumeStep` for the fetcher of a configured group. */
  lemma StationStep(c: Config, net: Network, show: Json -> string, stations: seq<StationConfig>, i: nat,
                    successes: seq<(StationConfig, Json)>, latitude: Json, longitude: Json)
    requires i < |stations|
    ensures var a := FetchStation(c, stations[i], latitude, longitude, net, show);
      Resume(StationFetcher(c, net, show), stations, i, successes, latitude, longitude)
        == Resume(StationFetcher(c, net, show), stations, i + 1, Kept(successes, stations[i], Document(a)), a.latitude, a.longitude)
  {
    ResumeStep(StationFetcher(c, net, show), stations, i, successes, latitude, longitude);
    FetcherApplies(c, net, show, stations[i], latitude, longitude);
  }

  /** Coordinates set before an update are still set, unchanged, after it. */
  lemma {:induction false} SweepKeepsSetCoordinates(c: Config, stations: seq<StationConfig>, latitude: Json, longitude: Json, net: Network, show: Json -> string)
    ensures Truthy(latitude) ==> SweepFrom(StationFetcher(c, net, show), stations, latitude, longitude).latitude == latitude
    ensures Truthy(longitude) ==> SweepFrom(StationFetcher(c, net, show), stations, latitude, longitude).longitude == longitude
    decreases |stations|
  {
    if |stations| > 0 {
      var a := FetchStation(c, stations[0], latitude, longitude, net, show);
      assert StationFetcher(c, net, show)(stations[0], latitude, longitude) == a;
      SweepKeepsSetCoordinates(c, stations[1..], a.latitude, a.longitude, net, show);
    }
  }

  /** Whatever holds of every station of the group holds of every station
      that answered. */
  lemma {:induction false} SweepFromStations(fetch: Fetcher, stations: seq<StationConfig>, latitude: Json, longitude: Json, P: StationConfig -> bool)
    requires forall k :: 0 <= k < |stations| ==> P(stations[k])
    ensures forall j :: 0 <= j < |SweepFrom(fetch, stations, latitude, longitude).successes| ==>
      P(SweepFrom(fetch, stations, latitude, longitude).successes[j].0)
    decreases |stations|
  {
    if |stations| > 0 {
      var a := fetch(stations[0], latitude, longitude);
      SweepFromStations(fetch, stations[1..], a.latitude, a.longitude, P);
      var rest := SweepFrom(fetch, stations[1..], a.latitude, a.longitude).successes;
      var s := SweepFrom(fetch, stations, latitude, longitude).successes;
      if Truthy(Document(a)) {
        assert s == [(stations[0], Document(a))] + rest;
        forall j | 0 <= j < |s| ensures P(s[j].0) {
          if j > 0 {
            assert s[j] == rest[j - 1];
          }
        }
      } else {
        assert s == rest;
      }
    }
  }

  /** Every station that answered is a station of the group. */
  lemma SweepSuccessesAreStations(fetch: Fetcher, stations: seq<StationConfig>, latitude: Json, longitude: Json)
    ensures forall j :: 0 <= j < |SweepFrom(fetch, stations, latitude, longitude).successes| ==>
      SweepFrom(fetch, stations, latitude, longitude).successes[j].0 in stations
  {
    SweepFromStations(fetch, stations, latitude, longitude, (x: StationConfig) => x in stations);
  }

  /** The stations that answered keep the priority order of the group. */
  lemma {:induction false} SweepKeepsPriorityOrder(fetch: Fetcher, stations: seq<StationConfig>, latitude: Json, longitude: Json)
    requires SortedByPriority(stations)
    ensures SortedByPriority(Stations(SweepFrom(fetch, stations, latitude, longitude).successes))
    decreases |stations|
  {
    if |stations| > 0 {
      var a := fetch(stations[0], latitude, longitude);
      var rest := SweepFrom(fetch, stations[1..], a.latitude, a.longitude).successes;
      SweepKeepsPriorityOrder(fetch, stations[1..], a.latitude, a.longitude);
      var low := stations[0].priority;
      var atLeast := (x: StationConfig) => low <= x.priority;
      forall k | 0 <= k < |stations[1..]| ensures atLeast(stations[1..][k]) {
        assert stations[1..][k] == stations[k + 1];
      }
      SweepFromStations(fetch, stations[1..], a.latitude, a.longitude, atLeast);
      var s := SweepFrom(fetch, stations, latitude, longitude).successes;
      var order := Stations(s);
      if Truthy(Document(a)) {
        assert s == [(stations[0], Document(a))] + rest;
        forall i, j | 0 <= i < j < |order| ensures order[i].priority <= order[j].priority {
          assert order[j] == Stations(rest)[j - 1] == rest[j - 1].0;
          assert atLeast(rest[j - 1].0);
          if i > 0 {
            assert order[i] == Stations(rest)[i - 1];
          }
        }
      } else {
        assert s == rest;
      }
    }
  }

  /** The stations of a list of successes. */
  function Stations(s: seq<(StationConfig, Json)>): seq<StationConfig> {
    seq(|s|, k requires 0 <= k < |s| => s[k].0)
  }

  function Ids(s: seq<StationConfig>): seq<string> {
    seq(|s|, k requires 0 <= k < |s| => s[k].pwsId)
  }

  function SuccessIds(s: seq<(StationConfig, Json)>): seq<string> {
    seq(|s|, k requires 0 <= k < |s| => s[k].0.pwsId)
  }

  predicate Distinct(ids: seq<string>) {
    forall i, j :: 0 <= i < j < |ids| ==> ids[i] != ids[j]
  }

  /** A station put in front of a list none of whose ids it shares. */
  lemma ConsDistinct(a: StationConfig, rest: seq<StationConfig>)
    requires Distinct(Ids(rest))
    requires forall k :: 0 <= k < |rest| ==> rest[k].pwsId != a.pwsId
    ensures Distinct(Ids([a] + rest))
  {
    var ids := Ids([a] + rest);
    forall i, j | 0 <= i < j < |ids| ensures ids[i] != ids[j] {
      assert ids[j] == Ids(rest)[j - 1];
      if i > 0 {
        assert ids[i] == Ids(rest)[i - 1];
      }
    }
  }

  lemma TailDistinct(s: seq<StationConfig>)
    requires |s| > 0 && Distinct(Ids(s))
    ensures Distinct(Ids(s[1..]))
    ensures forall k :: 0 <= k < |s| - 1 ==> s[1..][k].pwsId != s[0].pwsId
  {
    forall i, j | 0 <= i < j < |s| - 1 ensures Ids(s[1..])[i] != Ids(s[1..])[j] {
      assert Ids(s)[i + 1] != Ids(s)[j + 1];
    }
    forall k | 0 <= k < |s| - 1 ensures s[1..][k].pwsId != s[0].pwsId {
      assert Ids(s)[0] != Ids(s)[k + 1];
    }
  }

  /** Inserting a station whose id is new keeps the ids distinct. */
  lemma {:induction false} InsertKeepsDistinct(s: seq<StationConfig>, x: StationConfig)
    requires Distinct(Ids(s))
    requires forall k :: 0 <= k < |s| ==> s[k].pwsId != x.pwsId
    ensures Distinct(Ids(Insert(s, x)))
    decreases |s|
  {
    if |s| == 0 {
      assert Insert(s, x) == [x] + s;
      ConsDistinct(x, s);
    } else if x.priority < s[0].priority {
      ConsDistinct(x, s);
    } else {
      var tail := s[1..];
      TailDistinct(s);
      InsertKeepsDistinct(tail, x);
      InsertPermutes(tail, x);
      var rest := Insert(tail, x);
      forall j | 0 <= j < |rest| ensures rest[j].pwsId != s[0].pwsId {
        assert rest[j] in multiset(rest);
        if rest[j] != x {
          assert rest[j] in multiset(tail);
          var k :| 0 <= k < |tail| && tail[k] == rest[j];
        }
      }
      ConsDistinct(s[0], rest);
    }
  }

  /** Sorting by priority keeps the ids distinct, so the coordinator's
      sorted list is duplicate-free whenever its configured list is. */
  lemma {:induction false} SortKeepsDistinct(s: seq<StationConfig>)
    requires Distinct(Ids(s))
    ensures Distinct(Ids(SortByPriority(s)))
    decreases |s|
  {
    if |s| > 0 {
      var init := s[..|s| - 1];
      var x := s[|s| - 1];
      assert Distinct(Ids(init)) by {
        forall i, j | 0 <= i < j < |init| ensures Ids(init)[i] != Ids(init)[j] {
          assert Ids(s)[i] != Ids(s)[j];
        }
      }
      SortKeepsDistinct(init);
      var sortedInit := SortByPriority(init);
      forall k | 0 <= k < |sortedInit| ensures sortedInit[k].pwsId != x.pwsId {
        assert sortedInit[k] in multiset(init);
        var m :| 0 <= m < |init| && init[m] == sortedInit[k];
        assert Ids(s)[m] != Ids(s)[|s| - 1];
      }
      InsertKeepsDistinct(sortedInit, x);
    }
  }

  /** When the group's station ids are distinct (the configuration flow
      rejects duplicates), so are the ids of the stations that answered. */
  lemma {:induction false} SweepDistinct(fetch: Fetcher, stations: seq<StationConfig>, latitude: Json, longitude: Json)
    requires Distinct(Ids(stations))
    ensures Distinct(SuccessIds(SweepFrom(fetch, stations, latitude, longitude).successes))
    decreases |stations|
  {
    if |stations| > 0 {
      var a := fetch(stations[0], latitude, longitude);
      var rest := SweepFrom(fetch, stations[1..], a.latitude, a.longitude).successes;
      assert Ids(stations[1..]) == Ids(stations)[1..];
      SweepDistinct(fetch, stations[1..], a.latitude, a.longitude);
      var first := stations[0].pwsId;
      forall k | 0 <= k < |stations[1..]| ensures stations[1..][k].pwsId != first {
        assert Ids(stations)[k + 1] == stations[1..][k].pwsId;
        assert Ids(stations)[0] == first;
      }
      var other := (x: StationConfig) => x.pwsId != first;
      SweepFromStations(fetch, stations[1..], a.latitude, a.longitude, other);
      var s := SweepFrom(fetch, stations, latitude, longitude).successes;
      var ids := SuccessIds(s);
      if Truthy(Document(a)) {
        assert s == [(stations[0], Document(a))] + rest;
        forall i, j | 0 <= i < j < |ids| ensures ids[i] != ids[j] {
          assert ids[j] == SuccessIds(rest)[j - 1];
          assert other(rest[j - 1].0);
          if i > 0 {
            assert ids[i] == SuccessIds(rest)[i - 1];
          }
        }
      } else {
        assert s == rest;
      }
    }
  }

  /** A station's entry in the cache of per-station documents. */
  datatype CacheEntry = CacheEntry(data: Json, lastUpdate: real)

  /** The cache after recording every success, in order, at time `now`. */
  function Record(cache: map<string, CacheEntry>, successes: seq<(StationConfig, Json)>, now: real): (r: map<string, CacheEntry>)
    ensures r.Keys == cache.Keys + set j | 0 <= j < |successes| :: successes[j].0.pwsId
    ensures forall id :: id in cache && (forall j :: 0 <= j < |successes| ==> successes[j].0.pwsId != id) ==> r[id] == cache[id]
    decreases |successes|
  {
    if |successes| == 0 then cache
    else
      var n := |successes| - 1;
      var prior := Record(cache, successes[..n], now);
      assert forall j :: 0 <= j < n ==> successes[..n][j] == successes[j];
      prior[successes[n].0.pwsId := CacheEntry(successes[n].1, now)]
  }

  /** With distinct ids, every station that answered has its own document in
      the cache, stamped with the update time. */
  lemma {:induction false} RecordStoresEach(cache: map<string, CacheEntry>, successes: seq<(StationConfig, Json)>, now: real, j: nat)
    requires Distinct(SuccessIds(successes))
    requires j < |successes|
    ensures successes[j].0.pwsId in Record(cache, successes, now)
    ensures Record(cache, successes, now)[successes[j].0.pwsId] == CacheEntry(successes[j].1, now)
    decreases |successes|
  {
    var n := |successes| - 1;
    var prior := Record(cache, successes[..n], now);
    assert Record(cache, successes, now) == prior[successes[n].0.pwsId := CacheEntry(successes[n].1, now)];
    if j < n {
      var ids := SuccessIds(successes);
      assert SuccessIds(successes[..n]) == ids[..n];
      assert Distinct(ids[..n]) by {
        forall a, b | 0 <= a < b < n
          ensures ids[..n][a] != ids[..n][b]
        {
          assert ids[..n][a] == ids[a] && ids[..n][b] == ids[b];
        }
      }
      RecordStoresEach(cache, successes[..n], now, j);
      assert successes[..n][j] == successes[j];
      assert ids[j] != ids[n];
    }
  }

  // ---------------------------------------------------------------------------
  // Status and conditions

  /** One entry of `station_status`. */
  datatype Status = Status(name: string, priority: int, active: bool, lastUpdate: Option<real>, online: bool)

  function StatusOf(s: StationConfig, active: Option<StationConfig>, cache: map<string, CacheEntry>): Status {
    Status(
      s.name,
      s.priority,
      active.Some? && s.pwsId == active.value.pwsId,
      if s.pwsId in cache then Some(cache[s.pwsId].lastUpdate) else None,
      s.pwsId in cache)
  }

  /** `station_status`: an entry per station id (a later station with the same
      id overwrites an earlier one). A station is online exactly when the cache
      holds a document for it, and active exactly when it is the active
      station. */
  function StationStatus(stations: seq<StationConfig>, active: Option<StationConfig>, cache: map<string, CacheEntry>): (r: map<string, Status>)
    ensures r.Keys == set j | 0 <= j < |stations| :: stations[j].pwsId
    ensures forall id :: id in r ==>
              && r[id].online == (id in cache)
              && r[id].active == (active.Some? && active.value.pwsId == id)
              && r[id].lastUpdate == (if id in cache then Some(cache[id].lastUpdate) else None)
    ensures NamedAfterLast(stations, r)
    decreases |stations|
  {
    if |stations| == 0 then map[]
    else
      var n := |stations| - 1;
      var prior := StationStatus(stations[..n], active, cache);
      StatusStep(stations, stations[..n], active, cache, prior);
      prior[stations[n].pwsId := StatusOf(stations[n], active, cache)]
  }

  /** One more station keeps the status map's properties. */
  lemma StatusStep(stations: seq<StationConfig>, init: seq<StationConfig>, active: Option<StationConfig>, cache: map<string, CacheEntry>, prior: map<string, Status>)
    requires |stations| > 0 && init == stations[..|stations| - 1]
    requires prior.Keys == set j | 0 <= j < |init| :: init[j].pwsId
    requires forall id :: id in prior ==>
              && prior[id].online == (id in cache)
              && prior[id].active == (active.Some? && active.value.pwsId == id)
              && prior[id].lastUpdate == (if id in cache then Some(cache[id].lastUpdate) else None)
    requires NamedAfterLast(stations[..|stations| - 1], prior)
    ensures var r := prior[stations[|stations| - 1].pwsId := StatusOf(stations[|stations| - 1], active, cache)];
      && r.Keys == (set j | 0 <= j < |stations| :: stations[j].pwsId)
      && (forall id :: id in r ==>
            && r[id].online == (id in cache)
            && r[id].active == (active.Some? && active.value.pwsId == id)
            && r[id].lastUpdate == (if id in cache then Some(cache[id].lastUpdate) else None))
      && NamedAfterLast(stations, r)
  {
    var n := |stations| - 1;
    assert (set j | 0 <= j < |stations| :: stations[j].pwsId)
        == (set j | 0 <= j < n :: stations[..n][j].pwsId) + {stations[n].pwsId};
    NamedAfterLastStep(stations, prior, StatusOf(stations[n], active, cache));
  }

  /** Station `j` is the last one with the given id. */
  predicate LastWithId(stations: seq<StationConfig>, id: string, j: int)
    requires 0 <= j < |stations|
  {
    stations[j].pwsId == id && forall k :: j < k < |stations| ==> stations[k].pwsId != id
  }

  /** Every entry carries the name and priority of the last station with its
      id. */
  predicate NamedAfterLast(stations: seq<StationConfig>, r: map<string, Status>) {
    forall id :: id in r ==>
      exists j :: 0 <= j < |stations| && LastWithId(stations, id, j)
                  && r[id].name == stations[j].name && r[id].priority == stations[j].priority
  }

  lemma NamedAfterLastStep(stations: seq<StationConfig>, prior: map<string, Status>, s: Status)
    requires |stations| > 0
    requires NamedAfterLast(stations[..|stations| - 1], prior)
    requires s.name == stations[|stations| - 1].name && s.priority == stations[|stations| - 1].priority
    ensures NamedAfterLast(stations, prior[stations[|stations| - 1].pwsId := s])
  {
    var n := |stations| - 1;
    var r := prior[stations[n].pwsId := s];
    assert LastWithId(stations, stations[n].pwsId, n);
    forall id | id in r && id != stations[n].pwsId
      ensures exists j :: 0 <= j < |stations| && LastWithId(stations, id, j)
                          && r[id].name == stations[j].name && r[id].priority == stations[j].priority
    {
      var j :| 0 <= j < n && LastWithId(stations[..n], id, j)
               && prior[id].name == stations[..n][j].name && prior[id].priority == stations[..n][j].priority;
      assert LastWithId(stations, id, j);
    }
  }

  /** Fields read straight from the observation, without a unit system. */
  const UnitlessFields := [
    "humidity", "winddir", "solarRadiation", "uv", "stationID", "neighborhood",
    "obsTimeLocal", "obsTimeUtc", "softwareType", "country", "lon", "lat",
    "realtimeFrequency", "epoch", "qcStatus", "windDirectionCardinal"]

  /** The observation value this coordinator's `get_condition` gives for a
      well-formed first observation: unit-less fields directly; any other field
      from the unit-system record when that record is a non-empty object
      holding it, and otherwise from the observation itself. */
  function ConditionOf(observation: map<string, Json>, unitSystem: string, field: string): Json {
    if field in UnitlessFields then Lookup(observation, field)
    else if unitSystem in observation && observation[unitSystem].JObj?
            && field in observation[unitSystem].fields
    then observation[unitSystem].fields[field]
    else Lookup(observation, field)
  }

  /** This coordinator's `get_condition`: `None` without data or without
      observations; otherwise the value `ConditionOf` describes. */
  function GetCondition(data: Json, unitSystem: string, field: string): (r: Py<Json>)
    ensures !Truthy(data) ==> r == Ok(JNull)
    ensures data.JObj? && (FieldObservations !in data.fields || !Truthy(data.fields[FieldObservations])) ==> r == Ok(JNull)
    ensures FirstObservation(data).Some?
            && (unitSystem !in FirstObservation(data).value || FirstObservation(data).value[unitSystem].JObj?) ==>
      r == Ok(ConditionOf(FirstObservation(data).value, unitSystem, field))
    ensures r.Raise? ==> r.exc in {KeyError, TypeError, AttributeError}
  {
    if !Truthy(data) then Ok(JNull)
    else
      var has :- Contains(data, FieldObservations);
      if !has then Ok(JNull)
      else
        var observations :- GetKey(data, FieldObservations);
        if !Truthy(observations) then Ok(JNull)
        else
          var n :- Len(observations);
          if n == 0 then Ok(JNull)
          else
            var observation :- GetIndex(observations, 0);
            if field in UnitlessFields then DictGet(observation, field, JNull)
            else
              var unitData :- DictGet(observation, unitSystem, JObj(map[]));
              var inUnits :- if Truthy(unitData) then Contains(unitData, field) else Ok(false);
              if Truthy(unitData) && inUnits then DictGet(unitData, field, JNull)
              else DictGet(observation, field, JNull)
  }

  // ---------------------------------------------------------------------------
  // The coordinator

  class Coordinator {
    const config: Config
    /** The group's stations in priority order. */
    const stations: seq<StationConfig>
    var latitude: Json
    var longitude: Json
    /** The last document of every station that has answered. */
    var stationData: map<string, CacheEntry>
    var activeStation: Option<StationConfig>
    /** The active station's document (`None` before the first success). */
    var data: Json

    constructor(config: Config, stations: seq<StationConfig>)
      ensures this.config == config
      ensures this.stations == SortByPriority(stations)
      ensures latitude == config.latitude && longitude == config.longitude
      ensures stationData == map[] && activeStation == None && data == JNull
    {
      this.config := config;
      this.stations := SortByPriority(stations);
      latitude := config.latitude;
      longitude := config.longitude;
      stationData := map[];
      activeStation := None;
      data := JNull;
    }

    /** `_fetch_station_data`: one station, with the coordinates learned on
        the way. */
    method FetchStationData(station: StationConfig, net: Network, show: Json -> string) returns (doc: Json)
      modifies this`latitude, this`longitude
      ensures var a := FetchStation(config, station, old(latitude), old(longitude), net, show);
        doc == Document(a) && latitude == a.latitude && longitude == a.longitude
    {
      var current := CurrentPayload(net(Url(config, Current, station.pwsId, latitude, longitude, show)));
      if current.Raise? {
        return JNull;
      }
      if !Truthy(longitude) {
        var lon := ObservationField(current.value, FieldLongitude);
        if lon.Raise? {
          return JNull;
        }
        longitude := lon.value;
      }
      if !Truthy(latitude) {
        var lat := ObservationField(current.value, FieldLatitude);
        if lat.Raise? {
          return JNull;
        }
        latitude := lat.value;
      }
      var forecast := ForecastPayload(net(Url(config, Forecast, station.pwsId, latitude, longitude, show)));
      if forecast.Raise? {
        return JNull;
      }
      var result := Merge(current.value, forecast.value);
      doc := if result.Ok? then result.value else JNull;
    }

    /** One pass of the first loop of `get_weather`: station `i` is fetched,
        and its document kept when it is truthy. */
    method Visit(net: Network, show: Json -> string, i: nat, successes: seq<(StationConfig, Json)>)
      returns (next: seq<(StationConfig, Json)>)
      requires i < |stations|
      modifies this`latitude, this`longitude
      ensures Resume(StationFetcher(config, net, show), stations, i, successes, old(latitude), old(longitude))
           == Resume(StationFetcher(config, net, show), stations, i + 1, next, latitude, longitude)
    {
      StationStep(config, net, show, stations, i, successes, latitude, longitude);
      var doc := FetchStationData(stations[i], net, show);
      next := successes;
      if Truthy(doc) {
        next := successes + [(stations[i], doc)];
      }
      assert next == Kept(successes, stations[i], doc);
    }

    /** The first loop of `get_weather`: every station fetched in priority
        order, the documents of those that answered collected. */
    method FetchAll(net: Network, show: Json -> string) returns (successes: seq<(StationConfig, Json)>)
      modifies this`latitude, this`longitude
      ensures var sw := SweepFrom(StationFetcher(config, net, show), stations, old(latitude), old(longitude));
        successes == sw.successes && latitude == sw.latitude && longitude == sw.longitude
    {
      ghost var fetch := StationFetcher(config, net, show);
      ghost var whole := SweepFrom(fetch, stations, latitude, longitude);
      successes := [];
      var i := 0;
      ResumeEnds(fetch, stations, [], latitude, longitude);
      while i < |stations|
        invariant 0 <= i <= |stations|
        invariant whole == Resume(fetch, stations, i, successes, latitude, longitude)
      {
        successes := Visit(net, show, i, successes);
        i := i + 1;
      }
      ResumeEnds(fetch, stations, successes, latitude, longitude);
    }

    /** The second loop of `get_weather`: every station that answered gets
        its document and the time in the cache. */
    method RecordAll(successes: seq<(StationConfig, Json)>, now: real)
      modifies this`stationData
      ensures stationData == Record(old(stationData), successes, now)
    {
      var k := 0;
      while k < |successes|
        invariant 0 <= k <= |successes|
        invariant stationData == Record(old(stationData), successes[..k], now)
      {
        assert successes[..k + 1][..k] == successes[..k];
        stationData := stationData[successes[k].0.pwsId := CacheEntry(successes[k].1, now)];
        k := k + 1;
      }
      assert successes[..k] == successes;
    }

    /** `get_weather`: every station is tried in priority order. When none
        answers, only the learned coordinates change and the result is `None`.
        Otherwise the first station that answered becomes active, its document
        becomes the data, and every station that answered is recorded in the
        cache at time `now`. */
    method GetWeather(net: Network, show: Json -> string, now: real) returns (r: Json, ghost successes: seq<(StationConfig, Json)>)
      modifies this
      ensures var sw := SweepFrom(StationFetcher(config, net, show), stations, old(latitude), old(longitude));
        successes == sw.successes && latitude == sw.latitude && longitude == sw.longitude
      ensures |successes| == 0 ==>
        r == JNull && stationData == old(stationData) && activeStation == old(activeStation) && data == old(data)
      ensures |successes| > 0 ==>
        && r == successes[0].1 && data == r
        && activeStation == Some(successes[0].0)
        && stationData == Record(old(stationData), successes, now)
    {
      var fetched := FetchAll(net, show);
      successes := fetched;
      r := Select(fetched, now);
    }

    /** The part of `get_weather` after the fetch loop: nothing changes when
        no station answered; otherwise the first success becomes active and
        its document the data, and every success is recorded. */
    method Select(successes: seq<(StationConfig, Json)>, now: real) returns (r: Json)
      modifies this`stationData, this`activeStation, this`data
      ensures |successes| == 0 ==>
        r == JNull && stationData == old(stationData) && activeStation == old(activeStation) && data == old(data)
      ensures |successes| > 0 ==>
        && r == successes[0].1 && data == r
        && activeStation == Some(successes[0].0)
        && stationData == Record(old(stationData), successes, now)
    {
      if |successes| == 0 {
        return JNull;
      }
      activeStation := Some(successes[0].0);
      RecordAll(successes, now);
      data := successes[0].1;
      r := successes[0].1;
    }

    /** `station_status` of the current state. */
    function CurrentStatus(): (r: map<string, Status>)
      reads this
      ensures r == StationStatus(stations, activeStation, stationData)
    {
      StationStatus(stations, activeStation, stationData)
    }
  }

  /** After an update in which some station answered, the first of them (the
      active station) has the lowest priority number of all that answered. */
  lemma ActiveHasLowestPriority(fetch: Fetcher, stations: seq<StationConfig>, latitude: Json, longitude: Json)
    requires SortedByPriority(stations)
    requires |SweepFrom(fetch, stations, latitude, longitude).successes| > 0
    ensures forall j :: 0 <= j < |SweepFrom(fetch, stations, latitude, longitude).successes| ==>
      SweepFrom(fetch, stations, latitude, longitude).successes[0].0.priority
        <= SweepFrom(fetch, stations, latitude, longitude).successes[j].0.priority
  {
    SweepKeepsPriorityOrder(fetch, stations, latitude, longitude);
    var s := SweepFrom(fetch, stations, latitude, longitude).successes;
    forall j | 0 < j < |s| ensures s[0].0.priority <= s[j].0.priority {
      assert Stations(s)[0] == s[0].0 && Stations(s)[j] == s[j].0;
    }
  }

  /** When the first station in priority order answers, it is the one used;
      when it does not, the update is the one the remaining stations give,
      with the coordinates its attempt left behind. */
  lemma {:induction false} FallbackToNext(fetch: Fetcher, stations: seq<StationConfig>, latitude: Json, longitude: Json)
    requires |stations| > 0
    ensures var a := fetch(stations[0], latitude, longitude);
            var sw := SweepFrom(fetch, stations, latitude, longitude);
      && (Truthy(Document(a)) ==> sw.successes[0] == (stations[0], Document(a)))
      && (!Truthy(Document(a)) ==> sw == SweepFrom(fetch, stations[1..], a.latitude, a.longitude))
  {
  }

  /** The status after an update with distinct station ids: every station that
      answered is online, stamped with the update time, and exactly the
      first of them is active. */
  lemma StatusAfterUpdate(stations: seq<StationConfig>, cache: map<string, CacheEntry>, successes: seq<(StationConfig, Json)>, now: real, j: nat)
    requires Distinct(SuccessIds(successes))
    requires j < |successes|
    requires successes[j].0 in stations
    ensures var status := StationStatus(stations, Some(successes[0].0), Record(cache, successes, now));
      && successes[j].0.pwsId in status
      && status[successes[j].0.pwsId].online
      && status[successes[j].0.pwsId].lastUpdate == Some(now)
      && (status[successes[j].0.pwsId].active <==> successes[j].0.pwsId == successes[0].0.pwsId)
  {
    RecordStoresEach(cache, successes, now, j);
    var status := StationStatus(stations, Some(successes[0].0), Record(cache, successes, now));
    var id := successes[j].0.pwsId;
    var k :| 0 <= k < |stations| && stations[k] == successes[j].0;
    assert stations[k].pwsId == id;
    assert id in status;
  }
}
