# Weather Underground PWS integration — a Dafny model

This project models the acquisition-and-selection core of the Weather
Underground personal-weather-station integration for Home Assistant, and
proves properties of that model. The core has six parts:

- **Shared coordinator logic** (`BaseCoordinator`). It covers:
  - the unit table;
  - the weather.com URL templates and the query string they produce;
  - API error checking;
  - fetching and merging the current and forecast documents;
  - the forecast accessor that halves a daypart period into a day index;
  - the icon-code classifier.
- **The single-station coordinator** (`SingleStation`). Its update learns the
  station's coordinates on a first-write-wins basis, then merges the current
  and forecast documents. Its `get_condition` reads unit-system sub-records.
- **The multi-station fallback coordinator** (`MultiStation`). Stations are
  sorted by priority (a stable sort). Every update fetches every station, in
  order. The first station that answers becomes the active one, and every
  station that answered is recorded in a per-station cache. A status map is
  built from that cache.
- **Sensor data extraction** (`Sensor`). It models:
  - the guarded lookup of a sensor's value by feature kind;
  - the unique-id and day/night naming rule;
  - the list of sensors created for an entry.
- **Weather-entity derivations** (`BaseWeather`). It models:
  - the current condition (icon first, then a solar-radiation estimate);
  - the choice of temperature fields;
  - the list of forecast periods;
  - the loops that keep only the forecast entries that have a time.
- **The multi-station config flow** (`ConfigFlow`). Stations are added one at
  a time and duplicate ids are refused. A group with no stations cannot be
  finished. The entry is created with the default options. The options form
  shows the stored options, or built-in defaults when an option is not stored.

Python's own semantics live in `PyJson`:

- JSON values are a `Json` datatype, and Python's `None` is `JNull`.
- An operation that can raise returns `Py<T>`, either `Ok(value)` or
  `Raise(exc)`.
- Subscripting, `.get`, `in`, `len`, `or`, dict merge and truthiness follow
  CPython. Each raises `KeyError`, `IndexError`, `TypeError` or
  `AttributeError` in the same cases CPython does.

`Text` holds the string helpers: join and split, integer-to-decimal, and
ASCII lower-casing.

The network is a parameter: a function from a URL to a `Reply`. A reply is a
status and an optional body, or `NoReply` for a timeout or client error. The
coordinators are classes whose methods update the same fields the source
updates:

- the single-station coordinator's latitude, longitude and `data`;
- the multi-station coordinator's latitude, longitude, station cache, active
  station and `data`.

Each method is proved against a specification function: `Fetch` for the
single-station coordinator, and `SweepFrom` and `Record` for the multi-station
one. The lemmas state the source's promises about those functions.

## Model

| member | source | states |
|---|---|---|
| BaseCoordinator.UnitsOfMeasurement | custom_components/wundergroundpws/base_coordinator.py:81-86 | Each unit is the metric one (°C, mm, km/h, mbar) if and only if the API unit code is `m`. |
| BaseCoordinator.QueryRoundTrip | custom_components/wundergroundpws/base_coordinator.py:170-180 | Splitting `path?query` back into parameters gives the parameters it was built from, provided no value contains `&` and the path has no `?`. |
| BaseCoordinator.CurrentUrlIsQuery | custom_components/wundergroundpws/base_coordinator.py:164-166 | The current-conditions URL has the form `path?stationId=..` plus `numericPrecision` only when precision is not `none`, then the shared format/apiKey/units parameters. |
| BaseCoordinator.ForecastUrlIsQuery | custom_components/wundergroundpws/base_coordinator.py:167-168 | The forecast URL has the form `path?geocode=lat,lon&language=..` followed by the shared parameters. It has no station id. |
| BaseCoordinator.UrlParams | custom_components/wundergroundpws/base_coordinator.py:162-180 | The parameters parsed from either URL are exactly the expected list: station or geocode, then precision or language where applicable, then format, apiKey and units. |
| BaseCoordinator.UrlParamNames | custom_components/wundergroundpws/base_coordinator.py:45-49 | The parameter names of the current URL are `stationId[, numericPrecision], format, apiKey, units`. Those of the forecast URL are `geocode, language, format, apiKey, units`. |
| BaseCoordinator.ResolveCoordinate | custom_components/wundergroundpws/base_coordinator.py:175-176 | An explicit coordinate is used only when truthy. Otherwise the instance attribute is used, or `''` when there is none. |
| BaseCoordinator.BuildUrl | custom_components/wundergroundpws/base_coordinator.py:162-180 | The URL is built with the resolved coordinates and a precision that defaults to `none`. |
| BaseCoordinator.MessageValues | custom_components/wundergroundpws/base_coordinator.py:156-159 | Reads `e['message']` for every error, in order. A non-dict error raises TypeError; a missing key raises KeyError. |
| BaseCoordinator.AsStrings | custom_components/wundergroundpws/base_coordinator.py:156 | `str.join` succeeds if and only if every message is a string; it then yields those strings in order. Otherwise it raises TypeError. |
| BaseCoordinator.CheckErrors | custom_components/wundergroundpws/base_coordinator.py:149-160 | On a dict, returns normally exactly when `errors` is absent or falsy. Otherwise it raises ValueError (or the KeyError/TypeError of the message comprehension). |
| BaseCoordinator.CheckErrorsReportsMessages | custom_components/wundergroundpws/base_coordinator.py:149-160 | A non-empty list of messages raises ValueError carrying exactly those messages. |
| BaseCoordinator.MessageValuesOk | custom_components/wundergroundpws/base_coordinator.py:156-159 | Errors that are all dicts with a `message` key never raise in the comprehension. |
| BaseCoordinator.ErrorTextAsWrittenDropsUrl | custom_components/wundergroundpws/base_coordinator.py:154-160 | As written, the text for a single message is that message alone; the URL is lost (finding 1). |
| BaseCoordinator.ErrorText | custom_components/wundergroundpws/base_coordinator.py:154-160 | The corrected text always starts with `Error from <url>: `. |
| BaseCoordinator.Payload | custom_components/wundergroundpws/base_coordinator.py:189-195 | A non-200 status raises `HTTP <status>`. Success requires status 200 and a non-null body, and yields that body. |
| BaseCoordinator.DaypartProbe | custom_components/wundergroundpws/base_coordinator.py:213-215 | A missing or empty `daypart` in a dict never fails the fetch. |
| BaseCoordinator.ForecastPayload | custom_components/wundergroundpws/base_coordinator.py:204-217 | The forecast succeeds only with a successful payload whose `errors` check passes, and then yields that payload. |
| BaseCoordinator.BaseCurrentPayload | custom_components/wundergroundpws/base_coordinator.py:186-197 | The current payload succeeds exactly when the payload succeeds and its `errors` check passes. |
| BaseCoordinator.CombineReplies | custom_components/wundergroundpws/base_coordinator.py:184-221 | The forecast is fetched unless `forecast_enable` is false; when it is false, the result is the current payload. Any failing step fails the whole. When the forecast is enabled and both payloads pass, the result is their merge. The merged dict lets forecast keys win, and keys only the current payload has keep its values. |
| BaseCoordinator.GetWeatherData | custom_components/wundergroundpws/base_coordinator.py:182-233 | When both requests succeed, the result is `CombineReplies` of the two replies: `{**current, **forecast}`, with forecast keys winning. When any step raises, it is `None`, so a non-200 status or no reply gives `None`. A non-null result is a dict without a truthy `errors` key. With the forecast disabled, it is the current body. |
| BaseCoordinator.MergedHasNoErrors | custom_components/wundergroundpws/base_coordinator.py:219-221 | A merged document never carries a truthy `errors` key. |
| BaseCoordinator.ObservationField | custom_components/wundergroundpws/base_coordinator.py:114 | Reads `observations[0][field]` and raises only KeyError, IndexError or TypeError. |
| BaseCoordinator.FormatUrlShape | custom_components/wundergroundpws/base_coordinator.py:164-180 | `_build_url`'s template: a URL starts with its resource path and `?`, and ends with the shared `format`/`apiKey`/`units` suffix. |
| BaseCoordinator.Learn | custom_components/wundergroundpws/multi_station_coordinator.py:188-191 | A truthy coordinate is kept; only a falsy one is read from the first observation. This is first-write-wins. |
| BaseCoordinator.GetCondition | custom_components/wundergroundpws/base_coordinator.py:104-116 | No data gives `None`. Otherwise the field is read from the first observation with `.get`, and a missing `observations` raises KeyError. |
| BaseCoordinator.HalfPeriod | custom_components/wundergroundpws/base_coordinator.py:132 | `int(period / 2)` truncates toward zero: `2d <= period <= 2d+1` for a non-negative period, mirrored for a negative one. |
| BaseCoordinator.ForecastLookupRaisesCaught | custom_components/wundergroundpws/base_coordinator.py:120-135 | Every exception the lookup can raise is one the handler catches. |
| BaseCoordinator.GetForecast | custom_components/wundergroundpws/base_coordinator.py:118-135 | No data gives `None`. Day fields are read at `data[field][period // 2]`, other fields at `daypart[0][field][period]`. A missing field gives `None`; the lookup never raises. |
| BaseCoordinator.DayFieldsIgnorePeriodParity | custom_components/wundergroundpws/base_coordinator.py:124-132 | For day fields, periods 2k and 2k+1 read the same entry. |
| BaseCoordinator.FirstMatch | custom_components/wundergroundpws/base_coordinator.py:143-145 | No condition is found if and only if no code set contains the code. A found condition's set contains the code. |
| BaseCoordinator.IconCondition | custom_components/wundergroundpws/base_coordinator.py:138-147 | `None` maps to `None`. A result names a condition whose set contains the code. An unmapped code gives `None`. |
| BaseCoordinator.IconcodeToCondition | custom_components/wundergroundpws/base_coordinator.py:138-147 | The search loop returns the condition of the first entry whose code set contains the code. |
| SingleStation.Url | custom_components/wundergroundpws/coordinator.py:127-144 | When no value contains `&`, the parameters read back from the URL are the configured station id, precision, language, key and units, and the stored coordinates as they are. |
| SingleStation.Body | custom_components/wundergroundpws/coordinator.py:94-98 | The body is read without any status check. A null body or no reply fails. |
| SingleStation.Fetch | custom_components/wundergroundpws/coordinator.py:92-119 | A failed current request or error check fails the update with the coordinates unchanged. Otherwise truthy coordinates are kept, and a falsy one becomes `observations[0][lon|lat]` of the current payload, or the update raises that lookup's exception. The escaping exceptions are only the step exceptions. |
| SingleStation.Learning | custom_components/wundergroundpws/coordinator.py:101-104 | Longitude first, then latitude: a falsy coordinate becomes the first observation's value, or its lookup raises and the coordinate stays as it was. A truthy one is kept. |
| SingleStation.Finish | custom_components/wundergroundpws/coordinator.py:106-115 | The forecast step leaves the coordinates alone. It succeeds exactly with the merge of forecast over current: a forecast that passes its error check gives that merge, and a success is always that merge. |
| SingleStation.Settle | custom_components/wundergroundpws/coordinator.py:121-124 | ValueError, timeout and client errors become `None`; every other exception escapes. |
| SingleStation.FetchSuccess | custom_components/wundergroundpws/coordinator.py:101-119 | A successful update returns the merge of the two payloads, and learns each coordinate only while it is falsy. |
| SingleStation.EscapingExceptions | custom_components/wundergroundpws/coordinator.py:92-124 | The only exceptions that escape the update's handler are KeyError, IndexError or TypeError. They come from the unguarded observation and errors lookups. |
| SingleStation.Coordinator.constructor | custom_components/wundergroundpws/coordinator.py:51-74 | The coordinator starts with the configured coordinates and no data. |
| SingleStation.Coordinator.GetWeather | custom_components/wundergroundpws/coordinator.py:86-125 | Coordinates are updated exactly as `Fetch` says. `data` becomes the merged document on success and is otherwise unchanged. The result is that document, `None` for a handled failure, or the escaping exception. |
| SingleStation.GetCondition | custom_components/wundergroundpws/coordinator.py:159-167 | Unit-less fields are the observation's value, or 0 when falsy. Other fields are read at `observations[0][unit_system][field]` without a guard. No data raises TypeError. |
| MultiStation.InsertPermutes | custom_components/wundergroundpws/multi_station_coordinator.py:70 | Insertion adds exactly the new station. |
| MultiStation.InsertSorted | custom_components/wundergroundpws/multi_station_coordinator.py:70 | Insertion keeps the list in ascending priority. |
| MultiStation.SortByPriority | custom_components/wundergroundpws/multi_station_coordinator.py:70 | The sorted list is in ascending priority and is a permutation of the configured list. |
| MultiStation.SortStable | custom_components/wundergroundpws/multi_station_coordinator.py:70 | Stations of equal priority keep their configured order. |
| MultiStation.StationUrlParams | custom_components/wundergroundpws/multi_station_coordinator.py:229-247 | When no value contains `&`, the parameters read back from a station's URL are that station's id, the configured precision, language, key and units, and the stored coordinates as they are. |
| MultiStation.ForecastUrlIgnoresStation | custom_components/wundergroundpws/multi_station_coordinator.py:229-247 | The forecast URL does not depend on the station. |
| MultiStation.ObservationsPresent | custom_components/wundergroundpws/multi_station_coordinator.py:182-183 | A document passes only when `observations` is present and truthy. |
| MultiStation.CurrentPayload | custom_components/wundergroundpws/multi_station_coordinator.py:168-185 | The current document must have status 200, be non-null, have observations and pass the `errors` check. |
| MultiStation.FetchStation | custom_components/wundergroundpws/multi_station_coordinator.py:164-227 | A station's fetch keeps truthy coordinates. A failed current request fails the fetch with the coordinates unchanged. |
| MultiStation.Learning | custom_components/wundergroundpws/multi_station_coordinator.py:188-191 | Longitude first, then latitude: a falsy coordinate becomes the first observation's value, or its lookup raises and the coordinate stays as it was. A truthy one is kept. |
| MultiStation.FetchStationLearns | custom_components/wundergroundpws/multi_station_coordinator.py:186-191 | Once the current request passes, a falsy coordinate becomes `observations[0][lon|lat]` of that payload, or the fetch raises that lookup's exception. |
| MultiStation.FetchStationSuccess | custom_components/wundergroundpws/multi_station_coordinator.py:164-215 | A successful fetch is the merge of the error-free current payload and the forecast, the forecast winning on shared keys. The forecast was requested at the coordinates the fetch ends with. |
| MultiStation.Finish | custom_components/wundergroundpws/multi_station_coordinator.py:193-215 | The forecast step leaves the coordinates alone. A forecast payload that passes gives the merge of forecast over current, and a success is always that merge. |
| MultiStation.Document | custom_components/wundergroundpws/multi_station_coordinator.py:217-227 | Any exception gives `None`; success gives the merged document. |
| MultiStation.SuccessfulDocument | custom_components/wundergroundpws/multi_station_coordinator.py:213-215 | A successful fetch yields a truthy dict without a truthy `errors` key. |
| MultiStation.SweepFrom | custom_components/wundergroundpws/multi_station_coordinator.py:133-137 | Every station is tried. At most one success per station is kept, and each kept document is truthy. |
| MultiStation.SweepKeepsSetCoordinates | custom_components/wundergroundpws/multi_station_coordinator.py:188-191 | Coordinates that are truthy before an update are unchanged after it, whichever stations answer. |
| MultiStation.SweepFromStations | custom_components/wundergroundpws/multi_station_coordinator.py:133-137 | Any property of every configured station holds of every success. |
| MultiStation.SweepSuccessesAreStations | custom_components/wundergroundpws/multi_station_coordinator.py:133-137 | Every success is a configured station. |
| MultiStation.SweepKeepsPriorityOrder | custom_components/wundergroundpws/multi_station_coordinator.py:133-137 | The successes are in ascending priority. |
| MultiStation.InsertKeepsDistinct | custom_components/wundergroundpws/multi_station_coordinator.py:70 | Inserting a station with a new id keeps ids distinct. |
| MultiStation.SortKeepsDistinct | custom_components/wundergroundpws/multi_station_coordinator.py:70 | Sorting keeps configured ids distinct. |
| MultiStation.SweepDistinct | custom_components/wundergroundpws/multi_station_coordinator.py:133-137 | With distinct configured ids, the successes have distinct ids. |
| MultiStation.Record | custom_components/wundergroundpws/multi_station_coordinator.py:153-157 | The cache gains exactly the successes' ids. Every other entry is untouched; nothing is removed. |
| MultiStation.RecordStoresEach | custom_components/wundergroundpws/multi_station_coordinator.py:153-157 | Each success's entry is replaced wholesale by its document and the update time. |
| MultiStation.StationStatus | custom_components/wundergroundpws/multi_station_coordinator.py:105-117 | There is one entry per configured station. `online` holds if and only if the id is cached. `active` holds if and only if the id is the active station's (false when there is none). `last_update` is the cached time, or `None`. `name` and `priority` are those of the last station with that id. |
| MultiStation.GetCondition | custom_components/wundergroundpws/multi_station_coordinator.py:266-306 | No data, or missing or empty observations, gives `None`. Unit-less fields are read from the observation; others from the unit sub-record when present there, else from the observation. |
| MultiStation.Coordinator.constructor | custom_components/wundergroundpws/multi_station_coordinator.py:66-91 | The stations are held sorted by priority; the cache is empty and there is no active station. |
| MultiStation.Coordinator.FetchStationData | custom_components/wundergroundpws/multi_station_coordinator.py:164-227 | The returned document and the learned coordinates are those of `FetchStation`. |
| MultiStation.Coordinator.Visit | custom_components/wundergroundpws/multi_station_coordinator.py:133-137 | One pass of the loop fetches the next station and keeps its document when truthy, leaving the rest of the sweep unchanged. |
| MultiStation.Coordinator.FetchAll | custom_components/wundergroundpws/multi_station_coordinator.py:130-142 | The loop collects exactly the sweep's successes, and leaves the sweep's coordinates. |
| MultiStation.Coordinator.RecordAll | custom_components/wundergroundpws/multi_station_coordinator.py:153-157 | The cache loop produces `Record` of the old cache. |
| MultiStation.Coordinator.Select | custom_components/wundergroundpws/multi_station_coordinator.py:144-162 | With no success, the result is `None` and the cache, active station and data are unchanged. Otherwise the first success becomes active, its document becomes `data` and the result, and the cache is `Record` of the old cache. |
| MultiStation.Coordinator.GetWeather | custom_components/wundergroundpws/multi_station_coordinator.py:123-162 | Its (ghost) successes are those of the sweep over the sorted stations, and the coordinates are the ones the sweep leaves. With no success, the result is `None` and the cache, active station and data are unchanged. Otherwise the first success becomes active, its document becomes `data` and is returned, and the cache is `Record`ed. |
| MultiStation.Coordinator.CurrentStatus | custom_components/wundergroundpws/multi_station_coordinator.py:105-117 | The status of the current state is `StationStatus` of the sorted stations, the active station and the cache. |
| MultiStation.ActiveHasLowestPriority | custom_components/wundergroundpws/multi_station_coordinator.py:148-150 | The selected station's priority is no greater than that of any other station that answered. |
| MultiStation.FallbackToNext | custom_components/wundergroundpws/multi_station_coordinator.py:133-150 | A first station that answers heads the successes. When it fails, the result is the sweep of the remaining stations, from the coordinates it left. |
| MultiStation.StatusAfterUpdate | custom_components/wundergroundpws/multi_station_coordinator.py:106-157 | After an update, every station that answered is online with the update time. It is active if and only if it is the first one that answered. |
| Sensor.SensorLookup | custom_components/wundergroundpws/sensor.py:173-209 | The lookup by feature kind raises only KeyError, IndexError, TypeError or AttributeError. |
| Sensor.BoundedIndex | custom_components/wundergroundpws/sensor.py:186-201 | Index `day` of a list only when it is below the length, else `None`. |
| Sensor.SensorData | custom_components/wundergroundpws/sensor.py:165-211 | As written: a lookup that returns gives its value; a lookup raising KeyError, IndexError or TypeError gives `None`; a lookup raising AttributeError raises it (finding 2). Nothing else escapes. |
| Sensor.SensorDataRaisesOnListObservation | custom_components/wundergroundpws/sensor.py:202-211 | A list in place of the first observation makes the observations lookup raise AttributeError. |
| Sensor.SensorValue | custom_components/wundergroundpws/sensor.py:165-211 | The corrected, total lookup: a falsy document gives `None`; each feature reads its documented path with the same emptiness and bounds guards; an unknown feature returns the whole document. |
| Sensor.SensorValueAgrees | custom_components/wundergroundpws/sensor.py:165-211 | Wherever the code as written returns, the corrected lookup returns the same value. |
| Sensor.RangeByTwoMembers | custom_components/wundergroundpws/sensor.py:90 | `range(0, 10, 2)` holds exactly the even numbers below 10. |
| Sensor.EntityName | custom_components/wundergroundpws/sensor.py:90-113 | A non-forecast name is `{pws_id}_{name}`. A daily forecast name is `{pws_id}_{name}_{day}`. A daypart name is the same followed by `d` for an even day in 0..8 and `n` otherwise. |
| Sensor.UniqueId | custom_components/wundergroundpws/sensor.py:84-110 | The id is the lower-cased `pws_id,key`, then for a forecast sensor `_`, the day's digits and `fdp` (day part) or `f` (daily). Lower-casing leaves the day and suffix as they are. |
| Sensor.UniqueIdsDistinctByDay | custom_components/wundergroundpws/sensor.py:86-107 | Two sensors of the same description on different days have different unique ids. |
| Sensor.DaypartAndDailyIdsDiffer | custom_components/wundergroundpws/sensor.py:86-107 | A daypart id (`..fdp`) never equals a daily id (`..f`). |
| Sensor.ForDays | custom_components/wundergroundpws/sensor.py:50-63 | Sensors are made for days `0..days-1` of every description, day by day. |
| Sensor.ForDaysComplete | custom_components/wundergroundpws/sensor.py:50-63 | Every (description, day) pair in range gets its sensor. |
| Sensor.SetupEntry | custom_components/wundergroundpws/sensor.py:41-65 | Plain sensors come first, one per description. When forecasts are enabled, a daily sensor follows for each day below 5 and a daypart sensor for each period below 10; otherwise no forecast sensors exist. |
| Sensor.SensorEntity.constructor | custom_components/wundergroundpws/sensor.py:74-117 | The sensor's unique id, name and initial value follow the id rule and the corrected lookup. |
| Sensor.SensorEntity.HandleCoordinatorUpdate | custom_components/wundergroundpws/sensor.py:157-162 | The value is recomputed from the new data, using the forecast day only for forecast sensors. |
| BaseWeather.CoordinatorCondition | custom_components/wundergroundpws/base_weather.py:124-129 | The single-station lookup raises only KeyError/IndexError/TypeError; the multi-station one may also raise AttributeError. |
| BaseWeather.SolarCategory | custom_components/wundergroundpws/base_weather.py:131-139 | `sunny` if and only if above 800, `partlycloudy` if and only if in (400, 800], `cloudy` if and only if at most 400. |
| BaseWeather.SolarCategoryMonotone | custom_components/wundergroundpws/base_weather.py:131-139 | More radiation never gives a darker category. |
| BaseWeather.SolarEstimate | custom_components/wundergroundpws/base_weather.py:124-141 | A missing reading gives `None`. Only IndexError or AttributeError escape the handler. |
| BaseWeather.Condition | custom_components/wundergroundpws/base_weather.py:107-122 | Uses the period-0 icon, or period 1 when that is falsy. When no non-empty condition maps, it returns the solar estimate. An IndexError escaping the estimate gives `None`, and an AttributeError propagates. It never raises on a single-station coordinator. |
| BaseWeather.TemperatureFields | custom_components/wundergroundpws/base_weather.py:143-153 | The calendar-day pair is chosen if and only if the flag is set. Both fields are day fields. |
| BaseWeather.ForecastPeriods | custom_components/wundergroundpws/base_weather.py:155-161 | There are five periods `[0,2,4,6,8]`, whose first is 1 if and only if the period-0 temperature is `None`. |
| BaseWeather.PeriodsCoverEachDay | custom_components/wundergroundpws/base_weather.py:155-161 | Period k falls on day k. |
| BaseWeather.GetForecastPeriods | custom_components/wundergroundpws/base_weather.py:155-161 | The in-place update of `periods[0]` gives `ForecastPeriods`. |
| BaseWeather.CreateEntry | custom_components/wundergroundpws/base_weather.py:163-188 | A missing `validTimeUtc` gives `None`. Condition, precipitation, precipitation probability, temperatures (the chosen pair), bearing and wind speed are each read at the period. A TypeError, ValueError or KeyError from the timestamp gives `None`; any other timestamp exception is the only one that escapes. |
| BaseWeather.CreateForecastEntry | custom_components/wundergroundpws/base_weather.py:163-188 | The wind bearing is the cardinal direction. |
| BaseWeather.CreateForecastEntryNewFormat | custom_components/wundergroundpws/base_weather.py:190-211 | The wind bearing is the numeric direction. |
| BaseWeather.Entries | custom_components/wundergroundpws/base_weather.py:213-237 | Only entries that exist are kept, in period order, so there are never more than there are periods. |
| BaseWeather.EntriesComplete | custom_components/wundergroundpws/base_weather.py:213-237 | With every time present and convertible, every period yields an entry. |
| BaseWeather.EntriesWithoutTimes | custom_components/wundergroundpws/base_weather.py:166-168 | With no times, nothing is kept. |
| BaseWeather.CollectEntries | custom_components/wundergroundpws/base_weather.py:218-224 | The append loop computes `Entries`. |
| BaseWeather.ForecastLegacy | custom_components/wundergroundpws/base_weather.py:213-224 | The legacy forecast is `Entries` over the five periods, at most 5 long. |
| BaseWeather.ForecastNew | custom_components/wundergroundpws/base_weather.py:226-237 | Same filter as the legacy forecast, but an empty result becomes `None`; a list result is between 1 and 5 long. |
| BaseWeather.EntryReadsDayTemperatures | custom_components/wundergroundpws/base_weather.py:170-178 | The entry for forecast period k reads day k's entry of the chosen maximum-temperature field. |
| ConfigFlow.SchemaPrecision | custom_components/wundergroundpws/multi_station_config_flow.py:210-213 | A submitted numeric precision is accepted if and only if it is `none` or `decimal`. When it is left out, the stored precision takes its place, or `none` when none is stored; that default passes the same `none`/`decimal` test. |
| ConfigFlow.SchemaPriority | custom_components/wundergroundpws/multi_station_config_flow.py:45 | Priority defaults to 1 and is accepted if and only if it is in 1..10. |
| ConfigFlow.OptionDefaults | custom_components/wundergroundpws/multi_station_config_flow.py:204-222 | Each stored option is shown as it is stored. An option that is not stored defaults to no coordinates, `en-US`, `none`, and false for both flags. |
| ConfigFlow.OptionsStep | custom_components/wundergroundpws/multi_station_config_flow.py:187-224 | Without input, shows the form with those defaults. With input, saves the input under an empty title. |
| ConfigFlow.OptionsMap | custom_components/wundergroundpws/multi_station_config_flow.py:161-168 | An entry stores exactly the six option keys. |
| ConfigFlow.GroupUniqueId | custom_components/wundergroundpws/multi_station_config_flow.py:76 | The group's unique id is `multi_station_` followed by the group name. |
| ConfigFlow.Entry | custom_components/wundergroundpws/multi_station_config_flow.py:146-169 | The title is `Multi-Station <group>`. The data holds the key, the group name and every station in insertion order with id, name and priority. The options are the defaults with the group's coordinates. |
| ConfigFlow.EntryStations | custom_components/wundergroundpws/multi_station_config_flow.py:152-159 | The entry's stations map back one-to-one, ids included. |
| ConfigFlow.Flow.constructor | custom_components/wundergroundpws/multi_station_config_flow.py:55-61 | The flow starts with no key, no name, no coordinates and no stations. |
| ConfigFlow.Flow.StepUser | custom_components/wundergroundpws/multi_station_config_flow.py:63-85 | Stores key, name and the optional coordinates. A group whose unique id is already configured aborts; otherwise the empty station form follows. |
| ConfigFlow.Flow.AddStation | custom_components/wundergroundpws/multi_station_config_flow.py:87-122 | A duplicate id sets `station_already_exists` and leaves the list unchanged. A new one is appended at the end and the menu follows. Ids stay distinct. |
| ConfigFlow.Flow.AddAnotherStation | custom_components/wundergroundpws/multi_station_config_flow.py:133-137 | Goes back to the empty station form; the list is unchanged. |
| ConfigFlow.Flow.FinishSetup | custom_components/wundergroundpws/multi_station_config_flow.py:139-169 | No stations aborts with `no_stations`; otherwise the entry is `Entry` of the flow's state. |
| ConfigFlow.AppendKeepsDistinct | custom_components/wundergroundpws/multi_station_config_flow.py:98-106 | Appending a station whose id is not listed keeps ids pairwise distinct. |
| ConfigFlow.EntryStationsDistinct | custom_components/wundergroundpws/multi_station_config_flow.py:152-159 | A valid flow's entry has distinct station ids. So does the coordinator's sorted list, which is what the fallback sweep's distinctness lemma needs. |

## Left out

- HTTP, `aiohttp`, timeouts and headers. A fetch is a call to the `Network` parameter, which returns a status and a parsed body, or `NoReply` for a timeout or client error. A body that fails to parse is an absent body.
- Async scheduling and the host framework's update coordinator, including its refresh bookkeeping and entity registration.
- Logging everywhere, including the URL rebuilds in the exception handlers, which only log.
- `request_feature` only adds to a set that nothing in the core reads.
- The `is_metric`, `active_station`, `group_name` and `name` properties: these are plain attribute reads or translation lookups.
- Number rendering in URLs (`str()` of a float) is a parameter, `show`. `str.format` performs no URL encoding, and the model performs none either.
- The clock is the `now` parameter of the multi-station update.
- Timestamp formatting is the `isoformat` parameter of the forecast entries.
- `generate_entity_id` is modelled only by the name it is given (`EntityName`), not by the registry's de-duplication.
- `unit_fn`, `value_fn` and `attr_fn` of the sensor descriptions: these are presentation callbacks.
- The icon map is a parameter: an ordered list of (condition, code set) pairs. The integration's constants file is not part of this model. The same goes for the option-key strings `lang`, `numeric_precision`, `calendarday_temp` and `forecast_sensors`, which stand for its constants.
- The form schemas as UI. Only the priority range and default, the precision choices and the option defaults are modelled. Coordinate validation is left out.
- `_abort_if_unique_id_configured` consults the host's registry. It is modelled by the `configured` parameter.
- Lower-casing of unique ids covers ASCII only.
- The multi-station fetch always fetches the forecast: it ignores `forecast_enable`, as the code does.
- The `except` branch of the multi-station update loop, which pops a station from the cache, cannot be reached: the station fetch catches every exception itself. The model has no such branch.
- The multi-station coordinator has no `pws_id` attribute (multi_station_coordinator.py:66-91), yet the sensor platform is set up for multi-station entries too (__init__.py:154). There, the unique-id and name expressions (sensor.py:88, 102 and 110) raise AttributeError. The sensor model takes the station id as a plain `pwsId` string and does not reproduce that failure.
- Sensor.SensorEntity.constructor and Sensor.SensorEntity.HandleCoordinatorUpdate store the corrected `SensorValue`. On the input of finding 2, the source's `__init__` and `_handle_coordinator_update` raise AttributeError instead.
- JSON numbers are `real`. Python's NaN and infinities, which its `json` module accepts, have no counterpart, so the solar-radiation thresholds are proved for finite readings only.
- BaseCoordinator.FormatUrl, MultiStation.Url: their promises are stated by the lemmas `FormatUrlShape`, `UrlParams` and `StationUrlParams` rather than by their own `ensures`, to keep the proofs that mention them small.
- MultiStation.Coordinator.GetWeather: the cache entry's `last_update` is a `real` given by `now`, not the event loop's clock. The model stamps every entry of one update with the same time, where the source reads the clock once per station inside the loop (multi_station_coordinator.py:153-157).

## Findings

| source | as written | input that shows it | evidently intended | confidence | as-written member | corrected member |
|---|---|---|---|---|---|---|
| custom_components/wundergroundpws/base_coordinator.py:154-160 | The f-string and `'; '` are adjacent literals. They concatenate, so `"Error from <url>: ; "` becomes the separator of `.join`. | One error with message `m`: the exception text is `m`, and the URL is missing. | `"Error from <url>: " + "; ".join(messages)` | not executed | BaseCoordinator.ErrorTextAsWrittenDropsUrl | BaseCoordinator.ErrorText |
| custom_components/wundergroundpws/sensor.py:202-211 | The observations branch calls `.get` on `observations[0]`. The handler catches only KeyError, IndexError and TypeError. | Document `{"observations": [[]]}` with the observations feature: `.get` on a list raises AttributeError, which escapes the handler. | The lookup never raises and gives `None` for such a document. | not executed | Sensor.SensorDataRaisesOnListObservation | Sensor.SensorValue |
