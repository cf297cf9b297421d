# Weather query core, modelled in Dafny

A desktop client lets the user pick a Chinese province (`sheng`), city and
district (`area`) from three lists filled from a static dataset, and fetches
the current weather for that place from an HTTP weather service. It comes in
two variants.

The full window (`code/AIweatherAPP_API.py`) works like this. It refuses a
query less than 3 seconds after the last accepted one. It then requires a
province and a city. Next it looks in a result cache keyed by
`sheng-city-area`, whose entries stay usable for 600 seconds. On a miss it
builds a fallback plan: the district first (if one is chosen), then the city,
then the province used as its own place. It also shows a strategy text and
starts a background worker. The worker emits simulated progress (1, 11, …,
91) and honours a cancel flag during that phase. It then tries the
candidates in order. It emits the first answer that has both `place` and
`temperature`, stamped with `query_level = sheng/place`; when every
candidate fails, it emits only the last candidate's error. Progress 100 is
always emitted last. The window stores the emitted data in the cache.

The minimal window (`code/weatherAPP_API.py`) makes one request for the
district, or else the city. It has no fallback, cache or rate limit, and
every failure ends in one generic dialog.

Files:
- `wrappers.dfy`: `Option` and `Result`.
- `catalog.dfy`: module `Catalog`. It holds the dataset, the list lookups as
  functions, their properties, and the nested loops that both windows run.
- `worker.dfy`: module `Worker`. It holds the one-candidate attempt, the
  fallback loop as a specification, its properties, and the `WeatherWorker`
  class.
- `weather_app.dfy`: module `WeatherApp`. It holds the rate limit, selection
  check, cache, plan and strategy text, the full window's list lookups, and
  the `WeatherApp` class with its query, cache and cancel methods.
- `simple_app.dfy`: module `SimpleWeather`, the minimal window.

Modelling choices:
- The HTTP exchange is an oracle. For each fetched candidate, a `Response` is
  either `Failed(reason)` or `Payload(body, receivedAt)`. `Failed` stands for
  any exception from the request, its 10-second timeout, the status check or
  JSON decoding. In `Payload`, the JSON values appear by their text.
- The clock read by the query button (`time.time()`, `datetime.now()`) is a
  `real` number of seconds. The stamp the worker puts on its data is whole
  seconds, because it is formatted to the second. The rate limit therefore
  compares two fractional readings, and the cache age is a fractional reading
  minus a whole-second stamp.
- The query button is disabled while a query runs and enabled again when the
  query ends or is cancelled. A disabled button delivers no press, so
  `WeatherInfoReturn` requires the button to be enabled.
- The user's cancel reaches the worker from another thread. This is the
  `cancelArrivesAt` parameter of `WeatherWorker.Run`: the step of the
  simulated phase before whose check the flag is found set.
- The worker's signals are recorded in its `emitted` field. Its outbound
  requests are recorded in `requested`.

Behaviour of the code that the model keeps, though a reader might expect otherwise:
- The cancel flag is looked at only in the simulated progress phase, never
  between candidates. A cancel that arrives later does not stop the data
  from being emitted (`Worker.RunEventsShape`, `Worker.StopStep`).
- A second query is kept from starting only by the disabled query button
  (code/AIweatherAPP_API.py:515).
- `query_level` is `sheng/place`, not a tier label.
- A cache entry's age is measured from the worker's `timestamp` stamp, that
  is, from when the response arrived, not from when it was stored.

## Model

| member | source | states |
|---|---|---|
| `Catalog.ProvinceReturn` | code/AIweatherAPP_API.py:653-656 | The province list has one name per dataset entry, in dataset order (same code at code/weatherAPP_API.py:118-120). |
| `Catalog.CollectCities` | code/AIweatherAPP_API.py:666-671 | The nested loop yields `CitiesOf(data, province)`: the cities of every entry of that province, concatenated in dataset order. |
| `Catalog.CollectCityAreas` | code/AIweatherAPP_API.py:684-687 | The inner two loops yield `AreasInCities(citys, city)`: the districts of every city entry of that name, in order. |
| `Catalog.CollectAreas` | code/AIweatherAPP_API.py:681-688 | The triple loop yields `AreasOf(data, province, city)`: the districts of every matching (province, city) pair, in dataset order. |
| `Catalog.CitiesOfConcat` | code/AIweatherAPP_API.py:667-670 | Splitting the dataset splits the city list: the lookup is an order-preserving concatenation. |
| `Catalog.CitiesOfMember` | code/AIweatherAPP_API.py:666-670 | A city is offered if and only if some entry of the chosen province lists it. |
| `Catalog.CitiesOfUnknown` | code/weatherAPP_API.py:125-130 | When no entry has the chosen province, no city is added after the placeholder. |
| `Catalog.CitiesOfUnique` | code/AIweatherAPP_API.py:667-670 | With unique province names, the list is exactly the matching entry's cities, in its order. |
| `Catalog.AreasOfConcat` | code/AIweatherAPP_API.py:682-687 | Splitting the dataset splits the district list. |
| `Catalog.AreasInCitiesMember` | code/AIweatherAPP_API.py:684-687 | Within one province, a district is offered if and only if a city entry of the chosen name lists it. |
| `Catalog.AreasOfMember` | code/AIweatherAPP_API.py:681-688 | A district is offered if and only if some (chosen province, chosen city) entry lists it. |
| `Worker.WeatherWorker.constructor` | code/AIweatherAPP_API.py:36-45 | A new worker holds the candidate list, has its cancel flag down, and has emitted and requested nothing. |
| `Worker.WeatherWorker.Cancel` | code/AIweatherAPP_API.py:104-106 | Cancelling raises the flag and changes nothing else. |
| `Worker.WeatherWorker.Run` | code/AIweatherAPP_API.py:47-102 | A run emits exactly `RunEvents` and fetches exactly `RunRequests` for the step at which it finds the flag set. The flag ends raised if and only if it was raised or the cancel landed during the simulated phase. |
| `Worker.OutcomeFrom` | code/AIweatherAPP_API.py:59-95 | A fallback loop that finds data has fetched between one and all remaining candidates; one that runs out after trying any candidate has an error recorded. |
| `Worker.StopStep` | code/AIweatherAPP_API.py:53-55 | The step at which the flag is seen never exceeds the ten simulated steps; a cancel arriving later is never looked at. |
| `Worker.OutcomeFromFound` | code/AIweatherAPP_API.py:62-84 | Data found by the loop is the attempt of the last fetched candidate, and every earlier candidate failed. |
| `Worker.OutcomeFromFirstSuccess` | code/AIweatherAPP_API.py:62-84 | The first candidate that answers usably ends the loop with its data. |
| `Worker.OutcomeFromAllFail` | code/AIweatherAPP_API.py:86-95 | When all remaining candidates fail, the loop ends with the last candidate's message (or the one carried in, if none remain). |
| `Worker.FirstSuccessStops` | code/AIweatherAPP_API.py:62-84 | With candidate k the first usable answer, the run emits ramp, that payload stamped `sheng/place` with its arrival time, then 100, and fetches only candidates 0..k. |
| `Worker.FoundIsFirstSuccess` | code/AIweatherAPP_API.py:75-84 | Conversely, emitted data always comes from the first usable candidate and carries that candidate's `query_level`. |
| `Worker.LastErrorWins` | code/AIweatherAPP_API.py:86-98 | When all candidates fail, every one is fetched and exactly one error is emitted: `查询 {place} 失败: {detail}` of the last candidate. |
| `Worker.EmptyListEmitsNothing` | code/AIweatherAPP_API.py:96-98 | An empty candidate list emits no error and no data, only the ramp and 100. |
| `Worker.RunEventsShape` | code/AIweatherAPP_API.py:51-102 | Progress values strictly increase and 100 is always last. At most one result signal is emitted, just before the 100. A run stopped in the simulated phase fetches nothing and emits no result. |
| `WeatherApp.PlanShape` | code/AIweatherAPP_API.py:493-509 | For an accepted selection, the plan has 3 candidates if a district is chosen and 2 otherwise. The district comes first exactly when chosen, then the city, then `(sheng, sheng)`. Every candidate has province `sheng`. Each strategy label names its candidate's tier and place. |
| `WeatherApp.StrategyTextShape` | code/AIweatherAPP_API.py:494-512 | The strategy text is the tier labels joined by ` → ` in plan order, spelled out for both plan lengths. |
| `WeatherApp.CachePutThenLookup` | code/AIweatherAPP_API.py:553 | A stored result is found again under its key while it is fresh. Storing changes no lookup under another key. |
| `WeatherApp.CacheExpiry` | code/AIweatherAPP_API.py:480-491 | A stored entry is a miss if and only if it is 600 seconds old or older; the expired entry stays stored. |
| `WeatherApp.CacheKeyInjective` | code/AIweatherAPP_API.py:478 | If province and city names contain no dash, two selections share a key only when all three parts are equal. |
| `WeatherApp.CacheKeyCollision` | code/AIweatherAPP_API.py:478 | Without dash-free names, different selections can share a key. |
| `WeatherApp.CityReturn` | code/AIweatherAPP_API.py:658-671 | The city list is `--市区--` followed by the chosen province's cities; nothing follows when the province is the placeholder. |
| `WeatherApp.AreaReturn` | code/AIweatherAPP_API.py:673-696 | The district list is `--区域--` followed by the chosen pair's districts. It is disabled exactly when there are none, and left as it was when the city is the placeholder. |
| `WeatherApp.CityPlaceholderGuardRedundant` | code/AIweatherAPP_API.py:663-664 | Unless the dataset has a province named `--省份--`, the early return does not change the city list. |
| `WeatherApp.FractionalPressRefused` | code/AIweatherAPP_API.py:462-463 | The rate limit compares fractional readings: a press 2.2 seconds after the last accepted one is refused. |
| `WeatherApp.WeatherApp.constructor` | code/AIweatherAPP_API.py:130-149 | A new window has an empty cache, a count of 0, no worker, an enabled query button, and `last_request_time` 0. |
| `WeatherApp.WeatherApp.WeatherInfoReturn` | code/AIweatherAPP_API.py:458-537 | The rate limit comes first, then the selection check, then the cache. A live cache entry is shown. Otherwise a fresh worker gets `QueryPlan`, the strategy text is set and the query button is disabled. `last_request_time` becomes `now` only when a worker starts. The cache never changes here. |
| `WeatherApp.WeatherApp.CleanupAfterQuery` | code/AIweatherAPP_API.py:600-622 | At the end of a query the worker reference is cleared and the query button is enabled again. |
| `WeatherApp.WeatherApp.HandleWeatherData` | code/AIweatherAPP_API.py:539-554 | The data is stored under the key, replacing any earlier entry; other keys are unchanged; the shown count equals the number of keys. |
| `WeatherApp.WeatherApp.ClearCache` | code/AIweatherAPP_API.py:632-635 | The cache is emptied and the shown count is 0. |
| `WeatherApp.WeatherApp.UpdateCacheStatus` | code/AIweatherAPP_API.py:638-641 | The shown count equals the number of cached keys. |
| `WeatherApp.WeatherApp.CancelQuery` | code/AIweatherAPP_API.py:624-630 | With a worker, its flag is raised, the window forgets it and the query button is enabled again. Nothing it emitted or fetched is undone. |
| `WeatherApp.TwoQueriesTooClose` | code/AIweatherAPP_API.py:461-465 | A valid query starts a worker that finishes and is cleaned up. A second press under 3 seconds after the first is refused as too frequent. |
| `WeatherApp.FetchThenCacheHit` | code/AIweatherAPP_API.py:478-491 | The first candidate answers, the worker's data is cached and the query is cleaned up. Asking again later, while fresh, shows exactly that data. |
| `SimpleWeather.SingleShotIsFirstCandidate` | code/weatherAPP_API.py:95-98 | With a real city chosen, the minimal window's single request asks for the same place as the full window's first candidate. |
| `SimpleWeather.NoPlaceIffPlaceholders` | code/weatherAPP_API.py:95-101 | No place is chosen exactly when both lists show their placeholders. |
| `SimpleWeather.SimpleWeatherApp.constructor` | code/weatherAPP_API.py:39-40 | `button_signal` starts set and nothing has been requested. |
| `SimpleWeather.SimpleWeatherApp.WeatherInfoReturn` | code/weatherAPP_API.py:91-116 | Without a place, `button_signal` is cleared, no request is sent and the failure dialog is shown. Otherwise exactly one request for `(sheng, place)` is sent. The data is displayed only if the answer has all seven entries; anything else shows the dialog. |
| `SimpleWeather.CityReturn` | code/weatherAPP_API.py:122-130 | The city list is `--市区-` followed by the chosen province's cities; only the placeholder if none match. |
| `SimpleWeather.AreaReturn` | code/weatherAPP_API.py:132-142 | The district list is `--区域--` followed by the chosen pair's districts. |

## Left out
- Widgets, layouts, style sheets, dialogs, labels other than the strategy text and cache count, and `display_weather`: these are presentation only.
- Icon loading and lookup (`preload_weather_icons`, `list_png_files`): these are file-system and toolkit calls.
- The HTTP request, its timeout, `raise_for_status` and JSON decoding: these are replaced by the `Response` oracle.
- Loading the dataset file at start-up: the dataset is a given value.
- Thread start, signal wiring, `deleteLater`, `time.sleep`, and `cleanup_after_query`'s quit/wait and loading indicator: these are concurrency and toolkit plumbing. `CleanupAfterQuery` models its effect on the worker reference and the query button; the cancel button's enabled state is not modelled.
- `handle_weather_data` rebuilds the key from the lists' current text. The model passes the key explicitly, so a selection changed mid-query is not modelled.
- `datetime` formatting and parsing: replaced by integer seconds.
- `handle_error`, `update_progress`, `show_loading_indicator`: presentation only.
- `SimpleWeather.SimpleWeatherApp.WeatherInfoReturn`: does not model labels that are already updated when a later entry is missing, nor the icon loop.
- `Worker.WeatherWorker.Run`: does not model a cancel that lands after the simulated phase. Such a cancel sets the flag, which the run never reads again.
