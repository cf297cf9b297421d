/** The query logic of the full application window: the rate limiter, the
    selection check, the result cache and the fallback planner that hands a
    candidate list to a new worker; and the selection lists it fills. */
module WeatherApp {
  import opened Wrappers
  import opened Worker
  import Catalog

  /** The placeholder entries at the top of the three selection lists. */
  const ProvincePlaceholder: string := "--省份--"
  const CityPlaceholder: string := "--市区--"
  const AreaPlaceholder: string := "--区域--"

  /** Minimum number of seconds between two accepted queries. */
  const MinRequestInterval: real := 3.0
  /** Number of seconds a cached result stays usable. */
  const CacheTtl: real := 600.0

  /** The dialogs shown when a query is refused. */
  const TooFrequent: string := "请求过于频繁，请稍后再试"
  const NeedProvinceAndCity: string := "请至少选择省份和城市"

  /** The strategy label and the separator between its tiers. */
  const StrategyPrefix: string := "查询策略: "
  const Arrow: string := " → "
  const CountyTier: string := "县级: "
  const CityTier: string := "市级: "
  const ProvinceTier: string := "省级: "

  // ---------------------------------------------------------------------------
  // Rate limit, selection check and cache
  // ---------------------------------------------------------------------------

  /** A query is refused when fewer than `MinRequestInterval` seconds have passed
      (both readings are the fractional clock, in seconds). */
  predicate RateLimited(now: real, lastRequestTime: real)
  {
    now - lastRequestTime < MinRequestInterval
  }

  /** A query needs a province and a city. */
  predicate ValidSelection(sheng: string, city: string)
  {
    sheng != ProvincePlaceholder && city != CityPlaceholder
  }

  /** The cache key of a selection; the area placeholder is part of it. */
  function CacheKey(sheng: string, city: string, area: string): (r: string)
  {
    sheng + "-" + city + "-" + area
  }

  /** A cache lookup at the fractional clock reading `now`: present and younger
      than the time-to-live, measured from the entry's whole-second stamp, else a
      miss. An expired entry stays in the map. */
  function CacheLookup(cache: map<string, WeatherData>, key: string, now: real): (r: Option<WeatherData>)
  {
    if key in cache && now - cache[key].timestamp as real < CacheTtl then Some(cache[key]) else None
  }

  // ---------------------------------------------------------------------------
  // The fallback plan and its strategy text
  // ---------------------------------------------------------------------------

  /** The candidates to try, most specific first. */
  function QueryPlan(sheng: string, city: string, area: string): (r: seq<Candidate>)
  {
    (if area != AreaPlaceholder then [Candidate(sheng, area)] else [])
    + (if city != CityPlaceholder then [Candidate(sheng, city)] else [])
    + [Candidate(sheng, sheng)]
  }

  /** One strategy label per candidate, in the same order. */
  function StrategyLabels(sheng: string, city: string, area: string): (r: seq<string>)
  {
    (if area != AreaPlaceholder then [CountyTier + area] else [])
    + (if city != CityPlaceholder then [CityTier + city] else [])
    + [ProvinceTier + sheng]
  }

  /** The parts joined by `sep`, as Python's `str.join` does. */
  function Join(parts: seq<string>, sep: string): (r: string)
  {
    if parts == [] then ""
    else if |parts| == 1 then parts[0]
    else parts[0] + sep + Join(parts[1..], sep)
  }

  /** The text of the strategy label. */
  function StrategyText(sheng: string, city: string, area: string): (r: string)
  {
    StrategyPrefix + Join(StrategyLabels(sheng, city, area), Arrow)
  }

  /** The tier name that goes with the candidate at position `i` of a plan of length `n`. */
  function TierAt(i: nat, n: nat): (r: string)
  {
    if i + 1 == n then ProvinceTier else if i + 2 == n then CityTier else CountyTier
  }

  /** The plan of an accepted selection: a district candidate first exactly when
      a district is chosen, then the city, then the province as its own place;
      every candidate carries the selected province, and each strategy label
      names its candidate's tier and place. */
  lemma PlanShape(sheng: string, city: string, area: string)
    requires ValidSelection(sheng, city)
    ensures var plan := QueryPlan(sheng, city, area);
      var labels := StrategyLabels(sheng, city, area);
      |plan| == (if area != AreaPlaceholder then 3 else 2) &&
      (area != AreaPlaceholder <==> |plan| == 3 && plan[0] == Candidate(sheng, area)) &&
      plan[|plan| - 2] == Candidate(sheng, city) &&
      plan[|plan| - 1] == Candidate(sheng, sheng) &&
      (forall i :: 0 <= i < |plan| ==> plan[i].sheng == sheng) &&
      |labels| == |plan| &&
      (forall i :: 0 <= i < |plan| ==> labels[i] == TierAt(i, |plan|) + plan[i].place)
  {
  }

  /** The strategy text, spelled out for both plan lengths. */
  lemma StrategyTextShape(sheng: string, city: string, area: string)
    requires ValidSelection(sheng, city)
    ensures area != AreaPlaceholder ==>
      StrategyText(sheng, city, area) ==
        StrategyPrefix + CountyTier + area + Arrow + CityTier + city + Arrow + ProvinceTier + sheng
    ensures area == AreaPlaceholder ==>
      StrategyText(sheng, city, area) == StrategyPrefix + CityTier + city + Arrow + ProvinceTier + sheng
  {
    var labels := StrategyLabels(sheng, city, area);
    if area != AreaPlaceholder {
      assert labels[1..][1..] == [ProvinceTier + sheng];
      assert Join(labels[1..], Arrow) == CityTier + city + Arrow + ProvinceTier + sheng;
    } else {
      assert labels[1..] == [ProvinceTier + sheng];
      assert Join(labels, Arrow) == (CityTier + city) + Arrow + (ProvinceTier + sheng);
    }
  }

  /** The refusal compares fractional clock readings: a press 2.2 seconds after
      the last accepted one is refused even though the whole seconds differ by 3. */
  lemma FractionalPressRefused()
    ensures RateLimited(13.1, 10.9) && 13 - 10 >= 3
  {
  }

  // ---------------------------------------------------------------------------
  // Cache properties
  // ---------------------------------------------------------------------------

  /** A stored result is found again under its key while it is fresh; storing
      changes no lookup under any other key. */
  lemma CachePutThenLookup(cache: map<string, WeatherData>, key: string, d: WeatherData, now: real, other: string)
    requires now - d.timestamp as real < CacheTtl
    requires other != key
    ensures CacheLookup(cache[key := d], key, now) == Some(d)
    ensures CacheLookup(cache[key := d], other, now) == CacheLookup(cache, other, now)
  {
  }

  /** An entry `CacheTtl` seconds old or older is a miss, though it stays stored;
      one younger than that is a hit. */
  lemma CacheExpiry(cache: map<string, WeatherData>, key: string, now: real)
    requires key in cache
    ensures CacheLookup(cache, key, now).None? <==> now - cache[key].timestamp as real >= CacheTtl
  {
  }

  /** Dash-free prefixes split a dash-joined string uniquely. */
  lemma SplitAtDash(x: string, y: string, x': string, y': string)
    requires '-' !in x && '-' !in x'
    requires x + "-" + y == x' + "-" + y'
    ensures x == x' && y == y'
  {
    var s := x + "-" + y;
    assert forall k :: 0 <= k < |x| ==> s[k] == x[k];
    assert forall k :: 0 <= k < |x'| ==> s[k] == x'[k];
    assert s[|x|] == '-' && s[|x'|] == '-';
    assert |x| == |x'|;
    assert x == s[..|x|] && x' == s[..|x'|];
    assert y == s[|x| + 1..] && y' == s[|x'| + 1..];
  }

  /** Two selections share a cache key only when all three parts are equal,
      provided province and city names contain no dash. */
  lemma CacheKeyInjective(sheng: string, city: string, area: string, sheng': string, city': string, area': string)
    requires '-' !in sheng && '-' !in city && '-' !in sheng' && '-' !in city'
    requires CacheKey(sheng, city, area) == CacheKey(sheng', city', area')
    ensures sheng == sheng' && city == city' && area == area'
  {
    assert CacheKey(sheng, city, area) == sheng + "-" + (city + "-" + area);
    assert CacheKey(sheng', city', area') == sheng' + "-" + (city' + "-" + area');
    SplitAtDash(sheng, city + "-" + area, sheng', city' + "-" + area');
    SplitAtDash(city, area, city', area');
  }

  /** Without that proviso two different selections can collide. */
  lemma CacheKeyCollision()
    ensures CacheKey("a-b", "c", "d") == CacheKey("a", "b-c", "d")
  {
  }

  // ---------------------------------------------------------------------------
  // The selection lists of the full application
  // ---------------------------------------------------------------------------

  /** The city list: the placeholder, then (unless no province is chosen) every
      city of the chosen province, in dataset order. */
  method CityReturn(data: Catalog.Dataset, currentProvince: string) returns (items: seq<string>)
    ensures items == [CityPlaceholder] +
      (if currentProvince == ProvincePlaceholder then [] else Catalog.CitiesOf(data, currentProvince))
  {
    items := [CityPlaceholder];
    if currentProvince == ProvincePlaceholder {
      return;
    }
    var cityList := Catalog.CollectCities(data, currentProvince);
    items := items + cityList;
  }

  /** The district list: the placeholder, then (unless no city is chosen) every
      district of the chosen province and city. `enabled` is the new enabled state
      of the list: off when there is no district, untouched (`None`) when no city
      is chosen. */
  method AreaReturn(data: Catalog.Dataset, currentProvince: string, currentCity: string)
    returns (items: seq<string>, enabled: Option<bool>)
    ensures items == [AreaPlaceholder] +
      (if currentCity == CityPlaceholder then [] else Catalog.AreasOf(data, currentProvince, currentCity))
    ensures enabled == if currentCity == CityPlaceholder then None
      else Some(Catalog.AreasOf(data, currentProvince, currentCity) != [])
  {
    items := [AreaPlaceholder];
    enabled := None;
    if currentCity == CityPlaceholder {
      return;
    }
    var areaList := Catalog.CollectAreas(data, currentProvince, currentCity);
    items := items + areaList;
    enabled := Some(|areaList| != 0);
  }

  /** Unless the dataset itself has a province named like the placeholder, the
      early return in `CityReturn` changes nothing: the list is the placeholder
      followed by the chosen province's cities in every case. */
  lemma CityPlaceholderGuardRedundant(data: Catalog.Dataset, currentProvince: string)
    requires forall i :: 0 <= i < |data| ==> data[i].province != ProvincePlaceholder
    ensures (if currentProvince == ProvincePlaceholder then [] else Catalog.CitiesOf(data, currentProvince))
      == Catalog.CitiesOf(data, currentProvince)
  {
    if currentProvince == ProvincePlaceholder {
      Catalog.CitiesOfUnknown(data, currentProvince);
    }
  }

  // ---------------------------------------------------------------------------
  // The application window's query state
  // ---------------------------------------------------------------------------

  /** What a press of the query button leads to. */
  datatype QueryOutcome =
    | Dialog(message: string)
    | ShowCached(data: WeatherData)
    | Started(cacheKey: string)

  /** The query state of the application window: the result cache, the time of
      the last accepted query, the worker of the query in progress, whether the
      query button is enabled, and what the strategy and cache-status labels show. */
  class WeatherApp {
    var weatherCache: map<string, WeatherData>
    var lastRequestTime: real
    var worker: WeatherWorker?
    var queryButtonEnabled: bool
    var queryStrategyText: string
    var cacheCount: nat

    constructor()
      ensures weatherCache == map[] && cacheCount == 0
      ensures lastRequestTime == 0.0 && worker == null && queryButtonEnabled
      ensures queryStrategyText == StrategyPrefix + "等待查询"
    {
      weatherCache := map[];
      cacheCount := 0;
      worker := null;
      queryButtonEnabled := true;
      queryStrategyText := StrategyPrefix + "等待查询";
      lastRequestTime := 0.0;
    }

    /** A press of the query button at clock reading `now` (seconds, fractional)
        with the given selection; a disabled button delivers no press. The rate
        limit comes first, then the selection check, then the cache; only when a
        worker is started does `lastRequestTime` move, and the button is then
        disabled until the query is cleaned up. */
    method WeatherInfoReturn(now: real, sheng: string, city: string, area: string) returns (outcome: QueryOutcome)
      requires queryButtonEnabled
      modifies this`lastRequestTime, this`worker, this`queryStrategyText, this`queryButtonEnabled
      ensures RateLimited(now, old(lastRequestTime)) ==> outcome == Dialog(TooFrequent)
      ensures !RateLimited(now, old(lastRequestTime)) && !ValidSelection(sheng, city) ==>
        outcome == Dialog(NeedProvinceAndCity)
      ensures !RateLimited(now, old(lastRequestTime)) && ValidSelection(sheng, city) ==>
        match CacheLookup(weatherCache, CacheKey(sheng, city, area), now)
        case Some(d) => outcome == ShowCached(d)
        case None => outcome == Started(CacheKey(sheng, city, area))
      ensures outcome.Started? ==>
        && lastRequestTime == now
        && fresh(worker)
        && worker.queryList == QueryPlan(sheng, city, area)
        && !worker.canceled && worker.emitted == [] && worker.requested == []
        && queryStrategyText == StrategyText(sheng, city, area)
        && !queryButtonEnabled
      ensures !outcome.Started? ==>
        && lastRequestTime == old(lastRequestTime)
        && worker == old(worker)
        && queryStrategyText == old(queryStrategyText)
        && queryButtonEnabled
    {
      var currentTime := now;
      if currentTime - lastRequestTime < MinRequestInterval {
        return Dialog(TooFrequent);
      }

      if sheng == ProvincePlaceholder || city == CityPlaceholder {
        return Dialog(NeedProvinceAndCity);
      }

      var cacheKey := sheng + "-" + city + "-" + area;
      if cacheKey in weatherCache {
        var cachedData := weatherCache[cacheKey];
        if currentTime - cachedData.timestamp as real < CacheTtl {
          return ShowCached(cachedData);
        }
      }

      var queryList: seq<Candidate> := [];
      var queryStrategy: seq<string> := [];
      if area != AreaPlaceholder {
        queryList := queryList + [Candidate(sheng, area)];
        queryStrategy := queryStrategy + [CountyTier + area];
      }
      if city != CityPlaceholder {
        queryList := queryList + [Candidate(sheng, city)];
        queryStrategy := queryStrategy + [CityTier + city];
      }
      queryList := queryList + [Candidate(sheng, sheng)];
      queryStrategy := queryStrategy + [ProvinceTier + sheng];

      assert queryStrategy == StrategyLabels(sheng, city, area);
      queryStrategyText := StrategyPrefix + Join(queryStrategy, Arrow);
      queryButtonEnabled := false;

      worker := new WeatherWorker(queryList);
      lastRequestTime := currentTime;
      outcome := Started(cacheKey);
    }

    /** The worker's data arrives: store it under the selection's key, replacing
        any earlier entry, and refresh the cache-status count. */
    method HandleWeatherData(cacheKey: string, data: WeatherData)
      modifies this`weatherCache, this`cacheCount
      ensures weatherCache == old(weatherCache)[cacheKey := data]
      ensures cacheCount == |weatherCache|
    {
      weatherCache := weatherCache[cacheKey := data];
      UpdateCacheStatus();
    }

    /** Empty the cache and refresh the cache-status count. */
    method ClearCache()
      modifies this`weatherCache, this`cacheCount
      ensures weatherCache == map[] && cacheCount == 0
    {
      weatherCache := map[];
      UpdateCacheStatus();
    }

    /** The cache-status label shows the number of cached keys. */
    method UpdateCacheStatus()
      modifies this`cacheCount
      ensures cacheCount == |weatherCache|
    {
      cacheCount := |weatherCache|;
    }

    /** The end of a query (its data or its error arrived, or it was cancelled):
        forget the worker and enable the query button again. */
    method CleanupAfterQuery()
      modifies this`worker, this`queryButtonEnabled
      ensures worker == null && queryButtonEnabled
    {
      worker := null;
      queryButtonEnabled := true;
    }

    /** The cancel button: raise the running worker's flag and clean up. */
    method CancelQuery()
      modifies this`worker, this`queryButtonEnabled, worker
      ensures old(worker) != null ==> old(worker).canceled && worker == null && queryButtonEnabled
      ensures old(worker) != null ==>
        old(worker).emitted == old(worker.emitted) && old(worker).requested == old(worker.requested)
      ensures old(worker) == null ==> worker == null && queryButtonEnabled == old(queryButtonEnabled)
    {
      if worker != null {
        worker.Cancel();
        CleanupAfterQuery();
      }
    }
  }

  // ---------------------------------------------------------------------------
  // Scenarios over the whole window
  // ---------------------------------------------------------------------------

  /** A query that ends quickly, and a second press less than
      `MinRequestInterval` seconds after the first: the first starts a worker,
      its data is cached and the query cleaned up, and the second press is
      refused before anything else is looked at. */
  method TwoQueriesTooClose(t: real, sheng: string, city: string, area: string,
                            responses: seq<Response>, dt: real)
    returns (first: QueryOutcome, second: QueryOutcome)
    requires t >= MinRequestInterval && 0.0 <= dt < MinRequestInterval
    requires ValidSelection(sheng, city)
    requires |responses| == |QueryPlan(sheng, city, area)|
    ensures first == Started(CacheKey(sheng, city, area))
    ensures second == Dialog(TooFrequent)
  {
    var app := new WeatherApp();
    first := app.WeatherInfoReturn(t, sheng, city, area);
    var w := app.worker;
    w.Run(responses, RampSteps);
    var o := Outcome(w.queryList, responses);
    if o.Found? {
      app.HandleWeatherData(first.cacheKey, o.data);
    }
    app.CleanupAfterQuery();
    second := app.WeatherInfoReturn(t + dt, sheng, city, area);
  }

  /** A query whose first candidate answers: the worker's data is cached under the
      selection's key and the query cleaned up, and asking again at least
      `MinRequestInterval` seconds later, while the entry is fresh, shows the
      cached data without starting a worker or moving `lastRequestTime`. */
  method FetchThenCacheHit(t: real, sheng: string, city: string, area: string,
                           responses: seq<Response>, dt: real)
    returns (second: QueryOutcome, data: WeatherData)
    requires t >= MinRequestInterval && MinRequestInterval <= dt
    requires ValidSelection(sheng, city)
    requires |responses| == |QueryPlan(sheng, city, area)|
    requires responses[0].Payload? && Usable(responses[0].body)
    requires t + dt - responses[0].receivedAt as real < CacheTtl
    ensures data == WeatherData(responses[0].body, responses[0].receivedAt, QueryLevel(QueryPlan(sheng, city, area)[0]))
    ensures second == ShowCached(data)
  {
    var app := new WeatherApp();
    var first := app.WeatherInfoReturn(t, sheng, city, area);
    var w := app.worker;
    assert w != null && w.queryList == QueryPlan(sheng, city, area);
    w.Run(responses, RampSteps);
    FirstSuccessStops(w.queryList, responses, 0);
    data := WeatherData(responses[0].body, responses[0].receivedAt, QueryLevel(w.queryList[0]));
    assert Finished(data) in w.emitted;
    app.HandleWeatherData(first.cacheKey, data);
    app.CleanupAfterQuery();
    second := app.WeatherInfoReturn(t + dt, sheng, city, area);
    assert app.lastRequestTime == t;
  }
}
