/** The minimal application window: one request for the most specific place
    chosen, no fallback, no rate limit, no cache, and one generic failure dialog. */
module SimpleWeather {
  import opened Wrappers
  import opened Worker
  import Catalog
  import WeatherApp

  /** The placeholders of this window's city and district lists (the city one has
      a single trailing dash here). */
  const CityPlaceholder: string := "--市区-"
  const AreaPlaceholder: string := "--区域--"

  /** A payload the window can display in full: it has every entry the window
      reads. */
  predicate Displayable(body: map<string, string>)
  {
    && "place" in body && "temperature" in body
    && "weather1" in body && "weather2" in body
    && "humidity" in body && "windScale" in body && "windSpeed" in body
  }

  /** The place the window asks for: the district when one is chosen, else the
      city when one is chosen, else none. */
  function SelectPlace(city: string, area: string): (r: Option<string>)
  {
    if area != AreaPlaceholder then Some(area)
    else if city != CityPlaceholder then Some(city)
    else None
  }

  /** The single request of this window asks for the same place as the first,
      most specific, candidate of the full window's plan, whenever a real city is
      chosen (the two windows spell the city placeholder differently). */
  lemma SingleShotIsFirstCandidate(sheng: string, city: string, area: string)
    requires WeatherApp.ValidSelection(sheng, city) && city != CityPlaceholder
    ensures SelectPlace(city, area) == Some(WeatherApp.QueryPlan(sheng, city, area)[0].place)
    ensures WeatherApp.QueryPlan(sheng, city, area)[0].sheng == sheng
  {
  }

  /** No request is made exactly when both lists show their placeholder. */
  lemma NoPlaceIffPlaceholders(city: string, area: string)
    ensures SelectPlace(city, area).None? <==> city == CityPlaceholder && area == AreaPlaceholder
  {
  }

  /** What a press of the query button shows. */
  datatype SimpleOutcome =
    | Displayed(body: map<string, string>)
    | FailureDialog

  /** The query state of the minimal window: the `button_signal` flag (`True`
      initially, `None` once a query had no place, here `false`) and the requests
      it has sent, in order. */
  class SimpleWeatherApp {
    var buttonSignal: bool
    var requested: seq<Candidate>

    constructor()
      ensures buttonSignal && requested == []
    {
      buttonSignal := true;
      requested := [];
    }

    /** A press of the query button; `response` is what the one request gives.
        Every failure, the missing place included, ends in the same dialog. */
    method WeatherInfoReturn(sheng: string, city: string, area: string, response: Response)
      returns (outcome: SimpleOutcome)
      modifies this`buttonSignal, this`requested
      ensures SelectPlace(city, area).None? ==>
        outcome == FailureDialog && !buttonSignal && requested == old(requested)
      ensures SelectPlace(city, area).Some? ==>
        && buttonSignal == old(buttonSignal)
        && requested == old(requested) + [Candidate(sheng, SelectPlace(city, area).value)]
        && outcome == (if response.Payload? && Displayable(response.body)
                       then Displayed(response.body) else FailureDialog)
    {
      var urlTotal: Option<Candidate> := None;
      if area != AreaPlaceholder {
        urlTotal := Some(Candidate(sheng, area));
      } else if city != CityPlaceholder {
        urlTotal := Some(Candidate(sheng, city));
      } else {
        buttonSignal := false;
      }

      // the unassigned URL raises inside the guarded block, like any other failure
      if urlTotal.None? {
        return FailureDialog;
      }
      requested := requested + [urlTotal.value];
      match response {
        case Failed(_) =>
          outcome := FailureDialog;
        case Payload(body, _) =>
          if "place" in body && "temperature" in body && "weather1" in body && "weather2" in body
             && "humidity" in body && "windScale" in body && "windSpeed" in body
          {
            outcome := Displayed(body);
          } else {
            outcome := FailureDialog;
          }
      }
    }
  }

  /** The city list: the placeholder, then every city of the chosen province. */
  method CityReturn(data: Catalog.Dataset, currentProvince: string) returns (items: seq<string>)
    ensures items == [CityPlaceholder] + Catalog.CitiesOf(data, currentProvince)
  {
    items := [CityPlaceholder];
    var cityList := Catalog.CollectCities(data, currentProvince);
    items := items + cityList;
  }

  /** The district list: the placeholder, then every district of the chosen
      province and city. */
  method AreaReturn(data: Catalog.Dataset, currentProvince: string, currentCity: string)
    returns (items: seq<string>)
    ensures items == [AreaPlaceholder] + Catalog.AreasOf(data, currentProvince, currentCity)
  {
    items := [AreaPlaceholder];
    var areaList := Catalog.CollectAreas(data, currentProvince, currentCity);
    items := items + areaList;
  }
}
