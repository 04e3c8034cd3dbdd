/**
 * The `App` component's lookup controller: its React state as the fields of
 * a class, and one method per handler. Every `await` is given: each request's
 * settled outcome is an argument, and each method returns the URLs it fetched,
 * in order.
 */
module App {
  import opened Wrappers
  import opened JsString
  import opened Api
  import opened Lookup

  class WeatherApp {
    /** `API_KEY`, fixed when the module loads. */
    const apiKey: string

    var weather: Option<CurrentConditions>
    var forecast: seq<ForecastEntry>
    var city: string
    var loading: bool
    var error: string

    /** The state after the lookup settled with outcome `o`, from a display of `priorWeather` and `priorForecast`. */
    predicate Shows(o: Outcome, priorWeather: Option<CurrentConditions>, priorForecast: seq<ForecastEntry>)
      reads this
    {
      !loading &&
      match o
      case Loaded(current, entries) => weather == Some(current) && forecast == entries && error == ""
      case Failed(message) => weather == priorWeather && forecast == priorForecast && error == message
    }

    /** What `fetchWeatherByCity(cityName)` leaves behind, given what it was handed. */
    predicate AfterCityLookup(
      cityName: string, nowMs: int, draws: DemoDraws,
      w: Fetch<CurrentConditions>, f: Fetch<ForecastBody>, requested: seq<string>,
      priorWeather: Option<CurrentConditions>, priorForecast: seq<ForecastEntry>)
      requires ValidDraws(draws)
      reads this
    {
      requested == CityRequests(apiKey, cityName, w)
      && Shows(CityLookupOutcome(apiKey, cityName, nowMs, draws, w, f), priorWeather, priorForecast)
    }

    /** The initial state of `useState`, with the key resolved from the environment. */
    constructor (env: Option<string>)
      ensures apiKey == ResolveApiKey(env)
      ensures weather == None && forecast == [] && city == "" && !loading && error == ""
    {
      apiKey := ResolveApiKey(env);
      weather, forecast, city, loading, error := None, [], "", false, "";
    }

    /** The input's `onChange`: `setCity(e.target.value)`. */
    method SetCity(text: string)
      modifies this
      ensures city == text
      ensures weather == old(weather) && forecast == old(forecast)
      ensures loading == old(loading) && error == old(error)
    {
      city := text;
    }

    /** What both fetch handlers do before their first `await`. */
    method BeginRequest()
      modifies this
      ensures loading && error == ""
      ensures weather == old(weather) && forecast == old(forecast) && city == old(city)
    {
      loading := true;
      error := "";
    }

    /** `fetchWeatherByCoords(lat, lon)`, with the coordinates as the text they render to. */
    method FetchWeatherByCoords(
      lat: string, lon: string,
      weatherFetch: Fetch<CurrentConditions>, forecastFetch: Fetch<ForecastBody>,
      weatherRejectsFirst: bool)
      returns (requested: seq<string>)
      modifies this
      ensures requested == [CoordsWeatherUrl(lat, lon, apiKey), CoordsForecastUrl(lat, lon, apiKey)]
      ensures Shows(CoordsOutcome(weatherFetch, forecastFetch, weatherRejectsFirst), old(weather), old(forecast))
      ensures error != "" <==> CoordsOutcome(weatherFetch, forecastFetch, weatherRejectsFirst).Failed?
      ensures city == old(city)
    {
      BeginRequest();
      var weatherUrl := CoordsWeatherUrl(lat, lon, apiKey);
      var forecastUrl := CoordsForecastUrl(lat, lon, apiKey);
      requested := [weatherUrl, forecastUrl];
      var thrown: Option<string> := None;
      if weatherFetch.Rejected? || forecastFetch.Rejected? {
        thrown := Some(FirstRejection(weatherFetch, forecastFetch, weatherRejectsFirst));
      } else if !weatherFetch.response.Ok() {
        thrown := Some(CoordsStatusError("Weather", weatherFetch.response.status));
      } else if !forecastFetch.response.Ok() {
        thrown := Some(CoordsStatusError("Forecast", forecastFetch.response.status));
      } else {
        weather := Some(weatherFetch.response.body);
        forecast := FirstFive(forecastFetch.response.body.list);
      }
      if thrown.Some? {
        error := ErrorMessage(thrown.value, CoordsFallback);
      }
      loading := false;
    }

    /**
     * `fetchWeatherByCity(cityName)`: demo data under a placeholder key,
     * otherwise the weather request and then, if it was ok, the forecast request.
     */
    method FetchWeatherByCity(
      cityName: string, nowMs: int, draws: DemoDraws,
      weatherFetch: Fetch<CurrentConditions>, forecastFetch: Fetch<ForecastBody>)
      returns (requested: seq<string>)
      requires ValidDraws(draws)
      modifies this
      ensures AfterCityLookup(cityName, nowMs, draws, weatherFetch, forecastFetch, requested, old(weather), old(forecast))
      ensures error != "" <==> CityLookupOutcome(apiKey, cityName, nowMs, draws, weatherFetch, forecastFetch).Failed?
      ensures city == old(city)
    {
      BeginRequest();
      requested := [];
      if IsPlaceholderKey(apiKey) {
        weather := Some(DemoWeather(cityName, nowMs, draws));
        forecast := DemoForecast(nowMs, draws);
        loading := false;
        return;
      }
      var thrown: Option<string> := None;
      requested := [CityWeatherUrl(cityName, apiKey)];
      if weatherFetch.Rejected? {
        thrown := Some(weatherFetch.reason);
      } else if !weatherFetch.response.Ok() {
        thrown := Some(CityStatusError("Weather", weatherFetch.response.status, weatherFetch.response.text));
      } else {
        var weatherData := weatherFetch.response.body;
        requested := requested + [CityForecastUrl(cityName, apiKey)];
        if forecastFetch.Rejected? {
          thrown := Some(forecastFetch.reason);
        } else if !forecastFetch.response.Ok() {
          thrown := Some(CityStatusError("Forecast", forecastFetch.response.status, forecastFetch.response.text));
        } else {
          weather := Some(weatherData);
          forecast := FirstFive(forecastFetch.response.body.list);
        }
      }
      if thrown.Some? {
        error := ErrorMessage(thrown.value, CityFallback);
      }
      loading := false;
    }

    /** `handleSearch`: look up the trimmed city, or do nothing when it is blank. */
    method HandleSearch(
      nowMs: int, draws: DemoDraws,
      weatherFetch: Fetch<CurrentConditions>, forecastFetch: Fetch<ForecastBody>)
      returns (requested: seq<string>)
      requires ValidDraws(draws)
      modifies this
      ensures city == old(city)
      ensures Trim(city) == "" ==>
        requested == [] && weather == old(weather) && forecast == old(forecast)
        && loading == old(loading) && error == old(error)
      ensures Trim(city) != "" ==>
        AfterCityLookup(Trim(city), nowMs, draws, weatherFetch, forecastFetch, requested, old(weather), old(forecast))
    {
      var query := Trim(city);
      if query != "" {
        requested := FetchWeatherByCity(query, nowMs, draws, weatherFetch, forecastFetch);
      } else {
        requested := [];
      }
    }
  }

  /** Surrounding blanks are what `trim` removes from a typed city name. */
  lemma PaddedParisTrims()
    ensures Trim("  Paris ") == "Paris"
  {
    assert LeadingCount("Paris ") == 0;
    assert LeadingCount(" Paris ") == 1 by {
      assert " Paris "[1..] == "Paris ";
    }
    assert LeadingCount("  Paris ") == 2 by {
      assert "  Paris "[1..] == " Paris ";
    }
    assert TrimStart("  Paris ") == "Paris ";
    assert TrailingCount("Paris ") == 1 by {
      assert "Paris "[..5] == "Paris";
      assert TrailingCount("Paris") == 0;
    }
    assert TrimEnd("Paris ") == "Paris";
  }

  /**
   * A client of the class: under the default key a search for "  Paris "
   * makes no request and shows demo data for "Paris" with no error.
   */
  method SearchWithDefaultKey(nowMs: int, draws: DemoDraws, w: Fetch<CurrentConditions>, f: Fetch<ForecastBody>)
    returns (app: WeatherApp, requested: seq<string>)
    requires ValidDraws(draws)
    ensures requested == []
    ensures app.weather.Some? && app.weather.value.name == "Paris" && |app.forecast| == 5
    ensures !app.loading && app.error == ""
  {
    app := new WeatherApp(None);
    app.SetCity("  Paris ");
    PaddedParisTrims();
    assert IsPlaceholderKey(app.apiKey);
    requested := app.HandleSearch(nowMs, draws, w, f);
  }
}
