/**
 * The slice of the OpenWeatherMap 2.5 API that the lookup controller uses:
 * the records it reads out of the two JSON bodies, the settled outcome of one
 * `fetch` call, and the four request URLs.
 */
module Api {

  const ApiBaseUrl: string := "https://api.openweathermap.org/data/2.5"

  /** One element of a body's `weather` array. */
  datatype Condition = Condition(icon: string, description: string)

  /** The current-conditions body: `name`, `sys.country`, `dt`, `weather`, `main.*`, `wind.speed`. */
  datatype CurrentConditions = CurrentConditions(
    name: string,
    country: string,
    dt: int,
    conditions: seq<Condition>,
    temp: real,
    feelsLike: real,
    humidity: int,
    pressure: int,
    windSpeed: real)

  /** One element of the forecast body's `list`: `dt`, `weather`, `main.temp`. */
  datatype ForecastEntry = ForecastEntry(dt: int, conditions: seq<Condition>, temp: real)

  datatype ForecastBody = ForecastBody(list: seq<ForecastEntry>)

  /**
   * A response that arrived: its status code, what `.text()` yields and what
   * `.json()` yields. `ok` is true exactly for the statuses 200 to 299, as the
   * Fetch Standard defines it.
   */
  datatype Response<B> = Response(status: nat, text: string, body: B) {
    predicate Ok() {
      200 <= status <= 299
    }
  }

  /** What awaiting one `fetch` gives: a response, or a rejection with its message. */
  datatype Fetch<B> = Settled(response: Response<B>) | Rejected(reason: string)

  /** `${API_BASE_URL}/<endpoint>?<query>&appid=<key>&units=metric`. */
  function RequestUrl(endpoint: string, query: string, key: string): string {
    ApiBaseUrl + "/" + endpoint + "?" + query + "&appid=" + key + "&units=metric"
  }

  /** The coordinates arrive as the text JavaScript renders them into the template. */
  function CoordsWeatherUrl(lat: string, lon: string, key: string): string {
    RequestUrl("weather", "lat=" + lat + "&lon=" + lon, key)
  }

  function CoordsForecastUrl(lat: string, lon: string, key: string): string {
    RequestUrl("forecast", "lat=" + lat + "&lon=" + lon, key)
  }

  /** The city name is spliced in as it is, without percent-encoding. */
  function CityWeatherUrl(city: string, key: string): string {
    RequestUrl("weather", "q=" + city, key)
  }

  function CityForecastUrl(city: string, key: string): string {
    RequestUrl("forecast", "q=" + city, key)
  }

  /** The city name stands verbatim in the URL, right after `q=`. */
  lemma CityUrlEmbedsCity(city: string, key: string)
    ensures var prefix := ApiBaseUrl + "/weather?q=";
      var url := CityWeatherUrl(city, key);
      |url| == |prefix| + |city| + |"&appid=" + key + "&units=metric"|
      && url[..|prefix|] == prefix
      && url[|prefix|..|prefix| + |city|] == city
  {
    var prefix := ApiBaseUrl + "/weather?q=";
    var suffix := "&appid=" + key + "&units=metric";
    assert CityWeatherUrl(city, key) == prefix + city + suffix;
  }

  /** Two city names give the same weather URL only if they are the same name. */
  lemma CityWeatherUrlInjective(a: string, b: string, key: string)
    requires CityWeatherUrl(a, key) == CityWeatherUrl(b, key)
    ensures a == b
  {
    CityUrlEmbedsCity(a, key);
    CityUrlEmbedsCity(b, key);
  }

  /** Two city names give the same forecast URL only if they are the same name. */
  lemma CityForecastUrlInjective(a: string, b: string, key: string)
    requires CityForecastUrl(a, key) == CityForecastUrl(b, key)
    ensures a == b
  {
    var prefix := ApiBaseUrl + "/forecast?q=";
    var suffix := "&appid=" + key + "&units=metric";
    assert CityForecastUrl(a, key) == prefix + a + suffix;
    assert CityForecastUrl(b, key) == prefix + b + suffix;
    assert a == CityForecastUrl(a, key)[|prefix|..|prefix| + |a|];
  }

  /** Every request carries the configured key and asks for metric units. */
  lemma RequestUrlEndsWithKey(endpoint: string, query: string, key: string)
    ensures var tail := "&appid=" + key + "&units=metric";
      var url := RequestUrl(endpoint, query, key);
      |tail| <= |url| && url[|url| - |tail|..] == tail
  {
    var tail := "&appid=" + key + "&units=metric";
    var head := ApiBaseUrl + "/" + endpoint + "?" + query;
    assert RequestUrl(endpoint, query, key) == head + tail;
  }

  /** No `&` in `s`; true of the text of any JavaScript number. */
  predicate AmpFree(s: string) {
    forall i :: 0 <= i < |s| ==> s[i] != '&'
  }

  /** How many characters of `s` come before its first `&`. */
  function BeforeAmp(s: string): (n: nat)
    ensures n <= |s| && AmpFree(s[..n])
    ensures n < |s| ==> s[n] == '&'
  {
    if s == [] || s[0] == '&' then 0
    else
      var n := 1 + BeforeAmp(s[1..]);
      assert s[..n] == [s[0]] + s[1..][..n - 1];
      n
  }

  lemma {:induction false} BeforeAmpOf(a: string, t: string)
    requires AmpFree(a) && t != [] && t[0] == '&'
    ensures BeforeAmp(a + t) == |a|
  {
    if a != [] {
      assert (a + t)[1..] == a[1..] + t;
      BeforeAmpOf(a[1..], t);
    }
  }

  /** Text without `&` followed by text starting with `&` splits back uniquely. */
  lemma AmpSplit(a1: string, t1: string, a2: string, t2: string)
    requires AmpFree(a1) && AmpFree(a2)
    requires t1 != [] && t1[0] == '&' && t2 != [] && t2[0] == '&'
    requires a1 + t1 == a2 + t2
    ensures a1 == a2 && t1 == t2
  {
    var s := a1 + t1;
    BeforeAmpOf(a1, t1);
    BeforeAmpOf(a2, t2);
    assert a1 == s[..|a1|] == a2;
    assert t1 == s[|a1|..] == t2;
  }

  /** A coordinate URL regrouped: fixed head, latitude, then `&lon=`, longitude and the fixed tail. */
  lemma CoordsUrlShape(endpoint: string, lat: string, lon: string, key: string)
    ensures RequestUrl(endpoint, "lat=" + lat + "&lon=" + lon, key)
         == (ApiBaseUrl + "/" + endpoint + "?lat=") + (lat + ("&lon=" + lon + ("&appid=" + key + "&units=metric")))
  {
  }

  /**
   * Two coordinate pairs give the same request URL only if they are the same
   * pair: the latitude ends at the first `&`, and the longitude fills the rest
   * up to the fixed tail.
   */
  lemma CoordsUrlInjective(endpoint: string, lat1: string, lon1: string, lat2: string, lon2: string, key: string)
    requires AmpFree(lat1) && AmpFree(lat2)
    requires RequestUrl(endpoint, "lat=" + lat1 + "&lon=" + lon1, key)
          == RequestUrl(endpoint, "lat=" + lat2 + "&lon=" + lon2, key)
    ensures lat1 == lat2 && lon1 == lon2
  {
    var head := ApiBaseUrl + "/" + endpoint + "?lat=";
    var tail := "&appid=" + key + "&units=metric";
    var t1, t2 := "&lon=" + lon1 + tail, "&lon=" + lon2 + tail;
    CoordsUrlShape(endpoint, lat1, lon1, key);
    CoordsUrlShape(endpoint, lat2, lon2, key);
    assert lat1 + t1 == lat2 + t2 by {
      var url := head + (lat1 + t1);
      assert lat1 + t1 == url[|head|..];
      assert lat2 + t2 == (head + (lat2 + t2))[|head|..];
    }
    AmpSplit(lat1, t1, lat2, t2);
    assert lon1 == t1[5..|t1| - |tail|] == lon2;
  }

  /** The coordinate URL builders, instantiated. */
  lemma CoordsWeatherUrlInjective(lat1: string, lon1: string, lat2: string, lon2: string, key: string)
    requires AmpFree(lat1) && AmpFree(lat2)
    requires CoordsWeatherUrl(lat1, lon1, key) == CoordsWeatherUrl(lat2, lon2, key)
    ensures lat1 == lat2 && lon1 == lon2
  {
    CoordsUrlInjective("weather", lat1, lon1, lat2, lon2, key);
  }

  lemma CoordsForecastUrlInjective(lat1: string, lon1: string, lat2: string, lon2: string, key: string)
    requires AmpFree(lat1) && AmpFree(lat2)
    requires CoordsForecastUrl(lat1, lon1, key) == CoordsForecastUrl(lat2, lon2, key)
    ensures lat1 == lat2 && lon1 == lon2
  {
    CoordsUrlInjective("forecast", lat1, lon1, lat2, lon2, key);
  }
}
