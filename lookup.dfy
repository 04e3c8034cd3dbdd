/**
 * What one lookup of the weather controller decides, as pure functions of
 * the configured key, the clock, the random draws and the settled requests.
 * The class in module App applies these outcomes to the component state.
 */
module Lookup {
  import opened Wrappers
  import opened Decimal
  import opened Api

  /** How many forecast entries are kept: `list.slice(0, 5)`. */
  const ForecastLimit: nat := 5

  function Min(a: int, b: int): int {
    if a <= b then a else b
  }

  /** `list.slice(0, 5)`: the first five entries, or all of them when there are fewer. */
  function FirstFive<T>(list: seq<T>): (r: seq<T>)
    ensures |r| == Min(ForecastLimit, |list|)
    ensures r == list[..|r|]
  {
    if |list| <= ForecastLimit then list else list[..ForecastLimit]
  }

  /** The result of one lookup: both bodies to display, or the message to show. */
  datatype Outcome =
    | Loaded(current: CurrentConditions, entries: seq<ForecastEntry>)
    | Failed(message: string)

  const CoordsFallback: string := "Failed to fetch weather data"
  const CityFallback: string := "City not found. Please try again."

  /** `Error: ${err.message || fallback}`: an empty message is falsy and gives way to the fallback. */
  function ErrorMessage(reason: string, fallback: string): string {
    "Error: " + (if reason == "" then fallback else reason)
  }

  /** The message thrown by the coordinates lookup for a response that is not ok; never empty, so no fallback replaces it. */
  function CoordsStatusError(api: string, status: nat): (m: string)
    ensures m != "" && ErrorMessage(m, CoordsFallback) == "Error: " + m
  {
    api + " API error: " + NatToString(status)
  }

  /** The message thrown by the city lookup for a response that is not ok; never empty, so no fallback replaces it. */
  function CityStatusError(api: string, status: nat, text: string): (m: string)
    ensures m != "" && ErrorMessage(m, CityFallback) == "Error: " + m
  {
    api + " API error: " + NatToString(status) + " - " + text
  }

  /**
   * The reason `Promise.all` rejects with: that of the request that rejects
   * first. Which one that is when both reject depends on timing, so the
   * caller says.
   */
  function FirstRejection<A, B>(w: Fetch<A>, f: Fetch<B>, weatherRejectsFirst: bool): (reason: string)
    requires w.Rejected? || f.Rejected?
    ensures w.Rejected? && f.Settled? ==> reason == w.reason
    ensures w.Settled? && f.Rejected? ==> reason == f.reason
    ensures w.Rejected? && f.Rejected? ==> reason == if weatherRejectsFirst then w.reason else f.reason
  {
    if w.Rejected? && (f.Settled? || weatherRejectsFirst) then w.reason else f.reason
  }

  /**
   * The coordinates lookup: both requests are joined; a rejection of either
   * fails it; otherwise the weather status is checked before the forecast status.
   */
  function CoordsOutcome(w: Fetch<CurrentConditions>, f: Fetch<ForecastBody>, weatherRejectsFirst: bool): (o: Outcome)
    ensures o.Loaded? <==> w.Settled? && f.Settled? && w.response.Ok() && f.response.Ok()
    ensures o.Loaded? ==> o.current == w.response.body && o.entries == FirstFive(f.response.body.list)
    ensures o.Failed? ==> |o.message| > 7 && o.message[..7] == "Error: "
  {
    if w.Rejected? || f.Rejected? then
      Failed(ErrorMessage(FirstRejection(w, f, weatherRejectsFirst), CoordsFallback))
    else if !w.response.Ok() then
      Failed(ErrorMessage(CoordsStatusError("Weather", w.response.status), CoordsFallback))
    else if !f.response.Ok() then
      Failed(ErrorMessage(CoordsStatusError("Forecast", f.response.status), CoordsFallback))
    else
      Loaded(w.response.body, FirstFive(f.response.body.list))
  }

  /** A failed weather response fails the coordinates lookup with its status, whatever the forecast says. */
  lemma CoordsWeatherFailure(w: Fetch<CurrentConditions>, f: Fetch<ForecastBody>, weatherRejectsFirst: bool)
    requires w.Settled? && f.Settled? && !w.response.Ok()
    ensures CoordsOutcome(w, f, weatherRejectsFirst) == Failed("Error: Weather API error: " + NatToString(w.response.status))
  {
    var n := NatToString(w.response.status);
    var e := CoordsStatusError("Weather", w.response.status);
    calc {
      CoordsOutcome(w, f, weatherRejectsFirst);
      Failed("Error: " + e);
      { assert "Error: " + e == ("Error: " + ("Weather" + " API error: ")) + n; }
      Failed(("Error: " + ("Weather" + " API error: ")) + n);
      { assert "Error: " + ("Weather" + " API error: ") == "Error: Weather API error: "; }
      Failed("Error: Weather API error: " + n);
    }
  }

  /**
   * A forecast status reaches the message only when the weather response was
   * ok, and the message names exactly the failing status.
   */
  lemma {:induction false} CoordsForecastFailureNeedsWeatherOk(
    w: Fetch<CurrentConditions>, f: Fetch<ForecastBody>, weatherRejectsFirst: bool, status: nat)
    requires w.Settled? && f.Settled?
    requires CoordsOutcome(w, f, weatherRejectsFirst) == Failed("Error: Forecast API error: " + NatToString(status))
    ensures w.response.Ok() && !f.response.Ok() && f.response.status == status
  {
    var m := "Error: Forecast API error: " + NatToString(status);
    assert m[7] == 'F';
    assert w.response.Ok();
    assert "Error: " + CoordsStatusError("Forecast", f.response.status) == m;
    var prefix := "Error: Forecast API error: ";
    assert NatToString(f.response.status) == m[|prefix|..];
    NatToStringInjective(f.response.status, status);
  }

  /** A failed forecast response after an ok weather response gives `Error: Forecast API error: <status>`. */
  lemma CoordsForecastFailure(w: Fetch<CurrentConditions>, f: Fetch<ForecastBody>, weatherRejectsFirst: bool)
    requires w.Settled? && w.response.Ok() && f.Settled? && !f.response.Ok()
    ensures CoordsOutcome(w, f, weatherRejectsFirst) == Failed("Error: Forecast API error: " + NatToString(f.response.status))
  {
    var n := NatToString(f.response.status);
    var e := CoordsStatusError("Forecast", f.response.status);
    calc {
      CoordsOutcome(w, f, weatherRejectsFirst);
      Failed("Error: " + e);
      { assert "Error: " + e == ("Error: " + ("Forecast" + " API error: ")) + n; }
      Failed(("Error: " + ("Forecast" + " API error: ")) + n);
      { assert "Error: " + ("Forecast" + " API error: ") == "Error: Forecast API error: "; }
      Failed("Error: Forecast API error: " + n);
    }
  }

  /** Whichever request's rejection `Promise.all` reports, an empty message falls back to the fixed coordinates message. */
  lemma CoordsEmptyRejection(w: Fetch<CurrentConditions>, f: Fetch<ForecastBody>, weatherRejectsFirst: bool)
    requires (w.Rejected? || f.Rejected?) && FirstRejection(w, f, weatherRejectsFirst) == ""
    ensures CoordsOutcome(w, f, weatherRejectsFirst) == Failed("Error: " + CoordsFallback)
  {
  }

  /** A rejection with a message, such as the `TypeError` of a failed `fetch`, is shown after `Error: `. */
  lemma CoordsRejection(w: Fetch<CurrentConditions>, f: Fetch<ForecastBody>, weatherRejectsFirst: bool)
    requires (w.Rejected? || f.Rejected?) && FirstRejection(w, f, weatherRejectsFirst) != ""
    ensures CoordsOutcome(w, f, weatherRejectsFirst) == Failed("Error: " + FirstRejection(w, f, weatherRejectsFirst))
  {
  }

  /** Whether the city lookup goes on to the forecast request: only after an ok weather response. */
  predicate RequestsForecast(w: Fetch<CurrentConditions>) {
    w.Settled? && w.response.Ok()
  }

  /** The city lookup against the real API: weather first, forecast only after it, stop at the first failure. */
  function CityOutcome(w: Fetch<CurrentConditions>, f: Fetch<ForecastBody>): (o: Outcome)
    ensures o.Loaded? <==> RequestsForecast(w) && f.Settled? && f.response.Ok()
    ensures o.Loaded? ==> o.current == w.response.body && o.entries == FirstFive(f.response.body.list)
    ensures o.Failed? ==> |o.message| > 7 && o.message[..7] == "Error: "
  {
    if w.Rejected? then
      Failed(ErrorMessage(w.reason, CityFallback))
    else if !w.response.Ok() then
      Failed(ErrorMessage(CityStatusError("Weather", w.response.status, w.response.text), CityFallback))
    else if f.Rejected? then
      Failed(ErrorMessage(f.reason, CityFallback))
    else if !f.response.Ok() then
      Failed(ErrorMessage(CityStatusError("Forecast", f.response.status, f.response.text), CityFallback))
    else
      Loaded(w.response.body, FirstFive(f.response.body.list))
  }

  /** When the weather request fails, the forecast request (never made) has no say in the outcome. */
  lemma CityForecastUnusedAfterWeatherFailure(w: Fetch<CurrentConditions>, f1: Fetch<ForecastBody>, f2: Fetch<ForecastBody>)
    requires !RequestsForecast(w)
    ensures CityOutcome(w, f1) == CityOutcome(w, f2)
    ensures CityOutcome(w, f1).Failed?
  {
  }

  /** A failed weather response gives `Error: Weather API error: <status> - <text>`. */
  lemma CityWeatherFailure(w: Fetch<CurrentConditions>, f: Fetch<ForecastBody>)
    requires w.Settled? && !w.response.Ok()
    ensures CityOutcome(w, f) == Failed("Error: Weather API error: " + NatToString(w.response.status) + " - " + w.response.text)
  {
    var n, t := NatToString(w.response.status), w.response.text;
    var e := CityStatusError("Weather", w.response.status, t);
    calc {
      CityOutcome(w, f);
      Failed(ErrorMessage(e, CityFallback));
      { assert e != ""; }
      Failed("Error: " + e);
      { assert "Error: " + e == ("Error: " + ("Weather" + " API error: ")) + n + " - " + t; }
      Failed(("Error: " + ("Weather" + " API error: ")) + n + " - " + t);
      { assert "Error: " + ("Weather" + " API error: ") == "Error: Weather API error: "; }
      Failed("Error: Weather API error: " + n + " - " + t);
    }
  }

  /** A failed forecast response after an ok weather response gives `Error: Forecast API error: <status> - <text>`. */
  lemma CityForecastFailure(w: Fetch<CurrentConditions>, f: Fetch<ForecastBody>)
    requires RequestsForecast(w) && f.Settled? && !f.response.Ok()
    ensures CityOutcome(w, f) == Failed("Error: Forecast API error: " + NatToString(f.response.status) + " - " + f.response.text)
  {
    var n, t := NatToString(f.response.status), f.response.text;
    var e := CityStatusError("Forecast", f.response.status, t);
    calc {
      CityOutcome(w, f);
      Failed(ErrorMessage(e, CityFallback));
      { assert e != ""; }
      Failed("Error: " + e);
      { assert "Error: " + e == ("Error: " + ("Forecast" + " API error: ")) + n + " - " + t; }
      Failed(("Error: " + ("Forecast" + " API error: ")) + n + " - " + t);
      { assert "Error: " + ("Forecast" + " API error: ") == "Error: Forecast API error: "; }
      Failed("Error: Forecast API error: " + n + " - " + t);
    }
  }

  /** A rejection with an empty message, of the weather request or of the forecast request made after it, falls back to the fixed city message. */
  lemma CityEmptyRejection(w: Fetch<CurrentConditions>, f: Fetch<ForecastBody>)
    requires (w.Rejected? && w.reason == "") || (RequestsForecast(w) && f.Rejected? && f.reason == "")
    ensures CityOutcome(w, f) == Failed("Error: " + CityFallback)
  {
  }

  /** A rejection with a message, of the weather request or of the forecast request made after it, is shown after `Error: `. */
  lemma CityRejection(w: Fetch<CurrentConditions>, f: Fetch<ForecastBody>)
    requires (w.Rejected? && w.reason != "") || (RequestsForecast(w) && f.Rejected? && f.reason != "")
    ensures CityOutcome(w, f) == Failed("Error: " + (if w.Rejected? then w.reason else f.reason))
  {
  }

  /**
   * The status and the response text can be read back from a city status
   * message: the status is the run of digits before " - ".
   */
  lemma {:induction false} CityStatusErrorDecodable(api: string, s1: nat, t1: string, s2: nat, t2: string)
    requires CityStatusError(api, s1, t1) == CityStatusError(api, s2, t2)
    ensures s1 == s2 && t1 == t2
  {
    var head := api + " API error: ";
    var m := CityStatusError(api, s1, t1);
    var x, y := " - " + t1, " - " + t2;
    assert m == head + (NatToString(s1) + x);
    assert m == head + (NatToString(s2) + y);
    assert NatToString(s1) + x == m[|head|..] == NatToString(s2) + y;
    NumeralThenText(s1, x, s2, y);
    assert t1 == x[3..] == y[3..] == t2;
  }

  /** The three placeholder keys that mean "no key configured". */
  predicate IsPlaceholderKey(key: string) {
    key == "YOUR_NEW_API_KEY_HERE"
    || key == "f7185f4f5fca996437e4ca15cdfce11d"
    || key == "2b79118bfb10aad8db828f6a7290c921"
  }

  /** The key used when the environment gives none. */
  const FallbackKey: string := "2b79118bfb10aad8db828f6a7290c921"

  /**
   * `process.env.REACT_APP_WEATHER_API_KEY || fallback`: the key is never
   * empty, it is the environment's or the fallback, and demo mode is taken
   * unless the environment supplies a key that is not a placeholder.
   */
  function ResolveApiKey(env: Option<string>): (key: string)
    ensures key != ""
    ensures key == FallbackKey || (env.Some? && key == env.value)
    ensures IsPlaceholderKey(key) <==> env.None? || env.value == "" || IsPlaceholderKey(env.value)
  {
    if env.Some? && env.value != "" then env.value else FallbackKey
  }

  /**
   * The values `Math.random()` supplies to the demo data. Each
   * `Math.floor(Math.random() * n) + k` is an integer in k..k+n-1; the wind
   * speed `Math.random() * 5 + 1` is a real in [1, 6).
   */
  datatype DemoDraws = DemoDraws(
    temp: int,
    feelsLike: int,
    humidity: int,
    pressure: int,
    windSpeed: real,
    forecastTemps: seq<int>)

  /** The values `Math.floor(Math.random() * n) + k` can take. */
  predicate InDrawRange(x: int, n: nat, k: int) {
    k <= x <= k + n - 1
  }

  /** The `k` of each demo forecast temperature draw, in order. */
  const ForecastTempBases: seq<int> := [15, 13, 16, 18, 17]

  predicate ValidDraws(d: DemoDraws) {
    InDrawRange(d.temp, 15, 15)
    && InDrawRange(d.feelsLike, 15, 17)
    && InDrawRange(d.humidity, 40, 40)
    && InDrawRange(d.pressure, 50, 1000)
    && 1.0 <= d.windSpeed < 6.0
    && |d.forecastTemps| == 5
    && forall j :: 0 <= j < 5 ==> InDrawRange(d.forecastTemps[j], 15, ForecastTempBases[j])
  }

  const SecondsPerDay: int := 86400

  /** `Math.floor(Date.now() / 1000)`; Dafny's division by a positive divisor rounds down. */
  function UnixSeconds(nowMs: int): (t: int)
    ensures t * 1000 <= nowMs < t * 1000 + 1000
  {
    nowMs / 1000
  }

  /** The synthetic current conditions for `cityName`. */
  function DemoWeather(cityName: string, nowMs: int, d: DemoDraws): (c: CurrentConditions)
    requires ValidDraws(d)
    ensures c.name == cityName && c.country == "US" && c.dt == UnixSeconds(nowMs)
    ensures c.conditions == [Condition("01d", "clear sky")]
    ensures 15.0 <= c.temp <= 29.0 && 17.0 <= c.feelsLike <= 31.0
    ensures 40 <= c.humidity <= 79 && 1000 <= c.pressure <= 1049
    ensures 1.0 <= c.windSpeed < 6.0
  {
    CurrentConditions(
      cityName, "US", UnixSeconds(nowMs), [Condition("01d", "clear sky")],
      d.temp as real, d.feelsLike as real, d.humidity, d.pressure, d.windSpeed)
  }

  /** The synthetic forecast: five entries one day apart, the first a day from now. */
  function DemoForecast(nowMs: int, d: DemoDraws): (es: seq<ForecastEntry>)
    requires ValidDraws(d)
    ensures |es| == 5
    ensures forall k :: 0 <= k < |es| ==> es[k].dt == UnixSeconds(nowMs) + (k + 1) * SecondsPerDay
    ensures forall i, j :: 0 <= i < j < |es| ==> es[i].dt < es[j].dt
    ensures forall k :: 0 <= k < |es| ==>
      ForecastTempBases[k] as real <= es[k].temp <= ForecastTempBases[k] as real + 14.0
  {
    var t := d.forecastTemps;
    assert forall j :: 0 <= j < 5 ==> InDrawRange(t[j], 15, ForecastTempBases[j]);
    [ ForecastEntry(UnixSeconds(nowMs) + 86400, [Condition("02d", "few clouds")], t[0] as real),
      ForecastEntry(UnixSeconds(nowMs) + 172800, [Condition("10d", "light rain")], t[1] as real),
      ForecastEntry(UnixSeconds(nowMs) + 259200, [Condition("03d", "scattered clouds")], t[2] as real),
      ForecastEntry(UnixSeconds(nowMs) + 345600, [Condition("01d", "clear sky")], t[3] as real),
      ForecastEntry(UnixSeconds(nowMs) + 432000, [Condition("04d", "broken clouds")], t[4] as real) ]
  }

  /** The whole city lookup: demo data under a placeholder key, the real API otherwise. */
  function CityLookupOutcome(
    key: string, cityName: string, nowMs: int, d: DemoDraws,
    w: Fetch<CurrentConditions>, f: Fetch<ForecastBody>): (o: Outcome)
    requires ValidDraws(d)
    ensures IsPlaceholderKey(key) ==> o.Loaded? && o.current.name == cityName
    ensures o.Loaded? ==> |o.entries| <= ForecastLimit
    ensures !IsPlaceholderKey(key) ==> (o.Loaded? <==> RequestsForecast(w) && f.Settled? && f.response.Ok())
    ensures o.Failed? ==> |o.message| > 7 && o.message[..7] == "Error: "
  {
    if IsPlaceholderKey(key) then Loaded(DemoWeather(cityName, nowMs, d), DemoForecast(nowMs, d))
    else CityOutcome(w, f)
  }

  /** The URLs the city lookup fetches, in order. */
  function CityRequests(key: string, cityName: string, w: Fetch<CurrentConditions>): (urls: seq<string>)
    ensures IsPlaceholderKey(key) <==> urls == []
    ensures !IsPlaceholderKey(key) ==> urls[0] == CityWeatherUrl(cityName, key)
    ensures !IsPlaceholderKey(key) ==> (|urls| == 2 <==> RequestsForecast(w)) && |urls| <= 2
    ensures |urls| == 2 ==> urls[1] == CityForecastUrl(cityName, key)
  {
    if IsPlaceholderKey(key) then []
    else if RequestsForecast(w) then [CityWeatherUrl(cityName, key), CityForecastUrl(cityName, key)]
    else [CityWeatherUrl(cityName, key)]
  }

  /** Under a placeholder key the lookup always succeeds with demo data for the requested city. */
  lemma DemoLookup(key: string, cityName: string, nowMs: int, d: DemoDraws, w: Fetch<CurrentConditions>, f: Fetch<ForecastBody>)
    requires ValidDraws(d) && IsPlaceholderKey(key)
    ensures var o := CityLookupOutcome(key, cityName, nowMs, d, w, f);
      o.Loaded? && o.current.name == cityName && o.current.country == "US" && |o.entries| == 5
      && forall k :: 0 <= k < 4 ==> o.entries[k + 1].dt - o.entries[k].dt == SecondsPerDay
  {
  }
}
