# Weather lookup controller

A Dafny model of the lookup controller of a React weather app (`src/App.js`).
The `App` component keeps four pieces of state for the lookup — `weather`
(null or the current-conditions body), `forecast` (a list), `loading` and
`error` — plus the text of the search box, `city`. Three handlers drive it:

- `fetchWeatherByCoords(lat, lon)` fetches current conditions and the forecast
  for a coordinate pair jointly (`Promise.all`). It checks the weather response
  before the forecast response. It either shows both bodies, with the forecast
  cut to its first five entries, or shows an error and changes nothing else.
- `fetchWeatherByCity(cityName)` first compares the API key with three
  placeholder literals. On a match it shows synthetic demo data and makes no
  request. The fallback key is one of those literals, so this is the default.
  Otherwise it requests the weather, then the forecast, and stops at the first
  failure.
- `handleSearch` trims the search text. It does nothing when the result is
  empty, and otherwise looks up the trimmed name.

Both fetch handlers set `loading` to true and clear `error` first, and set
`loading` to false on every path.

## Layout

- `wrappers.dfy` — `Option`, for the nullable `weather`.
- `decimal.dfy` — how a status code is rendered inside the error messages
  (`NatToString`), a parser for it, and the round trip between them.
- `jsstring.dfy` — ECMAScript `String.prototype.trim`, with the WhiteSpace and
  LineTerminator code points of ECMA-262.
- `api.dfy` — the records read from the two JSON bodies. A settled `fetch` is
  `Fetch<B>`: either a `Response` (status, `.text()`, parsed body) or a
  rejection with its message. `ok` is status 200..299, as the Fetch Standard
  defines it. Also the four request URLs.
- `lookup.dfy` — the pure decisions of one lookup: `CoordsOutcome`,
  `CityOutcome`, the demo data, the placeholder-key policy, `slice(0, 5)`, and
  the lemmas about them.
- `app.dfy` — class `WeatherApp`. Its fields are the component state, and it
  has one method per handler. The three lookup methods (`FetchWeatherByCoords`,
  `FetchWeatherByCity`, `HandleSearch`) tie the new state to the outcome
  functions in their `ensures`, and return the URLs they fetched, in order, so
  "no request was made" can be stated.

The network, the clock and the random numbers are inputs:

- each request's settled outcome is a method argument;
- `Date.now()` is `nowMs`;
- each `Math.floor(Math.random() * n) + k` is a caller-chosen integer in
  `k..k+n-1` (`DemoDraws` / `ValidDraws`).

## Behaviour as the code has it

- There is no per-status message for 404, 401 or 429. Every failed response
  gives `Error: <Weather|Forecast> API error: <status>` (coordinates), or the
  same with ` - <response text>` appended (city).
- A forecast failure after a successful weather call in the city flow keeps
  nothing new. `weather` and `forecast` keep their previous values, because
  nothing is assigned before both calls succeed.
- There is no action that dismisses the error.
- The demo ranges are those of the code:
  - temperature 15..29;
  - feels-like 17..31;
  - humidity 40..79;
  - pressure 1000..1049;
  - forecast temperatures start at base 15, 13, 16, 18 and 17 and run 14
    above each.
- There is no guard against stale responses.

## Model

| member | source | states |
|---|---|---|
| Decimal.NatToString | src/App.js:51 | the rendering of a status is non-empty, all decimal digits, and has no leading zero |
| Decimal.ValueOfNatToString | src/App.js:51 | reading the rendered status back as a decimal numeral gives the status |
| Decimal.NatToStringInjective | src/App.js:54 | two statuses render the same only if they are equal, so a message names one code |
| Decimal.NumeralThenText | src/App.js:120 | a rendered status followed by text starting with a non-digit splits back uniquely into status and text |
| JsString.Trim | src/App.js:151-152 | trim's result is empty exactly when the input is all white space; otherwise its first and last characters are not white space |
| JsString.TrimSplit | src/App.js:151-152 | the input is white space, then the trimmed text, then white space |
| Api.CityUrlEmbedsCity | src/App.js:114 | the city weather URL is the fixed prefix, the city name verbatim (not encoded), then `&appid=<key>&units=metric` |
| Api.CityWeatherUrlInjective | src/App.js:114 | different city names give different weather URLs |
| Api.CityForecastUrlInjective | src/App.js:127 | different city names give different forecast URLs |
| Api.CoordsWeatherUrl | src/App.js:42 | the coordinates weather URL `/weather?lat=<lat>&lon=<lon>&appid=<key>&units=metric` |
| Api.CoordsForecastUrl | src/App.js:43 | the coordinates forecast URL `/forecast?lat=<lat>&lon=<lon>&appid=<key>&units=metric` |
| Api.CityWeatherUrl | src/App.js:114 | the city weather URL `/weather?q=<city>&appid=<key>&units=metric` |
| Api.CityForecastUrl | src/App.js:127 | the city forecast URL `/forecast?q=<city>&appid=<key>&units=metric` |
| Api.CoordsUrlInjective | src/App.js:42-43 | when the latitude text has no `&` (true of any rendered number), two coordinate pairs give the same URL only if they are equal |
| Api.CoordsWeatherUrlInjective | src/App.js:42 | different coordinate pairs give different weather URLs (latitude text without `&`) |
| Api.CoordsForecastUrlInjective | src/App.js:43 | different coordinate pairs give different forecast URLs (latitude text without `&`) |
| Api.RequestUrlEndsWithKey | src/App.js:42-43 | every request URL ends with the configured key and metric units |
| Lookup.FirstFive | src/App.js:62 | `slice(0, 5)` keeps min(5, length of the list) entries, and they are a prefix of the list in its order |
| Lookup.ErrorMessage | src/App.js:65 | `Error: ${err.message \|\| fallback}`: the message after `Error: `, or the fallback when it is empty |
| Lookup.CoordsStatusError | src/App.js:51-54 | `<Weather\|Forecast> API error: <status>`; never empty, so the fallback never replaces it |
| Lookup.CityStatusError | src/App.js:120-133 | `<Weather\|Forecast> API error: <status> - <text>`; never empty, so the fallback never replaces it |
| Lookup.FirstRejection | src/App.js:45-48 | `Promise.all` rejects with the message of the request that rejected, the first one when both did |
| Lookup.CoordsOutcome | src/App.js:45-65 | the coordinates lookup succeeds iff both responses arrived and are ok, and then yields the weather body and the truncated list; a failure always carries a message starting `Error: ` with text after it |
| Lookup.CoordsWeatherFailure | src/App.js:50-52 | a failed weather response gives `Error: Weather API error: <status>`, whatever the forecast response was |
| Lookup.CoordsForecastFailureNeedsWeatherOk | src/App.js:50-55 | a forecast status message arises only when the weather response was ok, and it names the forecast's status |
| Lookup.CoordsForecastFailure | src/App.js:53-54 | an ok weather response and a failed forecast response give `Error: Forecast API error: <status>` |
| Lookup.CoordsEmptyRejection | src/App.js:65 | whichever rejection `Promise.all` reports (weather, forecast, or the first of both), an empty message shows `Error: Failed to fetch weather data` |
| Lookup.CoordsRejection | src/App.js:45-65 | whichever rejection `Promise.all` reports, a non-empty message (a failed `fetch`'s `TypeError`) shows as `Error: <message>` |
| Lookup.CityOutcome | src/App.js:113-140 | the real-API city lookup succeeds iff the weather response is ok and then the forecast response is ok, and yields the weather body and the truncated list; a failure always carries a message starting `Error: ` with text after it |
| Lookup.CityForecastUnusedAfterWeatherFailure | src/App.js:117-121 | when the weather request fails the forecast response has no effect and the lookup fails |
| Lookup.CityWeatherFailure | src/App.js:117-121 | a failed weather response gives `Error: Weather API error: <status> - <text>` |
| Lookup.CityForecastFailure | src/App.js:130-134 | a failed forecast response after an ok weather response gives `Error: Forecast API error: <status> - <text>` |
| Lookup.CityEmptyRejection | src/App.js:143 | an empty-message rejection of the weather request, or of the forecast request made after an ok weather response, shows `Error: City not found. Please try again.` |
| Lookup.CityRejection | src/App.js:115-143 | a non-empty rejection message of the weather request, or of the forecast request made after an ok weather response, shows as `Error: <message>` |
| Lookup.CityStatusErrorDecodable | src/App.js:120 | status and response text can both be read back from a city error message |
| Lookup.IsPlaceholderKey | src/App.js:79 | the key is one of the three placeholder literals |
| Lookup.ResolveApiKey | src/App.js:4 | the key is never empty and is either the fallback or the environment's value; it is a placeholder (demo mode) iff the environment gives no key, an empty key, or a placeholder key |
| Lookup.ValidDraws | src/App.js:92-105 | each `Math.floor(Math.random() * n) + k` lies in k..k+n-1, the wind speed in [1, 6) |
| Lookup.UnixSeconds | src/App.js:86 | `Math.floor(Date.now() / 1000)`: the whole seconds t with t*1000 <= now < t*1000 + 1000 |
| Lookup.DemoWeather | src/App.js:83-98 | demo conditions carry the requested name, country `US`, the current second, clear sky, and the drawn ranges |
| Lookup.DemoForecast | src/App.js:100-106 | exactly five entries with `dt = now + k*86400` for k = 1..5, strictly increasing, temperatures in their drawn ranges |
| Lookup.CityLookupOutcome | src/App.js:79-140 | under a placeholder key the lookup is loaded with the requested name; otherwise it is loaded iff the weather and then the forecast response are ok; at most five entries; a failure always carries a message starting `Error: ` |
| Lookup.CityRequests | src/App.js:79-128 | no request under a placeholder key; otherwise the weather URL, then the forecast URL only after an ok weather response |
| Lookup.DemoLookup | src/App.js:79-110 | under a placeholder key the lookup always succeeds for the requested name with five entries one day apart |
| App.WeatherApp.constructor | src/App.js:9-13 | the initial state is `null`, `[]`, `''`, `false` and `''`, with the key resolved from the environment |
| App.WeatherApp.SetCity | src/App.js:194 | typing replaces `city` and nothing else |
| App.WeatherApp.BeginRequest | src/App.js:36-37 | before its first await a lookup sets `loading` and clears `error`, leaving the displayed data alone |
| App.WeatherApp.FetchWeatherByCoords | src/App.js:34-69 | requests both coordinate URLs. On success it shows both bodies with no error; on failure it keeps `weather` and `forecast` and shows the message. `error` is non-empty exactly when the lookup failed. `loading` ends false |
| App.WeatherApp.FetchWeatherByCity | src/App.js:71-147 | makes exactly the requests of `CityRequests` and leaves the state `CityLookupOutcome` gives. `error` is non-empty exactly when the lookup failed; `loading` ends false; demo mode ends with no error |
| App.WeatherApp.HandleSearch | src/App.js:149-154 | with blank text it requests nothing and changes nothing; otherwise it performs the city lookup on the trimmed text |
| App.PaddedParisTrims | src/App.js:152 | `"  Paris "` trims to `"Paris"` (the general fact is `JsString.TrimSplit`) |
| App.SearchWithDefaultKey | src/App.js:4-110 | with the fallback key a search for `  Paris ` makes no request and shows demo data for `Paris` with no error |

## Left out

- The JSX, the CSS classes and the icon URL helper (src/App.js:156-158, 175-344) are presentation. This includes the submit button that is disabled while loading, and `e.preventDefault()`.
- `formatDate`, `formatTime` and the `Math.round` display rounding are locale and floating-point formatting done at render time.
- The geolocation effect (src/App.js:16-32) is a browser callback API. Its failure path only sets `loading` to false, which it already is initially.
- Real `fetch`, `Promise.all` scheduling and `console` logging are I/O. Each settled request is an input. When both coordinate requests reject, a boolean says which rejected first.
- `.json()` and `.text()` parsing failures are not modelled: bodies arrive parsed. A forecast body without `list` would throw a `TypeError` in the source; that case is not modelled either.
- Numbers are not modelled as JavaScript doubles. Temperatures and wind speed are `real`. The wind speed draw `Math.random() * 5 + 1` is a real in [1, 6). The coordinates are passed as the text JavaScript renders them to.
- `Date.now()` is read once. The source reads it six times within one synchronous block; the model takes one instant for all of them.
- Overlapping in-flight lookups and React's render scheduling are not modelled. The earliest intermediate state, the one after `BeginRequest`, is the only one stated.
- Api.CoordsUrlInjective: it assumes the latitude text holds no `&`. This holds for every number JavaScript renders, but not for arbitrary text. An `&` inside the latitude would make the query ambiguous.
