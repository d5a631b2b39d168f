# Weather cache refresh and API-key gate, in Dafny

This project models two parts of a small weather backend.

**The refresh engine** (`get_city_readings`) walks a fixed table of six
cities. For each city it looks up the city's document in the
`city_readings` collection. It serves the document's reading when the
reading is younger than the refresh interval. Otherwise it asks Open-Meteo
for the current weather. On success it converts Celsius to Fahrenheit,
builds a new reading and upserts it with a fresh `updated_at`. On failure
it falls back to the cached reading, or leaves the city out when there is
none. The store keeps one latest reading per city.

**The API-key gate** (`api_key_middleware`) decides each request: forward it,
answer 401 (no key), or answer 403 (wrong key). Only paths under `/api/`
are guarded.

Files:

- `wrappers.dfy`: the `Option` datatype (Python's `None`-or-value).
- `weather_service.dfy`, module `WeatherService`:
  - the city table, the stored documents and the collection (a class over a `map`);
  - the upstream oracle, the staleness rule and the Fahrenheit conversion;
  - one city's step (`CityStep`) and the whole pass as functions of the starting store;
  - `GetCityReadings`, the loop itself, proved to compute those functions.
- `weather_properties.dfy`, module `WeatherProperties`: what a pass promises. This covers when the upstream is called, what is written, what is returned, and in which order.
- `auth.dfy`, module `Auth`: the gate's decision as a function, with its precedence lemmas.

Representation choices:

- Temperatures are integer hundredths of a degree.
  - `round(c * 9/5 + 32, 2)` becomes "the hundredth nearest to the exact value".
  - The exact value is a multiple of 1/5 of a hundredth, so a tie never occurs.
  - Python's half-to-even rule therefore never comes into play.
- Instants are integer microseconds, the resolution of Python's `datetime`. The interval is in minutes: `MicrosPerMinute` is 60,000,000.
- MongoDB stores a `datetime` as a BSON date, which has millisecond resolution. The `updated_at` read back is therefore `now` cut down to the millisecond (`StoredInstant`).
- The upstream is one `UpstreamResponse` per city:
  - `Raised` means an exception inside `fetch_external_weather`'s `try` block;
  - `Parsed(cw)` means a decoded body, with `cw` absent when the body has no `current_weather` key.
- Open-Meteo's `current_weather` object is its `temperature` field (missing, null or a number) plus the names of its other keys. That is enough to decide Python truthiness.

What the code does, in three points a reader might expect otherwise:

- The code keeps one reading per city: `$set` of `data` and `updated_at`. No file implements a capped reading history or a history reporter.
- A city with no document and a failed fetch is omitted from the result list. It is not reported as an empty entry.
- An empty result list is returned as is. No "no data" outcome is produced.

## Model

| member | source | states |
|---|---|---|
| `WeatherService.CityNamesDistinct` | backend/app/services/weather_service.py:7-14 | the six rows of the city table have pairwise different names, so each city has its own document |
| `WeatherService.StoredInstant` | backend/app/services/weather_service.py:66 | the stored `updated_at` is the write instant cut down to a whole millisecond: at most 999 µs earlier, never later |
| `WeatherService.Lookup` | backend/app/services/weather_service.py:34 | the document found for a city is the one keyed by its name, or nothing when there is none |
| `WeatherService.Collection.FindOne` | backend/app/services/weather_service.py:34 | the lookup returns the city's document if there is one, else nothing, and changes nothing |
| `WeatherService.Collection.UpdateOne` | backend/app/services/weather_service.py:62-71 | the upsert sets `updated_at` (cut to the millisecond) and `data` of the city's document, creating it when missing; every other document is unchanged |
| `WeatherService.FetchExternalWeather` | backend/app/services/weather_service.py:16-25 | never fails: an exception gives `None`; a body without `current_weather` gives the empty (falsy) object; otherwise the object itself |
| `WeatherService.Succeeded` | backend/app/services/weather_service.py:47 | `if weather_data` is Python truthiness: the payload passes if and only if it is present and not the empty object, so `{"temperature": null}` passes too |
| `WeatherService.TemperatureOf` | backend/app/services/weather_service.py:48 | `temperature` is absent exactly when the key is missing or null |
| `WeatherService.ToFahrenheit` | backend/app/services/weather_service.py:50 | the result is within 2/5 of a hundredth of the exact Fahrenheit value `9c/5 + 32` |
| `WeatherService.FahrenheitOf` | backend/app/services/weather_service.py:50 | `tempF` is present exactly when `tempC` is, and then is the nearest hundredth to the converted value |
| `WeatherService.IsFresh` | backend/app/services/weather_service.py:36-40 | a cached document is served only when it exists and has an `updated_at`; with a non-positive interval nothing stamped in the past is fresh; with a positive interval a document stamped now is fresh |
| `WeatherService.NewReading` | backend/app/services/weather_service.py:52-59 | a new reading for table index i has id i + 1, that city's name and timezone, the given local time, `tempC` equal to the payload's temperature (present exactly when it is numeric), and `tempF` present exactly when `tempC` is and within 2/5 of a hundredth of its Fahrenheit value |
| `WeatherService.CityStep` | backend/app/services/weather_service.py:33-75 | one city: the upstream is called exactly when the document is not fresh; a write happens exactly when that call returns a truthy payload, stamps `now` cut to the millisecond, holds the new reading built from that payload, and is what is returned; without a write the cached reading is returned, or nothing when there is no document; a city is omitted exactly when it has no document and the fetch failed |
| `WeatherService.StoreAfter` | backend/app/services/weather_service.py:62-71 | the pass never deletes a document |
| `WeatherService.ResultsAfter` | backend/app/services/weather_service.py:30-77 | each city contributes at most one reading, so a pass returns at most six |
| `WeatherService.FetchedAfter` | backend/app/services/weather_service.py:44-45 | the upstream is called only for cities of the table, in strictly increasing table order, so no city twice |
| `WeatherService.StoreAfterUntouched` | backend/app/services/weather_service.py:32-34 | processing earlier cities leaves a later city's document as it was when the pass began |
| `WeatherService.GetCityReadings` | backend/app/services/weather_service.py:27-77 | the loop leaves the collection, returns the result list and calls the upstream exactly as the pass functions say, starting from the collection it found |
| `WeatherProperties.FahrenheitIsNearestHundredth` | backend/app/services/weather_service.py:50 | a hundredth is within 2/5 of a hundredth of the exact value if and only if it is the converted value, so the conversion is determined; 20.00 C gives 68.00 F |
| `WeatherProperties.AgeEqualToIntervalIsStale` | backend/app/services/weather_service.py:39 | the comparison is strict: an age equal to the interval is stale |
| `WeatherProperties.FetchedExactlyWhenStale` | backend/app/services/weather_service.py:36-45 | city i is fetched in a pass if and only if its document is missing, has no `updated_at`, or is at least one interval old |
| `WeatherProperties.ZeroIntervalFetchesEveryCity` | backend/app/services/weather_service.py:39 | with interval 0 and no document stamped in the future, every city is fetched, in table order |
| `WeatherProperties.RefreshWritesExactlyOnSuccessfulFetch` | backend/app/services/weather_service.py:44-71 | after the pass, city i's document is `updated_at = now` (cut to the millisecond) with the new reading exactly when it was stale and the fetch succeeded (created if missing), and is unchanged otherwise |
| `WeatherProperties.OtherDocumentsUnchanged` | backend/app/services/weather_service.py:62-71 | documents not keyed by a configured city are never touched |
| `WeatherProperties.UpstreamDownServesCacheOnly` | backend/app/services/weather_service.py:47-75 | when every fetch fails, nothing is written and the result is the cached reading of each city that has one, in table order |
| `WeatherProperties.AllFreshServesCacheWithoutFetch` | backend/app/services/weather_service.py:36-41 | when every document is fresh, no fetch happens, nothing is written, and all six cached readings are returned in table order |
| `WeatherProperties.FreshCityIgnoresUpstream` | backend/app/services/weather_service.py:39-45 | the upstream's answer for a fresh city affects neither the store nor the result |
| `WeatherProperties.RefreshedCityNotRefetchedWithinInterval` | backend/app/services/weather_service.py:39-71 | a city refreshed by one pass is not fetched by a later pass that runs at least a millisecond before the interval has elapsed |
| `WeatherProperties.MillisecondStampCanExpireEarly` | backend/app/services/weather_service.py:39-66 | for every write time 999 µs past a whole millisecond and every interval, the document is already stale when one interval minus 999 µs of pass time has gone by, so the millisecond of slack in the previous row is needed |
| `WeatherProperties.PassPreservesWellFormed` | backend/app/services/weather_service.py:52-71 | if every document holds a reading of its own city, with id = table index + 1, that stays true after the pass |
| `WeatherProperties.ServedReadingIsOwnCity` | backend/app/services/weather_service.py:41-75 | over such a store, what city i contributes is a reading with id i + 1 and city i's name |
| `WeatherProperties.AppendNextCityKeepsOrder` | backend/app/services/weather_service.py:72 | appending what the next city serves (a reading with the next id and that city's name, or nothing) keeps a result list in table order |
| `WeatherProperties.ResultsInCityOrder` | backend/app/services/weather_service.py:30-32 | over such a store, the result ids strictly increase and each reading names the city its id points to: table order, no city twice |
| `WeatherProperties.ResultsContainCity` | backend/app/services/weather_service.py:41-75 | over such a store, the results carry city i's id exactly when city i's step served a reading |
| `WeatherProperties.CityOmittedExactlyWhenNoDocAndFetchFailed` | backend/app/services/weather_service.py:47-75 | over such a store, city i is missing from the result if and only if it has no document and its fetch failed |
| `Auth.StartsWith` | backend/middleware/auth.py:12 | `startswith` is a prefix test: long enough and equal at every position of the prefix |
| `Auth.MissingKey` | backend/middleware/auth.py:17 | `not api_key` holds for a missing or empty header and fails only for a present, non-empty one |
| `Auth.VerifyApiKey` | backend/middleware/auth.py:8-9 | the key is accepted if and only if it has the configured key's length and the same character at every position |
| `Auth.ApiKeyMiddleware` | backend/middleware/auth.py:11-34 | forward exactly when the path is outside `/api/` or the header equals a non-empty configured key; 401 exactly for a missing or empty header under `/api/`; 403 exactly for a non-empty wrong key under `/api/` |
| `Auth.NonApiPathIgnoresHeader` | backend/middleware/auth.py:12-13 | outside `/api/` every header gives the same decision: forward |
| `Auth.EmptyKeyIsUnauthorizedNeverForbidden` | backend/middleware/auth.py:15-24 | under `/api/` a missing or empty header gives 401, never 403, even when the configured key is empty |
| `Auth.EmptyConfiguredKeyLocksApi` | backend/middleware/auth.py:17-29 | with an empty configured key no `/api/` request is forwarded |
| `Auth.ForwardedApiRequestHadConfiguredKey` | backend/middleware/auth.py:24-34 | a forwarded `/api/` request carried exactly the configured key |

## Left out

- Capped reading history and the history reporter: no source file implements them. The code keeps one latest reading per city.
- Outbound HTTP, `raise_for_status` and JSON decoding are replaced by the per-city `UpstreamResponse` oracle.
  - The oracle is indexed by city, so the coordinates in the table are carried but not used.
  - A JSON `null` under `current_weather` is folded into the missing-key case. Both are falsy and lead to the same outcome.
- WeatherService.CurrentWeather: a `temperature` that is neither null nor a number cannot be represented. The source would raise `TypeError` out of `get_city_readings`, and that request-level failure is not modelled.
- WeatherService.ToFahrenheit: binary floating point is not modelled. Temperatures are exact hundredths and the rounding is to the nearest hundredth, which never ties.
- WeatherService.GetCityReadings: one `now` and one `localTime` stand for the pass. The source reads the clock again for each comparison and each write; the local timestamp string is opaque.
- The configured key: `configuredKey` stands for `settings.API_KEY`, which `backend/app/config.py:3-17` does not declare. The source as shipped would raise `AttributeError` there, and `backend/main.py` never installs this middleware; the model takes the key as a parameter.
- WeatherService.FetchExternalWeather: a `current_weather` value that is not an object (a truthy list or string) cannot be represented. The source would pass the truthiness test and then raise on `.get` at `weather_service.py:48`.
- The MongoDB client, its connection errors, and `config.py`. `REFRESH_INTERVAL_MINUTES` (default 1) is the `refreshIntervalMinutes` parameter.
- WeatherService.Doc: a document holds only `updated_at` and `data`. Fields `$set` leaves alone (`_id`, `city`) are not modelled; a document without `data` (a `KeyError` in the source) cannot occur.
- Concurrency: the source has no locking, and concurrent passes are not modelled.
- The `print` of upstream errors and the middleware's logging.
- `call_next` chaining and the responses' JSON bodies: only the middleware's decision is modelled. The `X-API-Key` header is given as an optional string, already looked up.
- The FastAPI app, CORS and the router: they pass the result list through.
- The TypeScript frontend: DOM rendering, timers, `fetch` and locale formatting.
