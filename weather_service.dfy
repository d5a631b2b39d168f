/**
 * The per-city cache-refresh engine of backend/app/services/weather_service.py.
 *
 * The MongoDB collection "city_readings" is a class holding a map from city
 * name to its document. The Open-Meteo call is an oracle: one response per
 * configured city. The wall clock is a parameter (`now`, in microseconds,
 * the resolution of Python's datetime), and so is the local timestamp string
 * written into new readings.
 *
 * Temperatures are integer hundredths of a degree (2130 is 21.30 degrees).
 */
module WeatherService {
  import opened Wrappers

  // ---------------------------------------------------------------------
  // Static configuration
  // ---------------------------------------------------------------------

  /** One row of the city table; coordinates in ten-thousandths of a degree. */
  datatype City = City(name: string, lat: int, lng: int, timezone: string)

  const Cities: seq<City> := [
    City("Tokyo", 356895, 1396917, "Asia/Tokyo"),
    City("San Diego", 327628, -1171633, "America/Los_Angeles"),
    City("Las Vegas", 361699, -1151398, "America/Los_Angeles"),
    City("London", 515074, -1278, "Europe/London"),
    City("Sydney", -338688, 1512093, "Australia/Sydney"),
    City("New York", 407128, -740060, "America/New_York")
  ]

  const MicrosPerMinute: int := 60_000_000

  /**
   * The instant MongoDB keeps for a written `datetime`: BSON dates hold
   * milliseconds, so the microseconds below the millisecond are dropped.
   */
  function StoredInstant(t: int): (r: int)
    ensures r <= t < r + 1000
    ensures r % 1000 == 0
  {
    t / 1000 * 1000
  }

  /** The city table is keyed by name: no two rows share one. */
  lemma CityNamesDistinct()
    ensures forall i, j :: 0 <= i < j < |Cities| ==> Cities[i].name != Cities[j].name
  {
    assert Cities[0].name[0] == 'T' && Cities[1].name[0] == 'S' && Cities[2].name[0] == 'L';
    assert Cities[3].name[0] == 'L' && Cities[4].name[0] == 'S' && Cities[5].name[0] == 'N';
    assert |Cities[0].name| == 5 && |Cities[1].name| == 9 && |Cities[2].name| == 9;
    assert |Cities[3].name| == 6 && |Cities[4].name| == 6 && |Cities[5].name| == 8;
  }

  // ---------------------------------------------------------------------
  // Stored data
  // ---------------------------------------------------------------------

  /** The `data` sub-document: one reading of one city. */
  datatype Reading = Reading(
    id: int,
    city: string,
    tempC: Option<int>,
    tempF: Option<int>,
    timezone: string,
    localTime: string)

  /** A document of the collection: when it was refreshed, and its reading. */
  datatype Doc = Doc(updatedAt: Option<int>, data: Reading)

  /** `collection.find_one({"city": name})` over the collection's contents. */
  function Lookup(docs: map<string, Doc>, city: string): (r: Option<Doc>)
    ensures r.Some? <==> city in docs
    ensures r.Some? ==> r.value == docs[city]
  {
    if city in docs then Some(docs[city]) else None
  }

  /** The collection "city_readings", keyed by city name. */
  class Collection {
    var docs: map<string, Doc>

    constructor ()
      ensures docs == map[]
    {
      docs := map[];
    }

    /** `find_one({"city": city})`: no side effect. */
    method FindOne(city: string) returns (r: Option<Doc>)
      ensures r == Lookup(docs, city)
    {
      if city in docs {
        r := Some(docs[city]);
      } else {
        r := None;
      }
    }

    /**
     * `update_one({"city": city}, {"$set": {"updated_at": t, "data": data}}, upsert=True)`:
     * sets both fields of an existing document or creates the document;
     * every other document is left alone. The stored `updated_at` is `t`
     * cut to the millisecond.
     */
    method UpdateOne(city: string, updatedAt: int, data: Reading)
      modifies this
      ensures docs == old(docs)[city := Doc(Some(StoredInstant(updatedAt)), data)]
      ensures forall k :: k != city ==> Lookup(docs, k) == Lookup(old(docs), k)
    {
      docs := docs[city := Doc(Some(StoredInstant(updatedAt)), data)];
    }
  }

  // ---------------------------------------------------------------------
  // The upstream call
  // ---------------------------------------------------------------------

  /** The value under "temperature" in the `current_weather` object. */
  datatype Temperature = Missing | Null | Degrees(hundredths: int)

  /** The `current_weather` object: its temperature and the names of its other keys. */
  datatype CurrentWeather = CurrentWeather(temperature: Temperature, otherKeys: set<string>)

  /**
   * What one HTTP exchange with Open-Meteo gave: an exception anywhere in the
   * `try` block (connection, non-2xx status, a body that is not JSON), or a
   * parsed body whose "current_weather" key is present or absent.
   */
  datatype UpstreamResponse = Raised | Parsed(currentWeather: Option<CurrentWeather>)

  /**
   * `fetch_external_weather`: never raises. An exception becomes `None`; a
   * body without "current_weather" becomes the empty object `{}`.
   */
  function FetchExternalWeather(response: UpstreamResponse): (r: Option<CurrentWeather>)
    ensures r.None? <==> response.Raised?
    ensures response.Parsed? && response.currentWeather.None? ==> !Succeeded(r)
    ensures response.Parsed? && response.currentWeather.Some? ==> r == response.currentWeather
  {
    match response
    case Raised => None
    case Parsed(cw) => if cw.Some? then cw else Some(CurrentWeather(Missing, {}))
  }

  /**
   * Python truthiness of `weather_data`: not `None` and not the empty object.
   * An object without a temperature still counts, as long as it has some key.
   */
  predicate Succeeded(weatherData: Option<CurrentWeather>)
    ensures Succeeded(weatherData) <==> weatherData.Some? && weatherData.value != CurrentWeather(Missing, {})
    ensures weatherData.Some? && weatherData.value.otherKeys != {} ==> Succeeded(weatherData)
  {
    weatherData.Some? && (weatherData.value.temperature != Missing || weatherData.value.otherKeys != {})
  }

  /** `weather_data.get("temperature")`: `None` when the key is missing or null. */
  function TemperatureOf(w: CurrentWeather): (r: Option<int>)
    ensures r.Some? <==> w.temperature.Degrees?
    ensures r.Some? ==> r.value == w.temperature.hundredths
  {
    if w.temperature.Degrees? then Some(w.temperature.hundredths) else None
  }

  // ---------------------------------------------------------------------
  // Pure steps of the refresh
  // ---------------------------------------------------------------------

  /**
   * `round(c * 9/5 + 32, 2)` on hundredths: the hundredth nearest to the
   * exact Fahrenheit value. The exact value is (9c + 16000) / 5 hundredths,
   * so the distance is at most 2/5 of a hundredth and a tie never occurs.
   */
  function ToFahrenheit(celsius: int): (f: int)
    ensures -2 <= 5 * f - (9 * celsius + 16000) <= 2
  {
    (18 * celsius + 5) / 10 + 3200
  }

  /** `temp_f`: derived from `temp_c` when present, else absent. */
  function FahrenheitOf(tempC: Option<int>): (r: Option<int>)
    ensures r.Some? <==> tempC.Some?
    ensures r.Some? ==> -2 <= 5 * r.value - (9 * tempC.value + 16000) <= 2
  {
    if tempC.Some? then Some(ToFahrenheit(tempC.value)) else None
  }

  /**
   * The cached document may be served as is: it exists, has an `updated_at`,
   * and strictly less than the refresh interval has elapsed since.
   */
  predicate IsFresh(cached: Option<Doc>, now: int, intervalMinutes: int)
    ensures IsFresh(cached, now, intervalMinutes) ==> cached.Some? && cached.value.updatedAt.Some?
    ensures intervalMinutes <= 0 && cached.Some? && cached.value.updatedAt.Some? && cached.value.updatedAt.value <= now
      ==> !IsFresh(cached, now, intervalMinutes)
    ensures cached.Some? && cached.value.updatedAt.Some? && intervalMinutes > 0 && cached.value.updatedAt.value == now
      ==> IsFresh(cached, now, intervalMinutes)
  {
    cached.Some? && cached.value.updatedAt.Some?
    && now - cached.value.updatedAt.value < intervalMinutes * MicrosPerMinute
  }

  /** The reading built for the city at `index` from a successful fetch. */
  function NewReading(index: nat, weatherData: CurrentWeather, localTime: string): (r: Reading)
    requires index < |Cities|
    ensures r.id == index + 1 && r.city == Cities[index].name && r.timezone == Cities[index].timezone
    ensures r.tempC == TemperatureOf(weatherData) && r.localTime == localTime
    ensures r.tempC.Some? <==> weatherData.temperature.Degrees?
    ensures r.tempF.Some? <==> r.tempC.Some?
    ensures r.tempF.Some? ==> -2 <= 5 * r.tempF.value - (9 * r.tempC.value + 16000) <= 2
  {
    var tempC := TemperatureOf(weatherData);
    Reading(index + 1, Cities[index].name, tempC, FahrenheitOf(tempC), Cities[index].timezone, localTime)
  }

  /** The inputs of one pass besides the store: the clock and the configured interval. */
  datatype Context = Context(now: int, localTime: string, refreshIntervalMinutes: int)

  /** What the pass does for one city. */
  datatype Outcome = Outcome(fetchAttempted: bool, write: Option<Doc>, served: Option<Reading>)

  /**
   * The loop body of `get_city_readings` for the city at `index`, given the
   * document found for it and the upstream's answer (consulted only when the
   * document is not fresh).
   */
  function CityStep(index: nat, cached: Option<Doc>, response: UpstreamResponse, ctx: Context): (o: Outcome)
    requires index < |Cities|
    ensures o.fetchAttempted <==> !IsFresh(cached, ctx.now, ctx.refreshIntervalMinutes)
    ensures o.write.Some? <==> o.fetchAttempted && Succeeded(FetchExternalWeather(response))
    ensures o.write.Some? ==>
      o.write.value.updatedAt == Some(StoredInstant(ctx.now)) && o.served == Some(o.write.value.data)
      && o.write.value.data == NewReading(index, FetchExternalWeather(response).value, ctx.localTime)
      && o.write.value.data.id == index + 1 && o.write.value.data.city == Cities[index].name
      && o.write.value.data.timezone == Cities[index].timezone
    ensures o.write.None? ==> o.served == (if cached.Some? then Some(cached.value.data) else None)
    ensures o.served.None? <==> cached.None? && !Succeeded(FetchExternalWeather(response))
  {
    if IsFresh(cached, ctx.now, ctx.refreshIntervalMinutes) then
      Outcome(false, None, Some(cached.value.data))
    else
      var weatherData := FetchExternalWeather(response);
      if Succeeded(weatherData) then
        var reading := NewReading(index, weatherData.value, ctx.localTime);
        Outcome(true, Some(Doc(Some(StoredInstant(ctx.now)), reading)), Some(reading))
      else if cached.Some? then
        Outcome(true, None, Some(cached.value.data))
      else
        Outcome(true, None, None)
  }

  // ---------------------------------------------------------------------
  // The whole pass, as functions of the store it started from
  // ---------------------------------------------------------------------

  /** The outcome for city `i`, from the document the pass found at its start. */
  function OutcomeAt(docs: map<string, Doc>, ctx: Context, upstream: seq<UpstreamResponse>, i: nat): Outcome
    requires i < |Cities| == |upstream|
  {
    CityStep(i, Lookup(docs, Cities[i].name), upstream[i], ctx)
  }

  /** The store after the first `n` cities of the pass. */
  function StoreAfter(docs: map<string, Doc>, ctx: Context, upstream: seq<UpstreamResponse>, n: nat): (r: map<string, Doc>)
    requires n <= |Cities| == |upstream|
    ensures docs.Keys <= r.Keys
  {
    if n == 0 then docs
    else
      var prev := StoreAfter(docs, ctx, upstream, n - 1);
      var o := OutcomeAt(docs, ctx, upstream, n - 1);
      if o.write.Some? then prev[Cities[n - 1].name := o.write.value] else prev
  }

  /** The result list after the first `n` cities of the pass. */
  function ResultsAfter(docs: map<string, Doc>, ctx: Context, upstream: seq<UpstreamResponse>, n: nat): (r: seq<Reading>)
    requires n <= |Cities| == |upstream|
    ensures |r| <= n
  {
    if n == 0 then []
    else
      var o := OutcomeAt(docs, ctx, upstream, n - 1);
      ResultsAfter(docs, ctx, upstream, n - 1) + (if o.served.Some? then [o.served.value] else [])
  }

  /** The indices of the cities, among the first `n`, for which the upstream was called. */
  function FetchedAfter(docs: map<string, Doc>, ctx: Context, upstream: seq<UpstreamResponse>, n: nat): (r: seq<nat>)
    requires n <= |Cities| == |upstream|
    ensures |r| <= n
    ensures forall k :: 0 <= k < |r| ==> r[k] < n
    ensures forall k, l :: 0 <= k < l < |r| ==> r[k] < r[l]
  {
    if n == 0 then []
    else
      var o := OutcomeAt(docs, ctx, upstream, n - 1);
      FetchedAfter(docs, ctx, upstream, n - 1) + (if o.fetchAttempted then [n - 1] else [])
  }

  /** The first `n` cities leave the documents of the later cities as they were. */
  lemma {:induction false} StoreAfterUntouched(docs: map<string, Doc>, ctx: Context, upstream: seq<UpstreamResponse>, n: nat, j: nat)
    requires n <= j < |Cities| == |upstream|
    ensures Lookup(StoreAfter(docs, ctx, upstream, n), Cities[j].name) == Lookup(docs, Cities[j].name)
  {
    if n > 0 {
      StoreAfterUntouched(docs, ctx, upstream, n - 1, j);
      CityNamesDistinct();
    }
  }

  // ---------------------------------------------------------------------
  // get_city_readings
  // ---------------------------------------------------------------------

  /**
   * `get_city_readings`: one pass over the city table. The ghost result
   * `fetched` lists the cities for which the upstream was called.
   */
  method GetCityReadings(collection: Collection, ctx: Context, upstream: seq<UpstreamResponse>)
    returns (results: seq<Reading>, ghost fetched: seq<nat>)
    requires |upstream| == |Cities|
    modifies collection
    ensures collection.docs == StoreAfter(old(collection.docs), ctx, upstream, |Cities|)
    ensures results == ResultsAfter(old(collection.docs), ctx, upstream, |Cities|)
    ensures fetched == FetchedAfter(old(collection.docs), ctx, upstream, |Cities|)
  {
    ghost var docs0 := collection.docs;
    results := [];
    fetched := [];
    var index := 0;
    while index < |Cities|
      invariant 0 <= index <= |Cities|
      invariant collection.docs == StoreAfter(docs0, ctx, upstream, index)
      invariant results == ResultsAfter(docs0, ctx, upstream, index)
      invariant fetched == FetchedAfter(docs0, ctx, upstream, index)
    {
      var city := Cities[index];
      var cachedDoc := collection.FindOne(city.name);
      StoreAfterUntouched(docs0, ctx, upstream, index, index);

      var needsUpdate := true;
      if cachedDoc.Some? {
        var lastUpdated := cachedDoc.value.updatedAt;
        if lastUpdated.Some? && ctx.now - lastUpdated.value < ctx.refreshIntervalMinutes * MicrosPerMinute {
          needsUpdate := false;
          results := results + [cachedDoc.value.data];
        }
      }

      if needsUpdate {
        fetched := fetched + [index];
        var weatherData := FetchExternalWeather(upstream[index]);
        if Succeeded(weatherData) {
          var tempC := TemperatureOf(weatherData.value);
          var tempF := if tempC.Some? then Some(ToFahrenheit(tempC.value)) else None;
          var reading := Reading(index + 1, city.name, tempC, tempF, city.timezone, ctx.localTime);
          collection.UpdateOne(city.name, ctx.now, reading);
          results := results + [reading];
        } else if cachedDoc.Some? {
          results := results + [cachedDoc.value.data];
        }
      }
      index := index + 1;
    }
  }
}
