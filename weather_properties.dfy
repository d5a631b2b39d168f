/**
 * What one pass of `get_city_readings` promises, stated over the functions
 * that `WeatherService.GetCityReadings` is proved to compute.
 */
module WeatherProperties {
  import opened Wrappers
  import opened WeatherService

  // ---------------------------------------------------------------------
  // Temperature conversion
  // ---------------------------------------------------------------------

  /**
   * The converted value is the only hundredth within half a hundredth of the
   * exact Fahrenheit value, so the rounding is unambiguous; 20.00 C is 68.00 F.
   */
  lemma FahrenheitIsNearestHundredth(celsius: int, candidate: int)
    ensures -2 <= 5 * candidate - (9 * celsius + 16000) <= 2 <==> candidate == ToFahrenheit(celsius)
    ensures ToFahrenheit(2000) == 6800
  {
  }

  // ---------------------------------------------------------------------
  // The staleness rule
  // ---------------------------------------------------------------------

  /** The comparison is strict: an age equal to the interval is stale. */
  lemma AgeEqualToIntervalIsStale(reading: Reading, now: int, intervalMinutes: int)
    ensures !IsFresh(Some(Doc(Some(now - intervalMinutes * MicrosPerMinute), reading)), now, intervalMinutes)
  {
  }

  /** City `i` is fetched during the pass exactly when its document was not fresh. */
  lemma FetchedExactlyWhenStale(docs: map<string, Doc>, ctx: Context, upstream: seq<UpstreamResponse>, i: nat)
    requires i < |Cities| == |upstream|
    ensures i in FetchedAfter(docs, ctx, upstream, |Cities|)
      <==> !IsFresh(Lookup(docs, Cities[i].name), ctx.now, ctx.refreshIntervalMinutes)
  {
    FetchedPrefix(docs, ctx, upstream, |Cities|, i);
  }

  lemma {:induction false} FetchedPrefix(docs: map<string, Doc>, ctx: Context, upstream: seq<UpstreamResponse>, n: nat, i: nat)
    requires i < n <= |Cities| == |upstream|
    ensures i in FetchedAfter(docs, ctx, upstream, n) <==> OutcomeAt(docs, ctx, upstream, i).fetchAttempted
  {
    if i < n - 1 {
      FetchedPrefix(docs, ctx, upstream, n - 1, i);
    }
  }

  /**
   * With a zero interval and no document stamped in the future, every city
   * is fetched, in table order.
   */
  lemma ZeroIntervalFetchesEveryCity(docs: map<string, Doc>, ctx: Context, upstream: seq<UpstreamResponse>)
    requires |upstream| == |Cities|
    requires ctx.refreshIntervalMinutes == 0
    requires forall k :: k in docs && docs[k].updatedAt.Some? ==> docs[k].updatedAt.value <= ctx.now
    ensures FetchedAfter(docs, ctx, upstream, |Cities|) == [0, 1, 2, 3, 4, 5]
  {
    AllFetched(docs, ctx, upstream, |Cities|);
  }

  lemma {:induction false} AllFetched(docs: map<string, Doc>, ctx: Context, upstream: seq<UpstreamResponse>, n: nat)
    requires n <= |Cities| == |upstream|
    requires ctx.refreshIntervalMinutes == 0
    requires forall k :: k in docs && docs[k].updatedAt.Some? ==> docs[k].updatedAt.value <= ctx.now
    ensures |FetchedAfter(docs, ctx, upstream, n)| == n
    ensures forall k :: 0 <= k < n ==> FetchedAfter(docs, ctx, upstream, n)[k] == k
  {
    if n > 0 {
      AllFetched(docs, ctx, upstream, n - 1);
      assert OutcomeAt(docs, ctx, upstream, n - 1).fetchAttempted;
    }
  }

  // ---------------------------------------------------------------------
  // What the pass writes
  // ---------------------------------------------------------------------

  /**
   * After the pass, the document of city `i` holds the fresh timestamp and the
   * new reading exactly when its document was stale and the fetch succeeded
   * (the document is created when missing); otherwise it is as before.
   */
  lemma RefreshWritesExactlyOnSuccessfulFetch(docs: map<string, Doc>, ctx: Context, upstream: seq<UpstreamResponse>, i: nat)
    requires i < |Cities| == |upstream|
    ensures
      var cached := Lookup(docs, Cities[i].name);
      var weatherData := FetchExternalWeather(upstream[i]);
      Lookup(StoreAfter(docs, ctx, upstream, |Cities|), Cities[i].name) ==
        if !IsFresh(cached, ctx.now, ctx.refreshIntervalMinutes) && Succeeded(weatherData)
        then Some(Doc(Some(StoredInstant(ctx.now)), NewReading(i, weatherData.value, ctx.localTime)))
        else cached
  {
    StoreEntry(docs, ctx, upstream, |Cities|, i);
  }

  lemma {:induction false} StoreEntry(docs: map<string, Doc>, ctx: Context, upstream: seq<UpstreamResponse>, n: nat, i: nat)
    requires i < n <= |Cities| == |upstream|
    ensures
      var o := OutcomeAt(docs, ctx, upstream, i);
      Lookup(StoreAfter(docs, ctx, upstream, n), Cities[i].name) ==
        if o.write.Some? then o.write else Lookup(docs, Cities[i].name)
  {
    if i < n - 1 {
      StoreEntry(docs, ctx, upstream, n - 1, i);
      CityNamesDistinct();
      assert Cities[n - 1].name != Cities[i].name;
    } else {
      StoreAfterUntouched(docs, ctx, upstream, i, i);
      var o := OutcomeAt(docs, ctx, upstream, i);
      var before := StoreAfter(docs, ctx, upstream, i);
      var name := Cities[i].name;
      if o.write.Some? {
        assert StoreAfter(docs, ctx, upstream, i + 1) == before[name := o.write.value];
      } else {
        assert StoreAfter(docs, ctx, upstream, i + 1) == before;
      }
    }
  }

  /** Documents whose key is not a configured city are never touched. */
  lemma {:induction false} OtherDocumentsUnchanged(docs: map<string, Doc>, ctx: Context, upstream: seq<UpstreamResponse>, n: nat, key: string)
    requires n <= |Cities| == |upstream|
    requires forall i :: 0 <= i < |Cities| ==> Cities[i].name != key
    ensures Lookup(StoreAfter(docs, ctx, upstream, n), key) == Lookup(docs, key)
  {
    if n > 0 {
      OtherDocumentsUnchanged(docs, ctx, upstream, n - 1, key);
      var prev := StoreAfter(docs, ctx, upstream, n - 1);
      var o := OutcomeAt(docs, ctx, upstream, n - 1);
      assert Cities[n - 1].name != key;
      if o.write.Some? {
        assert StoreAfter(docs, ctx, upstream, n) == prev[Cities[n - 1].name := o.write.value];
      } else {
        assert StoreAfter(docs, ctx, upstream, n) == prev;
      }
    }
  }

  /** The readings served from the store: the cached `data` of every city that has a document, in table order. */
  function CachedData(docs: map<string, Doc>, n: nat): (r: seq<Reading>)
    requires n <= |Cities|
    ensures |r| <= n
  {
    if n == 0 then []
    else CachedData(docs, n - 1) + (if Cities[n - 1].name in docs then [docs[Cities[n - 1].name].data] else [])
  }

  /**
   * When the upstream fails for every city, the store is not written and
   * the result is the cached reading of each city that has one.
   */
  lemma {:induction false} UpstreamDownServesCacheOnly(docs: map<string, Doc>, ctx: Context, upstream: seq<UpstreamResponse>, n: nat)
    requires n <= |Cities| == |upstream|
    requires forall i :: 0 <= i < |upstream| ==> !Succeeded(FetchExternalWeather(upstream[i]))
    ensures StoreAfter(docs, ctx, upstream, n) == docs
    ensures ResultsAfter(docs, ctx, upstream, n) == CachedData(docs, n)
  {
    if n > 0 {
      UpstreamDownServesCacheOnly(docs, ctx, upstream, n - 1);
    }
  }

  /**
   * When every city's document is fresh, the upstream is not called, the
   * store is not written, and every city is served its cached reading.
   */
  lemma {:induction false} AllFreshServesCacheWithoutFetch(docs: map<string, Doc>, ctx: Context, upstream: seq<UpstreamResponse>, n: nat)
    requires n <= |Cities| == |upstream|
    requires forall i :: 0 <= i < |Cities| ==> IsFresh(Lookup(docs, Cities[i].name), ctx.now, ctx.refreshIntervalMinutes)
    ensures FetchedAfter(docs, ctx, upstream, n) == []
    ensures StoreAfter(docs, ctx, upstream, n) == docs
    ensures ResultsAfter(docs, ctx, upstream, n) == CachedData(docs, n)
    ensures |ResultsAfter(docs, ctx, upstream, n)| == n
  {
    if n > 0 {
      AllFreshServesCacheWithoutFetch(docs, ctx, upstream, n - 1);
      assert IsFresh(Lookup(docs, Cities[n - 1].name), ctx.now, ctx.refreshIntervalMinutes);
    }
  }

  /**
   * The upstream's answer for a fresh city is never looked at: replacing it
   * changes neither the store nor the result.
   */
  lemma {:induction false} FreshCityIgnoresUpstream(docs: map<string, Doc>, ctx: Context, upstream: seq<UpstreamResponse>, n: nat, i: nat, response: UpstreamResponse)
    requires n <= |Cities| == |upstream|
    requires i < |Cities|
    requires IsFresh(Lookup(docs, Cities[i].name), ctx.now, ctx.refreshIntervalMinutes)
    ensures StoreAfter(docs, ctx, upstream[i := response], n) == StoreAfter(docs, ctx, upstream, n)
    ensures ResultsAfter(docs, ctx, upstream[i := response], n) == ResultsAfter(docs, ctx, upstream, n)
  {
    if n > 0 {
      FreshCityIgnoresUpstream(docs, ctx, upstream, n - 1, i, response);
      assert OutcomeAt(docs, ctx, upstream[i := response], n - 1) == OutcomeAt(docs, ctx, upstream, n - 1);
    }
  }

  /**
   * A city refreshed by one pass is not fetched again by a later pass that
   * runs, with the same interval, at least a millisecond before that
   * interval has elapsed (the stored stamp may lag `now` by up to 999 µs).
   */
  lemma RefreshedCityNotRefetchedWithinInterval(
    docs: map<string, Doc>, ctx: Context, upstream: seq<UpstreamResponse>,
    later: Context, laterUpstream: seq<UpstreamResponse>, i: nat)
    requires i < |Cities| == |upstream| == |laterUpstream|
    requires OutcomeAt(docs, ctx, upstream, i).write.Some?
    requires later.refreshIntervalMinutes == ctx.refreshIntervalMinutes
    requires later.now - ctx.now + 1000 <= ctx.refreshIntervalMinutes * MicrosPerMinute
    ensures i !in FetchedAfter(StoreAfter(docs, ctx, upstream, |Cities|), later, laterUpstream, |Cities|)
  {
    StoreEntry(docs, ctx, upstream, |Cities|, i);
    FetchedExactlyWhenStale(StoreAfter(docs, ctx, upstream, |Cities|), later, laterUpstream, i);
  }

  /**
   * Because the stamp is cut to the millisecond, a document written 999 µs
   * past a whole millisecond is already stale 999 µs before a full interval
   * of pass time has gone by, whatever the interval: the slack of one
   * millisecond above cannot be made smaller.
   */
  lemma MillisecondStampCanExpireEarly(reading: Reading, written: int, intervalMinutes: int)
    requires written % 1000 == 999
    ensures !IsFresh(Some(Doc(Some(StoredInstant(written)), reading)), written + intervalMinutes * MicrosPerMinute - 999, intervalMinutes)
  {
  }

  // ---------------------------------------------------------------------
  // What the pass returns
  // ---------------------------------------------------------------------

  /** Every document is stored under its own city: the `data` of city `i` has id i + 1 and that city's name. */
  ghost predicate WellFormed(docs: map<string, Doc>)
  {
    forall i :: 0 <= i < |Cities| && Cities[i].name in docs ==>
      docs[Cities[i].name].data.id == i + 1 && docs[Cities[i].name].data.city == Cities[i].name
  }

  /** The pass keeps every document stored under its own city. */
  lemma PassPreservesWellFormed(docs: map<string, Doc>, ctx: Context, upstream: seq<UpstreamResponse>)
    requires |upstream| == |Cities|
    requires WellFormed(docs)
    ensures WellFormed(StoreAfter(docs, ctx, upstream, |Cities|))
  {
    forall i | 0 <= i < |Cities|
      ensures var r := Lookup(StoreAfter(docs, ctx, upstream, |Cities|), Cities[i].name);
        r.Some? ==> r.value.data.id == i + 1 && r.value.data.city == Cities[i].name
    {
      StoreEntry(docs, ctx, upstream, |Cities|, i);
    }
  }

  /**
   * Readings in table order, drawn from the first `n` cities: ids strictly
   * increase, so no city appears twice, and each reading names the city its
   * id points to.
   */
  ghost predicate InCityOrder(results: seq<Reading>, n: nat)
    requires n <= |Cities|
  {
    (forall k :: 0 <= k < |results| ==> 1 <= results[k].id <= n && results[k].city == Cities[results[k].id - 1].name)
    && (forall k, l :: 0 <= k < l < |results| ==> results[k].id < results[l].id)
  }

  /** Over a well-formed store, what city `i` contributes is a reading of city `i`. */
  lemma ServedReadingIsOwnCity(docs: map<string, Doc>, ctx: Context, upstream: seq<UpstreamResponse>, i: nat)
    requires i < |Cities| == |upstream|
    requires WellFormed(docs)
    ensures var o := OutcomeAt(docs, ctx, upstream, i);
      o.served.Some? ==> o.served.value.id == i + 1 && o.served.value.city == Cities[i].name
  {
    var o := OutcomeAt(docs, ctx, upstream, i);
    if o.served.Some? && o.write.None? {
      assert Cities[i].name in docs;
    }
  }

  /** Appending what the next city served keeps a result list in table order. */
  lemma AppendNextCityKeepsOrder(prev: seq<Reading>, served: Option<Reading>, n: nat)
    requires 0 < n <= |Cities|
    requires InCityOrder(prev, n - 1)
    requires served.Some? ==> served.value.id == n && served.value.city == Cities[n - 1].name
    ensures InCityOrder(prev + (if served.Some? then [served.value] else []), n)
  {
    if served.Some? {
      var r := prev + [served.value];
      forall k, l | 0 <= k < l < |r| ensures r[k].id < r[l].id {
        if l < |prev| {
          assert r[k] == prev[k] && r[l] == prev[l];
        } else {
          assert r[k] == prev[k] && r[l] == served.value;
        }
      }
      forall k | 0 <= k < |r| ensures 1 <= r[k].id <= n && r[k].city == Cities[r[k].id - 1].name {
        if k < |prev| {
          assert r[k] == prev[k];
        }
      }
    } else {
      assert prev + [] == prev;
    }
  }

  /** Over a well-formed store, the results of the pass are in table order. */
  lemma {:induction false} ResultsInCityOrder(docs: map<string, Doc>, ctx: Context, upstream: seq<UpstreamResponse>, n: nat)
    requires n <= |Cities| == |upstream|
    requires WellFormed(docs)
    ensures InCityOrder(ResultsAfter(docs, ctx, upstream, n), n)
  {
    if n > 0 {
      ResultsInCityOrder(docs, ctx, upstream, n - 1);
      ServedReadingIsOwnCity(docs, ctx, upstream, n - 1);
      AppendNextCityKeepsOrder(ResultsAfter(docs, ctx, upstream, n - 1), OutcomeAt(docs, ctx, upstream, n - 1).served, n);
    }
  }

  /** Some reading in `results` carries the id of city `i`. */
  ghost predicate HasCity(results: seq<Reading>, i: nat)
  {
    exists k :: 0 <= k < |results| && results[k].id == i + 1
  }

  /** Appending one reading adds exactly that reading's city. */
  lemma HasCityAppend(prev: seq<Reading>, reading: Reading, i: nat)
    ensures HasCity(prev + [reading], i) <==> HasCity(prev, i) || reading.id == i + 1
  {
    var r := prev + [reading];
    if HasCity(r, i) {
      var k :| 0 <= k < |r| && r[k].id == i + 1;
      if k < |prev| {
        assert prev[k] == r[k];
      }
    }
    if HasCity(prev, i) {
      var k :| 0 <= k < |prev| && prev[k].id == i + 1;
      assert r[k] == prev[k];
    }
    if reading.id == i + 1 {
      assert r[|prev|] == reading;
    }
  }

  /** Over a well-formed store, city `i` has a reading among the first `n` cities' results exactly when its step served one. */
  lemma {:induction false} ResultsContainCity(docs: map<string, Doc>, ctx: Context, upstream: seq<UpstreamResponse>, n: nat, i: nat)
    requires n <= |Cities| == |upstream|
    requires i < |Cities|
    requires WellFormed(docs)
    ensures HasCity(ResultsAfter(docs, ctx, upstream, n), i) <==> i < n && OutcomeAt(docs, ctx, upstream, i).served.Some?
  {
    if n > 0 {
      ResultsContainCity(docs, ctx, upstream, n - 1, i);
      ServedReadingIsOwnCity(docs, ctx, upstream, n - 1);
      var prev := ResultsAfter(docs, ctx, upstream, n - 1);
      var o := OutcomeAt(docs, ctx, upstream, n - 1);
      if o.served.Some? {
        var next := prev + [o.served.value];
        assert ResultsAfter(docs, ctx, upstream, n) == next;
        HasCityAppend(prev, o.served.value, i);
      } else {
        assert ResultsAfter(docs, ctx, upstream, n) == prev;
      }
    }
  }

  /**
   * Over a well-formed store, a city is missing from the result exactly
   * when it has no document and its fetch failed.
   */
  lemma CityOmittedExactlyWhenNoDocAndFetchFailed(docs: map<string, Doc>, ctx: Context, upstream: seq<UpstreamResponse>, i: nat)
    requires i < |Cities| == |upstream|
    requires WellFormed(docs)
    ensures !HasCity(ResultsAfter(docs, ctx, upstream, |Cities|), i)
      <==> Cities[i].name !in docs && !Succeeded(FetchExternalWeather(upstream[i]))
  {
    ResultsContainCity(docs, ctx, upstream, |Cities|, i);
  }
}
