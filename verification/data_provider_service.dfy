/**
 * The aggregation engine (DataProviderService): it calls the news and the
 * weather provider, normalises their records into AggregatedItems, keeps each
 * provider's list and the merged list in a cache, and filters and sorts the
 * merged list for the caller.
 *
 * The network and the JSON deserialiser are inputs here: each provider call
 * is given as a Fetch outcome together with the milliseconds the stopwatch
 * measured. The cache is a map from key to list; an expired entry is simply
 * absent.
 */
module Service {
  import opened Wrappers
  import opened Text
  import opened Models
  import opened Query
  import opened Tracker

  /** What JsonSerializer makes of a response body: it throws on malformed
      text, yields null for the JSON literal null, and otherwise yields a list
      whose elements may themselves be null. */
  datatype Json = Malformed | NullLiteral | Array(records: seq<Option<NewsResponse>>)

  /** The outcome of GetStringAsync: the request throws, or a body arrives. */
  datatype Fetch = HttpFailed | Received(body: Json)

  /** The three cache keys. */
  const NewsKey: string := "news_data"
  const WeatherKey: string := "weather_data"
  const AggregateKey: string := "aggregated_data"

  type Cache = map<string, seq<AggregatedItem>>

  // ------------------------------------------------------------ normalisation

  /** The normalised item of one raw record: its date, the source's name and
      no category. */
  function Normalized(apiName: string, x: NewsResponse): (r: AggregatedItem)
    ensures r.date == x.date && r.source == apiName && r.category == UnsetCategory
  {
    AggregatedItem(x.date, UnsetCategory, apiName)
  }

  /** The Select(...).ToList() over the deserialised records: one item per
      record, or nothing when a record is null (the lambda then throws). */
  function Project(apiName: string, records: seq<Option<NewsResponse>>): (r: Option<seq<AggregatedItem>>)
    ensures r.Some? <==> forall i :: 0 <= i < |records| ==> records[i].Some?
    ensures r.Some? ==>
              |r.value| == |records| &&
              forall i :: 0 <= i < |records| ==> r.value[i] == Normalized(apiName, records[i].value)
  {
    if records == [] then Some([])
    else if records[0].None? then None
    else match Project(apiName, records[1..])
      case None => None
      case Some(rest) => Some([Normalized(apiName, records[0].value)] + rest)
  }

  /** The response is a list of records none of which is null. */
  predicate WellFormed(response: Fetch)
  {
    response.Received? && response.body.Array? &&
    forall i :: 0 <= i < |response.body.records| ==> response.body.records[i].Some?
  }

  /** The list GetFromAsync returns: the normalised records of a well-formed
      response, and the empty list on every failure (the request throws, the
      body does not parse, it is null, or it holds a null record). */
  function Normalize(apiName: string, response: Fetch): (r: seq<AggregatedItem>)
    ensures !WellFormed(response) ==> r == []
    ensures WellFormed(response) ==>
              |r| == |response.body.records| &&
              forall i :: 0 <= i < |r| ==> r[i] == Normalized(apiName, response.body.records[i].value)
    ensures forall x :: x in r ==> x.source == apiName && x.category == UnsetCategory
  {
    if response.HttpFailed? || !response.body.Array? then []
    else
      var projected := Project(apiName, response.body.records);
      if projected.None? then [] else projected.value
  }

  /** The try block of GetFromAsync throws: the request fails, the body is
      not JSON, or the projection meets a null record. */
  predicate Throws(apiName: string, response: Fetch)
  {
    || response.HttpFailed?
    || response.body.Malformed?
    || (response.body.Array? && Project(apiName, response.body.records).None?)
  }

  /** DeserializeList followed by the null check and the projection, on a
      body that arrived: None when the deserialiser or the projection
      throws, the empty list for a null body, and the normalised records
      otherwise. */
  function Parse(apiName: string, body: Json): (r: Option<seq<AggregatedItem>>)
    ensures r.None? <==> Throws(apiName, Received(body))
    ensures r.Some? ==> r.value == Normalize(apiName, Received(body))
  {
    match body
    case Malformed => None
    case NullLiteral => Some([])
    case Array(records) => Project(apiName, records)
  }

  /** How many times the try block of GetFromAsync calls
      PerformanceTracker.Record: once after the request arrives, and for a
      name other than News once more after its body has been parsed. */
  function TryRecordCount(apiName: string, response: Fetch): (n: nat)
    ensures n <= 2
    ensures response.HttpFailed? <==> n == 0
    ensures n == 2 <==> apiName != News && response.Received? && !response.body.Malformed?
  {
    match response
    case HttpFailed => 0
    case Received(body) => if apiName == News || body.Malformed? then 1 else 2
  }

  /** How many times GetFromAsync calls PerformanceTracker.Record: those of
      the try block, and one more in the catch block when it throws. A
      failed request records only there; a well-formed response records once
      for News and twice for any other name; a response that parses but
      holds a null record records three times for a name other than News. */
  function RecordCount(apiName: string, response: Fetch): (n: nat)
    ensures response.HttpFailed? ==> n == 1
    ensures WellFormed(response) ==> n == if apiName == News then 1 else 2
    ensures 1 <= n <= 3
    ensures n == 3 <==> apiName != News && response.Received? && response.body.Array? && !WellFormed(response)
  {
    TryRecordCount(apiName, response) + if Throws(apiName, response) then 1 else 0
  }

  /** `n` copies of one recorded call. */
  function Repeat(c: Call, n: nat): (r: seq<Call>)
    ensures |r| == n && forall i :: 0 <= i < n ==> r[i] == c
  {
    if n == 0 then [] else [c] + Repeat(c, n - 1)
  }

  /** One more copy at the end is one more copy. */
  lemma RepeatSnoc(c: Call, n: nat)
    ensures Repeat(c, n) + [c] == Repeat(c, n + 1)
  {
    var a, b := Repeat(c, n) + [c], Repeat(c, n + 1);
    assert |a| == |b|;
    forall i | 0 <= i < |a| ensures a[i] == b[i] {
    }
  }

  // ------------------------------------------------------------------ caching

  /** What a cache lookup hands back, and the cache after it. */
  datatype Served = Served(items: seq<AggregatedItem>, cache: Cache)

  /** GetCachedOrGetFrom...Async: a present entry is returned as it is;
      otherwise the freshly fetched list is returned and stored, but only
      when it is not empty. No other entry changes. */
  function CacheOrFetch(cache: Cache, key: string, data: seq<AggregatedItem>): (s: Served)
    ensures key in cache ==> s == Served(cache[key], cache)
    ensures key !in cache ==> s.items == data
    ensures key !in cache && data != [] ==> s.cache == cache[key := data]
    ensures key !in cache && data == [] ==> s.cache == cache
  {
    if key in cache then Served(cache[key], cache)
    else if data != [] then Served(data, cache[key := data])
    else Served(data, cache)
  }

  // ------------------------------------------------------------ orchestration

  /** The list the aggregate entry would serve: its value, or nothing. */
  function CachedAggregate(cache: Cache): seq<AggregatedItem>
  {
    if AggregateKey in cache then cache[AggregateKey] else []
  }

  /** The fan-out of an aggregate miss: each provider's list comes from its
      cache entry or from the call, news first, and the merge puts weather's
      items before news's. Only the two provider entries can change; an
      absent one is written with the call's list exactly when that list is
      not empty, and no existing entry changes. */
  function FanOut(cache: Cache, news: seq<AggregatedItem>, weather: seq<AggregatedItem>): (s: Served)
    ensures s.items == (if WeatherKey in cache then cache[WeatherKey] else weather) +
                       (if NewsKey in cache then cache[NewsKey] else news)
    ensures cache.Keys <= s.cache.Keys <= cache.Keys + {NewsKey, WeatherKey}
    ensures forall k :: k in cache ==> s.cache[k] == cache[k]
    ensures NewsKey !in cache ==> (NewsKey in s.cache <==> news != []) && (news != [] ==> s.cache[NewsKey] == news)
    ensures WeatherKey !in cache ==>
              (WeatherKey in s.cache <==> weather != []) && (weather != [] ==> s.cache[WeatherKey] == weather)
  {
    var n := CacheOrFetch(cache, NewsKey, news);
    var w := CacheOrFetch(n.cache, WeatherKey, weather);
    Served(w.items + n.items, w.cache)
  }

  /** FetchAllDataAsync as a function of the cache and of the two lists the
      providers' calls produced (which the source starts before it looks at
      their cache entries). A non-empty aggregate entry is sorted and served;
      the category filter is computed and then overwritten there, so it has
      no effect. Otherwise the fan-out's merge is returned empty without
      caching it, or cached, filtered and sorted. No entry is ever removed,
      and within one request the two provider entries, once present, do not
      change. */
  function FetchAll(cache: Cache, category: Option<string>, sortBy: Option<string>, sortOrder: string,
                    news: seq<AggregatedItem>, weather: seq<AggregatedItem>): (s: Served)
    ensures cache.Keys <= s.cache.Keys
    ensures forall k :: k in cache && k != AggregateKey ==> s.cache[k] == cache[k]
    ensures forall k :: k in s.cache && k !in cache ==> k in {NewsKey, WeatherKey, AggregateKey}
  {
    var cached := CachedAggregate(cache);
    if cached == [] then
      var f := FanOut(cache, news, weather);
      if f.items == [] then Served([], f.cache)
      else Served(SortData(FilterData(category, f.items), sortBy, sortOrder), f.cache[AggregateKey := f.items])
    else
      Served(SortData(cached, sortBy, sortOrder), cache)
  }

  /** On an aggregate hit the answer is the cached list, sorted, and the
      category plays no part: any two categories give the same answer. */
  lemma CacheHitIgnoresCategory(cache: Cache, c1: Option<string>, c2: Option<string>,
                                sortBy: Option<string>, sortOrder: string,
                                news: seq<AggregatedItem>, weather: seq<AggregatedItem>)
    requires CachedAggregate(cache) != []
    ensures FetchAll(cache, c1, sortBy, sortOrder, news, weather) ==
            Served(SortData(cache[AggregateKey], sortBy, sortOrder), cache)
    ensures FetchAll(cache, c1, sortBy, sortOrder, news, weather) ==
            FetchAll(cache, c2, sortBy, sortOrder, news, weather)
  {
  }

  /** So a cached item whose category differs from the requested one is
      still served. */
  lemma CacheHitServesOtherCategories(cache: Cache, category: Option<string>,
                                      sortBy: Option<string>, sortOrder: string,
                                      news: seq<AggregatedItem>, weather: seq<AggregatedItem>, x: AggregatedItem)
    requires CachedAggregate(cache) != [] && x in cache[AggregateKey]
    ensures x in FetchAll(cache, category, sortBy, sortOrder, news, weather).items
  {
    var r := FetchAll(cache, category, sortBy, sortOrder, news, weather).items;
    assert multiset(r) == multiset(cache[AggregateKey]);
    assert x in multiset(r);
  }

  /** An aggregate miss with nothing to merge answers with the empty list
      and does not write the aggregate entry. */
  lemma MissWithNothingMerged(cache: Cache, category: Option<string>, sortBy: Option<string>, sortOrder: string,
                              news: seq<AggregatedItem>, weather: seq<AggregatedItem>)
    requires CachedAggregate(cache) == [] && FanOut(cache, news, weather).items == []
    ensures FetchAll(cache, category, sortBy, sortOrder, news, weather).items == []
    ensures var c := FetchAll(cache, category, sortBy, sortOrder, news, weather).cache;
            (AggregateKey in c <==> AggregateKey in cache) &&
            (AggregateKey in cache ==> c[AggregateKey] == cache[AggregateKey])
  {
  }

  /** An aggregate miss with something to merge caches the merged list and
      answers with it filtered, then sorted. */
  lemma MissWithMerged(cache: Cache, category: Option<string>, sortBy: Option<string>, sortOrder: string,
                       news: seq<AggregatedItem>, weather: seq<AggregatedItem>)
    requires CachedAggregate(cache) == [] && FanOut(cache, news, weather).items != []
    ensures var s := FetchAll(cache, category, sortBy, sortOrder, news, weather);
            var merged := FanOut(cache, news, weather).items;
            && s.items == SortData(FilterData(category, merged), sortBy, sortOrder)
            && s.cache[AggregateKey] == merged
  {
  }

  /** On an aggregate miss a requested category is honoured: every item
      returned has it, and every merged item that has it is returned as
      often as it was merged. */
  lemma MissHonoursCategory(cache: Cache, category: string, sortBy: Option<string>, sortOrder: string,
                            news: seq<AggregatedItem>, weather: seq<AggregatedItem>)
    requires CachedAggregate(cache) == [] && category != []
    ensures var r := FetchAll(cache, Some(category), sortBy, sortOrder, news, weather).items;
            && (forall x :: x in r ==> HasCategory(x, category))
            && (forall x :: HasCategory(x, category) ==>
                  multiset(r)[x] == multiset(FanOut(cache, news, weather).items)[x])
  {
    var merged := FanOut(cache, news, weather).items;
    var r := FetchAll(cache, Some(category), sortBy, sortOrder, news, weather).items;
    if merged != [] {
      var f := FilterData(Some(category), merged);
      assert multiset(r) == multiset(f);
      forall x | x in r ensures HasCategory(x, category) {
        assert x in multiset(f);
      }
    }
  }

  /** The item is what normalisation makes: a known provider's name as its
      source, and no category. */
  predicate FromProvider(x: AggregatedItem)
  {
    KnownSource(x.source) && x.category == UnsetCategory
  }

  /** Every item of the list is a normalised provider item. */
  predicate AllFromProviders(items: seq<AggregatedItem>)
  {
    forall x :: x in items ==> FromProvider(x)
  }

  /** Every cached list holds only normalised provider items. */
  predicate CacheFromProviders(cache: Cache)
  {
    forall k :: k in cache ==> AllFromProviders(cache[k])
  }

  /** A cache lookup keeps the cache's provenance when the fetched list has it. */
  lemma CacheOrFetchKeepsProvenance(cache: Cache, key: string, data: seq<AggregatedItem>)
    requires CacheFromProviders(cache) && AllFromProviders(data)
    ensures CacheFromProviders(CacheOrFetch(cache, key, data).cache)
    ensures AllFromProviders(CacheOrFetch(cache, key, data).items)
  {
  }

  /** The fan-out over the two providers' normalised lists keeps the cache's
      provenance, and merges only normalised provider items. */
  lemma FanOutKeepsProvenance(cache: Cache, newsResponse: Fetch, weatherResponse: Fetch)
    requires CacheFromProviders(cache)
    ensures var f := FanOut(cache, Normalize(News, newsResponse), Normalize(Weather, weatherResponse));
            CacheFromProviders(f.cache) && AllFromProviders(f.items)
  {
    var news, weather := Normalize(News, newsResponse), Normalize(Weather, weatherResponse);
    CacheOrFetchKeepsProvenance(cache, NewsKey, news);
    var n := CacheOrFetch(cache, NewsKey, news);
    CacheOrFetchKeepsProvenance(n.cache, WeatherKey, weather);
  }

  /** Filtering, and sorting, only ever hand back items of their input. */
  lemma SortFilterKeepsProvenance(items: seq<AggregatedItem>, category: Option<string>,
                               sortBy: Option<string>, sortOrder: string)
    requires AllFromProviders(items)
    ensures AllFromProviders(SortData(items, sortBy, sortOrder))
    ensures AllFromProviders(SortData(FilterData(category, items), sortBy, sortOrder))
  {
    var f := FilterData(category, items);
    forall x | x in f ensures FromProvider(x) {
      assert x in multiset(f);
    }
    forall x | x in SortData(items, sortBy, sortOrder) ensures FromProvider(x) {
      assert x in multiset(SortData(items, sortBy, sortOrder));
    }
    forall x | x in SortData(f, sortBy, sortOrder) ensures FromProvider(x) {
      assert x in multiset(SortData(f, sortBy, sortOrder));
    }
  }

  /** Provenance is kept: an answer only holds normalised items of the two
      providers, and the cache keeps that property. */
  lemma FetchAllKeepsProvenance(cache: Cache, category: Option<string>, sortBy: Option<string>,
                             sortOrder: string, newsResponse: Fetch, weatherResponse: Fetch)
    requires CacheFromProviders(cache)
    ensures var s := FetchAll(cache, category, sortBy, sortOrder,
                              Normalize(News, newsResponse), Normalize(Weather, weatherResponse));
            CacheFromProviders(s.cache) && AllFromProviders(s.items)
  {
    var news, weather := Normalize(News, newsResponse), Normalize(Weather, weatherResponse);
    var s := FetchAll(cache, category, sortBy, sortOrder, news, weather);
    var cached := CachedAggregate(cache);
    if cached == [] {
      FanOutKeepsProvenance(cache, newsResponse, weatherResponse);
      var f := FanOut(cache, news, weather);
      if f.items != [] {
        SortFilterKeepsProvenance(f.items, category, sortBy, sortOrder);
        assert s == Served(SortData(FilterData(category, f.items), sortBy, sortOrder), f.cache[AggregateKey := f.items]);
      } else {
        assert s == Served([], f.cache);
      }
    } else {
      assert AllFromProviders(cached);
      SortFilterKeepsProvenance(cached, category, sortBy, sortOrder);
      assert s == Served(SortData(cached, sortBy, sortOrder), cache);
    }
  }

  /** No non-empty category matches an item without one. */
  lemma UnsetCategoryNeverMatches(x: AggregatedItem, category: string)
    requires x.category == UnsetCategory && category != []
    ensures !HasCategory(x, category)
  {
    assert |ToLower(x.category)| == 0 < |ToLower(category)|;
  }

  /** A category filter keeps nothing of a list of normalised items. */
  lemma {:induction false} FilterFindsNoCategory(items: seq<AggregatedItem>, category: string)
    requires AllFromProviders(items) && category != []
    ensures FilterData(Some(category), items) == []
  {
    if items != [] {
      assert FromProvider(items[0]);
      UnsetCategoryNeverMatches(items[0], category);
      assert AllFromProviders(items[1..]) by {
        forall x | x in items[1..] ensures FromProvider(x) {
          assert x in items;
        }
      }
      FilterFindsNoCategory(items[1..], category);
    }
  }

  /** Since normalisation never sets a category, a category filter on an
      aggregate miss finds nothing: the answer is empty whatever the
      providers returned (the merged list is still cached when non-empty). */
  lemma MissWithCategoryFindsNothing(cache: Cache, category: string, sortBy: Option<string>, sortOrder: string,
                                     newsResponse: Fetch, weatherResponse: Fetch)
    requires CacheFromProviders(cache) && CachedAggregate(cache) == [] && category != []
    ensures FetchAll(cache, Some(category), sortBy, sortOrder,
                     Normalize(News, newsResponse), Normalize(Weather, weatherResponse)).items == []
  {
    FanOutKeepsProvenance(cache, newsResponse, weatherResponse);
    var merged := FanOut(cache, Normalize(News, newsResponse), Normalize(Weather, weatherResponse)).items;
    FilterFindsNoCategory(merged, category);
    assert |SortData([], sortBy, sortOrder)| == |multiset(SortData([], sortBy, sortOrder))| == 0;
  }

  // ------------------------------------------------------------ the service

  /** The service: its cache, and the process-wide latency recorder it
      reports to. */
  class DataProviderService {
    var cache: Cache
    const tracker: PerformanceTracker

    ghost predicate Valid()
      reads this, tracker, tracker.Repr
    {
      tracker.Valid() && CacheFromProviders(cache)
    }

    /** A service over the shared recorder and the shared cache. The cache
        outlives each service object, so a new one may find entries that
        earlier ones wrote; those hold normalised provider items. */
    constructor (tracker: PerformanceTracker, cache: Cache)
      requires tracker.Valid() && CacheFromProviders(cache)
      ensures Valid()
      ensures this.tracker == tracker && this.cache == cache
    {
      this.tracker := tracker;
      this.cache := cache;
    }

    /** An entry's lifetime runs out: the cache drops it, and nothing else. */
    method Expire(key: string)
      modifies `cache
      ensures cache == old(cache) - {key}
      ensures CacheFromProviders(old(cache)) ==> CacheFromProviders(cache)
    {
      cache := cache - {key};
    }

    /** The try block of GetFromAsync: the request, the first latency record,
        deserialisation and projection, and for a name other than News the
        second record. None stands for an exception thrown out of the block. */
    method Attempt(apiName: string, response: Fetch, elapsedMs: real) returns (outcome: Option<seq<AggregatedItem>>)
      requires tracker.Valid()
      modifies tracker, tracker.Repr
      ensures tracker.Valid()
      ensures old(tracker.Repr) <= tracker.Repr && fresh(tracker.Repr - old(tracker.Repr))
      ensures KeepsEntries(old(tracker.table), tracker.table)
      ensures outcome.None? <==> Throws(apiName, response)
      ensures outcome.Some? ==> outcome.value == Normalize(apiName, response)
      ensures tracker.history == old(tracker.history) + Repeat((apiName, elapsedMs), TryRecordCount(apiName, response))
    {
      ghost var h := tracker.history;
      ghost var t := tracker.table;
      ghost var c := (apiName, elapsedMs);
      if response.HttpFailed? {
        return None;
      }
      var body := response.body;
      tracker.Record(apiName, elapsedMs);
      if apiName != News {
        // The other branch parses first and records a second time after it.
        if body.Malformed? {
          return None;
        }
        ghost var t1 := tracker.table;
        tracker.Record(apiName, elapsedMs);
        KeepsEntriesTransitive(t, t1, tracker.table);
        assert tracker.history == h + [c, c];
      }
      outcome := Parse(apiName, body);
    }

    /** GetFromAsync: records the call's latency at the points the source
        does (the catch block records once more) and returns the normalised
        list, or the empty list when the try block throws. */
    method GetFrom(apiName: string, response: Fetch, elapsedMs: real) returns (items: seq<AggregatedItem>)
      requires tracker.Valid()
      modifies tracker, tracker.Repr
      ensures tracker.Valid()
      ensures old(tracker.Repr) <= tracker.Repr && fresh(tracker.Repr - old(tracker.Repr))
      ensures KeepsEntries(old(tracker.table), tracker.table)
      ensures items == Normalize(apiName, response)
      ensures tracker.history == old(tracker.history) + Repeat((apiName, elapsedMs), RecordCount(apiName, response))
    {
      ghost var h := tracker.history;
      ghost var t := tracker.table;
      var outcome := Attempt(apiName, response, elapsedMs);
      if outcome.None? {
        assert !WellFormed(response);
        RepeatSnoc((apiName, elapsedMs), TryRecordCount(apiName, response));
        ghost var t1 := tracker.table;
        tracker.Record(apiName, elapsedMs);
        KeepsEntriesTransitive(t, t1, tracker.table);
        items := [];
      } else {
        items := outcome.value;
      }
    }

    /** GetCachedOrGetFromNewsAsync / GetCachedOrGetFromWeatherAsync. */
    method GetCachedOrFetch(key: string, data: seq<AggregatedItem>) returns (items: seq<AggregatedItem>)
      modifies `cache
      ensures Served(items, cache) == CacheOrFetch(old(cache), key, data)
    {
      if key in cache {
        items := cache[key];
        return;
      }
      if data != [] {
        cache := cache[key := data];
      }
      items := data;
    }

    /** One provider's leg of the fan-out: its GetFromAsync call, whose list
        is then looked up through the provider's cache entry. */
    method CallProvider(apiName: string, key: string, response: Fetch, elapsedMs: real)
      returns (items: seq<AggregatedItem>)
      requires tracker.Valid()
      modifies `cache, tracker, tracker.Repr
      ensures tracker.Valid()
      ensures old(tracker.Repr) <= tracker.Repr && fresh(tracker.Repr - old(tracker.Repr))
      ensures KeepsEntries(old(tracker.table), tracker.table)
      ensures Served(items, cache) == CacheOrFetch(old(cache), key, Normalize(apiName, response))
      ensures tracker.history == old(tracker.history) + Repeat((apiName, elapsedMs), RecordCount(apiName, response))
    {
      var fetched := GetFrom(apiName, response, elapsedMs);
      items := GetCachedOrFetch(key, fetched);
    }

    /** The fan-out of FetchAllDataAsync on an aggregate miss: the news leg,
        then the weather leg, and the merge of weather's list with news's. */
    method CallProviders(newsResponse: Fetch, newsElapsedMs: real, weatherResponse: Fetch, weatherElapsedMs: real)
      returns (merged: seq<AggregatedItem>)
      requires tracker.Valid()
      modifies `cache, tracker, tracker.Repr
      ensures tracker.Valid()
      ensures old(tracker.Repr) <= tracker.Repr && fresh(tracker.Repr - old(tracker.Repr))
      ensures KeepsEntries(old(tracker.table), tracker.table)
      ensures Served(merged, cache) == FanOut(old(cache), Normalize(News, newsResponse), Normalize(Weather, weatherResponse))
      ensures tracker.history == old(tracker.history)
                + Repeat((News, newsElapsedMs), RecordCount(News, newsResponse))
                + Repeat((Weather, weatherElapsedMs), RecordCount(Weather, weatherResponse))
    {
      ghost var h := tracker.history;
      var newsItems := CallProvider(News, NewsKey, newsResponse, newsElapsedMs);
      ghost var n := Served(newsItems, cache);
      ghost var h1 := tracker.history;
      var weatherItems := CallProvider(Weather, WeatherKey, weatherResponse, weatherElapsedMs);
      ghost var w := Served(weatherItems, cache);
      merged := [];
      merged := merged + weatherItems;
      merged := merged + newsItems;
      assert Served(merged, cache) == Served(w.items + n.items, w.cache);
      assert tracker.history == h1 + Repeat((Weather, weatherElapsedMs), RecordCount(Weather, weatherResponse));
    }

    /** FetchAllDataAsync, with the two providers' responses and measured
        latencies as inputs. */
    method FetchAllData(category: Option<string>, sortBy: Option<string>, sortOrder: string,
                        newsResponse: Fetch, newsElapsedMs: real,
                        weatherResponse: Fetch, weatherElapsedMs: real)
      returns (items: seq<AggregatedItem>)
      requires Valid()
      modifies this, tracker, tracker.Repr
      ensures Valid()
      ensures KeepsEntries(old(tracker.table), tracker.table)
      ensures Served(items, cache) ==
              FetchAll(old(cache), category, sortBy, sortOrder,
                       Normalize(News, newsResponse), Normalize(Weather, weatherResponse))
      ensures CachedAggregate(old(cache)) != [] ==> tracker.history == old(tracker.history)
      ensures CachedAggregate(old(cache)) == [] ==>
                tracker.history == old(tracker.history)
                  + Repeat((News, newsElapsedMs), RecordCount(News, newsResponse))
                  + Repeat((Weather, weatherElapsedMs), RecordCount(Weather, weatherResponse))
    {
      FetchAllKeepsProvenance(cache, category, sortBy, sortOrder, newsResponse, weatherResponse);
      var aggregatedData: seq<AggregatedItem> := [];
      var cachedData: seq<AggregatedItem> := [];
      if AggregateKey in cache {
        cachedData := cache[AggregateKey];
      }
      if cachedData == [] {
        aggregatedData := CallProviders(newsResponse, newsElapsedMs, weatherResponse, weatherElapsedMs);
        if aggregatedData == [] {
          return [];
        }
        cache := cache[AggregateKey := aggregatedData];
        aggregatedData := FilterData(category, aggregatedData);
        aggregatedData := SortData(aggregatedData, sortBy, sortOrder);
      } else {
        aggregatedData := FilterData(category, cachedData);
        aggregatedData := SortData(cachedData, sortBy, sortOrder);
      }
      items := aggregatedData;
    }
  }
}
