# APIAggreration: the aggregation and metrics path, modelled in Dafny

This project models the core of the APIAggreration service, which merges the
results of a news provider and a weather provider into one list. The list can
be filtered by category and sorted by date or by category. The model covers
the engine's own logic, namely:

- **Normalisation** (`GetFromAsync`): a provider's response becomes a list of
  `AggregatedItem`s with the record's date, the provider's name as source and
  no category. A failed request, unparsable JSON, a `null` body or a `null`
  record gives the empty list.
- **Latency recording around a call.** `PerformanceTracker.Record` is called
  the same number of times as in the source. When it runs relative to the
  rest of the request is covered under "Concurrency" below.
- **The per-provider cache helpers** (`GetCachedOrGetFrom…Async`).
- **The orchestration** (`FetchAllDataAsync`): the aggregate cache entry, the
  fan-out to the two providers, the merge, and the filter and sort.
- **`filterData` and `sortData`.**
- **The latency recorder** (`PerformanceTracker`) and its per-API entries
  (`ApiPerformanceStats`).

Files:

- `models.dfy`: the record shapes, the provider names (assumed `"News"` and
  `"Weather"`), and the category a normalised item carries.
- `wrappers.dfy`: `Option`.
- `text.dfy`: ASCII case folding and the ordinal string order.
- `api_performance_stats.dfy`: the stats entry, which is a class the tracker
  updates in place. It also holds its value type `Stats`, the latency
  buckets, and `Step`, the effect of one recorded call.
- `performance_tracker.dfy`: the tracker class. Its table maps names to
  entries, and a ghost log of every recorded call goes with it. `Valid()`
  ties the entries' values to `Replay(history)`. `ReplayIsTally` proves that
  this equals tallying each name's own calls.
- `query.dfy`: `FilterData` and `SortData` as functions. `SortData` is a
  stable insertion sort. Its contract gives a permutation, the order, and
  stability per key value. `SortDataUnique` shows that this contract
  determines the result.
- `data_provider_service.dfy`: the pieces of the service.
  - `Normalize`, `RecordCount`, `CacheOrFetch`, `FanOut` and `FetchAll` are
    the reference functions.
  - The class `DataProviderService` holds the cache as a field and shares
    one tracker object. Its methods follow the source statement by
    statement and are proved equal to those functions.
  - The constructor takes the shared cache as it stands, and `Expire` drops
    an entry whose lifetime has run out. So a service object can also start
    over a filled cache, or see an expired aggregate entry while a provider
    entry is still live.

The HTTP call and the JSON deserialiser are inputs. The outcome of
`GetStringAsync` is `HttpFailed` or `Received(body)`. The body is
`Malformed` (the deserialiser throws), `NullLiteral` (it returns `null`) or
an array whose records may be `null`. The stopwatch reading of each provider
call is an `elapsedMs: real` parameter. All the `Record` calls of one call
use the same reading: the stopwatch is stopped before the first of them and
never restarted.

Behaviour of the code that the model keeps as written:

- **The category filter is ignored on an aggregate cache hit.** Line 145
  sorts `cachedData` rather than the filtered list (`CacheHitIgnoresCategory`,
  `CacheHitServesOtherCategories`).
- **A non-empty category filter finds nothing on a miss.** Normalisation never
  sets `Category`, because lines 76 and 89 are commented out
  (`MissWithCategoryFindsNothing`).
- **Both providers' bodies are deserialised as `NewsResponse`** (lines 70
  and 82).
- **One provider call records its latency one to three times.**
  - `"News"` records once on success.
  - Any other name records twice on success (lines 66 and 84).
  - An exception adds a record in the catch block (line 97).
  - `RecordCount` states each case.
- **`sortOrder = "desc"` is not the reverse of ascending order.**
  `OrderByDescending` is stable, so tied items keep their input order in
  both directions (`SortDataAllTied`).
- **The providers are called one after the other, news first.** The source
  uses `Task.WhenAll`; the model has no concurrency.

## Model

| member | source | states |
|---|---|---|
| Text.EqualsIgnoreCaseCharwise | Services/DataProviderService.cs:159 | the OrdinalIgnoreCase comparison holds exactly when the lengths agree and each position agrees once folded |
| Text.LessIrreflexive | Services/DataProviderService.cs:172-178 | no key sorts strictly before itself |
| Text.LessTransitive | Services/DataProviderService.cs:172-178 | the ordinal key order is transitive |
| Text.LessTotal | Services/DataProviderService.cs:172-178 | any two distinct keys are ordered one way or the other |
| ApiStats.BucketOf | Models/ApiPerformanceStats.cs:10-12 | the documented ranges hold: fast below 100 ms, average from 100 to 200 ms inclusive, slow above 200 ms, and each holds exactly when its range does |
| ApiStats.Step | Classes/PerformanceTracker.cs:16-24 | one recorded call adds exactly 1 request and its elapsed time, lowers no counter, and raises exactly the counter of its bucket |
| ApiStats.ApiPerformanceStats.constructor | Models/ApiPerformanceStats.cs:5-12 | a fresh entry has every counter and the total time at zero |
| ApiStats.ApiPerformanceStats.AverageResponseTimeMs | Models/ApiPerformanceStats.cs:6-7 | the average is 0 with no requests, and otherwise times the request count gives the total time |
| Tracker.TallyBalanced | Classes/PerformanceTracker.cs:16-24 | the fast, average and slow counts of any sequence of calls add up to its request count |
| Tracker.TallySnoc | Classes/PerformanceTracker.cs:16-24 | tallying one more call is one Step |
| Tracker.ReplaySnoc | Classes/PerformanceTracker.cs:10-25 | one more recorded call Steps its own name's entry, which starts zeroed when the name is new, and nothing else |
| Tracker.ReplayIsTally | Classes/PerformanceTracker.cs:10-30 | the table after any calls (`Replay`, one Step per call in order, a new name starting from a zeroed entry) has exactly the recorded names as keys, and each entry is the tally of that name's own calls |
| Tracker.TallyAfter | Classes/PerformanceTracker.cs:10-25 | a call changes the tally of its own name by one Step and no other name's tally |
| Tracker.ReplayNeverDecreases | Classes/PerformanceTracker.cs:14-25 | across one call no name disappears, other names' entries are unchanged, and no counter of any entry decreases |
| Tracker.ReplayBalanced | Classes/PerformanceTracker.cs:12-24 | every entry the calls produce has fast + average + slow == total requests |
| Tracker.PerformanceTracker.constructor | Classes/PerformanceTracker.cs:8 | the recorder starts with an empty table and an empty call log |
| Tracker.PerformanceTracker.GetOrAdd | Classes/PerformanceTracker.cs:12 | an existing name yields its own entry object; a new name gets a fresh zeroed entry; no other name's entry changes |
| Tracker.PerformanceTracker.UpdateEntry | Classes/PerformanceTracker.cs:14-25 | the in-place update under the lock changes the entry by exactly one Step |
| Tracker.PerformanceTracker.Advance | Classes/PerformanceTracker.cs:14-25 | one Step on the named entry, logged as the latest call, with every other entry's value unchanged and the table valid again |
| Tracker.PerformanceTracker.Record | Classes/PerformanceTracker.cs:10-25 | the call is appended to the log; the name's entry, created fresh and zeroed for a new name, takes one Step; every other name keeps its entry object and value; no name leaves the table and no entry object is replaced (`KeepsEntries`) |
| Tracker.PerformanceTracker.GetStats | Classes/PerformanceTracker.cs:27-30 | the copy has exactly the names recorded so far, maps each to the tracker's own (shared) entry, and each entry tallies that name's calls, is balanced and has at least one request |
| Tracker.AverageIsMean | Models/ApiPerformanceStats.cs:6-7 | the derived average of a recorded name's entry is the sum of that name's recorded times divided by their (non-zero) number |
| Tracker.WeatherScenario | Classes/PerformanceTracker.cs:10-30 | recording "Weather" at 50 ms and then at 250 ms leaves 2 requests, 300 ms in total, 1 fast, 0 average, 1 slow, and an average of 150 ms |
| Query.KeepCategory | Services/DataProviderService.cs:157-160 | the Where clause (its predicate `HasCategory`: the category equals the requested one ignoring case) returns a subsequence of its input whose items all have the category; each item of that category is kept as often as it occurs, and no other item |
| Query.FilterData | Services/DataProviderService.cs:151-163 | a null or empty category returns the input unchanged; otherwise the result is the in-order subsequence of exactly the items whose category equals it ignoring case, with their multiplicities |
| Query.StableSort | Services/DataProviderService.cs:172-178 | the insertion sort returns a permutation of its input |
| Query.StableSortOrdered | Services/DataProviderService.cs:172-178 | its result is ordered by the key in the requested direction |
| Query.StableSortStable | Services/DataProviderService.cs:172-178 | items with equal keys keep their input order |
| Query.OrderedStableUnique | Services/DataProviderService.cs:172-178 | two ordered permutations of each other that keep every key's items in the same order are equal |
| Query.SortKeyOf | Services/DataProviderService.cs:170-179 | the key is date exactly when sortBy lower-cases to "date", category exactly when it lower-cases to "category", and none otherwise, including for null |
| Query.SortData | Services/DataProviderService.cs:165-181 | always a permutation; a null or unrecognised sortBy returns the input unchanged; otherwise ordered non-decreasing by the key, or non-increasing when sortOrder lower-cases to "desc" (`IsDescending`), and stable on ties |
| Query.SortDataUnique | Services/DataProviderService.cs:170-178 | any ordered and stable permutation of the input is exactly what sortData returns |
| Query.SortDataOrderedInput | Services/DataProviderService.cs:170-178 | an input already in the requested order comes back unchanged |
| Query.SortDataIdempotent | Services/DataProviderService.cs:165-181 | sorting a sorted result again the same way changes nothing |
| Query.SortDataAllTied | Services/DataProviderService.cs:172-178 | when all keys are equal the list comes back unchanged in both directions, so descending is not the reverse of ascending |
| Service.Normalized | Services/DataProviderService.cs:73-78 | a normalised item copies the record's date, takes the provider's name as source and has no category |
| Service.Project | Services/DataProviderService.cs:73-91 | the projection succeeds exactly when no record is null, and then yields one normalised item per record, position by position |
| Service.Parse | Services/DataProviderService.cs:70-91 | once a body has arrived, deserialisation and projection throw exactly when the body does not parse or holds a null record; otherwise they give the normalised list, empty for a null body |
| Service.Normalize | Services/DataProviderService.cs:59-101 | a well-formed response yields one item per record with its date and the provider as source; every failure (request, parse, null body, null record) yields the empty list |
| Service.TryRecordCount | Services/DataProviderService.cs:62-93 | the try block records nothing when the request fails, twice when a name other than News gets a parsable body, and once otherwise |
| Service.RecordCount | Services/DataProviderService.cs:59-101 | a failed request records once; a well-formed response records once for News and twice for any other name; three records happen exactly for a non-News array holding a null record |
| Service.CacheOrFetch | Services/DataProviderService.cs:24-37 | a hit returns the cached list and keeps the cache; a miss returns the fetched list and stores it under the key only when it is non-empty, touching no other key |
| Service.FanOut | Services/DataProviderService.cs:119-132 | the merge is weather's list followed by news's, each taken from its cache entry when present and from the call otherwise; no existing entry changes; an absent provider entry is written, with the call's list, exactly when that list is non-empty; no other key appears |
| Service.FetchAll | Services/DataProviderService.cs:103-149 | the aggregate entry is read as in lines 108-113 (`CachedAggregate`: absent means empty); no cache entry is removed, no entry other than the aggregate one changes, and only the three known keys can appear |
| Service.CacheHitIgnoresCategory | Services/DataProviderService.cs:142-146 | on an aggregate hit the answer is the cached list sorted, with the cache unchanged, and any two categories give the same answer |
| Service.CacheHitServesOtherCategories | Services/DataProviderService.cs:142-146 | on an aggregate hit every cached item is served whatever category was requested |
| Service.MissWithNothingMerged | Services/DataProviderService.cs:130-135 | an aggregate miss with an empty merge answers with the empty list and leaves the aggregate entry as it was |
| Service.MissWithMerged | Services/DataProviderService.cs:130-140 | an aggregate miss with a non-empty merge caches the merged list and answers with it filtered, then sorted |
| Service.MissHonoursCategory | Services/DataProviderService.cs:139-140 | on a miss every returned item has the requested category, and each merged item of that category is returned as often as it was merged |
| Service.CacheOrFetchKeepsProvenance | Services/DataProviderService.cs:29-36 | a cache lookup keeps every cached list made of normalised provider items |
| Service.FanOutKeepsProvenance | Services/DataProviderService.cs:121-132 | the fan-out over the providers' normalised lists keeps the cache's provenance and merges only normalised provider items |
| Service.SortFilterKeepsProvenance | Services/DataProviderService.cs:139-145 | filtering and sorting return only items of their input |
| Service.FetchAllKeepsProvenance | Services/DataProviderService.cs:103-149 | every answer holds only items normalised from News or Weather with no category, and the cache keeps that property |
| Service.UnsetCategoryNeverMatches | Services/DataProviderService.cs:157-160 | an item without a category matches no non-empty category |
| Service.FilterFindsNoCategory | Services/DataProviderService.cs:151-163 | a category filter over normalised items keeps none of them |
| Service.MissWithCategoryFindsNothing | Services/DataProviderService.cs:115-141 | on an aggregate miss a non-empty category filter returns the empty list, whatever the providers answered |
| Service.DataProviderService.constructor | Services/DataProviderService.cs:17-22 | the service keeps the shared recorder and the injected shared cache as it is, entries written by earlier service objects included |
| Service.DataProviderService.Expire | Services/DataProviderService.cs:121-137 | an entry whose lifetime has run out leaves the cache and nothing else changes; the cache still holds only normalised provider items |
| Service.DataProviderService.Attempt | Services/DataProviderService.cs:62-93 | the try block throws exactly when the request fails, the body does not parse, or a record is null; otherwise it returns the normalised list; it records as often as TryRecordCount says; the recorder keeps every name and entry object it had (`KeepsEntries`) |
| Service.DataProviderService.GetFrom | Services/DataProviderService.cs:59-101 | the call returns the normalised list (empty on any failure) and appends RecordCount records of its name and latency to the recorder, which keeps every name and entry object it had |
| Service.DataProviderService.GetCachedOrFetch | Services/DataProviderService.cs:24-52 | the returned list and the new cache are exactly CacheOrFetch's |
| Service.DataProviderService.CallProvider | Services/DataProviderService.cs:121-126 | one provider's call followed by its cache lookup: the lookup's result over the normalised list, with the call's records appended and every existing recorder entry kept |
| Service.DataProviderService.CallProviders | Services/DataProviderService.cs:119-132 | the merged list and the new cache are exactly FanOut's, and the news records are followed by the weather records; every existing recorder entry is kept |
| Service.DataProviderService.FetchAllData | Services/DataProviderService.cs:103-149 | the answer and the new cache are exactly FetchAll's; a hit records nothing and a miss records both providers' calls; the recorder keeps every name and entry object it had, so a dictionary from GetStats stays live; the recorder and the cache's provenance stay valid |

## Left out

- **HTTP and JSON.** `GetStringAsync` and `JsonSerializer.Deserialize` are
  abstract inputs (`Fetch`, `Json`). The URLs built from configuration
  (lines 119-120), `DeserializeList` and the unused `SecureCall` are thin
  wrappers and are not part of this model.
- **Timing.** The `Stopwatch` is an `elapsedMs` parameter per provider call.
- **Concurrency.** `Task.WhenAll`, `ConcurrentDictionary` and the per-entry
  `lock` have no counterpart: the calls run one after the other (news first),
  and the table is a map updated in place. Interleavings of concurrent
  records are not modelled. Two consequences:
  - Lines 122 and 125 start `GetFromAsync` before the cache helper looks at
    its entry. On a provider-entry hit (lines 29-31, 44-46), nothing awaits
    that call. Its records can then land after `FetchAllDataAsync` has
    returned, which is the usual case when the 30-second aggregate entry has
    expired and the one-minute provider entries have not. The model
    finishes each call and its records before the lookup, so
    `FetchAllData`'s history already holds them at return.
  - The cache is one shared instance across requests. The lookup-then-`Set`
    at lines 29-35 and 110-137 is not atomic, so a concurrent request can
    overwrite a provider entry or the aggregate entry that another has just
    written. The model runs one request at a time, and `FanOut` and
    `FetchAll` promise that an existing provider entry is never changed
    within one request.
- **Cache expiry.** The one-minute and thirty-second lifetimes are not
  modelled as time. An expiry is a call of `Expire` on the service between
  requests, so an entry never expires in the middle of one `FetchAllData`.
- **The shared cache's contents.** The constructor takes the shared cache
  as it is, but requires that it hold only normalised provider items. That
  holds when only this service writes the three keys, as in this repository.
- **Null cache values** (`cached ?? []`). This code never stores `null`, so
  a cached value is always a list.
- **Null sort order.** A `null` `sortOrder` is not modelled: the service
  method declares it non-null. The interface declares it nullable. A `null`
  would throw at line 172 when `sortBy` lower-cases to "date", at line 176
  when it lower-cases to "category", and not at all otherwise.
- **Null dates.** A deserialised record's `Date` is never `null` here
  (`date` is a string). The deserialiser would leave a missing `Date`
  property `null`. Normalisation would copy it, and `OrderBy` would put it
  before every string.
- **The provider names.** The file that defines `ApiNames` is not part of
  this model. Its two values are assumed to be `"News"` and `"Weather"`.
  The model relies only on their being different strings, which decides the
  branch at line 68.
- **The default category.** `AggregatedItemModel` is not part of this model.
  Its `Category` is taken to default to the empty string, not `null`. With
  `null` the filter at line 159 would throw for any non-empty category.
- **Integer and floating-point behaviour.** The `int` counters are unbounded
  naturals (no 32-bit overflow). The `double` times are exact reals (no
  IEEE rounding).
- **String comparison.** Case folding is ASCII only. `OrderBy` over strings
  uses the ordinal order instead of the culture-sensitive comparer.
- **Logging.** The `Console.WriteLine` in the catch block is left out.
- **Outside the aggregation and metrics path.**
  - The Polly retry, circuit-breaker and fallback configuration
    (`HttpClientRegistrationExtensions.cs`), the controller, `Program.cs` and
    `FallbackData.cs` are not part of this model.
  - The `WeatherResponse` record is not modelled. Only `FallbackData.cs`
    uses it; the aggregation path does not.
