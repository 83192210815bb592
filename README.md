# F1 timing service — a Dafny model

This project models the backend core of an F1 live-timing dashboard.

**`F1Service`** is a client for the OpenF1 API. It has four parts:

- a response cache, whose entries stay fresh for 60 seconds;
- a rate limiter, which keeps requests at least half a second apart;
- a health flag, driven by a count of consecutive failures;
- an aggregator, which merges the driver roster with five event streams (positions, intervals, laps, stints, pit stops) into one timing record per driver, sorted by position.

**`WebSocketManager`** is the connection registry. It holds:

- the list of active connections;
- each connection's data: connection time and subscriptions;
- the rule that picks which connections receive a broadcast of one data type.

The model is split into modules:

| file | module | content |
|---|---|---|
| `values.dfy` | `PyValues` | Records as dicts of JSON scalars. Python's `dict.get`, truthiness, `==` and `<` (a TypeError on mixed kinds or None), and the order lemmas that sorting relies on. |
| `decimal.dfy` | `Decimal` | Decimal digits, zero padding, and reading digits back. |
| `formatting.dfy` | `Formatting` | `_format_lap_time`, `_format_sector_time`, `_format_gap` and `_calculate_tyre_age`. |
| `selection.dfy` | `Selection` | `_get_latest_for_driver`, and the reverse sort by `date_start` in `get_current_session`. |
| `cache_key.dfy` | `CacheKeys` | `_get_cache_key`. |
| `aggregation.dfy` | `Aggregation` | The per-driver loop and the position sort of `get_comprehensive_timing_data`. |
| `f1_service.dfy` | `F1Service` | The service class, the request state machine, session lookup and the timing pass. |
| `websocket.dfy` | `WebSocket` | The connection registry. |

The service's fields live in a class, and its methods change them in place:

- `MakeRequest`
- `WaitForRateLimit`
- `GetCurrentSession`
- `GetComprehensiveTimingData`

Each method is proved equal to a pure function of the old state and its inputs:

- `RequestSpec`
- `RateLimitWait`
- `CurrentSessionSpec`
- `ComprehensiveSpec`

The lemmas state what the source promises about those functions. `CollectTimings` keeps the source's append loop and is proved equal to the pure `Assemble`. The WebSocket methods state their new state directly.

### Inputs and representations

- **Responses and clocks.** Every reading of `datetime.now()` or of the event-loop clock is a parameter, in integer milliseconds. A request's readings are bundled in a `Clock`: the cache check, the limiter's reading, the stamp after its sleep, and the storing time. Every HTTP exchange is an `Outcome`: a status with a decoded body, a timeout, or another exception. `get_current_session` takes the current year as a parameter.
- **Floats.** A JSON float is an exact number of thousandths (`JReal(milli)`), and an int compares with a float by value. The formatters produce minutes, zero-padded seconds and three decimals from integer milliseconds. The lemmas show the text reads back as the duration, and that the readers accept only the exact rendering, so the text is fixed.
- **Exceptions.** Python exceptions become `Result.Err(TypeError)`. They arise in four places: comparing a string, a number and None in a sort; comparing a non-empty string with 0 in `_format_lap_time` and `_format_sector_time`; comparing a non-empty string with 60 in `_format_gap`; and arithmetic on a string or None in `_calculate_tyre_age`, for example when `lap_number` or `lap_start` is present with value null. `get_current_session` turns such an error into None, and `get_comprehensive_timing_data` turns it into an error result.
- **Sorting.** `sorted(...)` and `list.sort` raise exactly when the list has two or more entries and two of the keys do not compare. A correct sort must compare every pair that ends up adjacent, and a run of comparable keys never bridges two kinds. A reverse stable sort followed by `[0]` gives the first entry whose key is maximal.
- **Sort keys.** A missing sort key compares as `''`, and a key present with JSON null compares as None, as in Python.
- **Parameter dicts.** A parameter dict is its list of entries in insertion order, with distinct keys.

### Behaviour worth knowing

- The failure threshold `max_failures` is 5.
- One 60 s time to live applies to every endpoint.
- A record without a position, or with position 0, sorts as 999, because the sort key is `position or 999`.
- The latest lap is the one with the greatest `lap_number` and the latest stint the one with the greatest `stint_number`; positions and intervals go by `date`.
- One driver whose record raises aborts the whole pass.
- A zero gap also shows `'--'`, because the placeholder test is truthiness.

## Model

| member | source | states |
|---|---|---|
| CacheKeys.MakeCacheKey | backend/src/services/f1_service.py:58-61 | `_get_cache_key`: the endpoint with `params or {}` in sorted key order; described by `CacheKeyIgnoresOrder` and `SortByKeySorted` |
| F1Service.IsFresh | backend/src/services/f1_service.py:63-66 | `_is_cache_valid`; described by `FreshWindow` |
| F1Service.RateLimitWait | backend/src/services/f1_service.py:70-75 | The sleep of `_wait_for_rate_limit`; described by `RateLimitWaitIsMinimal` |
| F1Service.RequestSpec | backend/src/services/f1_service.py:79-162 | `_make_request` as a function of the old fields, the outcome and the clock; described by `FreshHitTouchesNothing`, `SuccessReplacesEntry`, `OnlySuccessWritesCache`, `RateLimitedAndNotFound`, `FailureCountsOnce`, `RequestKeepsHealthConsistent`, `RequestsArePaced` and `SuccessThenHit` |
| F1Service.Normalise | backend/src/services/f1_service.py:102-104 | The list coercion of a 200 payload; described by `SuccessReplacesEntry` |
| Selection.LatestForDriver | backend/src/services/f1_service.py:355-363 | `_get_latest_for_driver`; described by `LatestIsNoneIff`, `LatestRaisesIff` and `LatestIsFirstMax` |
| Selection.FirstLatest | backend/src/services/f1_service.py:178-179 | The head of a stable reverse sort by one field; described by `FirstLatestRaisesIff` and `FirstLatestIsFirstMax` |
| Formatting.FormatLapTime | backend/src/services/f1_service.py:365-372 | `_format_lap_time`; described by `LapTimeFormat` and `LapTimeExample` |
| Formatting.FormatSectorTime | backend/src/services/f1_service.py:374-378 | `_format_sector_time`; described by `SectorTimeFormat` |
| Formatting.FormatGap | backend/src/services/f1_service.py:380-390 | `_format_gap`; described by `GapCases`, `GapReadsBack` and `GapExamples` |
| Formatting.TyreAge | backend/src/services/f1_service.py:392-401 | `_calculate_tyre_age`; described by `TyreAgeFormula` and `TyreAgeExamples` |
| Aggregation.TimingFor | backend/src/services/f1_service.py:312-338 | The body of the loop over the roster; described by `TimingForFields`, which ties all twelve fields of the record, and by `TimingForOkIff`, which says exactly when the record is built |
| Aggregation.SortTimings | backend/src/services/f1_service.py:342 | The sort by `position or 999`; described by `SortTimingsSpec` |
| Aggregation.Assemble | backend/src/services/f1_service.py:310-342 | The per-driver records, sorted; described by `AssembleSpec` and `AssembleDrivers`, and computed by `CollectTimings` |
| WebSocket.UpdatedSubscriptions | backend/src/websocket/websocket_handler.py:103-108 | The new subscription set; described by `UpdatedSubscriptionsSpec` and `SubscribeIdempotentAndUndone` |
| WebSocket.Targets | backend/src/websocket/websocket_handler.py:79-85 | The receivers of a subscribed broadcast; described by `TargetsSpec`, `TargetsAppend` and `EmptySubscriptionsReceiveAll` |
| CacheKeys.CacheKeyIgnoresOrder | backend/src/services/f1_service.py:58-61 | Two parameter dicts for one endpoint give the same cache key exactly when they hold the same entries, whatever their insertion order; None params and `{}` give the same key |
| CacheKeys.SortByKeySorted | backend/src/services/f1_service.py:60 | Serialising with `sort_keys=True` lists every entry once, in strictly increasing key order |
| F1Service.FreshWindow | backend/src/services/f1_service.py:63-66 | An entry is fresh exactly while the clock is strictly below its timestamp plus 60 s, and stays fresh for every earlier reading |
| F1Service.F1Service.WaitForRateLimit | backend/src/services/f1_service.py:68-77 | Sleeps `RateLimitWait` of the clock and the old stamp, then sets `last_request_time` to the clock after the sleep; cache, failures and health untouched |
| F1Service.RateLimitWaitIsMinimal | backend/src/services/f1_service.py:70-75 | The sleep is non-negative, positive exactly when less than 500 ms have passed, and then exactly the remainder of the interval; after it the clock is at least 500 ms past the previous request |
| F1Service.RequestsArePaced | backend/src/services/f1_service.py:68-91 | With a clock that does not run backwards across the sleep, a request that is not a fresh hit is stamped with the clock after the sleep, at least 500 ms after the previous stamp; a fresh hit keeps the stamp |
| F1Service.F1Service.constructor | backend/src/services/f1_service.py:15-28 | Empty cache, stamp 0, no failures, healthy; the health invariant holds |
| F1Service.F1Service.MakeRequest | backend/src/services/f1_service.py:79-162 | The new fields and the returned list are those of `RequestSpec` on the old fields; the health invariant is preserved |
| F1Service.FreshHitTouchesNothing | backend/src/services/f1_service.py:84-88 | A hit younger than 60 s returns the stored data and leaves the cache, the rate limiter stamp, the failure count and the health flag unchanged |
| F1Service.SuccessReplacesEntry | backend/src/services/f1_service.py:99-117 | A 200 replaces the key's entry wholesale with the normalised payload and the storing time, other entries untouched; failures 0 and healthy; returns a list payload as is, a non-empty object as a one-element list, an empty object or null as `[]` |
| F1Service.OnlySuccessWritesCache | backend/src/services/f1_service.py:119-157 | Every outcome other than 200 leaves the cache exactly as it was |
| F1Service.RateLimitedAndNotFound | backend/src/services/f1_service.py:119-132 | 429 and 404 leave the failure count unchanged; 429 returns the cached data even when stale, else `[]`; 404 returns `[]` whatever is cached |
| F1Service.FailureCountsOnce | backend/src/services/f1_service.py:134-162 | Any other status, a timeout or an exception adds exactly one failure, returns the cached data (stale or not) or `[]`, and at 5 failures the service is unhealthy |
| F1Service.RequestKeepsHealthConsistent | backend/src/services/f1_service.py:159-162 | Every path of a request, the cache hit included, preserves `is_healthy == (consecutive_failures < 5)` |
| F1Service.SuccessThenHit | backend/src/services/f1_service.py:84-110 | After a 200, any later request with the same entries, in whatever order, within 60 s of storing is answered from the cache with the stored data and no state change |
| F1Service.F1Service.GetCurrentSession | backend/src/services/f1_service.py:164-187 | The new fields and the result are those of `CurrentSessionSpec`; the health invariant is preserved |
| F1Service.CurrentSessionChoice | backend/src/services/f1_service.py:166-187 | A non-empty "latest" answer gives its first session, with no second request; otherwise the year's sessions give None exactly when empty or when two start dates do not compare, and else the first session with the greatest `date_start` |
| F1Service.F1Service.GetComprehensiveTimingData | backend/src/services/f1_service.py:284-353 | The new fields and the snapshot are those of `ComprehensiveSpec`: the roster request, then the five stream requests in order, then the aggregation; the health invariant is preserved |
| F1Service.EmptyRosterStops | backend/src/services/f1_service.py:290-292 | An empty roster returns no records with "No drivers found" after the single roster request |
| F1Service.SnapshotRecords | backend/src/services/f1_service.py:339-353 | A pass fails exactly when building a record or sorting raised, and then holds no records; otherwise it holds one record per roster driver (as a multiset of drivers; `TimingForOkIff` says when each driver's record builds), `totalDrivers` is the roster length, and the records are sorted by `position or 999` and stable |
| F1Service.F1Service.HealthStatus | backend/src/services/f1_service.py:403-409 | Reports the stored flag, the failure count, the number of cache entries and the last request stamp; under the invariant the flag is true exactly when failures are below 5 |
| Aggregation.CollectTimings | backend/src/services/f1_service.py:310-342 | The append loop over the roster followed by the sort computes `Assemble` of the roster and the streams, stopping at the first record that raises |
| Aggregation.TimingsForPerDriver | backend/src/services/f1_service.py:312-339 | The loop succeeds exactly when every driver's record can be built, and then produces exactly one record per driver, in roster order |
| Aggregation.TimingForFields | backend/src/services/f1_service.py:312-336 | A record carries its roster entry and `pitStops`, the number of pit entries with the driver's number. Position, `lastLap` and `tyreCompound` come from the driver's latest position (by `date`), lap (by `lap_number`) and stint (by `stint_number`), and are None, 0 and `'UNKNOWN'` when that entry is absent. `tyreAge` is `TyreAge` of the latest stint at the latest lap when both are present and 0 otherwise; it is never negative. `lapTime` and `sector1`-`sector3` are `FormatLapTime` and `FormatSectorTime` of the latest lap's duration fields, and `gap` and `interval` are `FormatGap` of the latest interval's `gap_to_leader` and `interval` (by `date`); each is its placeholder when that entry is absent |
| Aggregation.LapTextsOk | backend/src/services/f1_service.py:326-329 | The lap and sector texts are built exactly when there is no latest lap or none of its four duration fields is a non-empty string |
| Aggregation.GapTextsOk | backend/src/services/f1_service.py:330-331 | The gap and interval texts are built exactly when there is no latest interval or neither `gap_to_leader` nor `interval` is a non-empty string |
| Aggregation.TyreAgeOk | backend/src/services/f1_service.py:335 | The tyre age is computed exactly when the stint or the lap is missing, or `lap_number`, `lap_start` and `tyre_age_at_start` (with their defaults) are numbers |
| Aggregation.TimingForOkIff | backend/src/services/f1_service.py:312-337 | A driver's record is built exactly when the four latest-entry lookups succeed and the lap, gap and tyre fields meet the three conditions above; otherwise the driver raises |
| Aggregation.PitCount | backend/src/services/f1_service.py:322 | The filtered pit list has one entry per index whose driver number equals the driver's |
| Aggregation.SortTimingsSpec | backend/src/services/f1_service.py:342 | The sort raises exactly when two records' `position or 999` keys do not compare; otherwise it is a permutation, non-decreasing by key, and keeps the order of records with tied keys |
| Aggregation.SortByRankSorted | backend/src/services/f1_service.py:342 | With comparable keys, the result is non-decreasing by `position or 999` |
| Aggregation.SortByRankStable | backend/src/services/f1_service.py:342 | For every key value, the records tied with it appear in the same order before and after sorting |
| Aggregation.AssembleSpec | backend/src/services/f1_service.py:310-342 | The pass succeeds exactly when every record builds and all keys compare; the result has the roster's length, the loop's records as a multiset, one record per driver, sorted and stable |
| Aggregation.AssembleDrivers | backend/src/services/f1_service.py:312-342 | The sorted records' drivers are the roster, each as often as it is listed |
| Selection.LatestIsNoneIff | backend/src/services/f1_service.py:357-359 | `_get_latest_for_driver` returns None exactly when no entry has the driver's number |
| Selection.LatestRaisesIff | backend/src/services/f1_service.py:357-362 | It raises exactly when the driver has two or more entries and two of their keys (default `''`) do not compare |
| Selection.LatestIsFirstMax | backend/src/services/f1_service.py:355-363 | Otherwise it returns an entry of that driver whose key no other entry of the driver exceeds, and every earlier entry of the driver has a strictly smaller key (ties go to the earliest) |
| Selection.BestIndexIsFirstMax | backend/src/services/f1_service.py:362-363 | The head of the stable reverse sort is the first entry with a maximal key |
| Selection.FirstLatestRaisesIff | backend/src/services/f1_service.py:178 | The reverse sort raises exactly when two distinct entries have keys that do not compare |
| Selection.FirstLatestIsFirstMax | backend/src/services/f1_service.py:178-179 | Otherwise a non-empty list gives the first entry whose key no entry exceeds |
| Formatting.LapTimeFormat | backend/src/services/f1_service.py:365-372 | Raises exactly for a non-empty string; `'--:--.---'` exactly for None, zero, a negative number or `''`; otherwise the one `m:ss.mmm` text (minutes without a leading zero, seconds below 60) that reads back as the duration |
| Formatting.SectorTimeFormat | backend/src/services/f1_service.py:374-378 | Raises exactly for a non-empty string; `'---.---'` exactly for None, zero, a negative number or `''`; otherwise the one `s.mmm` text (seconds without a leading zero) that reads back as the duration |
| Formatting.GapCases | backend/src/services/f1_service.py:380-383 | Raises exactly for a non-empty string; `'--'` exactly when the gap is falsy |
| Formatting.GapReadsBack | backend/src/services/f1_service.py:385-390 | A non-zero numeric gap is `+` then `s.mmm` below 60 s (with a `-` for negative gaps) or `m:ss.mmm` from 60 s, each part reading back as the gap; with the two canonical-reading lemmas this fixes the text |
| Formatting.Clock3RoundTrip | backend/src/services/f1_service.py:370-372 | The `m:ss.mmm` rendering reads back as the milliseconds it came from |
| Formatting.Seconds3RoundTrip | backend/src/services/f1_service.py:378 | The `s.mmm` rendering reads back as the milliseconds it came from |
| Formatting.ParseSeconds3Canonical | backend/src/services/f1_service.py:378 | The only text of the form `s.mmm` (no leading zero in the seconds) that reads as a duration is that duration's `.3f` rendering |
| Formatting.ParsePaddedSeconds3Canonical | backend/src/services/f1_service.py:372 | The only text of the form `ss.mmm` with seconds below 60 that reads as a duration is its `06.3f` rendering, and the duration is under a minute |
| Formatting.ParseClock3Canonical | backend/src/services/f1_service.py:370-372 | The only text of the form `m:ss.mmm` (no leading zero in the minutes, seconds below 60) that reads as a duration is that duration's `m:ss.mmm` rendering |
| Formatting.LapTimeExample | backend/src/services/f1_service.py:370-372 | 91.234 s renders as `1:31.234` |
| Formatting.GapExamples | backend/src/services/f1_service.py:385-390 | 75.5 s renders as `+1:15.500` and 3.2 s as `+3.200` |
| Formatting.TyreAgeFormula | backend/src/services/f1_service.py:392-401 | An empty stint or lap gives 0. Otherwise the result is `max(0, lap_number - lap_start + tyre_age_at_start)`, with missing fields read as 0 and raising when a field is not a number. It is an int when the three fields are ints, and never negative |
| Formatting.TyreAgeExamples | backend/src/services/f1_service.py:397-401 | Stint start 10, age 2, lap 15 gives 7; lap 8 clamps to 0 |
| WebSocket.WebSocketManager.constructor | backend/src/websocket/websocket_handler.py:14-16 | No connections and no connection data |
| WebSocket.WebSocketManager.Connect | backend/src/websocket/websocket_handler.py:18-25 | Appends the connection, sets its data to the connection time and empty subscriptions, leaves other entries alone, and adds one to the count |
| WebSocket.WebSocketManager.Disconnect | backend/src/websocket/websocket_handler.py:28-34 | Drops the first occurrence from the list and the connection's data entry, changes nothing else (nothing at all for an unknown connection), and keeps every data entry's connection active |
| WebSocket.RemoveFirstDropsFirst | backend/src/websocket/websocket_handler.py:31 | `list.remove` drops exactly the first occurrence and keeps the order of the rest |
| WebSocket.RemoveFirstMultiset | backend/src/websocket/websocket_handler.py:31 | `list.remove` takes one occurrence out of the list's multiset of elements |
| WebSocket.WebSocketManager.DisconnectAll | backend/src/websocket/websocket_handler.py:36-43 | Ends with no active connections and no data for any connection that was active; with the invariant, no data at all |
| WebSocket.WebSocketManager.UpdateSubscription | backend/src/websocket/websocket_handler.py:97-111 | Unknown connections are untouched; otherwise only this connection's subscriptions change, to a duplicate-free list with the elements of `UpdatedSubscriptions` |
| WebSocket.UpdatedSubscriptionsSpec | backend/src/websocket/websocket_handler.py:103-108 | "subscribe" gives old ∪ new, "unsubscribe" gives old \ new, any other action keeps the set |
| WebSocket.SubscribeIdempotentAndUndone | backend/src/websocket/websocket_handler.py:105-108 | Subscribing twice equals subscribing once; unsubscribing undoes a subscription to types not held before |
| WebSocket.SetToList | backend/src/websocket/websocket_handler.py:110 | `list(set)` lists every element once |
| WebSocket.TargetsSpec | backend/src/websocket/websocket_handler.py:79-85 | A connection is targeted exactly when it is active and the data type is among its subscriptions, or it has none, or it has no data; only active connections are targeted, and a targeted connection listed several times is sent to that many times |
| WebSocket.TargetsAppend | backend/src/websocket/websocket_handler.py:80-85 | The loop sends in list order: the receivers of a list split in two are those of the first part followed by those of the second |
| WebSocket.EmptySubscriptionsReceiveAll | backend/src/websocket/websocket_handler.py:84 | An active connection with no subscriptions receives every data type |
| WebSocket.WebSocketManager.Recipients | backend/src/websocket/websocket_handler.py:74-87 | The receivers of a subscribed broadcast are exactly the targeted active connections |
| WebSocket.WebSocketManager.HasConnections | backend/src/websocket/websocket_handler.py:89-91 | True exactly when the connection count is positive |
| WebSocket.WebSocketManager.ConnectionCount | backend/src/websocket/websocket_handler.py:93-95 | The length of the active list |

## Left out

- HTTP plumbing. The aiohttp session setup and teardown (`initialize`, `close`) and the request headers are left out. Each exchange is an `Outcome`: its status and decoded body, a timeout, or another exception; a JSON decoding error is the `Error` outcome.
- Asyncio suspension and concurrency. The 0.2 s pauses between streams and the 5 s pause on 429 are not modelled. Neither are interleavings of concurrent requests, or their races on `last_request_time` and the cache. Requests are sequential, and time is explicit clock parameters.
- Floating-point arithmetic and the rounding of `%06.3f` and `.3f`. Durations are exact thousandths of a second.
- Python's per-process `hash()` in the cache key. The source hashes only `json.dumps(params or {}, sort_keys=True)` and prefixes the endpoint outside the hash. The model's key is the endpoint plus the sorted parameter entries themselves, so it cannot collide: the direction of `CacheKeyIgnoresOrder` that equal keys mean equal entries holds of the model only, since two different parameter sets may hash alike in the source.
- JSON booleans, arrays and nested objects as field values. A 200 payload that is a bare number or string is also left out; lists are assumed to hold records.
- Logging, and the text of error messages. `str(e)` becomes the single fault `TypeError`.
- `get_locations` and `get_car_data`, which only build clock-dependent parameters.
- The stream getters `get_drivers` … `get_pit_data`. They are modelled inline as single `MakeRequest` calls with `{"session_key": ...}`. Their `except` branches are unreachable, because the request never raises.
- WebSocket I/O: `accept`, `send_text`, `close`, `send_personal_message`, `broadcast`, `send_connection_stats` and the concurrent fan-out. This includes the disconnect that follows a failed send.
- `backend/main.py`, `backend/src/models/f1_models.py` and `backend/test_backend.py` are not part of this model.
