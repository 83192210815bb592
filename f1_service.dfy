/**
 * The OpenF1 client: a response cache with a one-minute lifetime, a
 * limiter that keeps requests half a second apart, and a failure count
 * that decides whether the service reports itself healthy. Every clock
 * reading and every HTTP outcome is an explicit input; times are integer
 * milliseconds.
 */
module F1Service {
  import opened PyValues
  import opened CacheKeys
  import opened Selection
  import opened Aggregation

  /** `cache_ttl`: 60 seconds. */
  const CACHE_TTL: int := 60000
  /** `min_request_interval`: 0.5 seconds. */
  const MIN_REQUEST_INTERVAL: int := 500
  /** `max_failures`. */
  const MAX_FAILURES: nat := 5

  /** `{'data': ..., 'timestamp': ...}`. */
  datatype CacheEntry = CacheEntry(data: seq<Record>, timestamp: int)

  /**
   * The clock readings one request may take: when the cache entry is
   * checked, when the limiter reads the time, when it stamps
   * `last_request_time` after sleeping, and when a response is stored.
   */
  datatype Clock = Clock(checkedAt: int, limiterAt: int, resumedAt: int, storedAt: int)

  /** A decoded JSON payload: a list of records, one object, or `null`. */
  datatype Body = List(items: seq<Record>) | Object(fields: Record) | Null

  /** What the HTTP exchange produced: a status and payload, a timeout, or another exception. */
  datatype Outcome = Response(status: int, body: Body) | Timeout | Error

  /** One request's inputs. */
  datatype Exchange = Exchange(outcome: Outcome, clock: Clock)

  /** The instance fields `_make_request` reads and writes. */
  datatype ServiceState = ServiceState(
    cache: map<CacheKey, CacheEntry>,
    lastRequestTime: int,
    consecutiveFailures: nat,
    isHealthy: bool)

  /** What a request returns and the state it leaves. */
  datatype Reply = Reply(state: ServiceState, data: seq<Record>)

  /** `get_health_status()`. */
  datatype HealthReport = HealthReport(isHealthy: bool, consecutiveFailures: nat, cacheEntries: nat, lastRequest: int)

  /** Why a timing snapshot holds no records. */
  datatype SnapshotError = NoDriversFound | Raised(fault: Fault)

  /** The dict `get_comprehensive_timing_data` returns. */
  datatype Snapshot =
    | Timings(driverTimings: seq<Timing>, lastUpdate: string, sessionKey: Json, totalDrivers: nat)
    | Failed(driverTimings: seq<Timing>, error: SnapshotError)

  /** The health flag agrees with the failure count. */
  predicate HealthConsistent(st: ServiceState)
  {
    st.isHealthy == (st.consecutiveFailures < MAX_FAILURES)
  }

  /** The fields as `__init__` sets them. */
  function InitialState(): (st: ServiceState)
    ensures HealthConsistent(st) && st.cache == map[]
  {
    ServiceState(map[], 0, 0, true)
  }

  /** `_is_cache_valid`: the entry is younger than the time to live. */
  predicate IsFresh(e: CacheEntry, now: int)
  {
    now - e.timestamp < CACHE_TTL
  }

  /** How long `_wait_for_rate_limit` sleeps. */
  function RateLimitWait(now: int, last: int): int
  {
    var sinceLast := now - last;
    if sinceLast < MIN_REQUEST_INTERVAL then MIN_REQUEST_INTERVAL - sinceLast else 0
  }

  /** A payload as a list of records: a list as it is, a non-empty object wrapped in a list, anything else empty. */
  function Normalise(body: Body): seq<Record>
  {
    match body
    case List(items) => items
    case Object(fields) => if RecordTruthy(fields) then [fields] else []
    case Null => []
  }

  /** The `finally` clause: too many failures mark the service unhealthy. */
  function MarkUnhealthy(st: ServiceState): ServiceState
  {
    if st.consecutiveFailures >= MAX_FAILURES then st.(isHealthy := false) else st
  }

  predicate IsStatus(o: Outcome, code: int)
  {
    o.Response? && o.status == code
  }

  /** The cached data for `key`, fresh or not, or `[]`. */
  function CachedOrEmpty(st: ServiceState, key: CacheKey): seq<Record>
  {
    if key in st.cache then st.cache[key].data else []
  }

  /** `_make_request(endpoint, params)` on the given outcome and clock. */
  function RequestSpec(st: ServiceState, endpoint: string, params: Option<Params>, outcome: Outcome, clock: Clock): Reply
  {
    var key := MakeCacheKey(endpoint, params);
    if key in st.cache && IsFresh(st.cache[key], clock.checkedAt) then Reply(st, st.cache[key].data)
    else
      var paced := st.(lastRequestTime := clock.resumedAt);
      if IsStatus(outcome, 200) then
        var data := Normalise(outcome.body);
        Reply(MarkUnhealthy(paced.(cache := paced.cache[key := CacheEntry(data, clock.storedAt)],
                                   consecutiveFailures := 0, isHealthy := true)), data)
      else if IsStatus(outcome, 429) then Reply(MarkUnhealthy(paced), CachedOrEmpty(st, key))
      else if IsStatus(outcome, 404) then Reply(MarkUnhealthy(paced), [])
      else Reply(MarkUnhealthy(paced.(consecutiveFailures := paced.consecutiveFailures + 1)), CachedOrEmpty(st, key))
  }

  /** The parameters `{"session_key": session_key}` of the per-session endpoints. */
  function SessionParams(sessionKey: Json): Option<Params>
  {
    Some([("session_key", sessionKey)])
  }

  /** What `get_current_session` returns and the state it leaves. */
  datatype SessionReply = SessionReply(state: ServiceState, session: Option<Record>)

  /** `get_current_session()`, with `datetime.now().year` as `year`. */
  function CurrentSessionSpec(st: ServiceState, latest: Exchange, fallback: Exchange, year: int): SessionReply
  {
    var first := RequestSpec(st, "sessions", Some([("session_key", JStr("latest"))]), latest.outcome, latest.clock);
    if first.data != [] then SessionReply(first.state, Some(first.data[0]))
    else
      var second := RequestSpec(first.state, "sessions", Some([("year", JInt(year))]), fallback.outcome, fallback.clock);
      if second.data == [] then SessionReply(second.state, None)
      else
        match FirstLatest(second.data, "date_start")
        case Ok(s) => SessionReply(second.state, s)
        case Err(_) => SessionReply(second.state, None)
  }

  /** The six requests of one timing pass, in the order they are made. */
  datatype TimingExchanges = TimingExchanges(
    drivers: Exchange, positions: Exchange, intervals: Exchange,
    laps: Exchange, stints: Exchange, pits: Exchange)

  datatype SnapshotReply = SnapshotReply(state: ServiceState, snapshot: Snapshot)

  function SessionRequest(st: ServiceState, endpoint: string, sessionKey: Json, ex: Exchange): Reply
  {
    RequestSpec(st, endpoint, SessionParams(sessionKey), ex.outcome, ex.clock)
  }

  /** The five streams, fetched one after the other after the roster. */
  function FetchStreams(st: ServiceState, sessionKey: Json, ex: TimingExchanges): (ServiceState, Streams)
  {
    var positions := SessionRequest(st, "position", sessionKey, ex.positions);
    var intervals := SessionRequest(positions.state, "intervals", sessionKey, ex.intervals);
    var laps := SessionRequest(intervals.state, "laps", sessionKey, ex.laps);
    var stints := SessionRequest(laps.state, "stints", sessionKey, ex.stints);
    var pits := SessionRequest(stints.state, "pit", sessionKey, ex.pits);
    (pits.state, Streams(positions.data, intervals.data, laps.data, stints.data, pits.data))
  }

  /** The result dict built from a non-empty roster and its streams. */
  function SnapshotOf(roster: seq<Record>, streams: Streams, sessionKey: Json, updatedAt: string): Snapshot
  {
    match Assemble(roster, streams)
    case Ok(ts) => Timings(ts, updatedAt, sessionKey, |roster|)
    case Err(f) => Failed([], Raised(f))
  }

  /** `get_comprehensive_timing_data(session_key)`, with `utcnow().isoformat()` as `updatedAt`. */
  function ComprehensiveSpec(st: ServiceState, sessionKey: Json, ex: TimingExchanges, updatedAt: string): SnapshotReply
  {
    var drivers := SessionRequest(st, "drivers", sessionKey, ex.drivers);
    if drivers.data == [] then SnapshotReply(drivers.state, Failed([], NoDriversFound))
    else
      var fetched := FetchStreams(drivers.state, sessionKey, ex);
      SnapshotReply(fetched.0, SnapshotOf(drivers.data, fetched.1, sessionKey, updatedAt))
  }

  /** The service object. */
  class F1Service {
    var cache: map<CacheKey, CacheEntry>
    var lastRequestTime: int
    var consecutiveFailures: nat
    var isHealthy: bool

    function State(): ServiceState
      reads this
    {
      ServiceState(cache, lastRequestTime, consecutiveFailures, isHealthy)
    }

    ghost predicate Valid()
      reads this
    {
      HealthConsistent(State())
    }

    constructor ()
      ensures State() == InitialState() && Valid()
    {
      cache := map[];
      lastRequestTime := 0;
      consecutiveFailures := 0;
      isHealthy := true;
    }

    /** `_wait_for_rate_limit()`: returns the time slept and stamps the clock after the sleep. */
    method WaitForRateLimit(now: int, resumed: int) returns (waited: int)
      modifies this
      ensures waited == RateLimitWait(now, old(lastRequestTime))
      ensures lastRequestTime == resumed
      ensures cache == old(cache) && consecutiveFailures == old(consecutiveFailures) && isHealthy == old(isHealthy)
    {
      var sinceLast := now - lastRequestTime;
      waited := 0;
      if sinceLast < MIN_REQUEST_INTERVAL {
        waited := MIN_REQUEST_INTERVAL - sinceLast;
      }
      lastRequestTime := resumed;
    }

    /** `_make_request(endpoint, params)`. */
    method MakeRequest(endpoint: string, params: Option<Params>, outcome: Outcome, clock: Clock)
      returns (data: seq<Record>)
      modifies this
      ensures Reply(State(), data) == RequestSpec(old(State()), endpoint, params, outcome, clock)
      ensures old(Valid()) ==> Valid()
    {
      var key := MakeCacheKey(endpoint, params);
      if key in cache && IsFresh(cache[key], clock.checkedAt) {
        return cache[key].data;
      }
      var waited := WaitForRateLimit(clock.limiterAt, clock.resumedAt);
      if IsStatus(outcome, 200) {
        data := Normalise(outcome.body);
        cache := cache[key := CacheEntry(data, clock.storedAt)];
        consecutiveFailures := 0;
        isHealthy := true;
      } else if IsStatus(outcome, 429) {
        data := if key in cache then cache[key].data else [];
      } else if IsStatus(outcome, 404) {
        data := [];
      } else {
        consecutiveFailures := consecutiveFailures + 1;
        data := if key in cache then cache[key].data else [];
      }
      if consecutiveFailures >= MAX_FAILURES {
        isHealthy := false;
      }
    }

    /** `get_current_session()`. */
    method GetCurrentSession(latest: Exchange, fallback: Exchange, year: int) returns (session: Option<Record>)
      modifies this
      ensures SessionReply(State(), session) == CurrentSessionSpec(old(State()), latest, fallback, year)
      ensures old(Valid()) ==> Valid()
    {
      var sessions := MakeRequest("sessions", Some([("session_key", JStr("latest"))]), latest.outcome, latest.clock);
      if sessions != [] {
        return Some(sessions[0]);
      }
      sessions := MakeRequest("sessions", Some([("year", JInt(year))]), fallback.outcome, fallback.clock);
      if sessions == [] {
        return None;
      }
      var best := FirstLatest(sessions, "date_start");
      session := if best.Ok? then best.value else None;
    }

    /** `get_comprehensive_timing_data(session_key)`. */
    method GetComprehensiveTimingData(sessionKey: Json, ex: TimingExchanges, updatedAt: string)
      returns (snapshot: Snapshot)
      modifies this
      ensures SnapshotReply(State(), snapshot) == ComprehensiveSpec(old(State()), sessionKey, ex, updatedAt)
      ensures old(Valid()) ==> Valid()
    {
      var drivers := MakeRequest("drivers", SessionParams(sessionKey), ex.drivers.outcome, ex.drivers.clock);
      if drivers == [] {
        return Failed([], NoDriversFound);
      }
      var positions := MakeRequest("position", SessionParams(sessionKey), ex.positions.outcome, ex.positions.clock);
      var intervals := MakeRequest("intervals", SessionParams(sessionKey), ex.intervals.outcome, ex.intervals.clock);
      var laps := MakeRequest("laps", SessionParams(sessionKey), ex.laps.outcome, ex.laps.clock);
      var stints := MakeRequest("stints", SessionParams(sessionKey), ex.stints.outcome, ex.stints.clock);
      var pits := MakeRequest("pit", SessionParams(sessionKey), ex.pits.outcome, ex.pits.clock);
      var timings := CollectTimings(drivers, Streams(positions, intervals, laps, stints, pits));
      if timings.Err? {
        return Failed([], Raised(timings.fault));
      }
      snapshot := Timings(timings.value, updatedAt, sessionKey, |drivers|);
    }

    /** `get_health_status()`. */
    function HealthStatus(): (r: HealthReport)
      reads this
      ensures r.cacheEntries == |cache| && r.consecutiveFailures == consecutiveFailures
      ensures r.lastRequest == lastRequestTime && r.isHealthy == isHealthy
      ensures Valid() ==> (r.isHealthy <==> r.consecutiveFailures < MAX_FAILURES)
    {
      HealthReport(isHealthy, consecutiveFailures, |cache|, lastRequestTime)
    }
  }

  // Freshness and pacing

  /** An entry stays fresh for the 60 seconds after it is stored, and not a moment longer. */
  lemma FreshWindow(e: CacheEntry, now: int)
    ensures IsFresh(e, now) <==> now < e.timestamp + CACHE_TTL
    ensures IsFresh(e, now) ==> forall earlier :: earlier <= now ==> IsFresh(e, earlier)
  {
  }

  /**
   * The limiter sleeps exactly the part of the interval not yet elapsed
   * and nothing when a full interval has passed: after the sleep the clock
   * is at least one interval past the previous request.
   */
  lemma RateLimitWaitIsMinimal(now: int, last: int)
    ensures RateLimitWait(now, last) >= 0
    ensures RateLimitWait(now, last) > 0 <==> now - last < MIN_REQUEST_INTERVAL
    ensures now + RateLimitWait(now, last) >= last + MIN_REQUEST_INTERVAL
    ensures RateLimitWait(now, last) > 0 ==> now + RateLimitWait(now, last) == last + MIN_REQUEST_INTERVAL
  {
  }

  /**
   * With a clock that does not run backwards across the sleep, a request
   * that reaches the network is stamped with the clock after the sleep, at
   * least one interval after the previous stamp; a fresh hit keeps the stamp.
   */
  lemma RequestsArePaced(st: ServiceState, endpoint: string, params: Option<Params>, outcome: Outcome, clock: Clock)
    requires clock.resumedAt >= clock.limiterAt + RateLimitWait(clock.limiterAt, st.lastRequestTime)
    ensures var key := MakeCacheKey(endpoint, params);
      var r := RequestSpec(st, endpoint, params, outcome, clock);
      && (!(key in st.cache && IsFresh(st.cache[key], clock.checkedAt)) ==>
            r.state.lastRequestTime == clock.resumedAt >= st.lastRequestTime + MIN_REQUEST_INTERVAL)
      && (key in st.cache && IsFresh(st.cache[key], clock.checkedAt) ==>
            r.state.lastRequestTime == st.lastRequestTime)
  {
    RateLimitWaitIsMinimal(clock.limiterAt, st.lastRequestTime);
  }

  // The request state machine

  /** A fresh hit returns the stored data and touches nothing: not the limiter, the counter, the flag or the cache. */
  lemma FreshHitTouchesNothing(st: ServiceState, endpoint: string, params: Option<Params>, outcome: Outcome, clock: Clock)
    requires MakeCacheKey(endpoint, params) in st.cache
    requires clock.checkedAt < st.cache[MakeCacheKey(endpoint, params)].timestamp + CACHE_TTL
    ensures var r := RequestSpec(st, endpoint, params, outcome, clock);
      r.state == st && r.data == st.cache[MakeCacheKey(endpoint, params)].data
  {
  }

  /**
   * A 200 that is not a fresh hit replaces the key's entry wholesale with
   * the normalised payload and the storing time, leaves every other entry
   * alone, clears the failure count and returns the payload: a list as it
   * is, a non-empty object as a one-element list, anything else as `[]`.
   */
  lemma SuccessReplacesEntry(st: ServiceState, endpoint: string, params: Option<Params>, body: Body, clock: Clock)
    requires var key := MakeCacheKey(endpoint, params);
      !(key in st.cache && clock.checkedAt < st.cache[key].timestamp + CACHE_TTL)
    ensures var key := MakeCacheKey(endpoint, params);
      var r := RequestSpec(st, endpoint, params, Response(200, body), clock);
      && key in r.state.cache
      && r.state.cache[key] == CacheEntry(r.data, clock.storedAt)
      && (forall k :: k != key ==> (k in r.state.cache <==> k in st.cache))
      && (forall k :: k != key && k in st.cache ==> r.state.cache[k] == st.cache[k])
      && r.state.consecutiveFailures == 0 && r.state.isHealthy
      && r.state.lastRequestTime == clock.resumedAt
      && (body.List? ==> r.data == body.items)
      && (body.Object? ==> r.data == if body.fields == map[] then [] else [body.fields])
      && (body.Null? ==> r.data == [])
  {
  }

  /** Every outcome but 200 leaves the cache exactly as it was. */
  lemma OnlySuccessWritesCache(st: ServiceState, endpoint: string, params: Option<Params>, outcome: Outcome, clock: Clock)
    requires !IsStatus(outcome, 200)
    ensures RequestSpec(st, endpoint, params, outcome, clock).state.cache == st.cache
  {
  }

  /**
   * A 429 returns whatever is cached for the key, even stale, or `[]`; a
   * 404 returns `[]` without looking at the cache. Neither counts as a failure.
   */
  lemma RateLimitedAndNotFound(st: ServiceState, endpoint: string, params: Option<Params>, outcome: Outcome, clock: Clock)
    requires IsStatus(outcome, 429) || IsStatus(outcome, 404)
    requires var key := MakeCacheKey(endpoint, params);
      !(key in st.cache && clock.checkedAt < st.cache[key].timestamp + CACHE_TTL)
    ensures var key := MakeCacheKey(endpoint, params);
      var r := RequestSpec(st, endpoint, params, outcome, clock);
      && r.state.consecutiveFailures == st.consecutiveFailures
      && (IsStatus(outcome, 404) ==> r.data == [])
      && (IsStatus(outcome, 429) && key in st.cache ==> r.data == st.cache[key].data)
      && (IsStatus(outcome, 429) && key !in st.cache ==> r.data == [])
  {
  }

  /**
   * Any other status, a timeout or an exception adds exactly one failure
   * and falls back to whatever is cached for the key, or `[]`; the fifth
   * failure in a row marks the service unhealthy.
   */
  lemma FailureCountsOnce(st: ServiceState, endpoint: string, params: Option<Params>, outcome: Outcome, clock: Clock)
    requires !IsStatus(outcome, 200) && !IsStatus(outcome, 429) && !IsStatus(outcome, 404)
    requires var key := MakeCacheKey(endpoint, params);
      !(key in st.cache && clock.checkedAt < st.cache[key].timestamp + CACHE_TTL)
    ensures var key := MakeCacheKey(endpoint, params);
      var r := RequestSpec(st, endpoint, params, outcome, clock);
      && r.state.consecutiveFailures == st.consecutiveFailures + 1
      && (key in st.cache ==> r.data == st.cache[key].data)
      && (key !in st.cache ==> r.data == [])
      && (r.state.consecutiveFailures >= MAX_FAILURES ==> !r.state.isHealthy)
  {
  }

  /** Every path of a request, the fresh hit included, keeps the health flag in step with the count. */
  lemma RequestKeepsHealthConsistent(st: ServiceState, endpoint: string, params: Option<Params>, outcome: Outcome, clock: Clock)
    requires HealthConsistent(st)
    ensures HealthConsistent(RequestSpec(st, endpoint, params, outcome, clock).state)
  {
  }

  /**
   * A successful request is answered from the cache by any later request
   * for the same entries, in whatever order they are given, within the
   * next 60 seconds.
   */
  lemma SuccessThenHit(st: ServiceState, endpoint: string, ps: Params, qs: Params, body: Body,
                       clock: Clock, outcome: Outcome, later: Clock)
    requires DistinctKeys(ps) && DistinctKeys(qs) && forall x :: x in ps <==> x in qs
    requires var key := MakeCacheKey(endpoint, Some(ps));
      !(key in st.cache && clock.checkedAt < st.cache[key].timestamp + CACHE_TTL)
    requires later.checkedAt < clock.storedAt + CACHE_TTL
    ensures var first := RequestSpec(st, endpoint, Some(ps), Response(200, body), clock);
      RequestSpec(first.state, endpoint, Some(qs), outcome, later) == Reply(first.state, first.data)
  {
    CacheKeyIgnoresOrder(endpoint, ps, qs);
  }

  // Sessions and timing passes

  /**
   * `get_current_session` takes the head of the "latest" answer when there
   * is one, without a second request; otherwise it falls back to the
   * year's sessions and returns the first one with the greatest
   * `date_start`, or None when there are none or two start dates do not
   * compare.
   */
  lemma CurrentSessionChoice(st: ServiceState, latest: Exchange, fallback: Exchange, year: int)
    ensures var first := RequestSpec(st, "sessions", Some([("session_key", JStr("latest"))]), latest.outcome, latest.clock);
      var r := CurrentSessionSpec(st, latest, fallback, year);
      first.data != [] ==> r == SessionReply(first.state, Some(first.data[0]))
    ensures var first := RequestSpec(st, "sessions", Some([("session_key", JStr("latest"))]), latest.outcome, latest.clock);
      var ss := RequestSpec(first.state, "sessions", Some([("year", JInt(year))]), fallback.outcome, fallback.clock).data;
      var r := CurrentSessionSpec(st, latest, fallback, year);
      first.data == [] ==>
        && (r.session.None? <==>
              ss == [] || exists i, j :: 0 <= i < |ss| && 0 <= j < |ss| && i != j &&
                            !Comparable(SortKey(ss[i], "date_start"), SortKey(ss[j], "date_start")))
        && (r.session.Some? ==>
              exists i :: 0 <= i < |ss| && ss[i] == r.session.value &&
                (forall j :: 0 <= j < |ss| && j != i ==>
                   Comparable(SortKey(ss[i], "date_start"), SortKey(ss[j], "date_start")) &&
                   !Less(SortKey(ss[i], "date_start"), SortKey(ss[j], "date_start"))) &&
                (forall j :: 0 <= j < i ==>
                   Comparable(SortKey(ss[j], "date_start"), SortKey(ss[i], "date_start")) &&
                   Less(SortKey(ss[j], "date_start"), SortKey(ss[i], "date_start"))))
  {
    var first := RequestSpec(st, "sessions", Some([("session_key", JStr("latest"))]), latest.outcome, latest.clock);
    var ss := RequestSpec(first.state, "sessions", Some([("year", JInt(year))]), fallback.outcome, fallback.clock).data;
    FirstLatestRaisesIff(ss, "date_start");
    if ss != [] && FirstLatest(ss, "date_start").Ok? {
      FirstLatestIsFirstMax(ss, "date_start");
    }
  }

  /** An empty roster ends the pass after one request, with no records and "No drivers found". */
  lemma EmptyRosterStops(st: ServiceState, sessionKey: Json, ex: TimingExchanges, updatedAt: string)
    requires SessionRequest(st, "drivers", sessionKey, ex.drivers).data == []
    ensures ComprehensiveSpec(st, sessionKey, ex, updatedAt) ==
              SnapshotReply(SessionRequest(st, "drivers", sessionKey, ex.drivers).state, Failed([], NoDriversFound))
  {
  }

  /**
   * Otherwise the pass either fails with the TypeError one record or the
   * sort raised, with no records, or returns one record per roster driver,
   * `totalDrivers` the roster length, sorted by `position or 999` and
   * stable among equal positions.
   */
  lemma SnapshotRecords(roster: seq<Record>, streams: Streams, sessionKey: Json, updatedAt: string)
    ensures var snap := SnapshotOf(roster, streams, sessionKey, updatedAt);
      && (snap.Failed? <==> Assemble(roster, streams).Err?)
      && (snap.Failed? ==> snap == Failed([], Raised(TypeError)))
      && (snap.Timings? ==>
            && snap.totalDrivers == |roster| == |snap.driverTimings|
            && snap.sessionKey == sessionKey && snap.lastUpdate == updatedAt
            && multiset(DriversOf(snap.driverTimings)) == multiset(roster)
            && SortedByRank(snap.driverTimings)
            && forall v :: TiedWith(snap.driverTimings, v) == TiedWith(TimingsFor(roster, streams).value, v))
  {
    var a := Assemble(roster, streams);
    if a.Ok? {
      AssembleSpec(roster, streams);
      AssembleDrivers(roster, streams);
      assert SnapshotOf(roster, streams, sessionKey, updatedAt) == Timings(a.value, updatedAt, sessionKey, |roster|);
    } else {
      assert a.fault.TypeError?;
      assert SnapshotOf(roster, streams, sessionKey, updatedAt) == Failed([], Raised(a.fault));
    }
  }
}
