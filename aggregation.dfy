/**
 * The pure half of `get_comprehensive_timing_data`: turning the roster and
 * the five fetched streams into one timing record per driver, and sorting
 * the records by position. Python's `sort` is stable; records without a
 * (truthy) position sort as 999. Any TypeError raised on the way (an
 * incomparable sort key, a string where a duration is expected) makes the
 * whole pass fail.
 */
module Aggregation {
  import opened PyValues
  import opened Selection
  import opened Formatting

  /** The five streams of one session, as fetched. */
  datatype Streams = Streams(
    positions: seq<Record>,
    intervals: seq<Record>,
    laps: seq<Record>,
    stints: seq<Record>,
    pits: seq<Record>)

  /** One entry of `driverTimings`. */
  datatype Timing = Timing(
    driver: Record,
    position: Json,
    lapTime: string,
    sector1: string,
    sector2: string,
    sector3: string,
    gap: string,
    interval: string,
    lastLap: Json,
    tyreCompound: Json,
    tyreAge: Json,
    pitStops: nat)

  /** The sort key of a record without a position (or with position 0). */
  const NO_POSITION: int := 999

  /** Python's `if latest_x`: None and an empty dict are both false. */
  predicate Present(r: Option<Record>)
  {
    r.Some? && RecordTruthy(r.value)
  }

  /** The four lap and sector texts of a driver's latest lap. */
  datatype LapTexts = LapTexts(lapTime: string, sector1: string, sector2: string, sector3: string)

  function LapTextsFor(lap: Option<Record>): Result<LapTexts>
  {
    if Present(lap) then
      var lapTime :- FormatLapTime(Get(lap.value, "lap_duration"));
      var sector1 :- FormatSectorTime(Get(lap.value, "duration_sector_1"));
      var sector2 :- FormatSectorTime(Get(lap.value, "duration_sector_2"));
      var sector3 :- FormatSectorTime(Get(lap.value, "duration_sector_3"));
      Ok(LapTexts(lapTime, sector1, sector2, sector3))
    else Ok(LapTexts(LAP_PLACEHOLDER, SECTOR_PLACEHOLDER, SECTOR_PLACEHOLDER, SECTOR_PLACEHOLDER))
  }

  /** The gap to the leader and the interval to the car ahead. */
  function GapTextsFor(interval: Option<Record>): Result<(string, string)>
  {
    if Present(interval) then
      var gap :- FormatGap(Get(interval.value, "gap_to_leader"));
      var ahead :- FormatGap(Get(interval.value, "interval"));
      Ok((gap, ahead))
    else Ok((GAP_PLACEHOLDER, GAP_PLACEHOLDER))
  }

  /** The tyre age, computed only when both a stint and a lap are known. */
  function TyreAgeFor(stint: Option<Record>, lap: Option<Record>): Result<Json>
  {
    if Present(stint) && Present(lap) then TyreAge(stint.value, lap.value) else Ok(JInt(0))
  }

  /** The record built for one roster driver (the body of the loop over `drivers`). */
  function TimingFor(driver: Record, s: Streams): Result<Timing>
  {
    var d := Get(driver, "driver_number");
    var position :- LatestForDriver(s.positions, d, "date");
    var interval :- LatestForDriver(s.intervals, d, "date");
    var lap :- LatestForDriver(s.laps, d, "lap_number");
    var stint :- LatestForDriver(s.stints, d, "stint_number");
    var lt :- LapTextsFor(lap);
    var gaps :- GapTextsFor(interval);
    var tyreAge :- TyreAgeFor(stint, lap);
    Ok(Timing(
      driver,
      if Present(position) then Get(position.value, "position") else JNull,
      lt.lapTime, lt.sector1, lt.sector2, lt.sector3, gaps.0, gaps.1,
      if Present(lap) then Get(lap.value, "lap_number") else JInt(0),
      if Present(stint) then Get(stint.value, "compound") else JStr("UNKNOWN"),
      tyreAge,
      |ForDriver(s.pits, d)|))
  }

  /** The values of `rs` in order, or the first failure among them. */
  function AllOk<T>(rs: seq<Result<T>>): Result<seq<T>>
  {
    if rs == [] then Ok([])
    else
      var init :- AllOk(rs[..|rs| - 1]);
      var last :- rs[|rs| - 1];
      Ok(init + [last])
  }

  /** The outcome of building each roster driver's record. */
  function TimingResults(drivers: seq<Record>, s: Streams): (rs: seq<Result<Timing>>)
    ensures |rs| == |drivers| && forall i :: 0 <= i < |drivers| ==> rs[i] == TimingFor(drivers[i], s)
  {
    seq(|drivers|, i requires 0 <= i < |drivers| => TimingFor(drivers[i], s))
  }

  /** The records of `drivers`, in roster order; any failure aborts the pass. */
  function TimingsFor(drivers: seq<Record>, s: Streams): Result<seq<Timing>>
  {
    AllOk(TimingResults(drivers, s))
  }

  /** The sort key of a record: its position when truthy, 999 otherwise. */
  function RankKey(t: Timing): Json
  {
    if Truthy(t.position) then t.position else JInt(NO_POSITION)
  }

  /** `a` sorts strictly before `b`. */
  predicate Before(a: Json, b: Json)
  {
    Comparable(a, b) && Less(a, b)
  }

  /** `a` and `b` compare and neither is the smaller: the sort keeps their order. */
  predicate Tied(a: Json, b: Json)
  {
    Comparable(a, b) && Equivalent(a, b)
  }

  predicate RanksComparable(ts: seq<Timing>)
  {
    forall x, y :: x in ts && y in ts ==> Comparable(RankKey(x), RankKey(y))
  }

  /** Inserts `t` before the first record whose rank is not smaller. */
  function InsertByRank(t: Timing, ts: seq<Timing>): seq<Timing>
  {
    if ts == [] then [t]
    else if Before(RankKey(ts[0]), RankKey(t)) then [ts[0]] + InsertByRank(t, ts[1..])
    else [t] + ts
  }

  /** A stable sort by rank (insertion sort, earlier records first among ties). */
  function SortByRank(ts: seq<Timing>): seq<Timing>
  {
    if ts == [] then [] else InsertByRank(ts[0], SortByRank(ts[1..]))
  }

  /** The stable sort the pass applies to its records, by `RankKey`; raises when two keys do not compare. */
  function SortTimings(ts: seq<Timing>): Result<seq<Timing>>
  {
    if |ts| >= 2 && !RanksComparable(ts) then Err(TypeError) else Ok(SortByRank(ts))
  }

  /** The sorted `driverTimings` of a pass, or the exception that aborted it. */
  function Assemble(drivers: seq<Record>, s: Streams): Result<seq<Timing>>
  {
    var ts :- TimingsFor(drivers, s);
    SortTimings(ts)
  }

  /** Records in non-decreasing rank order. */
  predicate SortedByRank(ts: seq<Timing>)
  {
    forall i, j :: 0 <= i < j < |ts| ==> !Before(RankKey(ts[j]), RankKey(ts[i]))
  }

  /** The records whose rank ties with `v`, in order. */
  function TiedWith(ts: seq<Timing>, v: Json): seq<Timing>
  {
    if ts == [] then []
    else (if Tied(RankKey(ts[0]), v) then [ts[0]] else []) + TiedWith(ts[1..], v)
  }

  /** The `driver` field of each record, in order. */
  function DriversOf(ts: seq<Timing>): (ds: seq<Record>)
    ensures |ds| == |ts| && forall i :: 0 <= i < |ts| ==> ds[i] == ts[i].driver
  {
    seq(|ts|, i requires 0 <= i < |ts| => ts[i].driver)
  }

  /** The loop of `get_comprehensive_timing_data`: append one record per driver, then sort. */
  method CollectTimings(drivers: seq<Record>, s: Streams) returns (r: Result<seq<Timing>>)
    ensures r == Assemble(drivers, s)
  {
    ghost var rs := TimingResults(drivers, s);
    var timings: seq<Timing> := [];
    var i := 0;
    while i < |drivers|
      invariant 0 <= i <= |drivers|
      invariant AllOk(rs[..i]) == Ok(timings)
    {
      var t := TimingFor(drivers[i], s);
      assert rs[..i + 1][..i] == rs[..i];
      if t.Err? {
        AllOkOkIff(rs);
        return Err(t.fault);
      }
      timings := timings + [t.value];
      i := i + 1;
    }
    assert rs[..i] == rs;
    r := SortTimings(timings);
  }

  // Properties of the records

  /** All outcomes succeed exactly when their collection does. */
  lemma {:induction false} AllOkOkIff<T>(rs: seq<Result<T>>)
    ensures AllOk(rs).Ok? <==> forall i :: 0 <= i < |rs| ==> rs[i].Ok?
    ensures AllOk(rs).Err? ==> AllOk(rs) == Err(TypeError)
  {
    if rs != [] {
      var init := rs[..|rs| - 1];
      AllOkOkIff(init);
      assert forall i :: 0 <= i < |init| ==> init[i] == rs[i];
    }
  }

  /** A successful collection holds every outcome's value, in order. */
  lemma {:induction false} AllOkValues<T>(rs: seq<Result<T>>)
    requires AllOk(rs).Ok?
    ensures |AllOk(rs).value| == |rs|
    ensures forall i :: 0 <= i < |rs| ==> rs[i] == Ok(AllOk(rs).value[i])
  {
    if rs != [] {
      var init := rs[..|rs| - 1];
      AllOkValues(init);
      assert forall i :: 0 <= i < |init| ==> init[i] == rs[i];
    }
  }

  /**
   * The pass succeeds exactly when every driver's record can be built, and
   * then the unsorted records are those records, one per driver in roster order.
   */
  lemma TimingsForPerDriver(drivers: seq<Record>, s: Streams)
    ensures TimingsFor(drivers, s).Ok? <==> forall i :: 0 <= i < |drivers| ==> TimingFor(drivers[i], s).Ok?
    ensures TimingsFor(drivers, s).Ok? ==>
              |TimingsFor(drivers, s).value| == |drivers| &&
              forall i :: 0 <= i < |drivers| ==> TimingFor(drivers[i], s) == Ok(TimingsFor(drivers, s).value[i])
  {
    var rs := TimingResults(drivers, s);
    AllOkOkIff(rs);
    if AllOk(rs).Ok? {
      AllOkValues(rs);
    }
  }

  /**
   * A record carries its driver and the driver's pit count. Its position,
   * last lap, compound and tyre age come from the driver's latest position
   * (by `date`), lap (by `lap_number`) and stint (by `stint_number`); the
   * tyre age is that of the latest stint at the latest lap when both are
   * known, and 0 otherwise, and it is never negative. The lap and sector
   * texts are the formatted durations of the latest lap, and the gap and
   * interval texts the formatted fields of the latest interval (by `date`);
   * each is its placeholder when that entry is absent.
   */
  lemma TimingForFields(driver: Record, s: Streams)
    requires TimingFor(driver, s).Ok?
    ensures var t := TimingFor(driver, s).value;
      && t.driver == driver
      && t.pitStops == |set i | 0 <= i < |s.pits| && Matches(s.pits[i], Get(driver, "driver_number"))|
      && IsNumber(t.tyreAge) && Milli(t.tyreAge) >= 0
    ensures var t := TimingFor(driver, s).value;
      var d := Get(driver, "driver_number");
      var position := LatestForDriver(s.positions, d, "date");
      var lap := LatestForDriver(s.laps, d, "lap_number");
      var stint := LatestForDriver(s.stints, d, "stint_number");
      && position.Ok? && lap.Ok? && stint.Ok?
      && (Present(position.value) ==> t.position == Get(position.value.value, "position"))
      && (!Present(position.value) ==> t.position == JNull)
      && (Present(lap.value) ==> t.lastLap == Get(lap.value.value, "lap_number"))
      && (!Present(lap.value) ==> t.lastLap == JInt(0))
      && (Present(stint.value) ==> t.tyreCompound == Get(stint.value.value, "compound"))
      && (!Present(stint.value) ==> t.tyreCompound == JStr("UNKNOWN"))
      && (Present(lap.value) && Present(stint.value) ==> TyreAge(stint.value.value, lap.value.value) == Ok(t.tyreAge))
      && (!Present(lap.value) || !Present(stint.value) ==> t.tyreAge == JInt(0))
    ensures var t := TimingFor(driver, s).value;
      var d := Get(driver, "driver_number");
      var interval := LatestForDriver(s.intervals, d, "date");
      var lap := LatestForDriver(s.laps, d, "lap_number");
      && interval.Ok? && lap.Ok?
      && (Present(lap.value) ==>
            && FormatLapTime(Get(lap.value.value, "lap_duration")) == Ok(t.lapTime)
            && FormatSectorTime(Get(lap.value.value, "duration_sector_1")) == Ok(t.sector1)
            && FormatSectorTime(Get(lap.value.value, "duration_sector_2")) == Ok(t.sector2)
            && FormatSectorTime(Get(lap.value.value, "duration_sector_3")) == Ok(t.sector3))
      && (!Present(lap.value) ==>
            && t.lapTime == LAP_PLACEHOLDER
            && t.sector1 == SECTOR_PLACEHOLDER && t.sector2 == SECTOR_PLACEHOLDER && t.sector3 == SECTOR_PLACEHOLDER)
      && (Present(interval.value) ==>
            && FormatGap(Get(interval.value.value, "gap_to_leader")) == Ok(t.gap)
            && FormatGap(Get(interval.value.value, "interval")) == Ok(t.interval))
      && (!Present(interval.value) ==> t.gap == GAP_PLACEHOLDER && t.interval == GAP_PLACEHOLDER)
  {
    var d := Get(driver, "driver_number");
    PitCount(s.pits, d);
    var lap := LatestForDriver(s.laps, d, "lap_number").value;
    var stint := LatestForDriver(s.stints, d, "stint_number").value;
    if Present(stint) && Present(lap) {
      TyreAgeFormula(stint.value, lap.value);
    }
  }

  /** A non-empty string: the one field value the formatters raise on. */
  predicate NonEmptyText(v: Json)
  {
    v.JStr? && v.s != ""
  }

  /** A latest lap whose duration fields the formatters accept (or no lap at all). */
  predicate LapFieldsFormat(lap: Option<Record>)
  {
    Present(lap) ==>
      && !NonEmptyText(Get(lap.value, "lap_duration"))
      && !NonEmptyText(Get(lap.value, "duration_sector_1"))
      && !NonEmptyText(Get(lap.value, "duration_sector_2"))
      && !NonEmptyText(Get(lap.value, "duration_sector_3"))
  }

  /** A latest interval whose two gap fields the formatter accepts (or no interval at all). */
  predicate GapFieldsFormat(interval: Option<Record>)
  {
    Present(interval) ==>
      && !NonEmptyText(Get(interval.value, "gap_to_leader"))
      && !NonEmptyText(Get(interval.value, "interval"))
  }

  /** A stint and lap whose counters, with their defaults, are numbers (or a missing stint or lap). */
  predicate TyreFieldsNumeric(stint: Option<Record>, lap: Option<Record>)
  {
    Present(stint) && Present(lap) ==>
      && IsNumber(GetOr(lap.value, "lap_number", JInt(0)))
      && IsNumber(GetOr(stint.value, "lap_start", JInt(0)))
      && IsNumber(GetOr(stint.value, "tyre_age_at_start", JInt(0)))
  }

  /** The lap and sector texts build exactly when no duration field is a non-empty string. */
  lemma LapTextsOk(lap: Option<Record>)
    ensures LapTextsFor(lap).Ok? <==> LapFieldsFormat(lap)
  {
    if Present(lap) {
      LapTimeFormat(Get(lap.value, "lap_duration"));
      SectorTimeFormat(Get(lap.value, "duration_sector_1"));
      SectorTimeFormat(Get(lap.value, "duration_sector_2"));
      SectorTimeFormat(Get(lap.value, "duration_sector_3"));
    }
  }

  /** The gap and interval texts build exactly when neither field is a non-empty string. */
  lemma GapTextsOk(interval: Option<Record>)
    ensures GapTextsFor(interval).Ok? <==> GapFieldsFormat(interval)
  {
    if Present(interval) {
      GapCases(Get(interval.value, "gap_to_leader"));
      GapCases(Get(interval.value, "interval"));
    }
  }

  /** The tyre age is computed exactly when its three counters are numbers. */
  lemma TyreAgeOk(stint: Option<Record>, lap: Option<Record>)
    ensures TyreAgeFor(stint, lap).Ok? <==> TyreFieldsNumeric(stint, lap)
  {
    if Present(stint) && Present(lap) {
      TyreAgeFormula(stint.value, lap.value);
    }
  }

  /**
   * A driver's record is built exactly when the four latest-entry lookups
   * succeed, the latest lap's durations and the latest interval's gaps are
   * not non-empty strings, and the tyre counters are numbers.
   */
  lemma TimingForOkIff(driver: Record, s: Streams)
    ensures var d := Get(driver, "driver_number");
      var position := LatestForDriver(s.positions, d, "date");
      var interval := LatestForDriver(s.intervals, d, "date");
      var lap := LatestForDriver(s.laps, d, "lap_number");
      var stint := LatestForDriver(s.stints, d, "stint_number");
      TimingFor(driver, s).Ok? <==>
        && position.Ok? && interval.Ok? && lap.Ok? && stint.Ok?
        && LapFieldsFormat(lap.value)
        && GapFieldsFormat(interval.value)
        && TyreFieldsNumeric(stint.value, lap.value)
  {
    var d := Get(driver, "driver_number");
    var interval := LatestForDriver(s.intervals, d, "date");
    var lap := LatestForDriver(s.laps, d, "lap_number");
    var stint := LatestForDriver(s.stints, d, "stint_number");
    if interval.Ok? && lap.Ok? && stint.Ok? {
      LapTextsOk(lap.value);
      GapTextsOk(interval.value);
      TyreAgeOk(stint.value, lap.value);
    }
  }

  /** The number of entries `ForDriver` keeps is the number of matching indices. */
  lemma PitCount(pits: seq<Record>, d: Json)
    ensures |ForDriver(pits, d)| == |set i | 0 <= i < |pits| && Matches(pits[i], d)|
  {
    ForDriverAtPositions(pits, d);
    MatchPositionsIncreasing(pits, d);
    var ps := MatchPositions(pits, d);
    var matching := set i | 0 <= i < |pits| && Matches(pits[i], d);
    assert (set k | 0 <= k < |ps| :: ps[k]) == matching by {
      forall i | i in matching ensures i in (set k | 0 <= k < |ps| :: ps[k]) {
        MatchPositionsComplete(pits, d, i);
      }
    }
    IncreasingCard(ps);
  }

  lemma {:induction false} IncreasingCard(ps: seq<nat>)
    requires forall k, l :: 0 <= k < l < |ps| ==> ps[k] < ps[l]
    ensures |set k | 0 <= k < |ps| :: ps[k]| == |ps|
  {
    if ps != [] {
      var init := ps[..|ps| - 1];
      IncreasingCard(init);
      var all := set k | 0 <= k < |ps| :: ps[k];
      var front := set k | 0 <= k < |init| :: init[k];
      assert all == front + {ps[|ps| - 1]};
      assert ps[|ps| - 1] !in front;
    }
  }

  // Properties of the sort

  lemma {:induction false} InsertByRankPermutes(t: Timing, ts: seq<Timing>)
    ensures multiset(InsertByRank(t, ts)) == multiset(ts) + multiset{t}
  {
    if ts != [] {
      assert ts == [ts[0]] + ts[1..];
      if Before(RankKey(ts[0]), RankKey(t)) {
        InsertByRankPermutes(t, ts[1..]);
        assert InsertByRank(t, ts) == [ts[0]] + InsertByRank(t, ts[1..]);
      }
    }
  }

  lemma {:induction false} SortByRankPermutes(ts: seq<Timing>)
    ensures multiset(SortByRank(ts)) == multiset(ts)
  {
    if ts != [] {
      assert ts == [ts[0]] + ts[1..];
      SortByRankPermutes(ts[1..]);
      InsertByRankPermutes(ts[0], SortByRank(ts[1..]));
    }
  }

  lemma ConsSortedByRank(x: Timing, ts: seq<Timing>)
    requires SortedByRank(ts)
    requires forall y :: y in ts ==> !Before(RankKey(y), RankKey(x))
    ensures SortedByRank([x] + ts)
  {
    var r := [x] + ts;
    forall i, j | 0 <= i < j < |r| ensures !Before(RankKey(r[j]), RankKey(r[i])) {
      assert r[j] == ts[j - 1];
      if i > 0 {
        assert r[i] == ts[i - 1];
      }
    }
  }

  lemma TailSortedByRank(ts: seq<Timing>)
    requires ts != [] && SortedByRank(ts)
    ensures SortedByRank(ts[1..])
  {
    var tail := ts[1..];
    forall i, j | 0 <= i < j < |tail| ensures !Before(RankKey(tail[j]), RankKey(tail[i])) {
      assert tail[i] == ts[i + 1] && tail[j] == ts[j + 1];
    }
  }

  /** When `t` goes in front, nothing after it ranks below it. */
  lemma InsertInFront(t: Timing, ts: seq<Timing>)
    requires SortedByRank(ts) && RanksComparable([t] + ts)
    requires ts != [] ==> !Before(RankKey(ts[0]), RankKey(t))
    ensures forall y :: y in ts ==> !Before(RankKey(y), RankKey(t))
  {
    forall y | y in ts ensures !Before(RankKey(y), RankKey(t)) {
      var j :| 0 <= j < |ts| && ts[j] == y;
      assert ts[0] in [t] + ts && y in [t] + ts && t in [t] + ts;
      if j > 0 {
        NotLessTransitive(RankKey(t), RankKey(ts[0]), RankKey(y));
      }
    }
  }

  lemma {:induction false} InsertByRankSorted(t: Timing, ts: seq<Timing>)
    requires SortedByRank(ts) && RanksComparable([t] + ts)
    ensures SortedByRank(InsertByRank(t, ts))
  {
    if ts != [] && Before(RankKey(ts[0]), RankKey(t)) {
      var tail := ts[1..];
      assert ts == [ts[0]] + tail;
      TailSortedByRank(ts);
      assert RanksComparable([t] + tail) by {
        forall x | x in [t] + tail ensures x in [t] + ts {
        }
      }
      InsertByRankSorted(t, tail);
      InsertByRankPermutes(t, tail);
      var r := InsertByRank(t, tail);
      var k0 := RankKey(ts[0]);
      forall y | y in r ensures !Before(RankKey(y), k0) {
        assert y in multiset(r);
        if y == t {
          LessAsymmetric(k0, RankKey(t));
        } else {
          var j :| 0 <= j < |tail| && tail[j] == y;
          assert ts[j + 1] == y;
        }
      }
      ConsSortedByRank(ts[0], r);
    } else {
      InsertInFront(t, ts);
      ConsSortedByRank(t, ts);
    }
  }

  lemma {:induction false} SortByRankSorted(ts: seq<Timing>)
    requires RanksComparable(ts)
    ensures SortedByRank(SortByRank(ts))
  {
    if ts != [] {
      var tail := ts[1..];
      assert ts == [ts[0]] + tail;
      SortByRankSorted(tail);
      SortByRankPermutes(tail);
      var sorted := SortByRank(tail);
      assert RanksComparable([ts[0]] + sorted) by {
        forall x | x in [ts[0]] + sorted ensures x in ts {
          if x != ts[0] {
            assert x in multiset(sorted);
          }
        }
      }
      InsertByRankSorted(ts[0], sorted);
    }
  }

  /** A record that skips past a smaller one never skips a record tied with itself. */
  lemma {:induction false} InsertByRankStable(t: Timing, ts: seq<Timing>, v: Json)
    ensures TiedWith(InsertByRank(t, ts), v) == (if Tied(RankKey(t), v) then [t] else []) + TiedWith(ts, v)
  {
    if ts == [] {
    } else if Before(RankKey(ts[0]), RankKey(t)) {
      var tail := ts[1..];
      InsertByRankStable(t, tail, v);
      var r := [ts[0]] + InsertByRank(t, tail);
      assert r[1..] == InsertByRank(t, tail);
      if Tied(RankKey(t), v) {
        LessNotLessTransitive(RankKey(ts[0]), RankKey(t), v);
      }
    } else {
      assert ([t] + ts)[1..] == ts;
    }
  }

  /** The sort is stable: records with tied ranks keep their roster order. */
  lemma {:induction false} SortByRankStable(ts: seq<Timing>, v: Json)
    ensures TiedWith(SortByRank(ts), v) == TiedWith(ts, v)
  {
    if ts != [] {
      SortByRankStable(ts[1..], v);
      InsertByRankStable(ts[0], SortByRank(ts[1..]), v);
    }
  }

  lemma RankKeySelfComparable(t: Timing)
    ensures Comparable(RankKey(t), RankKey(t))
  {
  }

  /**
   * Sorting raises exactly when two records have ranks that cannot be
   * compared; otherwise it returns the same records, ordered by rank, with
   * tied records in their original order.
   */
  lemma SortTimingsSpec(ts: seq<Timing>)
    ensures SortTimings(ts).Err? <==>
              exists x, y :: x in ts && y in ts && !Comparable(RankKey(x), RankKey(y))
    ensures SortTimings(ts).Ok? ==>
              && multiset(SortTimings(ts).value) == multiset(ts)
              && SortedByRank(SortTimings(ts).value)
              && forall v :: TiedWith(SortTimings(ts).value, v) == TiedWith(ts, v)
  {
    if !RanksComparable(ts) {
      var x, y :| x in ts && y in ts && !Comparable(RankKey(x), RankKey(y));
      RankKeySelfComparable(x);
      var i :| 0 <= i < |ts| && ts[i] == x;
      var j :| 0 <= j < |ts| && ts[j] == y;
      assert i != j;
    } else {
      SortByRankSorted(ts);
    }
    SortByRankPermutes(ts);
    forall v ensures TiedWith(SortByRank(ts), v) == TiedWith(ts, v) {
      SortByRankStable(ts, v);
    }
  }

  /**
   * A pass succeeds exactly when every driver's record can be built and all
   * ranks compare; then it holds one record per roster driver, sorted and stable.
   */
  lemma AssembleSpec(drivers: seq<Record>, s: Streams)
    ensures Assemble(drivers, s).Ok? <==>
              && TimingsFor(drivers, s).Ok?
              && (forall i :: 0 <= i < |drivers| ==> TimingFor(drivers[i], s).Ok?)
              && RanksComparable(TimingsFor(drivers, s).value)
    ensures Assemble(drivers, s).Ok? ==>
              var ts := TimingsFor(drivers, s).value;
              && |ts| == |drivers| && |Assemble(drivers, s).value| == |drivers|
              && multiset(Assemble(drivers, s).value) == multiset(ts)
              && (forall i :: 0 <= i < |drivers| ==> TimingFor(drivers[i], s) == Ok(ts[i]))
              && SortedByRank(Assemble(drivers, s).value)
              && forall v :: TiedWith(Assemble(drivers, s).value, v) == TiedWith(ts, v)
  {
    TimingsForPerDriver(drivers, s);
    if TimingsFor(drivers, s).Ok? {
      var ts := TimingsFor(drivers, s).value;
      SortTimingsSpec(ts);
      if SortTimings(ts).Ok? {
        assert |SortTimings(ts).value| == |ts| by {
          assert |multiset(SortTimings(ts).value)| == |multiset(ts)|;
        }
      }
    }
  }

  lemma DriversOfCons(t: Timing, ts: seq<Timing>)
    ensures DriversOf([t] + ts) == [t.driver] + DriversOf(ts)
  {
  }

  lemma {:induction false} InsertByRankDrivers(t: Timing, ts: seq<Timing>)
    ensures multiset(DriversOf(InsertByRank(t, ts))) == multiset(DriversOf(ts)) + multiset{t.driver}
  {
    if ts == [] {
      DriversOfCons(t, ts);
    } else if Before(RankKey(ts[0]), RankKey(t)) {
      InsertByRankDrivers(t, ts[1..]);
      DriversOfCons(ts[0], InsertByRank(t, ts[1..]));
      DriversOfCons(ts[0], ts[1..]);
      assert ts == [ts[0]] + ts[1..];
    } else {
      DriversOfCons(t, ts);
    }
  }

  lemma {:induction false} SortByRankDrivers(ts: seq<Timing>)
    ensures multiset(DriversOf(SortByRank(ts))) == multiset(DriversOf(ts))
  {
    if ts != [] {
      SortByRankDrivers(ts[1..]);
      InsertByRankDrivers(ts[0], SortByRank(ts[1..]));
      DriversOfCons(ts[0], ts[1..]);
      assert ts == [ts[0]] + ts[1..];
    }
  }

  /** The records of a successful pass belong to the roster's drivers, each as often as it is listed. */
  lemma AssembleDrivers(drivers: seq<Record>, s: Streams)
    requires Assemble(drivers, s).Ok?
    ensures multiset(DriversOf(Assemble(drivers, s).value)) == multiset(drivers)
  {
    TimingsForPerDriver(drivers, s);
    var ts := TimingsFor(drivers, s).value;
    forall i | 0 <= i < |drivers| ensures DriversOf(ts)[i] == drivers[i] {
      TimingForFields(drivers[i], s);
    }
    assert DriversOf(ts) == drivers;
    SortByRankDrivers(ts);
  }
}
