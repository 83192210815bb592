/**
 * Picking the "latest" record: `_get_latest_for_driver` filters a stream
 * by driver number and takes the head of a reverse sort by one field;
 * `get_current_session` does the same without the filter. Python's sort
 * is stable even when reversed, so the head is the FIRST entry whose key is
 * maximal. The sort raises a TypeError when two keys cannot be compared;
 * a sort of one element compares nothing.
 */
module Selection {
  import opened PyValues

  /** The sort key of an entry: its `key` field, or the empty string when the field is missing. */
  function SortKey(r: Record, key: string): Json
  {
    GetOr(r, key, JStr(""))
  }

  /** Every two entries' keys compare without raising. */
  predicate KeysComparable(rs: seq<Record>, key: string)
  {
    forall i, j :: 0 <= i < |rs| && 0 <= j < |rs| ==> Comparable(SortKey(rs[i], key), SortKey(rs[j], key))
  }

  /** `rs[i]` has a key no entry exceeds, and every earlier entry's key is smaller. */
  ghost predicate IsFirstMax(rs: seq<Record>, key: string, i: nat)
    requires KeysComparable(rs, key) && i < |rs|
  {
    && (forall j :: 0 <= j < |rs| ==> !Less(SortKey(rs[i], key), SortKey(rs[j], key)))
    && (forall j :: 0 <= j < i ==> Less(SortKey(rs[j], key), SortKey(rs[i], key)))
  }

  /** The position of the head of the stable reverse sort. */
  function BestIndex(rs: seq<Record>, key: string): (i: nat)
    requires |rs| > 0 && KeysComparable(rs, key)
    ensures i < |rs|
  {
    if |rs| == 1 then 0
    else
      assert KeysComparable(rs[1..], key) by {
        forall i, j | 0 <= i < |rs| - 1 && 0 <= j < |rs| - 1
          ensures Comparable(SortKey(rs[1..][i], key), SortKey(rs[1..][j], key))
        {
          assert rs[1..][i] == rs[i + 1] && rs[1..][j] == rs[j + 1];
        }
      }
      var j := BestIndex(rs[1..], key) + 1;
      if Less(SortKey(rs[0], key), SortKey(rs[j], key)) then j else 0
  }

  lemma {:induction false} BestIndexIsFirstMax(rs: seq<Record>, key: string)
    requires |rs| > 0 && KeysComparable(rs, key)
    ensures IsFirstMax(rs, key, BestIndex(rs, key))
  {
    var k0 := SortKey(rs[0], key);
    if |rs| == 1 {
      LessIrreflexive(k0);
    } else {
      var tail := rs[1..];
      assert KeysComparable(tail, key) by {
        forall i, j | 0 <= i < |tail| && 0 <= j < |tail|
          ensures Comparable(SortKey(tail[i], key), SortKey(tail[j], key))
        {
          assert tail[i] == rs[i + 1] && tail[j] == rs[j + 1];
        }
      }
      BestIndexIsFirstMax(tail, key);
      var j := BestIndex(tail, key) + 1;
      var kj := SortKey(rs[j], key);
      assert forall m :: 1 <= m < |rs| ==> !Less(kj, SortKey(rs[m], key)) by {
        forall m | 1 <= m < |rs| ensures !Less(kj, SortKey(rs[m], key)) {
          assert tail[m - 1] == rs[m];
        }
      }
      assert forall m :: 1 <= m < j ==> Less(SortKey(rs[m], key), kj) by {
        forall m | 1 <= m < j ensures Less(SortKey(rs[m], key), kj) {
          assert tail[m - 1] == rs[m];
        }
      }
      if Less(k0, kj) {
        LessAsymmetric(k0, kj);
      } else {
        LessIrreflexive(k0);
        forall m | 1 <= m < |rs| ensures !Less(k0, SortKey(rs[m], key)) {
          NotLessTransitive(SortKey(rs[m], key), kj, k0);
        }
      }
    }
  }

  /** The head of the entries sorted by descending key (stable), or None for no entries; raises when two keys do not compare. */
  function FirstLatest(rs: seq<Record>, key: string): Result<Option<Record>>
  {
    if |rs| == 0 then Ok(None)
    else if |rs| == 1 then Ok(Some(rs[0]))
    else if !KeysComparable(rs, key) then Err(TypeError)
    else Ok(Some(rs[BestIndex(rs, key)]))
  }

  /**
   * The reverse sort raises exactly when two distinct entries have keys
   * that do not compare.
   */
  lemma FirstLatestRaisesIff(rs: seq<Record>, key: string)
    ensures FirstLatest(rs, key).Err? <==>
              exists i, j :: 0 <= i < |rs| && 0 <= j < |rs| && i != j &&
                !Comparable(SortKey(rs[i], key), SortKey(rs[j], key))
  {
    if |rs| >= 2 && !KeysComparable(rs, key) {
      var i, j :| 0 <= i < |rs| && 0 <= j < |rs| && !Comparable(SortKey(rs[i], key), SortKey(rs[j], key));
      if i == j {
        var k := if i == 0 then 1 else 0;
        assert !Comparable(SortKey(rs[i], key), SortKey(rs[k], key));
      }
    }
  }

  /**
   * Otherwise a non-empty list gives the entry whose key no entry exceeds,
   * the earliest such entry on ties.
   */
  lemma FirstLatestIsFirstMax(rs: seq<Record>, key: string)
    requires |rs| > 0 && FirstLatest(rs, key).Ok?
    ensures FirstLatest(rs, key).value.Some?
    ensures exists i :: 0 <= i < |rs| && rs[i] == FirstLatest(rs, key).value.value &&
              (forall j :: 0 <= j < |rs| && j != i ==>
                 Comparable(SortKey(rs[i], key), SortKey(rs[j], key)) &&
                 !Less(SortKey(rs[i], key), SortKey(rs[j], key))) &&
              (forall j :: 0 <= j < i ==>
                 Comparable(SortKey(rs[j], key), SortKey(rs[i], key)) &&
                 Less(SortKey(rs[j], key), SortKey(rs[i], key)))
  {
    if |rs| >= 2 {
      BestIndexIsFirstMax(rs, key);
      assert rs[BestIndex(rs, key)] == FirstLatest(rs, key).value.value;
    } else {
      assert rs[0] == FirstLatest(rs, key).value.value;
    }
  }

  /** The entry's driver number equals `d` under Python equality. */
  predicate Matches(item: Record, driverNumber: Json)
  {
    PyEq(Get(item, "driver_number"), driverNumber)
  }

  /** The entries of the driver `d`, in list order. */
  function ForDriver(data: seq<Record>, driverNumber: Json): seq<Record>
  {
    if data == [] then []
    else
      var last := data[|data| - 1];
      ForDriver(data[..|data| - 1], driverNumber) + (if Matches(last, driverNumber) then [last] else [])
  }

  /** The indices of `data` that `ForDriver` keeps, in order. */
  function MatchPositions(data: seq<Record>, driverNumber: Json): seq<nat>
  {
    if data == [] then []
    else
      MatchPositions(data[..|data| - 1], driverNumber)
        + (if Matches(data[|data| - 1], driverNumber) then [|data| - 1] else [])
  }

  /** `ForDriver` keeps the entries at `MatchPositions`, and they match. */
  lemma {:induction false} ForDriverAtPositions(data: seq<Record>, d: Json)
    ensures |MatchPositions(data, d)| == |ForDriver(data, d)|
    ensures forall k :: 0 <= k < |MatchPositions(data, d)| ==>
              MatchPositions(data, d)[k] < |data| &&
              ForDriver(data, d)[k] == data[MatchPositions(data, d)[k]] &&
              Matches(data[MatchPositions(data, d)[k]], d)
  {
    if data != [] {
      var init := data[..|data| - 1];
      ForDriverAtPositions(init, d);
      var ps, fs := MatchPositions(data, d), ForDriver(data, d);
      forall k | 0 <= k < |ps|
        ensures ps[k] < |data| && fs[k] == data[ps[k]] && Matches(data[ps[k]], d)
      {
        if k < |MatchPositions(init, d)| {
          assert ps[k] == MatchPositions(init, d)[k];
          assert fs[k] == ForDriver(init, d)[k];
          assert init[ps[k]] == data[ps[k]];
        }
      }
    }
  }

  /** The kept positions are strictly increasing: the filter keeps list order. */
  lemma {:induction false} MatchPositionsIncreasing(data: seq<Record>, d: Json)
    ensures forall k :: 0 <= k < |MatchPositions(data, d)| ==> MatchPositions(data, d)[k] < |data|
    ensures forall k, l :: 0 <= k < l < |MatchPositions(data, d)| ==>
              MatchPositions(data, d)[k] < MatchPositions(data, d)[l]
  {
    if data != [] {
      var init := data[..|data| - 1];
      MatchPositionsIncreasing(init, d);
    }
  }

  /** Every matching entry is kept. */
  lemma {:induction false} MatchPositionsComplete(data: seq<Record>, d: Json, i: nat)
    requires i < |data| && Matches(data[i], d)
    ensures i in MatchPositions(data, d)
  {
    var init := data[..|data| - 1];
    if i < |data| - 1 {
      assert init[i] == data[i];
      MatchPositionsComplete(init, d, i);
    }
  }

  /** The driver has two or more entries exactly when two distinct positions match. */
  lemma TwoMatches(data: seq<Record>, d: Json)
    ensures |ForDriver(data, d)| >= 2 <==>
              exists i, j :: 0 <= i < j < |data| && Matches(data[i], d) && Matches(data[j], d)
  {
    ForDriverAtPositions(data, d);
    MatchPositionsIncreasing(data, d);
    var ps := MatchPositions(data, d);
    if |ps| >= 2 {
      assert ps[0] < ps[1];
      assert Matches(data[ps[0]], d) && Matches(data[ps[1]], d);
    }
    if exists i, j :: 0 <= i < j < |data| && Matches(data[i], d) && Matches(data[j], d) {
      var i, j :| 0 <= i < j < |data| && Matches(data[i], d) && Matches(data[j], d);
      MatchPositionsComplete(data, d, i);
      MatchPositionsComplete(data, d, j);
      var a :| 0 <= a < |ps| && ps[a] == i;
      var b :| 0 <= b < |ps| && ps[b] == j;
      assert a != b;
    }
  }

  /** `_get_latest_for_driver(data_list, driver_number, sort_key)`. */
  function LatestForDriver(data: seq<Record>, driverNumber: Json, key: string): Result<Option<Record>>
  {
    FirstLatest(ForDriver(data, driverNumber), key)
  }

  /** None exactly when no entry has the driver's number. */
  lemma LatestIsNoneIff(data: seq<Record>, d: Json, key: string)
    ensures LatestForDriver(data, d, key) == Ok(None) <==>
              forall i :: 0 <= i < |data| ==> !Matches(data[i], d)
  {
    ForDriverAtPositions(data, d);
    var ps := MatchPositions(data, d);
    if ForDriver(data, d) != [] {
      assert Matches(data[ps[0]], d);
    } else {
      forall i | 0 <= i < |data| ensures !Matches(data[i], d) {
        if Matches(data[i], d) {
          MatchPositionsComplete(data, d, i);
        }
      }
    }
  }

  /** The driver's keys compare pairwise exactly when `ForDriver`'s do. */
  lemma KeysComparableIff(data: seq<Record>, d: Json, key: string)
    ensures KeysComparable(ForDriver(data, d), key) <==>
              forall i, j :: 0 <= i < |data| && 0 <= j < |data| && Matches(data[i], d) && Matches(data[j], d) ==>
                Comparable(SortKey(data[i], key), SortKey(data[j], key))
  {
    ForDriverAtPositions(data, d);
    var ps, fs := MatchPositions(data, d), ForDriver(data, d);
    if KeysComparable(fs, key) {
      forall i, j | 0 <= i < |data| && 0 <= j < |data| && Matches(data[i], d) && Matches(data[j], d)
        ensures Comparable(SortKey(data[i], key), SortKey(data[j], key))
      {
        MatchPositionsComplete(data, d, i);
        MatchPositionsComplete(data, d, j);
        var a :| 0 <= a < |ps| && ps[a] == i;
        var b :| 0 <= b < |ps| && ps[b] == j;
        assert fs[a] == data[i] && fs[b] == data[j];
      }
    }
  }

  /**
   * A TypeError exactly when the driver has two or more entries and two of
   * their keys do not compare.
   */
  lemma LatestRaisesIff(data: seq<Record>, d: Json, key: string)
    ensures LatestForDriver(data, d, key).Err? <==>
              (exists i, j :: 0 <= i < j < |data| && Matches(data[i], d) && Matches(data[j], d)) &&
              (exists i, j :: 0 <= i < |data| && 0 <= j < |data| && Matches(data[i], d) && Matches(data[j], d) &&
                 !Comparable(SortKey(data[i], key), SortKey(data[j], key)))
  {
    TwoMatches(data, d);
    KeysComparableIff(data, d, key);
  }

  /**
   * Otherwise the result is an entry of that driver whose key no other
   * entry of the driver exceeds, and every earlier entry of the driver has
   * a strictly smaller key: ties go to the earliest entry.
   */
  lemma LatestIsFirstMax(data: seq<Record>, d: Json, key: string)
    requires LatestForDriver(data, d, key).Ok? && LatestForDriver(data, d, key).value.Some?
    ensures exists i :: 0 <= i < |data| && data[i] == LatestForDriver(data, d, key).value.value && Matches(data[i], d) &&
              (forall j :: 0 <= j < |data| && j != i && Matches(data[j], d) ==>
                 Comparable(SortKey(data[i], key), SortKey(data[j], key)) &&
                 !Less(SortKey(data[i], key), SortKey(data[j], key))) &&
              (forall j :: 0 <= j < i && Matches(data[j], d) ==>
                 Comparable(SortKey(data[j], key), SortKey(data[i], key)) &&
                 Less(SortKey(data[j], key), SortKey(data[i], key)))
  {
    ForDriverAtPositions(data, d);
    MatchPositionsIncreasing(data, d);
    TwoMatches(data, d);
    KeysComparableIff(data, d, key);
    var ps, fs := MatchPositions(data, d), ForDriver(data, d);
    var best := if |fs| == 1 then 0 else BestIndex(fs, key);
    var i := ps[best];
    assert data[i] == LatestForDriver(data, d, key).value.value;
    if |fs| == 1 {
      forall j | 0 <= j < |data| && Matches(data[j], d) ensures j == i {
        MatchPositionsComplete(data, d, j);
      }
    } else {
      BestIndexIsFirstMax(fs, key);
      forall j | 0 <= j < |data| && j != i && Matches(data[j], d)
        ensures Comparable(SortKey(data[i], key), SortKey(data[j], key)) &&
                !Less(SortKey(data[i], key), SortKey(data[j], key))
      {
        MatchPositionsComplete(data, d, j);
        var b :| 0 <= b < |ps| && ps[b] == j;
        assert fs[b] == data[j];
      }
      forall j | 0 <= j < i && Matches(data[j], d)
        ensures Comparable(SortKey(data[j], key), SortKey(data[i], key)) &&
                Less(SortKey(data[j], key), SortKey(data[i], key))
      {
        MatchPositionsComplete(data, d, j);
        var b :| 0 <= b < |ps| && ps[b] == j;
        assert fs[b] == data[j];
      }
    }
  }
}
