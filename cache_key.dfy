/**
 * The cache key of a request: the endpoint together with its query
 * parameters serialised with sorted keys, so that two parameter dicts with
 * the same entries give the same key whatever order they were built in.
 * A dict is modelled as its entries in insertion order.
 */
module CacheKeys {
  import opened PyValues

  /** A parameter dict, its entries in insertion order. */
  type Params = seq<(string, Json)>

  /** A dict never holds a key twice. */
  predicate DistinctKeys(ps: Params)
  {
    forall i, j :: 0 <= i < j < |ps| ==> ps[i].0 != ps[j].0
  }

  /** Entries in strictly increasing key order, as `json.dumps(..., sort_keys=True)` writes them. */
  predicate StrictlySorted(ps: Params)
  {
    forall i, j :: 0 <= i < j < |ps| ==> StrLess(ps[i].0, ps[j].0)
  }

  datatype CacheKey = CacheKey(endpoint: string, params: Params)

  function Insert(p: (string, Json), ps: Params): Params
  {
    if ps == [] then [p]
    else if StrLess(p.0, ps[0].0) then [p] + ps
    else [ps[0]] + Insert(p, ps[1..])
  }

  /** The entries sorted by key. */
  function SortByKey(ps: Params): Params
  {
    if ps == [] then [] else Insert(ps[0], SortByKey(ps[1..]))
  }

  /** `_get_cache_key(endpoint, params)`: `params or {}` serialised with sorted keys. */
  function MakeCacheKey(endpoint: string, params: Option<Params>): CacheKey
  {
    CacheKey(endpoint, SortByKey(if params.Some? then params.value else []))
  }

  lemma ConsSorted(x: (string, Json), ps: Params)
    requires StrictlySorted(ps)
    requires forall q :: q in ps ==> StrLess(x.0, q.0)
    ensures StrictlySorted([x] + ps)
  {
    var r := [x] + ps;
    forall i, j | 0 <= i < j < |r| ensures StrLess(r[i].0, r[j].0) {
      assert r[j] == ps[j - 1];
      if i > 0 {
        assert r[i] == ps[i - 1];
      }
    }
  }

  lemma {:induction false} InsertSorted(p: (string, Json), ps: Params)
    requires StrictlySorted(ps)
    requires forall q :: q in ps ==> q.0 != p.0
    ensures StrictlySorted(Insert(p, ps))
    ensures multiset(Insert(p, ps)) == multiset(ps) + multiset{p}
  {
    if ps == [] {
    } else if StrLess(p.0, ps[0].0) {
      forall q | q in ps ensures StrLess(p.0, q.0) {
        var j :| 0 <= j < |ps| && ps[j] == q;
        if j > 0 {
          StrLessTransitive(p.0, ps[0].0, q.0);
        }
      }
      ConsSorted(p, ps);
    } else {
      var tail := ps[1..];
      assert ps == [ps[0]] + tail;
      assert StrictlySorted(tail) by {
        forall i, j | 0 <= i < j < |tail| ensures StrLess(tail[i].0, tail[j].0) {
          assert tail[i] == ps[i + 1] && tail[j] == ps[j + 1];
        }
      }
      InsertSorted(p, tail);
      StrLessTrichotomy(p.0, ps[0].0);
      var r := Insert(p, tail);
      forall q | q in r ensures StrLess(ps[0].0, q.0) {
        assert q in multiset(r);
        if q != p {
          assert q in multiset(tail);
          var j :| 0 <= j < |tail| && tail[j] == q;
          assert ps[j + 1] == q;
        }
      }
      ConsSorted(ps[0], r);
    }
  }

  lemma {:induction false} SortByKeySorted(ps: Params)
    requires DistinctKeys(ps)
    ensures StrictlySorted(SortByKey(ps))
    ensures multiset(SortByKey(ps)) == multiset(ps)
  {
    if ps != [] {
      var tail := ps[1..];
      assert ps == [ps[0]] + tail;
      SortByKeySorted(tail);
      forall q | q in SortByKey(tail) ensures q.0 != ps[0].0 {
        assert q in multiset(tail);
        var j :| 0 <= j < |tail| && tail[j] == q;
        assert ps[j + 1] == q;
      }
      InsertSorted(ps[0], SortByKey(tail));
    }
  }

  /** Two strictly sorted entry lists with the same entries are the same list. */
  lemma {:induction false} SortedIsUnique(a: Params, b: Params)
    requires StrictlySorted(a) && StrictlySorted(b)
    requires forall x :: x in a <==> x in b
    ensures a == b
  {
    if a != [] {
      assert a[0] in a;
    }
    if b != [] {
      assert b[0] in b;
    }
    if a != [] && b != [] {
      assert a[0] in b && b[0] in a;
      StrLessIrreflexive(a[0].0);
      StrLessIrreflexive(b[0].0);
      if a[0] != b[0] {
        var i :| 0 <= i < |a| && a[i] == b[0];
        var j :| 0 <= j < |b| && b[j] == a[0];
        StrLessTransitive(a[0].0, b[0].0, a[0].0);
      }
      forall x ensures x in a[1..] <==> x in b[1..] {
        if x in a[1..] {
          var i :| 1 <= i < |a| && a[i] == x;
          assert x in b;
          if x == b[0] {
            StrLessIrreflexive(x.0);
          }
        }
        if x in b[1..] {
          var j :| 1 <= j < |b| && b[j] == x;
          assert x in a;
          if x == a[0] {
            StrLessIrreflexive(x.0);
          }
        }
      }
      SortedIsUnique(a[1..], b[1..]);
      assert a == [a[0]] + a[1..] && b == [b[0]] + b[1..];
    }
  }

  /**
   * Two requests to the same endpoint share a cache key exactly when their
   * parameter dicts hold the same entries, whatever their insertion order;
   * no parameters and an empty dict give the same key.
   */
  lemma CacheKeyIgnoresOrder(endpoint: string, ps: Params, qs: Params)
    requires DistinctKeys(ps) && DistinctKeys(qs)
    ensures MakeCacheKey(endpoint, Some(ps)) == MakeCacheKey(endpoint, Some(qs)) <==>
              (forall x :: x in ps <==> x in qs)
    ensures MakeCacheKey(endpoint, None) == MakeCacheKey(endpoint, Some([]))
  {
    SortByKeySorted(ps);
    SortByKeySorted(qs);
    var sp, sq := SortByKey(ps), SortByKey(qs);
    assert forall x :: x in sp <==> x in ps by {
      forall x ensures x in sp <==> x in ps {
        assert x in sp <==> x in multiset(sp);
        assert x in ps <==> x in multiset(ps);
      }
    }
    assert forall x :: x in sq <==> x in qs by {
      forall x ensures x in sq <==> x in qs {
        assert x in sq <==> x in multiset(sq);
        assert x in qs <==> x in multiset(qs);
      }
    }
    if forall x :: x in ps <==> x in qs {
      SortedIsUnique(sp, sq);
    }
  }
}
