/** The statistics TTL cache (statistic/cache.go): a map from a
    statistic's name to the statistic and its deadline. The clock is an
    integer parameter (a count of nanoseconds); the mutex is not modelled,
    every method runs as one atomic step.

    NOTE: `getAll` keeps the comparison exactly as the source has it,
    `deadLine.Before(now)`, so it returns the entries whose deadline has
    already PASSED — the expired ones — and never the fresh ones. This
    looks inverted against the cache's purpose; the model does not fix it
    and states it (`ReadReturnsOnlyExpired`). */
module StatisticCache {
  import opened Base
  import opened Statistic

  datatype CachedStatistic = CachedStatistic(s: Statistic, deadLine: int)

  /** The map after storing `s` with the given deadline. */
  function Put(m: map<string, CachedStatistic>, s: Statistic, deadLine: int): (m': map<string, CachedStatistic>)
    ensures s.Name() in m' && m'[s.Name()] == CachedStatistic(s, deadLine)
    ensures m'.Keys == m.Keys + {s.Name()}
    ensures forall n :: n in m && n != s.Name() ==> m'[n] == m[n]
  {
    m[s.Name() := CachedStatistic(s, deadLine)]
  }

  /** The names `getAll` reports at time `now`, as written: deadline
      strictly before `now`. */
  function Selected(m: map<string, CachedStatistic>, now: int): set<string>
  {
    set n | n in m && m[n].deadLine < now
  }

  /** `newCache`'s check: a zero timeout is refused, any other (negative
      ones included) accepted. */
  function TimeoutError(timeout: int): (e: Option<Error>)
    ensures e.Some? <==> timeout == 0
    ensures e.Some? ==> e.value == Error("timeout must be greater than 0")
  {
    if timeout == 0 then Some(Error("timeout must be greater than 0")) else None
  }

  class Cache {
    const timeout: int
    var cache: map<string, CachedStatistic>

    /** Every entry sits under its own statistic's name. */
    ghost predicate Valid()
      reads this
    {
      forall n :: n in cache ==> cache[n].s.Name() == n
    }

    constructor (timeout: int)
      requires timeout != 0
      ensures Valid() && this.timeout == timeout && cache == map[]
    {
      this.timeout := timeout;
      cache := map[];
    }

    /** `newCache`. */
    static method New(timeout: int) returns (r: Result<Cache, Error>)
      ensures r.Failure? <==> timeout == 0
      ensures r.Failure? ==> r.error == TimeoutError(timeout).value
      ensures r.Success? ==>
        fresh(r.value) && r.value.Valid() && r.value.timeout == timeout && r.value.cache == map[]
    {
      var e := TimeoutError(timeout);
      if e.Some? {
        return Failure(e.value);
      }
      var c := new Cache(timeout);
      return Success(c);
    }

    /** `set` at time `now`: nil is ignored; otherwise the entry under the
        statistic's name becomes the statistic with deadline now + timeout,
        and no other entry changes. */
    method Set(stat: Option<Statistic>, now: int)
      requires Valid()
      modifies this
      ensures Valid()
      ensures stat.None? ==> cache == old(cache)
      ensures stat.Some? ==> cache == Put(old(cache), stat.value, now + timeout)
    {
      if stat.None? {
        return;
      }
      var s := stat.value;
      cache := cache[s.Name() := CachedStatistic(s, now + timeout)];
    }

    /** `getAll` at time `now`: visits the entries in an unspecified order
        and collects the statistics whose deadline is before `now`. The
        ghost `names` records, for each returned statistic, the key it was
        stored under, which is its own name; so no name is returned twice.
        The map is not changed. */
    method GetAll(now: int) returns (res: seq<Statistic>, ghost names: seq<string>)
      requires Valid()
      ensures |names| == |res| <= |cache|
      ensures forall i :: 0 <= i < |res| ==> res[i].Name() == names[i]
      ensures forall i, j :: 0 <= i < j < |res| ==> res[i].Name() != res[j].Name()
      ensures forall i, j :: 0 <= i < j < |names| ==> names[i] != names[j]
      ensures forall i :: 0 <= i < |names| ==> names[i] in cache && res[i] == cache[names[i]].s
      ensures forall n :: n in names <==> n in Selected(cache, now)
      ensures forall s :: s in res ==> exists n :: n in Selected(cache, now) && cache[n].s == s
      ensures forall n :: n in Selected(cache, now) ==> cache[n].s in res
    {
      res, names := [], [];
      var remaining := cache.Keys;
      while remaining != {}
        invariant remaining <= cache.Keys
        invariant |names| == |res|
        invariant |names| + |remaining| <= |cache|
        invariant forall i, j :: 0 <= i < j < |names| ==> names[i] != names[j]
        invariant forall i :: 0 <= i < |names| ==> names[i] in cache && names[i] !in remaining && res[i] == cache[names[i]].s
        invariant forall n :: n in names <==> n in Selected(cache, now) && n !in remaining
        decreases remaining
      {
        var n :| n in remaining;
        var record := cache[n];
        if record.deadLine < now {
          res, names := res + [record.s], names + [n];
        }
        remaining := remaining - {n};
      }
    }
  }

  /** Storing twice under one name keeps only the latest statistic and the
      latest deadline. */
  lemma PutTwiceKeepsLatest(m: map<string, CachedStatistic>, s1: Statistic, d1: int, s2: Statistic, d2: int)
    requires s1.Name() == s2.Name()
    ensures Put(Put(m, s1, d1), s2, d2) == Put(m, s2, d2)
  {
  }

  /** As written, a statistic stored at time t with timeout τ > 0 is
      reported at `now` exactly when its deadline t + τ has passed: never
      while it is fresh. */
  lemma {:induction false} ReadReturnsOnlyExpired(m: map<string, CachedStatistic>, s: Statistic, t: int, timeout: int, now: int)
    requires timeout > 0
    ensures s.Name() in Selected(Put(m, s, t + timeout), now) <==> t + timeout < now
    ensures now <= t + timeout ==> s.Name() !in Selected(Put(m, s, t + timeout), now)
  {
    var m' := Put(m, s, t + timeout);
    assert s.Name() in m' && m'[s.Name()].deadLine == t + timeout;
  }

  /** Storing one statistic does not change whether any other name is
      reported. */
  lemma PutKeepsOtherSelections(m: map<string, CachedStatistic>, s: Statistic, d: int, now: int, n: string)
    requires n != s.Name()
    ensures n in Selected(Put(m, s, d), now) <==> n in Selected(m, now)
  {
  }
}
