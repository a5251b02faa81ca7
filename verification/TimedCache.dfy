/** The timed map behind most components (pkg/cache/cache.go). One request is
    handled at a time; each look at the clock is a reading of its own. */
module TimedCache {
  import opened Keys

  datatype Entry<V> = Entry(ctime: int, atime: int, value: V)
  datatype Expiry = Expiry(ctime: int, atime: int)

  /** The readings of one turn: those of isOld's two tests, and the timestamp that follows. */
  datatype Clock = Clock(first: int, second: int, stamp: int)

  /** Expire carries the readings at which it tests each key. */
  datatype Request<K(==), V> = Get(key: K) | Set(key: K, value: V) | Delete(key: K) | Expire(tests: map<K, Clock>)
  datatype Response<V> = Hit(value: V) | NotFound | Stored | Exists(existing: V) | Done

  datatype Call<K(==), V> = Call(req: Request<K, V>, clock: Clock)

  predicate IsOld<V>(x: Expiry, e: Entry<V>, c: Clock) {
    || (x.ctime != 0 && c.first - e.ctime > x.ctime)
    || (x.atime != 0 && c.second - e.atime > x.atime)
  }

  predicate Expires<K, V>(x: Expiry, m: map<K, Entry<V>>, tests: map<K, Clock>, k: K) {
    k in m && k in tests && IsOld(x, m[k], tests[k])
  }

  function After<K, V>(x: Expiry, m: map<K, Entry<V>>, c: Call<K, V>): map<K, Entry<V>> {
    match c.req
    case Get(k) =>
      if k !in m then m
      else if IsOld(x, m[k], c.clock) then m - {k}
      else m[k := m[k].(atime := c.clock.stamp)]
    case Set(k, v) =>
      if k in m then m[k := m[k].(atime := c.clock.stamp)] else m[k := Entry(c.clock.first, c.clock.first, v)]
    case Delete(k) => m - {k}
    case Expire(tests) => map k | k in m && !Expires(x, m, tests, k) :: m[k]
  }

  function Answer<K, V>(x: Expiry, m: map<K, Entry<V>>, c: Call<K, V>): Response<V> {
    match c.req
    case Get(k) => if k in m && !IsOld(x, m[k], c.clock) then Hit(m[k].value) else NotFound
    case Set(k, _) => if k in m then Exists(m[k].value) else Stored
    case Delete(_) => Done
    case Expire(_) => Done
  }

  /** The cache object. Each method handles one request of the service loop. */
  class Cache<K(==), V(==)> {
    var cache: map<K, Entry<V>>
    const expiry: Expiry

    constructor (expiry: Expiry)
      ensures cache == map[] && this.expiry == expiry
    {
      this.cache := map[];
      this.expiry := expiry;
    }

    method HandleGet(key: K, clock: Clock) returns (r: Response<V>)
      modifies this
      ensures cache == After(expiry, old(cache), Call(Get(key), clock))
      ensures r == Answer(expiry, old(cache), Call(Get(key), clock))
    {
      if key !in cache {
        r := NotFound;
      } else if IsOld(expiry, cache[key], clock) {
        r := NotFound;
        cache := cache - {key};
      } else {
        var val := cache[key].(atime := clock.stamp);
        cache := cache[key := val];
        r := Hit(val.value);
      }
    }

    method HandleSet(key: K, value: V, clock: Clock) returns (r: Response<V>)
      modifies this
      ensures cache == After(expiry, old(cache), Call(Set(key, value), clock))
      ensures r == Answer(expiry, old(cache), Call(Set(key, value), clock))
    {
      var now := clock.first;
      if key in cache {
        var val := cache[key];
        cache := cache[key := val.(atime := clock.stamp)];
        r := Exists(val.value);
      } else {
        cache := cache[key := Entry(now, now, value)];
        r := Stored;
      }
    }

    method HandleDelete(key: K, clock: Clock) returns (r: Response<V>)
      modifies this
      ensures cache == After(expiry, old(cache), Call(Delete(key), clock))
      ensures r == Answer(expiry, old(cache), Call(Delete(key), clock))
    {
      cache := cache - {key};
      r := Done;
    }

    /** Visits the keys in any order, reading the clock for each. */
    method HandleExpire(tests: map<K, Clock>, ghost clock: Clock)
      requires cache.Keys <= tests.Keys
      modifies this
      ensures cache == After(expiry, old(cache), Call(Expire(tests), clock))
    {
      var rest := cache.Keys;
      while rest != {}
        invariant rest <= cache.Keys <= old(cache).Keys
        invariant forall k :: k in cache ==> cache[k] == old(cache)[k]
        invariant forall k :: k in old(cache) && k !in rest ==>
          (k in cache <==> !Expires(expiry, old(cache), tests, k))
      {
        var k :| k in rest;
        if IsOld(expiry, cache[k], tests[k]) {
          cache := cache - {k};
        }
        rest := rest - {k};
      }
    }
  }

  // ----- runs

  ghost function Replay<K, V>(x: Expiry, run: seq<Call<K, V>>): map<K, Entry<V>> {
    if run == [] then map[] else After(x, Replay(x, run[..|run| - 1]), run[|run| - 1])
  }

  /** What a caller who saw every response knows of key k: the value and the
      time of the latest Set that was answered Stored, unless a Delete
      followed it. */
  ghost function Latest<K, V>(x: Expiry, run: seq<Call<K, V>>, k: K): Option<(V, int)> {
    if run == [] then None
    else
      var before, c := run[..|run| - 1], run[|run| - 1];
      NextLatest(Latest(x, before, k), c, Answer(x, Replay(x, before), c), k)
  }

  function NextLatest<K, V>(latest: Option<(V, int)>, c: Call<K, V>, r: Response<V>, k: K): Option<(V, int)> {
    if c.req.Set? && c.req.key == k && r.Stored? then Some((c.req.value, c.clock.first))
    else if c.req.Delete? && c.req.key == k then None
    else latest
  }

  /** When key k was last stored, refused a Set, or found by a Get. */
  ghost function LastTouch<K, V>(x: Expiry, run: seq<Call<K, V>>, k: K): Option<int> {
    if run == [] then None
    else
      var before, c := run[..|run| - 1], run[|run| - 1];
      NextTouch(LastTouch(x, before, k), c, Answer(x, Replay(x, before), c), k)
  }

  function NextTouch<K, V>(touch: Option<int>, c: Call<K, V>, r: Response<V>, k: K): Option<int> {
    if c.req.Set? && c.req.key == k then Some(if r.Stored? then c.clock.first else c.clock.stamp)
    else if c.req.Get? && c.req.key == k && r.Hit? then Some(c.clock.stamp)
    else touch
  }

  predicate Ordered(c: Clock) { c.first <= c.second <= c.stamp }

  /** A turn's readings do not run backwards, and EXPIRE's tests lie within it. */
  ghost predicate Orderly<K(!new), V>(c: Call<K, V>) {
    && Ordered(c.clock)
    && (c.req.Expire? ==> forall k :: k in c.req.tests ==>
          Ordered(c.req.tests[k]) && c.clock.first <= c.req.tests[k].first && c.req.tests[k].stamp <= c.clock.stamp)
  }

  /** The clock never runs backwards along the run, and `now` is not before its end. */
  ghost predicate Clocked<K(!new), V>(run: seq<Call<K, V>>, now: int) {
    && (forall i :: 0 <= i < |run| ==> Orderly(run[i]) && run[i].clock.stamp <= now)
    && (forall i, j :: 0 <= i < j < |run| ==> run[i].clock.stamp <= run[j].clock.first)
  }

  /** A value stored at t0 and last touched at t1 has outlived one of the expiries at these readings. */
  predicate Outlived(x: Expiry, t0: int, t1: int, c: Clock) {
    (x.ctime != 0 && c.first - t0 > x.ctime) || (x.atime != 0 && c.second - t1 > x.atime)
  }

  /** An entry held is the latest one stored, with the times of its store and
      of its last touch; a latest one that is missing was dropped for age. */
  ghost predicate Known<K, V>(x: Expiry, m: map<K, Entry<V>>, k: K, latest: Option<(V, int)>, touch: Option<int>,
                              now: int)
  {
    if k in m then
      latest == Some((m[k].value, m[k].ctime)) && touch == Some(m[k].atime) && m[k].ctime <= m[k].atime <= now
    else latest.Some? ==> touch.Some? && Outlived(x, latest.value.1, touch.value, Clock(now, now, now))
  }

  lemma StepKeepsKnown<K(!new), V>(x: Expiry, m: map<K, Entry<V>>, k: K, latest: Option<(V, int)>, touch: Option<int>,
                                   c: Call<K, V>, now: int)
    requires Known(x, m, k, latest, touch, c.clock.first) && Orderly(c) && c.clock.stamp <= now
    ensures var r := Answer(x, m, c);
      Known(x, After(x, m, c), k, NextLatest(latest, c, r, k), NextTouch(touch, c, r, k), now)
  {
  }

  lemma {:induction false} LatestIsHeld<K(!new), V>(x: Expiry, run: seq<Call<K, V>>, k: K, now: int)
    requires Clocked(run, now)
    ensures Known(x, Replay(x, run), k, Latest(x, run, k), LastTouch(x, run, k), now)
  {
    if run != [] {
      var before, c := run[..|run| - 1], run[|run| - 1];
      assert forall i, j :: 0 <= i < j < |before| ==> before[i] == run[i] && before[j] == run[j];
      assert Orderly(c);
      LatestIsHeld(x, before, k, c.clock.first);
      StepKeepsKnown(x, Replay(x, before), k, Latest(x, before, k), LastTouch(x, before, k), c, now);
    }
  }

  /** The latest value stored has been deleted by nobody and outlived neither expiry at these readings. */
  predicate Fresh<V>(x: Expiry, latest: Option<(V, int)>, touch: Option<int>, c: Clock) {
    latest.Some? && touch.Some? && !Outlived(x, latest.value.1, touch.value, c)
  }

  lemma KnownGet<K, V>(x: Expiry, m: map<K, Entry<V>>, k: K, latest: Option<(V, int)>, touch: Option<int>, clock: Clock)
    requires Known(x, m, k, latest, touch, clock.first) && Ordered(clock)
    ensures Answer(x, m, Call(Get(k), clock)) ==
      if Fresh(x, latest, touch, clock) then Hit(latest.value.0) else NotFound
  {
  }

  lemma KnownSet<K, V>(x: Expiry, m: map<K, Entry<V>>, k: K, latest: Option<(V, int)>, touch: Option<int>, v: V,
                       clock: Clock)
    requires Known(x, m, k, latest, touch, clock.first) && Ordered(clock)
    ensures match Answer(x, m, Call(Set(k, v), clock))
      case Exists(o) => latest.Some? && latest.value.0 == o
      case r => r == Stored && !Fresh(x, latest, touch, clock)
  {
  }

  /** For any expiries, a lookup returns the latest value that was stored and
      not deleted, exactly when neither its store nor the last touch of its key
      lies further back than the expiry for it (or that expiry is off),
      wherever EXPIRE requests fall. */
  lemma GetIsExact<K(!new), V>(x: Expiry, run: seq<Call<K, V>>, k: K, clock: Clock)
    requires Clocked(run, clock.first) && Ordered(clock)
    ensures Answer(x, Replay(x, run), Call(Get(k), clock)) ==
      if Fresh(x, Latest(x, run, k), LastTouch(x, run, k), clock) then Hit(Latest(x, run, k).value.0) else NotFound
  {
    LatestIsHeld(x, run, k, clock.first);
    KnownGet(x, Replay(x, run), k, Latest(x, run, k), LastTouch(x, run, k), clock);
  }

  /** A refused Set reports the latest stored value; an accepted one finds none
      that is still within its expiries. */
  lemma SetReportsLatest<K(!new), V>(x: Expiry, run: seq<Call<K, V>>, k: K, v: V, clock: Clock)
    requires Clocked(run, clock.first) && Ordered(clock)
    ensures match Answer(x, Replay(x, run), Call(Set(k, v), clock))
      case Exists(o) => Latest(x, run, k).Some? && Latest(x, run, k).value.0 == o
      case r => r == Stored && !Fresh(x, Latest(x, run, k), LastTouch(x, run, k), clock)
  {
    LatestIsHeld(x, run, k, clock.first);
    KnownSet(x, Replay(x, run), k, Latest(x, run, k), LastTouch(x, run, k), v, clock);
  }

  /** With both expiries off a run behaves as a plain insert-if-absent map:
      every stored key is found until it is deleted. */
  lemma NeverExpires<K(!new), V>(run: seq<Call<K, V>>, k: K, clock: Clock)
    requires Clocked(run, clock.first)
    ensures k in Replay(Expiry(0, 0), run) <==> Latest(Expiry(0, 0), run, k).Some?
    ensures Answer(Expiry(0, 0), Replay(Expiry(0, 0), run), Call(Get(k), clock)).Hit? <==>
      k in Replay(Expiry(0, 0), run)
  {
    LatestIsHeld(Expiry(0, 0), run, k, clock.first);
  }

  function PlainAfter<K, V>(m: map<K, V>, c: Request<K, V>): map<K, V> {
    match c
    case Get(_) => m
    case Set(k, v) => if k in m then m else m[k := v]
    case Delete(k) => m - {k}
    case Expire(_) => m
  }

  function Values<K, V>(m: map<K, Entry<V>>): map<K, V> {
    map k | k in m :: m[k].value
  }

  /** ... and its contents are those of that plain map, request by request. */
  lemma NoExpiryRefinesMap<K, V>(m: map<K, Entry<V>>, c: Call<K, V>)
    ensures Values(After(Expiry(0, 0), m, c)) == PlainAfter(Values(m), c.req)
  {
  }

  // ----- when it shows that an EXPIRE has run

  /** The answers to a run of requests, from m on. */
  ghost function Answers<K, V>(x: Expiry, m: map<K, Entry<V>>, run: seq<Call<K, V>>): seq<Response<V>>
    decreases |run|
  {
    if run == [] then [] else [Answer(x, m, run[0])] + Answers(x, After(x, m, run[0]), run[1..])
  }

  /** A Set of a key that was dropped, before any other request for that key. */
  ghost predicate ResetsDropped<K, V>(dropped: set<K>, run: seq<Call<K, V>>, i: int) {
    && 0 <= i < |run| && run[i].req.Set? && run[i].req.key in dropped
    && (forall j :: 0 <= j < i ==> !Settles(run[j].req, run[i].req.key))
  }

  ghost predicate Resets<K, V>(dropped: set<K>, run: seq<Call<K, V>>) { exists i :: ResetsDropped(dropped, run, i) }

  /** After this request a key that is old is no longer there, EXPIRE or not. */
  predicate Settles<K, V>(r: Request<K, V>, k: K) { if r.Expire? then k in r.tests else r.key == k }

  /** m without the dropped keys, which are old at every reading from now on. */
  ghost predicate Swept<K(!new), V>(x: Expiry, m: map<K, Entry<V>>, dropped: set<K>, now: int) {
    && dropped <= m.Keys
    && forall k :: k in dropped ==> IsOld(x, m[k], Clock(now, now, now))
  }

  /** A run answers alike with and without the dropped keys exactly when no
      Set meets one of them first. */
  lemma {:induction false} SweepShowsIff<K(!new), V>(x: Expiry, m: map<K, Entry<V>>, dropped: set<K>,
                                                     run: seq<Call<K, V>>, now: int)
    requires Swept(x, m, dropped, now) && (run != [] ==> now <= run[0].clock.first)
    requires forall i :: 0 <= i < |run| ==> Orderly(run[i])
    requires forall i, j :: 0 <= i < j < |run| ==> run[i].clock.stamp <= run[j].clock.first
    ensures Answers(x, m - dropped, run) == Answers(x, m, run) <==> !Resets(dropped, run)
    decreases |run|
  {
    if run != [] {
      var c, rest := run[0], run[1..];
      assert Orderly(c);
      var left := set k | k in dropped && !Settles(c.req, k);
      if c.req.Set? && c.req.key in dropped {
        assert ResetsDropped(dropped, run, 0);
        assert Answers(x, m, run)[0] == Answer(x, m, c) != Answer(x, m - dropped, c) == Answers(x, m - dropped, run)[0];
      } else {
        SweptStep(x, m, dropped, c, now);
        SweepShowsIff(x, After(x, m, c), left, rest, c.clock.stamp);
        ResetsShift(dropped, left, run);
        assert Answers(x, m, run)[1..] == Answers(x, After(x, m, c), rest);
        assert Answers(x, m - dropped, run)[1..] == Answers(x, After(x, m, c) - left, rest);
      }
    }
  }

  lemma SweptStep<K(!new), V>(x: Expiry, m: map<K, Entry<V>>, dropped: set<K>, c: Call<K, V>, now: int)
    requires Swept(x, m, dropped, now) && now <= c.clock.first && Orderly(c)
    requires !(c.req.Set? && c.req.key in dropped)
    ensures var left := set k | k in dropped && !Settles(c.req, k);
      && Answer(x, m - dropped, c) == Answer(x, m, c)
      && After(x, m - dropped, c) == After(x, m, c) - left
      && Swept(x, After(x, m, c), left, c.clock.stamp)
  {
    var left := set k | k in dropped && !Settles(c.req, k);
    var m1, m2 := After(x, m - dropped, c), After(x, m, c) - left;
    assert m1.Keys == m2.Keys;
    assert m1 == m2;
  }

  lemma ResetsShift<K, V>(dropped: set<K>, left: set<K>, run: seq<Call<K, V>>)
    requires run != [] && left == (set k | k in dropped && !Settles(run[0].req, k))
    requires !(run[0].req.Set? && run[0].req.key in dropped)
    ensures Resets(dropped, run) <==> Resets(left, run[1..])
  {
    if i :| ResetsDropped(dropped, run, i) {
      assert run[i] == run[1..][i - 1];
      assert ResetsDropped(left, run[1..], i - 1);
    }
    if i :| ResetsDropped(left, run[1..], i) {
      assert run[i + 1] == run[1..][i];
      assert forall j :: 0 < j < i + 1 ==> run[j] == run[1..][j - 1];
      assert ResetsDropped(dropped, run, i + 1);
    }
  }

  function Dropped<K, V>(x: Expiry, m: map<K, Entry<V>>, tests: map<K, Clock>): set<K> {
    set k | k in m && Expires(x, m, tests, k)
  }

  lemma SweepDrops<K(!new), V>(x: Expiry, m: map<K, Entry<V>>, sweep: Call<K, V>)
    requires sweep.req.Expire? && Orderly(sweep)
    ensures After(x, m, sweep) == m - Dropped(x, m, sweep.req.tests)
    ensures Swept(x, m, Dropped(x, m, sweep.req.tests), sweep.clock.stamp)
  {
  }

  /** Whether an EXPIRE has run shows in the answers to later requests exactly
      when one of them is a Set of a key that the EXPIRE dropped, before
      another request for that key: unswept, that Set is refused. */
  lemma ExpireShowsIff<K(!new), V>(x: Expiry, m: map<K, Entry<V>>, sweep: Call<K, V>, run: seq<Call<K, V>>, end: int)
    requires sweep.req.Expire? && Orderly(sweep) && Clocked(run, end)
    requires run != [] ==> sweep.clock.stamp <= run[0].clock.first
    ensures Answers(x, After(x, m, sweep), run) == Answers(x, m, run) <==> !Resets(Dropped(x, m, sweep.req.tests), run)
  {
    SweepDrops(x, m, sweep);
    SweepShowsIff(x, m, Dropped(x, m, sweep.req.tests), run, sweep.clock.stamp);
  }

  /** One such Set, for every creation-time expiry: an EXPIRE before it turns a later miss into a hit. */
  lemma ExpireTimingIsObservable(x: Expiry, k: string, a: int, b: int)
    requires x.ctime > 0 && x.atime == 0
    ensures var late := Clock(x.ctime + 1, x.ctime + 1, x.ctime + 1);
      var quiet := [Call(Set(k, a), Clock(0, 0, 0)), Call(Set(k, b), late)];
      var swept := [Call(Set(k, a), Clock(0, 0, 0)), Call(Expire(map[k := late]), late), Call(Set(k, b), late)];
      && Clocked(quiet, late.first) && Clocked(swept, late.first)
      && Answer(x, Replay(x, quiet), Call(Get(k), late)) == NotFound
      && Answer(x, Replay(x, swept), Call(Get(k), late)) == Hit(b)
  {
    var late := Clock(x.ctime + 1, x.ctime + 1, x.ctime + 1);
    var s, e, s2 := Call(Set(k, a), Clock(0, 0, 0)), Call(Expire(map[k := late]), late), Call(Set(k, b), late);
    assert [s, s2][..1] == [s] && [s, e, s2][..2] == [s, e] && [s, e][..1] == [s] && [s][..0] == [];
    assert Replay(x, [s]) == After(x, Replay(x, [s][..0]), s) == map[k := Entry(0, 0, a)];
    assert Replay(x, [s, e]) == map[];
  }
}
