/** The aged single-flight lock of pkg/throttler/throttler.go: one service
    loop owns a table of locks and handles GET, DELETE and EXPIRE messages. */
module Throttler {
  import opened Keys

  /** A lock as created by GET: its creation time and its wait-group counter. */
  datatype Lock = Lock(ctime: int, wg: int)

  /** made lists every lock ever created; locks maps a key to its lock's index in made. */
  datatype Table = Table(locks: map<string, nat>, made: seq<Lock>) {
    ghost predicate WellFormed() {
      && (forall k :: k in locks ==> locks[k] < |made|)
      && (forall k, l :: k in locks && l in locks && locks[k] == locks[l] ==> k == l)
    }

    predicate OldAt(id: nat, now: int, expiry: int)
      requires id < |made|
    {
      now - made[id].ctime > expiry
    }

    ghost predicate Held(id: nat) {
      exists k :: k in locks && locks[k] == id
    }

    /** A lock counts 1 while the table holds it, under exactly one key, and 0
        from the moment it leaves: no counter is ever negative, and nobody who
        waits on a departed lock is blocked. */
    ghost predicate Sound() {
      && WellFormed()
      && (forall id :: 0 <= id < |made| ==> made[id].wg == if Held(id) then 1 else 0)
    }

    function WgDone(id: nat): Table
      requires id < |made|
    {
      this.(made := made[id := made[id].(wg := made[id].wg - 1)])
    }
  }

  const Empty := Table(map[], [])

  /** Clock readings of one GET: the two isOld tests and the new lock's timestamp. */
  datatype Readings = Readings(first: int, second: int, stamp: int)

  datatype Message =
    | Get(key: string, clock: Readings)
    | Delete(key: string, byFirst: bool)       // byFirst: sent by the caller this key's GET told "first"
    | Expire(readings: map<string, int>)       // the clock reading at which each key is tested

  /** GET is answered "first" unless a lock is there and not old at the first test. */
  ghost predicate ToldFirst(t: Table, key: string, clock: Readings, expiry: int)
    requires t.WellFormed()
  {
    key in t.locks ==> t.OldAt(t.locks[key], clock.first, expiry)
  }

  ghost function AfterGet(t: Table, key: string, clock: Readings, expiry: int): (t': Table)
    requires t.WellFormed()
    ensures t'.WellFormed()
  {
    if !ToldFirst(t, key, clock, expiry) then t
    else
      var released :=
        if key in t.locks && t.OldAt(t.locks[key], clock.second, expiry) then t.WgDone(t.locks[key]) else t;
      Table(released.locks[key := |t.made|], released.made + [Lock(clock.stamp, 1)])
  }

  ghost function AfterDelete(t: Table, key: string): (t': Table)
    requires t.WellFormed()
    ensures t'.WellFormed()
  {
    if key in t.locks then t.WgDone(t.locks[key]).(locks := t.locks - {key}) else t
  }

  ghost predicate Aged(t: Table, key: string, readings: map<string, int>, expiry: int)
    requires t.WellFormed()
  {
    key in t.locks && key in readings && t.OldAt(t.locks[key], readings[key], expiry)
  }

  ghost predicate AgedLock(t: Table, id: nat, readings: map<string, int>, expiry: int)
    requires t.WellFormed()
  {
    exists k :: k in t.locks && t.locks[k] == id && Aged(t, k, readings, expiry)
  }

  ghost function AfterExpire(t: Table, readings: map<string, int>, expiry: int): (t': Table)
    requires t.WellFormed()
    ensures t'.WellFormed()
  {
    Table(map k | k in t.locks && !Aged(t, k, readings, expiry) :: t.locks[k],
          seq(|t.made|, i requires 0 <= i < |t.made| =>
            if AgedLock(t, i, readings, expiry) then t.made[i].(wg := t.made[i].wg - 1) else t.made[i]))
  }

  ghost function After(t: Table, m: Message, expiry: int): (t': Table)
    requires t.WellFormed()
    ensures t'.WellFormed()
  {
    match m
    case Get(k, clock) => AfterGet(t, k, clock, expiry)
    case Delete(k, _) => AfterDelete(t, k)
    case Expire(readings) => AfterExpire(t, readings, expiry)
  }

  // ----- soundness of every step

  lemma DeleteKeepsSound(t: Table, key: string)
    requires t.Sound()
    ensures AfterDelete(t, key).Sound()
  {
    var t' := AfterDelete(t, key);
    forall id | 0 <= id < |t'.made|
      ensures t'.made[id].wg == if t'.Held(id) then 1 else 0
    {
      if t.Held(id) {
        var k :| k in t.locks && t.locks[k] == id;
        assert k != key ==> k in t'.locks && t'.locks[k] == id;
      }
    }
  }

  lemma ExpireKeepsSound(t: Table, readings: map<string, int>, expiry: int)
    requires t.Sound()
    ensures AfterExpire(t, readings, expiry).Sound()
  {
    var t' := AfterExpire(t, readings, expiry);
    forall id | 0 <= id < |t'.made|
      ensures t'.made[id].wg == if t'.Held(id) then 1 else 0
    {
      if t.Held(id) {
        var k :| k in t.locks && t.locks[k] == id;
        assert AgedLock(t, id, readings, expiry) <==> Aged(t, k, readings, expiry);
        assert k in t'.locks ==> t'.locks[k] == id;
      }
    }
  }

  /** A GET keeps the table sound exactly when its second age test does not
      contradict the first: a lock found old and then found young would be
      overwritten without being released. */
  lemma GetKeepsSoundIff(t: Table, key: string, clock: Readings, expiry: int)
    requires t.Sound()
    ensures AfterGet(t, key, clock, expiry).Sound()
       <==> !(key in t.locks &&
              t.OldAt(t.locks[key], clock.first, expiry) && !t.OldAt(t.locks[key], clock.second, expiry))
  {
    var t' := AfterGet(t, key, clock, expiry);
    if ToldFirst(t, key, clock, expiry) {
      assert t'.locks[key] == |t.made|;
      forall id | 0 <= id < |t.made|
        ensures t'.Held(id) <==> t.Held(id) && !(key in t.locks && t.locks[key] == id)
      {
        if t.Held(id) {
          var k :| k in t.locks && t.locks[k] == id;
          assert k != key ==> k in t'.locks && t'.locks[k] == id;
        }
      }
      assert t'.Held(|t.made|);
      if key in t.locks && !t.OldAt(t.locks[key], clock.second, expiry) {
        var id := t.locks[key];
        assert t.Held(id);
        assert t'.made[id].wg == 1 && !t'.Held(id);
      }
    }
  }

  /** Were the second test to find the lock young again, the lock would leave
      the table and count 1 for ever: its waiters could only time out. */
  lemma BackwardClockLeaksALock(t: Table, key: string, clock: Readings, expiry: int)
    requires t.Sound() && key in t.locks
    requires t.OldAt(t.locks[key], clock.first, expiry) && !t.OldAt(t.locks[key], clock.second, expiry)
    ensures var t', id := AfterGet(t, key, clock, expiry), t.locks[key];
      t'.made[id].wg == 1 && !t'.Held(id)
  {
    var id := t.locks[key];
    assert t.Held(id);
    assert AfterGet(t, key, clock, expiry).made[id] == t.made[id];
  }

  predicate Monotone(m: Message) {
    m.Get? ==> m.clock.first <= m.clock.second <= m.clock.stamp
  }

  // ----- whole runs

  ghost function Replay(run: seq<Message>, expiry: int): (t: Table)
    ensures t.WellFormed()
  {
    if run == [] then Empty else After(Replay(run[..|run| - 1], expiry), run[|run| - 1], expiry)
  }

  /** In every interleaving of GET, DELETE and EXPIRE handled under a clock
      that does not run backwards within a GET, the table stays sound. */
  lemma {:induction false} EveryRunIsSound(run: seq<Message>, expiry: int)
    requires forall i :: 0 <= i < |run| ==> Monotone(run[i])
    ensures Replay(run, expiry).Sound()
  {
    if run != [] {
      var before, m := run[..|run| - 1], run[|run| - 1];
      EveryRunIsSound(before, expiry);
      var t := Replay(before, expiry);
      match m
      case Get(k, clock) => GetKeepsSoundIff(t, k, clock, expiry);
      case Delete(k, _) => DeleteKeepsSound(t, k);
      case Expire(readings) => ExpireKeepsSound(t, readings, expiry);
    }
  }

  // ----- how old a lock may get

  /** The life of one key's lock, from the messages' own readings alone: since
      when the key is locked, if it is. A lock is replaced by a GET that first
      reads the clock more than expiry after the lock was made, and removed by
      an EXPIRE that tests it that late, or by any DELETE. */
  function HeldSince(run: seq<Message>, key: string, expiry: int): Option<int> {
    if run == [] then None
    else
      var since := HeldSince(run[..|run| - 1], key, expiry);
      match run[|run| - 1]
      case Get(k, clock) =>
        if k == key && (since == None || clock.first - since.value > expiry) then Some(clock.stamp) else since
      case Delete(k, _) => if k == key then None else since
      case Expire(readings) =>
        if since.Some? && key in readings && readings[key] - since.value > expiry then None else since
  }

  /** The throttler does just that, for every key at once: what it holds for a
      key is a lock made then, and a GET is told "first" exactly when there is
      none or its first reading is more than expiry after that. */
  lemma {:induction false} LocksAgeExactly(run: seq<Message>, key: string, expiry: int)
    ensures var t, since := Replay(run, expiry), HeldSince(run, key, expiry);
      && (key in t.locks <==> since.Some?)
      && (since.Some? ==> t.made[t.locks[key]].ctime == since.value)
  {
    if run != [] {
      var before, m := run[..|run| - 1], run[|run| - 1];
      LocksAgeExactly(before, key, expiry);
      LockAfter(Replay(before, expiry), m, key, expiry);
    }
  }

  lemma LockAfter(t: Table, m: Message, key: string, expiry: int)
    requires t.WellFormed()
    ensures var t' := After(t, m, expiry);
      match m
      case Get(k, clock) =>
        if k == key && (key in t.locks ==> clock.first - t.made[t.locks[key]].ctime > expiry)
        then key in t'.locks && t'.made[t'.locks[key]].ctime == clock.stamp
        else Same(t, t', key)
      case Delete(k, _) => if k == key then key !in t'.locks else Same(t, t', key)
      case Expire(readings) =>
        if key in t.locks && key in readings && readings[key] - t.made[t.locks[key]].ctime > expiry
        then key !in t'.locks
        else Same(t, t', key)
  {
  }

  /** The key is unlocked in both, or locked by a lock of the same age. */
  predicate Same(t: Table, t': Table, key: string)
    requires key in t.locks ==> t.locks[key] < |t.made|
    requires key in t'.locks ==> t'.locks[key] < |t'.made|
  {
    && (key in t'.locks <==> key in t.locks)
    && (key in t.locks ==> t'.made[t'.locks[key]].ctime == t.made[t.locks[key]].ctime)
  }

  /** A GET in any run is told "first" exactly when its key is not locked, or
      was locked more than expiry before the GET's first reading. */
  lemma ToldFirstIff(run: seq<Message>, key: string, clock: Readings, expiry: int)
    ensures var since := HeldSince(run, key, expiry);
      ToldFirst(Replay(run, expiry), key, clock, expiry) <==> since == None || clock.first - since.value > expiry
  {
    LocksAgeExactly(run, key, expiry);
  }

  /** What happened to the locks of one key over a run: how many callers were
      told "first", the DELETEs of such callers that found a lock and that did
      not, the DELETEs of released waiters that found a lock, and the locks
      that were removed for age. */
  datatype Tally = Tally(firsts: nat, firstHits: nat, firstMisses: nat, waiterHits: nat, aged: nat) {
    /** Callers told "first" whose DELETE has not been handled. */
    function Outstanding(): int { firsts - firstHits - firstMisses }
  }

  ghost function Count(run: seq<Message>, key: string, expiry: int): Tally {
    if run == [] then Tally(0, 0, 0, 0, 0)
    else
      var before, m := run[..|run| - 1], run[|run| - 1];
      var c, t := Count(before, key, expiry), Replay(before, expiry);
      match m
      case Get(k, clock) =>
        if k != key || !ToldFirst(t, key, clock, expiry) then c
        else c.(firsts := c.firsts + 1, aged := c.aged + if key in t.locks then 1 else 0)
      case Delete(k, byFirst) =>
        if k != key then c
        else if byFirst then
          if key in t.locks then c.(firstHits := c.firstHits + 1) else c.(firstMisses := c.firstMisses + 1)
        else if key in t.locks then c.(waiterHits := c.waiterHits + 1) else c
      case Expire(readings) =>
        if Aged(t, key, readings, expiry) then c.(aged := c.aged + 1) else c
  }

  ghost function Change(t: Table, m: Message, key: string, expiry: int): int
    requires t.WellFormed()
  {
    match m
    case Get(k, clock) => if k == key && ToldFirst(t, key, clock, expiry) then 1 else 0
    case Delete(k, byFirst) => if k == key && byFirst then -1 else 0
    case Expire(_) => 0
  }

  /** How one more message changes the number of callers told "first" and not yet done. */
  lemma OutstandingAfter(run: seq<Message>, m: Message, key: string, expiry: int)
    ensures Count(run + [m], key, expiry).Outstanding()
         == Count(run, key, expiry).Outstanding() + Change(Replay(run, expiry), m, key, expiry)
  {
    var run' := run + [m];
    assert run'[..|run'| - 1] == run && run'[|run'| - 1] == m;
    match m
    case Get(_, _) =>
    case Delete(_, _) =>
    case Expire(_) =>
  }

  lemma KeyAfter(t: Table, m: Message, key: string, expiry: int)
    requires t.WellFormed()
    ensures key in After(t, m, expiry).locks <==>
      match m
      case Get(k, _) => k == key || key in t.locks
      case Delete(k, _) => k != key && key in t.locks
      case Expire(readings) => key in t.locks && !Aged(t, key, readings, expiry)
  {
  }

  /** Locks are conserved: each lock of a key made exactly one caller first, and
      is still held or was removed once, by a DELETE or for age. Hence the
      callers told "first" and not yet done are, exactly, the held lock plus
      the locks taken away by waiters and by age, less the first callers'
      DELETEs that found nothing. */
  lemma {:induction false} LocksAreConserved(run: seq<Message>, key: string, expiry: int)
    ensures var c, held := Count(run, key, expiry), if key in Replay(run, expiry).locks then 1 else 0;
      && c.firsts == held + c.firstHits + c.waiterHits + c.aged
      && c.Outstanding() == held + c.waiterHits + c.aged - c.firstMisses
      && c.Outstanding() <= 1 + c.waiterHits + c.aged
  {
    if run != [] {
      var before, m := run[..|run| - 1], run[|run| - 1];
      LocksAreConserved(before, key, expiry);
      KeyAfter(Replay(before, expiry), m, key, expiry);
    }
  }

  /** The documented promise, at most one caller working per key, therefore
      holds right after a caller is told "first" exactly when every lock lost to
      a waiter's DELETE or to age has been matched by a first caller's DELETE
      that found nothing. */
  lemma FirstIsAloneIff(run: seq<Message>, key: string, clock: Readings, expiry: int)
    requires ToldFirst(Replay(run, expiry), key, clock, expiry)
    ensures var c := Count(run + [Get(key, clock)], key, expiry);
      && c.Outstanding() >= 1 + c.waiterHits + c.aged - c.firstMisses
      && (c.Outstanding() == 1 <==> c.waiterHits + c.aged == c.firstMisses)
  {
    var run' := run + [Get(key, clock)];
    assert run'[..|run' | - 1] == run;
    LocksAreConserved(run', key, expiry);
  }

  /** And it does fail, for every key and expiry, with no lock ever old: the
      leader is done, a second caller takes the lock, the first leader's waiter
      deletes that lock, and a third caller is told "first" while the second
      is still working. */
  lemma TwoLeadersAtOnce(key: string, now: int, expiry: int)
    requires expiry >= 0
    ensures var get, own, waiters := Get(key, Readings(now, now, now)), Delete(key, true), Delete(key, false);
      var c := Count([get, get, own, get, waiters, get], key, expiry);
      c.Outstanding() == 2 && c.aged == 0
  {
    var get, own, waiters := Get(key, Readings(now, now, now)), Delete(key, true), Delete(key, false);
    YoungLocks([get, get, own, get, waiters, get], key, now, expiry);
    SixMessages(get, get, own, get, waiters, get);
  }

  /** Whether a key is locked, and its tally, if no lock can be old. */
  datatype Youth = Youth(locked: bool, c: Tally) {
    function Next(m: Message): Youth {
      if m.Get? then Youth(true, if locked then c else c.(firsts := c.firsts + 1))
      else if m.Delete? && m.byFirst then
        Youth(false, if locked then c.(firstHits := c.firstHits + 1) else c.(firstMisses := c.firstMisses + 1))
      else Youth(false, if locked then c.(waiterHits := c.waiterHits + 1) else c)
    }
  }

  function Young(run: seq<Message>): Youth {
    if run == [] then Youth(false, Tally(0, 0, 0, 0, 0)) else Young(run[..|run| - 1]).Next(run[|run| - 1])
  }

  lemma SixMessages(a: Message, b: Message, c: Message, d: Message, e: Message, f: Message)
    ensures Young([a, b, c, d, e, f]) == Young([]).Next(a).Next(b).Next(c).Next(d).Next(e).Next(f)
  {
    assert [a, b, c, d, e, f][..5] == [a, b, c, d, e] && [a, b, c, d, e][..4] == [a, b, c, d];
    assert [a, b, c, d][..3] == [a, b, c] && [a, b, c][..2] == [a, b] && [a, b][..1] == [a] && [a][..0] == [];
    assert Young([a, b]) == Young([]).Next(a).Next(b);
    assert Young([a, b, c, d]) == Young([a, b]).Next(c).Next(d);
  }

  lemma {:induction false} YoungLocks(run: seq<Message>, key: string, now: int, expiry: int)
    requires expiry >= 0
    requires forall i :: 0 <= i < |run| ==>
      run[i] == Get(key, Readings(now, now, now)) || (run[i].Delete? && run[i].key == key)
    ensures var y, t := Young(run), Replay(run, expiry);
      && (y.locked <==> key in t.locks) && (y.locked ==> !t.OldAt(t.locks[key], now, expiry))
      && Count(run, key, expiry) == y.c
  {
    if run != [] {
      YoungLocks(run[..|run| - 1], key, now, expiry);
    }
  }

  // ----- the service loop itself, over lock objects

  class ActionLock {
    const id: nat
    const ctimestamp: int
    const timeExpiry: int
    var wg: int

    constructor (id: nat, ctimestamp: int, timeExpiry: int)
      ensures this.id == id && this.ctimestamp == ctimestamp && this.timeExpiry == timeExpiry && wg == 1
    {
      this.id, this.ctimestamp, this.timeExpiry := id, ctimestamp, timeExpiry;
      this.wg := 1;
    }

    predicate IsOld(now: int) {
      now - ctimestamp > timeExpiry
    }
  }

  /** The service goroutine and its table. The ghost table is the value that
      Valid ties to the lock objects, field by field. */
  class Service {
    var locks: map<string, ActionLock>
    const lockTimeExpiry: int
    var created: nat
    ghost var made: seq<ActionLock>
    ghost var table: Table

    ghost predicate Valid()
      reads this, made
    {
      && created == |made| == |table.made|
      && table.WellFormed()
      && locks.Keys == table.locks.Keys
      && (forall i :: 0 <= i < |made| ==> made[i].id == i && made[i].timeExpiry == lockTimeExpiry)
      && (forall i :: 0 <= i < |made| ==> table.made[i] == Lock(made[i].ctimestamp, made[i].wg))
      && (forall k :: k in locks ==> locks[k] == made[table.locks[k]])
    }

    constructor (timeExpiry: int)
      ensures Valid() && table == Empty && lockTimeExpiry == timeExpiry
    {
      locks, lockTimeExpiry, created, made, table := map[], timeExpiry, 0, [], Empty;
    }

    /** lock.wg.Done(). */
    method Release(lock: ActionLock)
      requires Valid() && lock.id < |made| && made[lock.id] == lock
      modifies lock, this`table
      ensures Valid() && table == old(table).WgDone(lock.id)
    {
      lock.wg := lock.wg - 1;
      table := table.WgDone(lock.id);
      assert forall i :: 0 <= i < |made| && i != lock.id ==> made[i] != lock;
    }

    method Insert(key: string, stamp: int) returns (lock: ActionLock)
      requires Valid()
      modifies this
      ensures Valid() && fresh(lock) && made == old(made) + [lock] && locks == old(locks)[key := lock]
      ensures table == Table(old(table).locks[key := |old(made)|], old(table).made + [Lock(stamp, 1)])
    {
      lock := new ActionLock(created, stamp, lockTimeExpiry);
      locks := locks[key := lock];
      created := created + 1;
      made := made + [lock];
      table := Table(table.locks[key := |table.made|], table.made + [Lock(stamp, 1)]);
    }

    method Remove(key: string)
      requires Valid()
      modifies this`locks, this`table
      ensures Valid() && locks == old(locks) - {key} && table == old(table).(locks := old(table).locks - {key})
    {
      locks := locks - {key};
      table := table.(locks := table.locks - {key});
    }

    method HandleGet(key: string, clock: Readings) returns (lock: ActionLock, first: bool)
      requires Valid()
      modifies this, made
      ensures Valid() && old(made) <= made && fresh(made[|old(made)|..])
      ensures first == ToldFirst(old(table), key, clock, lockTimeExpiry)
      ensures table == AfterGet(old(table), key, clock, lockTimeExpiry)
      ensures key in locks && locks[key] == lock
    {
      if key in locks && !locks[key].IsOld(clock.first) {
        return locks[key], false;
      } else if key in locks && locks[key].IsOld(clock.second) {
        Release(locks[key]);
      }
      lock := Insert(key, clock.stamp);
      first := true;
    }

    method HandleDelete(key: string)
      requires Valid()
      modifies this, made
      ensures Valid() && made == old(made)
      ensures table == AfterDelete(old(table), key)
    {
      if key in locks {
        Release(locks[key]);
        Remove(key);
      }
    }

    /** One turn of the EXPIRE loop. */
    method Visit(key: string, now: int)
      requires Valid() && key in locks
      modifies this`locks, this`table, locks[key]
      ensures Valid()
      ensures table == VisitKey(old(table), key, now, lockTimeExpiry)
    {
      var lock := locks[key];
      if lock.IsOld(now) {
        Remove(key);
        Release(lock);
      }
    }

    /** The loop over the locks, in any order; done lists it. */
    method VisitAll(readings: map<string, int>) returns (ghost done: seq<string>)
      requires Valid() && locks.Keys <= readings.Keys
      modifies this, made
      ensures Valid() && made == old(made)
      ensures Splits(old(table), done, {}) && table == VisitKeys(old(table), done, readings, lockTimeExpiry)
    {
      ghost var t := table;
      done := [];
      var rest := locks.Keys;
      while rest != {}
        invariant Valid() && made == old(made)
        invariant Splits(t, done, rest) && table == VisitKeys(t, done, readings, lockTimeExpiry)
      {
        var k :| k in rest;
        KeyIsThere(t, done, rest, k, readings, lockTimeExpiry);
        Visit(k, readings[k]);
        done := done + [k];
        rest := rest - {k};
      }
    }

    /** EXPIRE visits each lock once; readings gives the clock at each visit. */
    method HandleExpire(readings: map<string, int>)
      requires Valid()
      requires locks.Keys <= readings.Keys
      modifies this, made
      ensures Valid() && made == old(made)
      ensures table == AfterExpire(old(table), readings, lockTimeExpiry)
    {
      ghost var done := VisitAll(readings);
      SweepIsExact(old(table), done, readings, lockTimeExpiry);
    }
  }

  /** One turn of the EXPIRE loop, and a sequence of them. */
  ghost function VisitKey(t: Table, key: string, now: int, expiry: int): (t': Table)
    requires t.WellFormed() && key in t.locks
    ensures t'.WellFormed()
  {
    if t.OldAt(t.locks[key], now, expiry) then t.(locks := t.locks - {key}).WgDone(t.locks[key]) else t
  }

  ghost function VisitKeys(t: Table, keys: seq<string>, readings: map<string, int>, expiry: int): (t': Table)
    requires t.WellFormed()
    ensures t'.WellFormed()
  {
    if keys == [] then t
    else
      var t1, k := VisitKeys(t, keys[..|keys| - 1], readings, expiry), keys[|keys| - 1];
      if k in t1.locks && k in readings then VisitKey(t1, k, readings[k], expiry) else t1
  }

  /** The keys of t are those done, each once, and the rest. */
  ghost predicate Splits(t: Table, done: seq<string>, rest: set<string>) {
    && (forall k :: k in t.locks <==> k in rest || k in done)
    && (forall k :: k in done ==> k !in rest)
    && (forall i, j :: 0 <= i < j < |done| ==> done[i] != done[j])
  }

  lemma {:induction false} KeysVisited(t: Table, done: seq<string>, rest: set<string>, readings: map<string, int>,
                                       expiry: int)
    requires t.WellFormed() && t.locks.Keys <= readings.Keys && Splits(t, done, rest)
    ensures Visited(t, VisitKeys(t, done, readings, expiry), rest, readings, expiry)
  {
    if done == [] {
      NoneVisited(t, rest, readings, expiry);
    } else {
      var before, k := done[..|done| - 1], done[|done| - 1];
      var all := rest + {k};
      SplitsBefore(t, done, rest);
      KeysVisited(t, before, all, readings, expiry);
      VisitOne(t, VisitKeys(t, before, readings, expiry), all, k, readings, expiry);
      assert all - {k} == rest;
    }
  }

  lemma NoneVisited(t: Table, rest: set<string>, readings: map<string, int>, expiry: int)
    requires t.WellFormed() && forall k :: k in t.locks <==> k in rest
    ensures Visited(t, t, rest, readings, expiry)
  {
  }

  lemma SplitsBefore(t: Table, done: seq<string>, rest: set<string>)
    requires Splits(t, done, rest) && done != []
    ensures Splits(t, done[..|done| - 1], rest + {done[|done| - 1]})
  {
  }

  /** All the turns together. */
  lemma SweepIsExact(t: Table, done: seq<string>, readings: map<string, int>, expiry: int)
    requires t.WellFormed() && t.locks.Keys <= readings.Keys && Splits(t, done, {})
    ensures VisitKeys(t, done, readings, expiry) == AfterExpire(t, readings, expiry)
  {
    KeysVisited(t, done, {}, readings, expiry);
    AllVisited(t, VisitKeys(t, done, readings, expiry), readings, expiry);
  }

  /** A key of the rest still has its lock, and visiting it is the next turn. */
  lemma KeyIsThere(t: Table, done: seq<string>, rest: set<string>, key: string, readings: map<string, int>, expiry: int)
    requires t.WellFormed() && t.locks.Keys <= readings.Keys && Splits(t, done, rest) && key in rest
    ensures var now := VisitKeys(t, done, readings, expiry);
      && key in now.locks
      && VisitKeys(t, done + [key], readings, expiry) == VisitKey(now, key, readings[key], expiry)
    ensures Splits(t, done + [key], rest - {key})
  {
    KeysVisited(t, done, rest, readings, expiry);
    assert (done + [key])[..|done|] == done;
  }

  /** The table after EXPIRE has visited all of t's keys but the rest. */
  ghost predicate Visited(t: Table, now: Table, rest: set<string>, readings: map<string, int>, expiry: int)
    requires t.WellFormed()
  {
    && now.locks == (map k | k in t.locks && (k in rest || !Aged(t, k, readings, expiry)) :: t.locks[k])
    && |now.made| == |t.made|
    && (forall k | k in t.locks ::
          var was := t.made[t.locks[k]];
          now.made[t.locks[k]] == was.(wg := was.wg - if k in rest || !Aged(t, k, readings, expiry) then 0 else 1))
    && (forall i :: 0 <= i < |t.made| && !t.Held(i) ==> now.made[i] == t.made[i])
  }

  lemma VisitOne(t: Table, now: Table, rest: set<string>, key: string, readings: map<string, int>, expiry: int)
    requires t.WellFormed() && Visited(t, now, rest, readings, expiry)
    requires key in t.locks && key in rest && key in readings
    ensures now.locks[key] == t.locks[key] && now.made[t.locks[key]] == t.made[t.locks[key]]
    ensures var now' :=
        if Aged(t, key, readings, expiry) then now.(locks := now.locks - {key}).WgDone(t.locks[key]) else now;
      Visited(t, now', rest - {key}, readings, expiry)
  {
  }

  lemma AllVisited(t: Table, now: Table, readings: map<string, int>, expiry: int)
    requires t.WellFormed() && Visited(t, now, {}, readings, expiry)
    ensures now == AfterExpire(t, readings, expiry)
  {
    var t' := AfterExpire(t, readings, expiry);
    assert now.locks == t'.locks;
    forall i | 0 <= i < |t.made|
      ensures now.made[i] == t'.made[i]
    {
      if t.Held(i) {
        var k :| k in t.locks && t.locks[k] == i;
        assert AgedLock(t, i, readings, expiry) <==> Aged(t, k, readings, expiry);
      }
    }
  }
}
