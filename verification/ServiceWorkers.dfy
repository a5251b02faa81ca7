/** How many callers of getServiceEntry work on one key at once
    (pkg/throttler/throttler.go). */
module ServiceWorkers {
  import opened Keys
  import opened ServiceEntry
  import T = Throttler

  predicate IsFirst(ph: Phase) {
    ph.Leading? || ph.Holding? || (ph.Deleting? && ph.first)
  }

  predicate WorksOn(c: Caller, key: string) {
    CacheKey(c.meta) == key && IsFirst(c.phase)
  }

  /** The callers for a key that were told "first" and whose DELETE has not been handled. */
  function Firsts(callers: map<nat, Caller>, key: string): set<nat> {
    set c | c in callers && WorksOn(callers[c], key)
  }

  lemma OneCallerChanges(callers: map<nat, Caller>, id: nat, c: Caller, key: string)
    ensures Firsts(callers[id := c], key) ==
      if WorksOn(c, key) then Firsts(callers, key) + {id} else Firsts(callers, key) - {id}
  {
  }

  /** The callers at work on a key are as many as the throttler's tally says. */
  ghost predicate Tallied(callers: map<nat, Caller>, handled: seq<T.Message>, key: string, p: Params) {
    |Firsts(callers, key)| == T.Count(handled, key, p.lockExpiry).Outstanding()
  }

  lemma AskCounts(s: State, id: nat, clock: T.Readings, key: string, p: Params)
    requires Enabled(s, Ask(id, clock))
    ensures |Firsts(Apply(s, Ask(id, clock), p).callers, key)|
         == |Firsts(s.callers, key)| + T.Change(s.table, T.Get(s.Key(id), clock), key, p.lockExpiry)
  {
    var key', first := s.Key(id), T.ToldFirst(s.table, s.Key(id), clock, p.lockExpiry);
    var l := T.AfterGet(s.table, key', clock, p.lockExpiry).locks[key'];
    var c := s.callers[id].(phase := if first then Leading(l) else Waiting(l));
    AskMoves(s, id, clock, p);
    OneCallerChanges(s.callers, id, c, key);
    assert id !in Firsts(s.callers, key);
  }

  lemma AskMoves(s: State, id: nat, clock: T.Readings, p: Params)
    requires Enabled(s, Ask(id, clock))
    ensures var key, first := s.Key(id), T.ToldFirst(s.table, s.Key(id), clock, p.lockExpiry);
      var t := T.AfterGet(s.table, key, clock, p.lockExpiry);
      && key in t.locks
      && Apply(s, Ask(id, clock), p).callers
         == s.callers[id := s.callers[id].(phase := if first then Leading(t.locks[key]) else Waiting(t.locks[key]))]
      && Apply(s, Ask(id, clock), p).handled == s.handled + [T.Get(key, clock)]
  {
  }

  lemma DeleteMoves(s: State, id: nat, p: Params)
    requires Enabled(s, HandleDelete(id))
    ensures Apply(s, HandleDelete(id), p).callers == s.callers[id := s.callers[id].(phase := Gone)]
    ensures Apply(s, HandleDelete(id), p).handled == s.handled + [T.Delete(s.Key(id), s.callers[id].phase.first)]
  {
  }

  lemma DeleterGoes(callers: map<nat, Caller>, id: nat, key: string)
    requires id in callers && callers[id].phase.Deleting?
    ensures |Firsts(callers[id := callers[id].(phase := Gone)], key)|
         == |Firsts(callers, key)| - if CacheKey(callers[id].meta) == key && callers[id].phase.first then 1 else 0
  {
    OneCallerChanges(callers, id, callers[id].(phase := Gone), key);
    assert id in Firsts(callers, key) <==> CacheKey(callers[id].meta) == key && callers[id].phase.first;
  }

  lemma DeleteCounts(s: State, id: nat, key: string, p: Params)
    requires Enabled(s, HandleDelete(id))
    ensures |Firsts(Apply(s, HandleDelete(id), p).callers, key)|
         == |Firsts(s.callers, key)|
            + T.Change(s.table, T.Delete(s.Key(id), s.callers[id].phase.first), key, p.lockExpiry)
  {
    DeleteMoves(s, id, p);
    DeleterGoes(s.callers, id, key);
  }

  lemma SweepMoves(s: State, readings: map<string, int>, end: int, p: Params)
    requires Enabled(s, SweepLocks(readings, end))
    ensures Apply(s, SweepLocks(readings, end), p).callers == s.callers
    ensures Apply(s, SweepLocks(readings, end), p).handled == s.handled + [T.Expire(readings)]
  {
  }

  /** The callers and the throttler's tally change alike. */
  lemma MessageCounts(s: State, callers: map<nat, Caller>, m: T.Message, key: string, p: Params)
    requires Traced(s, p) && Tallied(s.callers, s.handled, key, p)
    requires |Firsts(callers, key)| == |Firsts(s.callers, key)| + T.Change(s.table, m, key, p.lockExpiry)
    ensures Tallied(callers, s.handled + [m], key, p)
  {
    T.OutstandingAfter(s.handled, m, key, p.lockExpiry);
  }

  /** A caller's step other than its GET and its DELETE: it works on its key after as before. */
  lemma QuietMoves(s: State, step: Step, id: nat, p: Params)
    requires Enabled(s, step) && Actor(step) == Some(id) && !step.Ask? && !step.HandleDelete?
    ensures var s' := Apply(s, step, p);
      && s'.handled == s.handled && id in s.callers && id in s'.callers
      && s'.callers == s.callers[id := s'.callers[id]]
      && s'.callers[id].meta == s.callers[id].meta && IsFirst(s'.callers[id].phase) == IsFirst(s.callers[id].phase)
  {
  }

  /** A step of neither a caller nor the throttler. */
  lemma WorldMoves(s: State, step: Step, p: Params)
    requires Enabled(s, step) && Actor(step) == None && !step.SweepLocks?
    ensures var s' := Apply(s, step, p);
      && s'.handled == s.handled
      && s'.callers == if step.Arrive? then s.callers[step.id := Caller(step.meta, Start, Pending)] else s.callers
  {
  }

  /** Such steps do not change who works on a key. */
  lemma OthersDoNotCount(s: State, step: Step, key: string, p: Params)
    requires Enabled(s, step) && !step.Ask? && !step.HandleDelete? && !step.SweepLocks?
    ensures var s' := Apply(s, step, p); s'.handled == s.handled && Firsts(s'.callers, key) == Firsts(s.callers, key)
  {
    match Actor(step)
    case Some(id) =>
      QuietMoves(s, step, id, p);
      OneCallerChanges(s.callers, id, Apply(s, step, p).callers[id], key);
    case None =>
      WorldMoves(s, step, p);
      if step.Arrive? {
        OneCallerChanges(s.callers, step.id, Caller(step.meta, Start, Pending), key);
      }
  }

  lemma MessageKeepsTally(s: State, step: Step, key: string, p: Params)
    requires Traced(s, p) && Tallied(s.callers, s.handled, key, p) && Enabled(s, step)
    requires step.Ask? || step.HandleDelete? || step.SweepLocks?
    ensures Tallied(Apply(s, step, p).callers, Apply(s, step, p).handled, key, p)
  {
    var callers := Apply(s, step, p).callers;
    match step
    case Ask(id, clock) =>
      AskMoves(s, id, clock, p);
      AskCounts(s, id, clock, key, p);
      MessageCounts(s, callers, T.Get(s.Key(id), clock), key, p);
    case HandleDelete(id) =>
      DeleteMoves(s, id, p);
      DeleteCounts(s, id, key, p);
      MessageCounts(s, callers, T.Delete(s.Key(id), s.callers[id].phase.first), key, p);
    case SweepLocks(readings, end) =>
      SweepMoves(s, readings, end, p);
      MessageCounts(s, callers, T.Expire(readings), key, p);
  }

  lemma StepKeepsTally(s: State, step: Step, key: string, p: Params)
    requires Traced(s, p) && Tallied(s.callers, s.handled, key, p) && Enabled(s, step)
    ensures Tallied(Apply(s, step, p).callers, Apply(s, step, p).handled, key, p)
  {
    if step.Ask? || step.HandleDelete? || step.SweepLocks? {
      MessageKeepsTally(s, step, key, p);
    } else {
      OthersDoNotCount(s, step, key, p);
    }
  }

  lemma {:induction false} EveryRunIsTallied(run: seq<Step>, key: string, p: Params)
    requires Exec(run, p).Some?
    ensures Tallied(Exec(run, p).value.callers, Exec(run, p).value.handled, key, p)
  {
    if run == [] {
      assert Firsts(Initial.callers, key) == {};
    } else {
      var before := run[..|run| - 1];
      EveryRunIsTallied(before, key, p);
      EveryRunKeepsInv(before, p);
      StepKeepsTally(Exec(before, p).value, run[|run| - 1], key, p);
    }
  }

  /** The throttler's accounting, for the callers themselves: those working on
      a key are exactly the held lock plus the locks lost to waiters' DELETEs
      and to age, less the first callers' DELETEs that found no lock. */
  lemma WorkersAreAccounted(run: seq<Step>, key: string, p: Params)
    requires Exec(run, p).Some?
    ensures var s := Exec(run, p).value;
      var c := T.Count(s.handled, key, p.lockExpiry);
      && |Firsts(s.callers, key)| == c.Outstanding()
      && |Firsts(s.callers, key)| == (if key in s.table.locks then 1 else 0) + c.waiterHits + c.aged - c.firstMisses
  {
    EveryRunIsTallied(run, key, p);
    EveryRunKeepsInv(run, p);
    T.LocksAreConserved(Exec(run, p).value.handled, key, p.lockExpiry);
  }

  /** So at most one caller works on a key as long as no lock of it was taken
      by a waiter's DELETE or for age. */
  lemma OneWorkerUnlessLockTaken(run: seq<Step>, key: string, p: Params)
    requires Exec(run, p).Some?
    requires var c := T.Count(Exec(run, p).value.handled, key, p.lockExpiry); c.waiterHits == 0 && c.aged == 0
    ensures |Firsts(Exec(run, p).value.callers, key)| <= 1
  {
    WorkersAreAccounted(run, key, p);
  }

  /** A caller joins others at work on its key exactly when it is told "first"
      while one of them is not done: the key has no lock, or an old one. */
  lemma JoinsWorkersIff(s: State, id: nat, clock: T.Readings, p: Params)
    requires Enabled(s, Ask(id, clock))
    ensures var key, s' := s.Key(id), Apply(s, Ask(id, clock), p);
      (WorksOn(s'.callers[id], key) && |Firsts(s'.callers, key)| >= 2) <==>
      (T.ToldFirst(s.table, key, clock, p.lockExpiry) && Firsts(s.callers, key) != {})
  {
    AskCounts(s, id, clock, s.Key(id), p);
    assert Firsts(s.callers, s.Key(id)) == {} <==> |Firsts(s.callers, s.Key(id))| == 0;
  }

  // ----- two callers at work on one key

  ghost predicate Reached(s: State, p: Params) { exists run :: Exec(run, p) == Some(s) }

  /** A table in which n locks were made at time 0 under one key, of which the last may still be held. */
  function TableOf(key: string, locked: bool, n: nat): T.Table
    requires locked ==> n > 0
  {
    T.Table(if locked then map[key := n - 1] else map[], seq(n, i => T.Lock(0, if locked && i == n - 1 then 1 else 0)))
  }

  /** Reached at time 0, with an empty cache: so many callers ask for this
      function and are in these phases, and the throttler holds such a table. */
  ghost predicate At(s: State, m: Meta, phases: seq<Phase>, locked: bool, n: nat, p: Params) {
    && Reached(s, p) && s.now == 0 && s.cache == map[]
    && (locked ==> n > 0) && s.table == TableOf(CacheKey(m), locked, n)
    && (forall id :: id in s.callers <==> 0 <= id < |phases|)
    && (forall id :: 0 <= id < |phases| ==> s.callers[id].meta == m && s.callers[id].phase == phases[id])
  }

  lemma OneMoreStep(s: State, step: Step, p: Params)
    requires Reached(s, p) && Enabled(s, step)
    ensures Reached(Apply(s, step, p), p)
  {
    var run :| Exec(run, p) == Some(s);
    var run' := run + [step];
    assert run'[..|run'| - 1] == run && run'[|run'| - 1] == step;
    assert Exec(run', p) == Some(Apply(s, step, p));
  }

  lemma Arrives(s: State, m: Meta, phases: seq<Phase>, locked: bool, n: nat, p: Params)
    returns (s': State)
    requires At(s, m, phases, locked, n, p)
    requires '_' !in m.uid
    ensures At(s', m, phases + [Start], locked, n, p)
  {
    OneMoreStep(s, Arrive(|phases|, m), p);
    s' := Apply(s, Arrive(|phases|, m), p);
  }

  lemma Misses(s: State, id: nat, m: Meta, phases: seq<Phase>, locked: bool, n: nat, p: Params)
    returns (s': State)
    requires At(s, m, phases, locked, n, p) && id < |phases| && phases[id].Start?
    ensures At(s', m, phases[id := Asking], locked, n, p)
  {
    OneMoreStep(s, Lookup(id), p);
    s' := Apply(s, Lookup(id), p);
  }

  /** A GET on a key without a lock. */
  lemma Leads(s: State, id: nat, m: Meta, phases: seq<Phase>, locked: bool, n: nat, p: Params)
    returns (s': State)
    requires At(s, m, phases, locked, n, p) && id < |phases| && phases[id].Asking? && !locked
    ensures At(s', m, phases[id := Leading(n)], true, n + 1, p)
  {
    OneMoreStep(s, Ask(id, T.Readings(0, 0, 0)), p);
    s' := Apply(s, Ask(id, T.Readings(0, 0, 0)), p);
  }

  /** A GET on a key with a young lock. */
  lemma Waits(s: State, id: nat, m: Meta, phases: seq<Phase>, locked: bool, n: nat, p: Params)
    returns (s': State)
    requires At(s, m, phases, locked, n, p) && id < |phases| && phases[id].Asking? && locked
    requires p.lockExpiry >= 0
    ensures At(s', m, phases[id := Waiting(n - 1)], true, n, p)
  {
    OneMoreStep(s, Ask(id, T.Readings(0, 0, 0)), p);
    s' := Apply(s, Ask(id, T.Readings(0, 0, 0)), p);
  }

  lemma Fails(s: State, id: nat, m: Meta, phases: seq<Phase>, locked: bool, n: nat, p: Params)
    returns (s': State)
    requires At(s, m, phases, locked, n, p) && id < |phases| && phases[id].Leading?
    ensures At(s', m, phases[id := Deleting(phases[id].lock, true)], locked, n, p)
  {
    OneMoreStep(s, ExecutorFails(id), p);
    s' := Apply(s, ExecutorFails(id), p);
  }

  lemma Deletes(s: State, id: nat, m: Meta, phases: seq<Phase>, locked: bool, n: nat, p: Params)
    returns (s': State)
    requires At(s, m, phases, locked, n, p) && id < |phases| && phases[id].Deleting?
    ensures At(s', m, phases[id := Gone], false, n, p)
  {
    OneMoreStep(s, HandleDelete(id), p);
    s' := Apply(s, HandleDelete(id), p);
  }

  lemma GetsReleased(s: State, id: nat, m: Meta, phases: seq<Phase>, locked: bool, n: nat, p: Params)
    returns (s': State)
    requires At(s, m, phases, locked, n, p) && id < |phases| && phases[id].Waiting?
    requires phases[id].lock < n && !locked
    ensures At(s', m, phases[id := Released(phases[id].lock)], locked, n, p)
  {
    OneMoreStep(s, WaitOver(id), p);
    s' := Apply(s, WaitOver(id), p);
  }

  lemma FindsNothing(s: State, id: nat, m: Meta, phases: seq<Phase>, locked: bool, n: nat, p: Params)
    returns (s': State)
    requires At(s, m, phases, locked, n, p) && id < |phases| && phases[id].Released?
    ensures At(s', m, phases[id := Deleting(phases[id].lock, false)], locked, n, p)
  {
    OneMoreStep(s, LookupAgain(id), p);
    s' := Apply(s, LookupAgain(id), p);
  }

  /** A caller that arrives goes as far as its GET. */
  lemma Joins(s: State, m: Meta, phases: seq<Phase>, locked: bool, n: nat, p: Params) returns (s': State)
    requires At(s, m, phases, locked, n, p) && '_' !in m.uid
    ensures At(s', m, phases + [Asking], locked, n, p)
  {
    s' := Arrives(s, m, phases, locked, n, p);
    s' := Misses(s', |phases|, m, phases + [Start], locked, n, p);
    assert (phases + [Start])[|phases| := Asking] == phases + [Asking];
  }

  lemma FirstLeads(m: Meta, p: Params) returns (s: State)
    requires '_' !in m.uid
    ensures At(s, m, [Leading(0)], true, 1, p)
  {
    assert Exec([], p) == Some(Initial);
    s := Joins(Initial, m, [], false, 0, p);
    s := Leads(s, 0, m, [] + [Asking], false, 0, p);
    assert ([] + [Asking])[0 := Leading(0)] == [Leading(0)];
  }

  /** A first leader and a waiter. */
  lemma LeaderAndWaiter(m: Meta, p: Params) returns (s: State)
    requires '_' !in m.uid && p.lockExpiry >= 0
    ensures At(s, m, [Leading(0), Waiting(0)], true, 1, p)
  {
    s := FirstLeads(m, p);
    s := Joins(s, m, [Leading(0)], true, 1, p);
    s := Waits(s, 1, m, [Leading(0)] + [Asking], true, 1, p);
    assert ([Leading(0)] + [Asking])[1 := Waiting(0)] == [Leading(0), Waiting(0)];
  }

  /** The leader's call fails, and its DELETE releases the waiter. */
  lemma LeaderFails(m: Meta, p: Params) returns (s: State)
    requires '_' !in m.uid && p.lockExpiry >= 0
    ensures At(s, m, [Gone, Released(0)], false, 1, p)
  {
    s := LeaderAndWaiter(m, p);
    s := Fails(s, 0, m, [Leading(0), Waiting(0)], true, 1, p);
    assert [Leading(0), Waiting(0)][0 := Deleting(0, true)] == [Deleting(0, true), Waiting(0)];
    s := Deletes(s, 0, m, [Deleting(0, true), Waiting(0)], true, 1, p);
    assert [Deleting(0, true), Waiting(0)][0 := Gone] == [Gone, Waiting(0)];
    s := GetsReleased(s, 1, m, [Gone, Waiting(0)], false, 1, p);
    assert [Gone, Waiting(0)][1 := Released(0)] == [Gone, Released(0)];
  }

  lemma SecondLeads(m: Meta, p: Params) returns (s: State)
    requires '_' !in m.uid && p.lockExpiry >= 0
    ensures At(s, m, [Gone, Released(0), Leading(1)], true, 2, p)
  {
    s := LeaderFails(m, p);
    s := Joins(s, m, [Gone, Released(0)], false, 1, p);
    s := Leads(s, 2, m, [Gone, Released(0)] + [Asking], false, 1, p);
    assert ([Gone, Released(0)] + [Asking])[2 := Leading(1)] == [Gone, Released(0), Leading(1)];
  }

  /** A second leader takes the lock, and the first one's waiter deletes it. */
  lemma WaiterDeletes(m: Meta, p: Params) returns (s: State)
    requires '_' !in m.uid && p.lockExpiry >= 0
    ensures At(s, m, [Gone, Gone, Leading(1)], false, 2, p)
  {
    s := SecondLeads(m, p);
    s := FindsNothing(s, 1, m, [Gone, Released(0), Leading(1)], true, 2, p);
    assert [Gone, Released(0), Leading(1)][1 := Deleting(0, false)] == [Gone, Deleting(0, false), Leading(1)];
    s := Deletes(s, 1, m, [Gone, Deleting(0, false), Leading(1)], true, 2, p);
    assert [Gone, Deleting(0, false), Leading(1)][1 := Gone] == [Gone, Gone, Leading(1)];
  }

  /** The promise fails for real callers, for every function and expiry and
      without any time passing: a second leader has taken the lock when the
      first leader's waiter deletes it, so a third caller leads as well. */
  lemma TwoWorkersAtOnce(m: Meta, p: Params) returns (s: State)
    requires '_' !in m.uid && p.lockExpiry >= 0
    ensures Reached(s, p) && s.now == 0 && Firsts(s.callers, CacheKey(m)) == {2, 3}
  {
    s := WaiterDeletes(m, p);
    s := Joins(s, m, [Gone, Gone, Leading(1)], false, 2, p);
    s := Leads(s, 3, m, [Gone, Gone, Leading(1)] + [Asking], false, 2, p);
    assert ([Gone, Gone, Leading(1)] + [Asking])[3 := Leading(2)] == [Gone, Gone, Leading(1), Leading(2)];
    TwoLead(s, m, p);
  }

  lemma TwoLead(s: State, m: Meta, p: Params)
    requires At(s, m, [Gone, Gone, Leading(1), Leading(2)], true, 3, p)
    ensures Firsts(s.callers, CacheKey(m)) == {2, 3}
  {
  }
}
