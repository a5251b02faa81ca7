/** How a request gets its service address: getServiceEntry composes the
    router's timed cache with the throttler's RunOnce
    (pkg/router/functionHandler.go, pkg/throttler/throttler.go). Callers,
    messages, clean-up and the clock interleave freely. */
module ServiceEntry {
  import opened Keys
  import T = Throttler
  import C = TimedCache

  type Url = string

  /** The router cache keys on these fields (functionServiceMap.go). */
  datatype FnKey = FnKey(name: string, namespace: string, resourceVersion: string)

  function KeyOf(m: Meta): FnKey { FnKey(m.name, m.namespace, m.resourceVersion) }

  datatype Phase =
    | Start                                // about to look in the router's cache
    | Asking                               // missed; its GET is on the way
    | Leading(lock: nat)                   // told "first", has called the executor
    | Holding(lock: nat, url: Url)         // the executor answered with a URL
    | Waiting(lock: nat)                   // waits for another caller's lock
    | Released(lock: nat)                  // that lock's counter reached 0
    | Deleting(lock: nat, first: bool)     // callback returned; its DELETE is on the way
    | Gone

  datatype Answer = Pending | Found(url: Url, fromCache: bool) | NoUrl | Failed

  datatype Caller = Caller(meta: Meta, phase: Phase, answer: Answer)

  datatype Params = Params(cacheExpiry: int, lockExpiry: int) {
    function Cache(): C.Expiry { C.Expiry(cacheExpiry, 0) }
  }

  /** The last seven fields are history: who each lock made first, the URL the
      executor gave each lock's leader, what the cache held for the function
      right after such a leader's assign, the locks whose leader's assign was
      refused, as an entry was there already, the locks that their own leader's
      DELETE removed, those for which the function was removed from the cache
      since that assign, and every URL the executor ever gave for a function. */
  datatype State = State(
    handled: seq<T.Message>,
    table: T.Table,
    cache: map<FnKey, C.Entry<Url>>,
    callers: map<nat, Caller>,
    now: int,
    leader: seq<nat>,
    answered: map<nat, Url>,
    placed: map<nat, C.Entry<Url>>,
    refused: set<nat>,
    ownRelease: set<nat>,
    removed: set<nat>,
    given: set<(FnKey, Url)>)
  {
    function Key(id: nat): string
      requires id in callers
    {
      CacheKey(callers[id].meta)
    }

    function Move(id: nat, phase: Phase): State
      requires id in callers
    {
      this.(callers := callers[id := callers[id].(phase := phase)])
    }

    function Finish(id: nat, phase: Phase, answer: Answer): State
      requires id in callers
    {
      this.(callers := callers[id := callers[id].(phase := phase, answer := answer)])
    }

    /** The throttler handles one message. */
    ghost function Handle(m: T.Message, p: Params): State
      requires table.WellFormed()
    {
      this.(handled := handled + [m], table := T.After(table, m, p.lockExpiry))
    }
  }

  const Initial := State([], T.Empty, map[], map[], 0, [], map[], map[], {}, {}, {}, {})

  datatype Step =
    | Arrive(id: nat, meta: Meta)
    | Lookup(id: nat)
    | Ask(id: nat, clock: T.Readings)
    | ExecutorFails(id: nat)
    | ExecutorAnswers(id: nat, url: Url)
    | Assign(id: nat)
    | WaitOver(id: nat)
    | WaitTimesOut(id: nat)
    | LookupAgain(id: nat)
    | HandleDelete(id: nat)
    | Remove(meta: Meta)                        // a round trip drops a stale address
    | SweepCache
    | SweepLocks(readings: map<string, int>, end: int)
    | Tick(to: int)

  /** The caller that takes a step, if it is one. */
  function Actor(step: Step): Option<nat> {
    match step
    case Lookup(id) => Some(id)
    case Ask(id, _) => Some(id)
    case ExecutorFails(id) => Some(id)
    case ExecutorAnswers(id, _) => Some(id)
    case Assign(id) => Some(id)
    case WaitOver(id) => Some(id)
    case WaitTimesOut(id) => Some(id)
    case LookupAgain(id) => Some(id)
    case HandleDelete(id) => Some(id)
    case _ => None
  }

  /** UIDs are unique: equal UIDs name the same object, and hold no '_'. */
  predicate Coherent(callers: map<nat, Caller>, m: Meta) {
    && '_' !in m.uid
    && forall c :: c in callers && callers[c].meta.uid == m.uid ==>
         callers[c].meta.name == m.name && callers[c].meta.namespace == m.namespace
  }

  ghost predicate Enabled(s: State, step: Step) {
    && s.table.WellFormed()
    && match step
      case Arrive(id, m) => id !in s.callers && Coherent(s.callers, m)
      case Lookup(id) => id in s.callers && s.callers[id].phase.Start?
      case Ask(id, clock) =>
        id in s.callers && s.callers[id].phase.Asking? && s.now <= clock.first <= clock.second <= clock.stamp
      case ExecutorFails(id) => id in s.callers && s.callers[id].phase.Leading?
      case ExecutorAnswers(id, _) => id in s.callers && s.callers[id].phase.Leading?
      case Assign(id) => id in s.callers && s.callers[id].phase.Holding?
      case WaitOver(id) =>
        id in s.callers && s.callers[id].phase.Waiting? &&
        s.callers[id].phase.lock < |s.table.made| && s.table.made[s.callers[id].phase.lock].wg == 0
      case WaitTimesOut(id) => id in s.callers && s.callers[id].phase.Waiting?
      case LookupAgain(id) => id in s.callers && s.callers[id].phase.Released?
      case HandleDelete(id) => id in s.callers && s.callers[id].phase.Deleting?
      case Remove(_) => true
      case SweepCache => true
      case SweepLocks(readings, end) =>
        s.table.locks.Keys <= readings.Keys && s.now <= end && forall k :: k in readings ==> s.now <= readings[k] <= end
      case Tick(to) => s.now <= to
  }

  /** A request to the router's cache, handled now. */
  function Now(req: C.Request<FnKey, Url>, now: int): C.Call<FnKey, Url> { C.Call(req, C.Clock(now, now, now)) }

  function Sweep(cache: map<FnKey, C.Entry<Url>>, now: int): C.Call<FnKey, Url> {
    Now(C.Expire(map k | k in cache :: C.Clock(now, now, now)), now)
  }

  /** One lookup in the router's cache, with its effect on the cache. */
  function CacheGet(s: State, id: nat, p: Params): (State, C.Response<Url>)
    requires id in s.callers
  {
    var call := Now(C.Get(KeyOf(s.callers[id].meta)), s.now);
    (s.(cache := C.After(p.Cache(), s.cache, call)), C.Answer(p.Cache(), s.cache, call))
  }

  /** The lock was made for a caller of this function. */
  predicate IsFor(s: State, l: nat, key: FnKey) {
    l < |s.leader| && s.leader[l] in s.callers && KeyOf(s.callers[s.leader[l]].meta) == key
  }

  ghost function Apply(s: State, step: Step, p: Params): State
    requires Enabled(s, step)
  {
    match step
    case Arrive(id, m) => s.(callers := s.callers[id := Caller(m, Start, Pending)])
    case Lookup(id) =>
      var (s', r) := CacheGet(s, id, p);
      if r.Hit? then s'.Finish(id, Gone, Found(r.value, true)) else s'.Move(id, Asking)
    case Ask(id, clock) =>
      var k := s.Key(id);
      var first := T.ToldFirst(s.table, k, clock, p.lockExpiry);
      var s' := s.Handle(T.Get(k, clock), p).(now := clock.stamp);
      var l := s'.table.locks[k];
      s'.Move(id, if first then Leading(l) else Waiting(l)).(leader := if first then s.leader + [id] else s.leader)
    case ExecutorFails(id) => s.Finish(id, Deleting(s.callers[id].phase.lock, true), Failed)
    case ExecutorAnswers(id, url) =>
      var l := s.callers[id].phase.lock;
      s.Move(id, Holding(l, url)).(
        answered := s.answered[l := url], given := s.given + {(KeyOf(s.callers[id].meta), url)})
    case Assign(id) =>
      var l, url, key := s.callers[id].phase.lock, s.callers[id].phase.url, KeyOf(s.callers[id].meta);
      var cache' := C.After(p.Cache(), s.cache, Now(C.Set(key, url), s.now));
      s.Finish(id, Deleting(l, true), Found(url, true)).(
        cache := cache', placed := s.placed[l := cache'[key]], removed := s.removed - {l},
        refused := if key in s.cache then s.refused + {l} else s.refused)
    case WaitOver(id) => s.Move(id, Released(s.callers[id].phase.lock))
    case WaitTimesOut(id) => s.Finish(id, Gone, Failed)
    case LookupAgain(id) =>
      var (s', r) := CacheGet(s, id, p);
      s'.Finish(id, Deleting(s.callers[id].phase.lock, false), if r.Hit? then Found(r.value, false) else NoUrl)
    case HandleDelete(id) =>
      var k, l, first := s.Key(id), s.callers[id].phase.lock, s.callers[id].phase.first;
      var own := first && k in s.table.locks && s.table.locks[k] == l;
      s.Handle(T.Delete(k, first), p).Move(id, Gone).(ownRelease := if own then s.ownRelease + {l} else s.ownRelease)
    case Remove(m) =>
      s.(cache := s.cache - {KeyOf(m)},
         removed := s.removed + (set l | l in s.placed && IsFor(s, l, KeyOf(m))))
    case SweepCache => s.(cache := C.After(p.Cache(), s.cache, Sweep(s.cache, s.now)))
    case SweepLocks(readings, end) => s.Handle(T.Expire(readings), p).(now := end)
    case Tick(to) => s.(now := to)
  }

  // ----- the invariant

  /** What a phase says about the lock the caller was given. */
  predicate PhaseOk(s: State, id: nat, phase: Phase)
    requires id in s.callers
  {
    match phase
    case Leading(l) => l < |s.leader| && s.leader[l] == id && l !in s.answered
    case Holding(l, _) => l < |s.leader| && s.leader[l] == id
    case Deleting(l, first) => l < |s.leader| && (first ==> s.leader[l] == id)
    case Waiting(l) => l < |s.leader| && s.leader[l] in s.callers && s.Key(s.leader[l]) == s.Key(id)
    case Released(l) => l < |s.leader| && s.leader[l] in s.callers && s.Key(s.leader[l]) == s.Key(id)
    case _ => true
  }

  predicate CallerOk(s: State, id: nat)
    requires id in s.callers
  {
    Coherent(s.callers, s.callers[id].meta) && PhaseOk(s, id, s.callers[id].phase)
  }

  /** A lock's leader is at work on it, has its DELETE on the way, or is gone;
      it has placed whatever URL it was given before it sent that DELETE. */
  predicate LockOk(s: State, l: nat)
    requires l < |s.leader|
  {
    && s.leader[l] in s.callers
    && (match s.callers[s.leader[l]].phase
        case Leading(m) => m == l && l !in s.ownRelease
        case Holding(m, _) => m == l && l !in s.ownRelease
        case Deleting(m, first) => m == l && first && l !in s.ownRelease && (l in s.answered ==> l in s.placed)
        case Gone => l in s.answered ==> l in s.placed
        case _ => false)
  }

  /** Until it is removed or expires, the entry a leader left in the cache stays. */
  predicate EntryOk(s: State, l: nat, p: Params)
    requires l in s.placed
  {
    && l < |s.leader| && s.leader[l] in s.callers
    && var key, e := KeyOf(s.callers[s.leader[l]].meta), s.placed[l];
      l !in s.removed && (p.cacheExpiry == 0 || s.now - e.ctime <= p.cacheExpiry) ==>
        key in s.cache && s.cache[key].ctime == e.ctime && s.cache[key].value == e.value
  }

  /** A held lock is held under its leader's key, and its leader is not gone. */
  predicate HeldOk(s: State, k: string)
    requires k in s.table.locks
  {
    && s.table.locks[k] < |s.leader|
    && s.leader[s.table.locks[k]] in s.callers
    && s.Key(s.leader[s.table.locks[k]]) == k
    && !s.callers[s.leader[s.table.locks[k]]].phase.Gone?
  }

  /** The table is what the throttler makes of the messages it has handled. */
  ghost predicate Traced(s: State, p: Params) {
    && (forall i :: 0 <= i < |s.handled| ==> T.Monotone(s.handled[i]))
    && s.table == T.Replay(s.handled, p.lockExpiry)
  }

  ghost predicate Agree(s: State, p: Params) {
    && |s.leader| == |s.table.made|
    && (forall l :: l in s.answered || l in s.ownRelease ==> l < |s.leader|)
    && (forall c :: c in s.callers ==> CallerOk(s, c))
    && (forall l :: 0 <= l < |s.leader| ==> LockOk(s, l))
    && (forall l :: l in s.placed ==> EntryOk(s, l, p))
    && (forall k :: k in s.table.locks ==> HeldOk(s, k))
  }

  ghost predicate Inv(s: State, p: Params) { Traced(s, p) && Agree(s, p) }

  lemma HandledGrows(s: State, m: T.Message, p: Params)
    requires Traced(s, p) && T.Monotone(m)
    ensures s.table.Sound()
    ensures Traced(s.Handle(m, p), p) && s.Handle(m, p).table.Sound()
  {
    var run := s.handled + [m];
    assert run[..|run| - 1] == s.handled;
    T.EveryRunIsSound(s.handled, p.lockExpiry);
    T.EveryRunIsSound(run, p.lockExpiry);
  }

  predicate Follows(phase: Phase) {
    || phase.Start? || phase.Asking? || phase.Waiting? || phase.Released? || phase.Gone?
    || (phase.Deleting? && !phase.first)
  }

  /** A caller that leads no lock may move on to any phase that fits it. */
  lemma FollowerMoves(s: State, id: nat, phase: Phase, answer: Answer, p: Params)
    requires Agree(s, p) && id in s.callers
    requires Follows(s.callers[id].phase) && !s.callers[id].phase.Gone? && Follows(phase) && PhaseOk(s, id, phase)
    ensures Agree(s.Finish(id, phase, answer), p)
  {
    var s' := s.Finish(id, phase, answer);
    forall l | 0 <= l < |s'.leader| ensures LockOk(s', l) { assert LockOk(s, l); }
    forall l | l in s'.placed ensures EntryOk(s', l, p) { assert EntryOk(s, l, p); }
    forall k | k in s'.table.locks ensures HeldOk(s', k) { assert HeldOk(s, k) && LockOk(s, s.table.locks[k]); }
    forall c | c in s'.callers ensures CallerOk(s', c) { assert CallerOk(s, c); }
  }

  /** A leader may hold its URL, or send its DELETE once what it was given is in the cache. */
  lemma LeaderMoves(s: State, id: nat, phase: Phase, answer: Answer, p: Params)
    requires Agree(s, p) && id in s.callers
    requires s.callers[id].phase.Leading? || s.callers[id].phase.Holding?
    requires phase.Holding? || (phase.Deleting? && phase.first)
    requires phase.lock == s.callers[id].phase.lock
    requires phase.Deleting? && phase.lock in s.answered ==> phase.lock in s.placed
    ensures Agree(s.Finish(id, phase, answer), p)
  {
    var s' := s.Finish(id, phase, answer);
    assert CallerOk(s, id);
    forall l | 0 <= l < |s'.leader| ensures LockOk(s', l) { assert LockOk(s, l); }
    forall l | l in s'.placed ensures EntryOk(s', l, p) { assert EntryOk(s, l, p); }
    forall k | k in s'.table.locks ensures HeldOk(s', k) { assert HeldOk(s, k); }
    forall c | c in s'.callers ensures CallerOk(s', c) { assert CallerOk(s, c); }
  }

  lemma ClockKeepsAgree(s: State, to: int, p: Params)
    requires Agree(s, p) && s.now <= to
    ensures Agree(s.(now := to), p)
  {
    var s' := s.(now := to);
    forall l | 0 <= l < |s'.leader| ensures LockOk(s', l) { assert LockOk(s, l); }
    forall l | l in s'.placed ensures EntryOk(s', l, p) { assert EntryOk(s, l, p); }
    forall k | k in s'.table.locks ensures HeldOk(s', k) { assert HeldOk(s, k); }
    forall c | c in s'.callers ensures CallerOk(s', c) { assert CallerOk(s, c); }
  }

  /** Lookups, stores and sweeps handled now leave every unexpired entry as it is. */
  lemma CacheKeepsAgree(s: State, call: C.Call<FnKey, Url>, p: Params)
    requires Agree(s, p) && !call.req.Delete? && call.clock == C.Clock(s.now, s.now, s.now)
    requires call.req.Expire? ==> forall k :: k in call.req.tests ==> call.req.tests[k] == call.clock
    ensures Agree(s.(cache := C.After(p.Cache(), s.cache, call)), p)
  {
    var s' := s.(cache := C.After(p.Cache(), s.cache, call));
    forall l | 0 <= l < |s'.leader| ensures LockOk(s', l) { assert LockOk(s, l); }
    forall l | l in s'.placed ensures EntryOk(s', l, p) { assert EntryOk(s, l, p); }
    forall k | k in s'.table.locks ensures HeldOk(s', k) { assert HeldOk(s, k); }
    forall c | c in s'.callers ensures CallerOk(s', c) { assert CallerOk(s, c); }
  }

  /** A new lock, under the key of the caller that leads it. */
  lemma LeadKeepsAgree(s: State, id: nat, handled: seq<T.Message>, t: T.Table, p: Params)
    requires Agree(s, p) && id in s.callers && s.callers[id].phase.Asking?
    requires |t.made| == |s.table.made| + 1 && t.locks == s.table.locks[s.Key(id) := |s.table.made|]
    ensures Agree(s.(handled := handled, table := t).Move(id, Leading(|s.leader|)).(leader := s.leader + [id]), p)
  {
    var s' := s.(handled := handled, table := t).Move(id, Leading(|s.leader|)).(leader := s.leader + [id]);
    forall l | 0 <= l < |s'.leader| ensures LockOk(s', l) {
      if l < |s.leader| { assert LockOk(s, l); }
    }
    forall k | k in s'.table.locks ensures HeldOk(s', k) {
      if k in s.table.locks { assert HeldOk(s, k); }
    }
    forall l | l in s'.placed ensures EntryOk(s', l, p) { assert EntryOk(s, l, p); }
    forall c | c in s'.callers ensures CallerOk(s', c) { assert CallerOk(s, c); }
  }

  /** A message that adds no lock. */
  lemma ShrinkKeepsAgree(s: State, handled: seq<T.Message>, t: T.Table, p: Params)
    requires Agree(s, p) && |t.made| == |s.table.made|
    requires forall k :: k in t.locks ==> k in s.table.locks && t.locks[k] == s.table.locks[k]
    ensures Agree(s.(handled := handled, table := t), p)
  {
    var s' := s.(handled := handled, table := t);
    forall l | 0 <= l < |s'.leader| ensures LockOk(s', l) { assert LockOk(s, l); }
    forall l | l in s'.placed ensures EntryOk(s', l, p) { assert EntryOk(s, l, p); }
    forall k | k in s'.table.locks ensures HeldOk(s', k) { assert HeldOk(s, k); }
    forall c | c in s'.callers ensures CallerOk(s', c) { assert CallerOk(s, c); }
  }

  /** A caller whose DELETE has been handled leaves: no lock is held under its key. */
  lemma LeaveKeepsAgree(s: State, id: nat, ownRelease: set<nat>, p: Params)
    requires Agree(s, p) && id in s.callers && s.callers[id].phase.Deleting? && s.Key(id) !in s.table.locks
    requires s.ownRelease <= ownRelease
    requires ownRelease <= s.ownRelease + if s.callers[id].phase.first then {s.callers[id].phase.lock} else {}
    ensures Agree(s.Move(id, Gone).(ownRelease := ownRelease), p)
  {
    var s' := s.Move(id, Gone).(ownRelease := ownRelease);
    assert CallerOk(s, id);
    forall l | 0 <= l < |s'.leader| ensures LockOk(s', l) { assert LockOk(s, l); }
    forall l | l in s'.placed ensures EntryOk(s', l, p) { assert EntryOk(s, l, p); }
    forall k | k in s'.table.locks ensures HeldOk(s', k) { assert HeldOk(s, k); }
    forall c | c in s'.callers ensures CallerOk(s', c) { assert CallerOk(s, c); }
  }

  lemma FirstKeepsAgree(s: State, id: nat, clock: T.Readings, p: Params)
    requires Agree(s, p) && Enabled(s, Ask(id, clock)) && T.ToldFirst(s.table, s.Key(id), clock, p.lockExpiry)
    ensures Agree(Apply(s, Ask(id, clock), p), p)
  {
    var m := T.Get(s.Key(id), clock);
    var s0 := s.(now := clock.stamp);
    ClockKeepsAgree(s, clock.stamp, p);
    LeadKeepsAgree(s0, id, s.handled + [m], T.After(s.table, m, p.lockExpiry), p);
    assert Apply(s, Ask(id, clock), p) == s0.Handle(m, p).Move(id, Leading(|s.leader|)).(leader := s.leader + [id]);
  }

  lemma JoinKeepsAgree(s: State, id: nat, clock: T.Readings, p: Params)
    requires Agree(s, p) && Enabled(s, Ask(id, clock)) && !T.ToldFirst(s.table, s.Key(id), clock, p.lockExpiry)
    ensures Agree(Apply(s, Ask(id, clock), p), p)
  {
    var m, l := T.Get(s.Key(id), clock), s.table.locks[s.Key(id)];
    var s1 := s.Handle(m, p).(now := clock.stamp);
    ShrinkKeepsAgree(s, s.handled + [m], s.table, p);
    ClockKeepsAgree(s.Handle(m, p), clock.stamp, p);
    assert HeldOk(s, s.Key(id)) && CallerOk(s, id);
    FollowerMoves(s1, id, Waiting(l), s.callers[id].answer, p);
    assert Apply(s, Ask(id, clock), p) == s1.Finish(id, Waiting(l), s.callers[id].answer);
  }

  lemma DeleteKeepsAgree(s: State, id: nat, p: Params)
    requires Agree(s, p) && Enabled(s, HandleDelete(id))
    ensures Agree(Apply(s, HandleDelete(id), p), p)
  {
    var m := T.Delete(s.Key(id), s.callers[id].phase.first);
    var s1, ownRelease := s.Handle(m, p), Apply(s, HandleDelete(id), p).ownRelease;
    ShrinkKeepsAgree(s, s.handled + [m], T.After(s.table, m, p.lockExpiry), p);
    assert CallerOk(s, id);
    LeaveKeepsAgree(s1, id, ownRelease, p);
    assert Apply(s, HandleDelete(id), p) == s1.Move(id, Gone).(ownRelease := ownRelease);
  }

  lemma SweepLocksKeepsAgree(s: State, readings: map<string, int>, end: int, p: Params)
    requires Agree(s, p) && Enabled(s, SweepLocks(readings, end))
    ensures Agree(Apply(s, SweepLocks(readings, end), p), p)
  {
    var m := T.Expire(readings);
    ShrinkKeepsAgree(s, s.handled + [m], T.After(s.table, m, p.lockExpiry), p);
    ClockKeepsAgree(s.Handle(m, p), end, p);
  }

  lemma WaitKeepsAgree(s: State, step: Step, p: Params)
    requires Agree(s, p) && Enabled(s, step) && (step.WaitOver? || step.WaitTimesOut?)
    ensures Agree(Apply(s, step, p), p)
  {
    var c := s.callers[step.id];
    assert CallerOk(s, step.id);
    if step.WaitOver? {
      FollowerMoves(s, step.id, Released(c.phase.lock), c.answer, p);
    } else {
      FollowerMoves(s, step.id, Gone, Failed, p);
    }
  }

  lemma LookupKeepsAgree(s: State, id: nat, p: Params)
    requires Agree(s, p) && Enabled(s, Lookup(id))
    ensures Agree(Apply(s, Lookup(id), p), p)
  {
    var c := s.callers[id];
    var (s1, r) := CacheGet(s, id, p);
    CacheKeepsAgree(s, Now(C.Get(KeyOf(c.meta)), s.now), p);
    if r.Hit? {
      FollowerMoves(s1, id, Gone, Found(r.value, true), p);
    } else {
      FollowerMoves(s1, id, Asking, c.answer, p);
    }
  }

  lemma LookupAgainKeepsAgree(s: State, id: nat, p: Params)
    requires Agree(s, p) && Enabled(s, LookupAgain(id))
    ensures Agree(Apply(s, LookupAgain(id), p), p)
  {
    var c := s.callers[id];
    var (s1, r) := CacheGet(s, id, p);
    assert CallerOk(s, id);
    CacheKeepsAgree(s, Now(C.Get(KeyOf(c.meta)), s.now), p);
    FollowerMoves(s1, id, Deleting(c.phase.lock, false), if r.Hit? then Found(r.value, false) else NoUrl, p);
  }

  lemma FailureKeepsAgree(s: State, id: nat, p: Params)
    requires Agree(s, p) && Enabled(s, ExecutorFails(id))
    ensures Agree(Apply(s, ExecutorFails(id), p), p)
  {
    assert CallerOk(s, id);
    LeaderMoves(s, id, Deleting(s.callers[id].phase.lock, true), Failed, p);
  }

  lemma AnswerKeepsAgree(s: State, id: nat, url: Url, p: Params)
    requires Agree(s, p) && Enabled(s, ExecutorAnswers(id, url))
    ensures Agree(Apply(s, ExecutorAnswers(id, url), p), p)
  {
    var l := s.callers[id].phase.lock;
    var s1, s2 := s.Move(id, Holding(l, url)), Apply(s, ExecutorAnswers(id, url), p);
    assert CallerOk(s, id);
    LeaderMoves(s, id, Holding(l, url), s.callers[id].answer, p);
    assert s1 == s.Finish(id, Holding(l, url), s.callers[id].answer);
    HistoryKeepsAgree(s1, id, url, s2.given, p);
  }

  /** Noting down the executor's answer changes nothing else. */
  lemma HistoryKeepsAgree(s: State, id: nat, url: Url, given: set<(FnKey, Url)>, p: Params)
    requires Agree(s, p) && id in s.callers && s.callers[id].phase.Holding?
    ensures Agree(s.(answered := s.answered[s.callers[id].phase.lock := url], given := given), p)
  {
    var s' := s.(answered := s.answered[s.callers[id].phase.lock := url], given := given);
    assert CallerOk(s, id);
    forall m | 0 <= m < |s'.leader| ensures LockOk(s', m) { assert LockOk(s, m); }
    forall m | m in s'.placed ensures EntryOk(s', m, p) { assert EntryOk(s, m, p); }
    forall k | k in s'.table.locks ensures HeldOk(s', k) { assert HeldOk(s, k); }
    forall d | d in s'.callers ensures CallerOk(s', d) { assert CallerOk(s, d); }
  }

  lemma PlaceKeepsAgree(s: State, id: nat, refused: set<nat>, p: Params)
    requires Agree(s, p) && id in s.callers && s.callers[id].phase.Holding? && KeyOf(s.callers[id].meta) in s.cache
    ensures var l, key := s.callers[id].phase.lock, KeyOf(s.callers[id].meta);
      Agree(s.(placed := s.placed[l := s.cache[key]], removed := s.removed - {l}, refused := refused), p)
  {
    var l, key := s.callers[id].phase.lock, KeyOf(s.callers[id].meta);
    var s' := s.(placed := s.placed[l := s.cache[key]], removed := s.removed - {l}, refused := refused);
    assert CallerOk(s, id);
    forall m | 0 <= m < |s'.leader| ensures LockOk(s', m) { assert LockOk(s, m); }
    forall m | m in s'.placed ensures EntryOk(s', m, p) { if m != l { assert EntryOk(s, m, p); } }
    forall k | k in s'.table.locks ensures HeldOk(s', k) { assert HeldOk(s, k); }
    forall d | d in s'.callers ensures CallerOk(s', d) { assert CallerOk(s, d); }
  }

  lemma AssignKeepsAgree(s: State, id: nat, p: Params)
    requires Agree(s, p) && Enabled(s, Assign(id))
    ensures Agree(Apply(s, Assign(id), p), p)
  {
    var l, url, key := s.callers[id].phase.lock, s.callers[id].phase.url, KeyOf(s.callers[id].meta);
    var call, s' := Now(C.Set(key, url), s.now), Apply(s, Assign(id), p);
    var s1 := s.(cache := C.After(p.Cache(), s.cache, call));
    var s2 := s1.(placed := s1.placed[l := s1.cache[key]], removed := s1.removed - {l}, refused := s'.refused);
    CacheKeepsAgree(s, call, p);
    PlaceKeepsAgree(s1, id, s'.refused, p);
    LeaderMoves(s2, id, Deleting(l, true), Found(url, true), p);
    assert s' == s2.Finish(id, Deleting(l, true), Found(url, true));
  }

  lemma ArriveKeepsAgree(s: State, id: nat, meta: Meta, p: Params)
    requires Agree(s, p) && Enabled(s, Arrive(id, meta))
    ensures Agree(Apply(s, Arrive(id, meta), p), p)
  {
    var s' := Apply(s, Arrive(id, meta), p);
    forall l | 0 <= l < |s'.leader| ensures LockOk(s', l) { assert LockOk(s, l); }
    forall l | l in s'.placed ensures EntryOk(s', l, p) { assert EntryOk(s, l, p); }
    forall k | k in s'.table.locks ensures HeldOk(s', k) { assert HeldOk(s, k); }
    forall c | c in s'.callers ensures CallerOk(s', c) {
      if c in s.callers { assert CallerOk(s, c); }
    }
  }

  lemma RemoveKeepsAgree(s: State, meta: Meta, p: Params)
    requires Agree(s, p) && Enabled(s, Remove(meta))
    ensures Agree(Apply(s, Remove(meta), p), p)
  {
    var s' := Apply(s, Remove(meta), p);
    forall l | 0 <= l < |s'.leader| ensures LockOk(s', l) { assert LockOk(s, l); }
    forall l | l in s'.placed ensures EntryOk(s', l, p) { assert EntryOk(s, l, p); }
    forall k | k in s'.table.locks ensures HeldOk(s', k) { assert HeldOk(s, k); }
    forall c | c in s'.callers ensures CallerOk(s', c) { assert CallerOk(s, c); }
  }

  lemma StepKeepsAgree(s: State, step: Step, p: Params)
    requires Agree(s, p) && Enabled(s, step)
    ensures Agree(Apply(s, step, p), p)
  {
    match step
    case Arrive(id, m) => ArriveKeepsAgree(s, id, m, p);
    case Lookup(id) => LookupKeepsAgree(s, id, p);
    case Ask(id, clock) =>
      if T.ToldFirst(s.table, s.Key(id), clock, p.lockExpiry) {
        FirstKeepsAgree(s, id, clock, p);
      } else {
        JoinKeepsAgree(s, id, clock, p);
      }
    case ExecutorFails(id) => FailureKeepsAgree(s, id, p);
    case ExecutorAnswers(id, url) => AnswerKeepsAgree(s, id, url, p);
    case Assign(id) => AssignKeepsAgree(s, id, p);
    case WaitOver(_) => WaitKeepsAgree(s, step, p);
    case WaitTimesOut(_) => WaitKeepsAgree(s, step, p);
    case LookupAgain(id) => LookupAgainKeepsAgree(s, id, p);
    case HandleDelete(id) => DeleteKeepsAgree(s, id, p);
    case Remove(m) => RemoveKeepsAgree(s, m, p);
    case SweepCache => CacheKeepsAgree(s, Sweep(s.cache, s.now), p);
    case SweepLocks(readings, end) => SweepLocksKeepsAgree(s, readings, end, p);
    case Tick(to) => ClockKeepsAgree(s, to, p);
  }

  lemma StepKeepsTraced(s: State, step: Step, p: Params)
    requires Traced(s, p) && Enabled(s, step)
    ensures Traced(Apply(s, step, p), p)
  {
    match step
    case Ask(id, clock) => HandledGrows(s, T.Get(s.Key(id), clock), p);
    case HandleDelete(id) => HandledGrows(s, T.Delete(s.Key(id), s.callers[id].phase.first), p);
    case SweepLocks(readings, end) => HandledGrows(s, T.Expire(readings), p);
    case _ =>
  }

  lemma StepKeepsInv(s: State, step: Step, p: Params)
    requires Inv(s, p) && Enabled(s, step)
    ensures Inv(Apply(s, step, p), p)
  {
    StepKeepsTraced(s, step, p);
    StepKeepsAgree(s, step, p);
  }

  // ----- whole runs

  ghost function Exec(run: seq<Step>, p: Params): Option<State> {
    if run == [] then Some(Initial)
    else
      match Exec(run[..|run| - 1], p)
      case None => None
      case Some(s) => if Enabled(s, run[|run| - 1]) then Some(Apply(s, run[|run| - 1], p)) else None
  }

  lemma {:induction false} EveryRunKeepsInv(run: seq<Step>, p: Params)
    ensures Exec(run, p).Some? ==> Inv(Exec(run, p).value, p)
  {
    if run != [] && Exec(run, p).Some? {
      var before := run[..|run| - 1];
      EveryRunKeepsInv(before, p);
      StepKeepsInv(Exec(before, p).value, run[|run| - 1], p);
    }
  }
}
