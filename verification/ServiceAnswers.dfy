/** What each caller of getServiceEntry is answered, and by which way through
    the router's cache, the throttler and the executor (pkg/router/functionHandler.go). */
module ServiceAnswers {
  import opened Keys
  import opened ServiceEntry
  import T = Throttler
  import C = TimedCache

  /** The function this caller asks for has an entry in the router's cache that
      is not older than the cache's expiry. */
  predicate Fresh(s: State, m: Meta, p: Params) {
    var key := FnKey(m.name, m.namespace, m.resourceVersion);
    key in s.cache && (p.cacheExpiry == 0 || s.now - s.cache[key].ctime <= p.cacheExpiry)
  }

  /** What a lookup does to the router's cache: the entry it finds is touched,
      and one that is too old is dropped. */
  ghost predicate Looked(s: State, m: Meta, p: Params, cache: map<FnKey, C.Entry<Url>>) {
    var key := FnKey(m.name, m.namespace, m.resourceVersion);
    && (forall k :: k != key ==> (k in cache <==> k in s.cache) && (k in cache ==> cache[k] == s.cache[k]))
    && (key in cache <==> Fresh(s, m, p))
    && (key in cache ==> cache[key] == C.Entry(s.cache[key].ctime, s.now, s.cache[key].value))
  }

  /** A first lookup answers the caller from the cache at once exactly when the
      cache holds a fresh entry; otherwise the caller goes on to the throttler. */
  lemma LookupIsExact(s: State, id: nat, p: Params)
    requires Enabled(s, Lookup(id))
    ensures var c, s' := s.callers[id], Apply(s, Lookup(id), p);
      && Looked(s, c.meta, p, s'.cache) && s'.table == s.table
      && if Fresh(s, c.meta, p)
         then
           var url := s.cache[FnKey(c.meta.name, c.meta.namespace, c.meta.resourceVersion)].value;
           s'.callers == s.callers[id := Caller(c.meta, Gone, Found(url, true))]
         else s'.callers == s.callers[id := Caller(c.meta, Asking, c.answer)]
  {
  }

  /** A caller that waited is answered with what its second lookup finds, and
      with no URL if that finds nothing fresh. */
  lemma LookupAgainIsExact(s: State, id: nat, p: Params)
    requires Enabled(s, LookupAgain(id))
    ensures var c, s' := s.callers[id], Apply(s, LookupAgain(id), p);
      && Looked(s, c.meta, p, s'.cache) && s'.table == s.table
      && if Fresh(s, c.meta, p)
         then
           var url := s.cache[FnKey(c.meta.name, c.meta.namespace, c.meta.resourceVersion)].value;
           s'.callers == s.callers[id := Caller(c.meta, Deleting(c.phase.lock, false), Found(url, false))]
         else s'.callers == s.callers[id := Caller(c.meta, Deleting(c.phase.lock, false), NoUrl)]
  {
  }

  /** A caller that asks the throttler leads a new lock exactly when its key is
      not locked, or was locked more than lockExpiry before; otherwise it waits
      for the lock its key has. */
  lemma AskIsExact(s: State, id: nat, clock: T.Readings, p: Params)
    requires Enabled(s, Ask(id, clock))
    ensures var c, s' := s.callers[id], Apply(s, Ask(id, clock), p);
      var k := CacheKey(c.meta);
      && s'.cache == s.cache
      && if k !in s.table.locks || clock.first - s.table.made[s.table.locks[k]].ctime > p.lockExpiry
         then s'.callers == s.callers[id := Caller(c.meta, Leading(|s.table.made|), c.answer)]
         else s'.callers == s.callers[id := Caller(c.meta, Waiting(s.table.locks[k]), c.answer)] && s'.table == s.table
  {
  }

  /** A caller's DELETE takes its key's lock away, whoever leads it, and leaves the caller with its answer. */
  lemma HandleDeleteIsExact(s: State, id: nat, k: string, p: Params)
    requires Enabled(s, HandleDelete(id))
    ensures var c, s' := s.callers[id], Apply(s, HandleDelete(id), p);
      && s'.callers == s.callers[id := Caller(c.meta, Gone, c.answer)] && s'.cache == s.cache
      && (k in s'.table.locks <==> k in s.table.locks && k != CacheKey(c.meta))
      && (k in s'.table.locks ==> s'.table.locks[k] == s.table.locks[k])
      && |s'.table.made| == |s.table.made|
      && (forall l :: 0 <= l < |s.table.made| ==>
            s'.table.made[l].wg == s.table.made[l].wg -
              if CacheKey(c.meta) in s.table.locks && s.table.locks[CacheKey(c.meta)] == l then 1 else 0)
  {
  }

  /** The steps that are no caller's: a round trip drops a stale address, both
      clean-ups drop what is too old, and time passes. */
  lemma WorldIsExact(s: State, step: Step, fn: FnKey, k: string, p: Params)
    requires Enabled(s, step) && (step.Remove? || step.SweepCache? || step.SweepLocks? || step.Tick?)
    ensures var s' := Apply(s, step, p);
      && s'.callers == s.callers
      && (fn in s'.cache <==> fn in s.cache && !Stale(s, step, fn, p))
      && (fn in s'.cache ==> s'.cache[fn] == s.cache[fn])
      && (k in s'.table.locks <==>
            && k in s.table.locks
            && !(step.SweepLocks? && step.readings[k] - s.table.made[s.table.locks[k]].ctime > p.lockExpiry))
      && s'.now == if step.Tick? then step.to else if step.SweepLocks? then step.end else s.now
  {
  }

  predicate Stale(s: State, step: Step, fn: FnKey, p: Params)
    requires fn in s.cache
  {
    match step
    case Remove(m) => fn == FnKey(m.name, m.namespace, m.resourceVersion)
    case SweepCache => p.cacheExpiry != 0 && s.now - s.cache[fn].ctime > p.cacheExpiry
    case _ => false
  }

  /** What the history fields record, step by step: the URLs given, the locks
      that their own leader's DELETE took away, those whose entry was removed
      from the cache since their leader's assign, and those whose assign was
      refused. */
  lemma HistoryIsExact(s: State, step: Step, fn: FnKey, url: Url, l: nat, p: Params)
    requires Enabled(s, step)
    ensures var s' := Apply(s, step, p);
      && ((fn, url) in s'.given <==>
            (fn, url) in s.given || (step.ExecutorAnswers? && step.url == url && Asks(s, step.id, fn)))
      && (l in s'.ownRelease <==> l in s.ownRelease || (step.HandleDelete? && Releases(s, step.id, l)))
      && (l in s'.removed <==>
            if step.Assign? && s.callers[step.id].phase.lock == l then false
            else l in s.removed || (step.Remove? && l in s.placed && l < |s.leader| && s.leader[l] in s.callers &&
                   Asks(s, s.leader[l], FnKey(step.meta.name, step.meta.namespace, step.meta.resourceVersion))))
      && (l in s'.refused <==>
            l in s.refused || (step.Assign? && s.callers[step.id].phase.lock == l &&
              exists k :: k in s.cache && Asks(s, step.id, k)))
  {
  }

  predicate Asks(s: State, id: nat, fn: FnKey)
    requires id in s.callers
  {
    var m := s.callers[id].meta;
    fn == FnKey(m.name, m.namespace, m.resourceVersion)
  }

  predicate Releases(s: State, id: nat, l: nat)
    requires id in s.callers
  {
    var k := CacheKey(s.callers[id].meta);
    s.callers[id].phase == Deleting(l, true) && k in s.table.locks && s.table.locks[k] == l
  }

  // ----- whole runs

  /** The steps of a run that one caller took, its arrival first. */
  function Story(run: seq<Step>, id: nat): seq<Step> {
    if run == [] then []
    else
      var before, step := Story(run[..|run| - 1], id), run[|run| - 1];
      if Actor(step) == Some(id) || (step.Arrive? && step.id == id) then before + [step] else before
  }

  /** What a caller was answered, by the steps it took: it is answered from the
      cache, with a failure if the executor or the wait for the lock failed,
      with the executor's URL if it led the lock, or by its second lookup. */
  predicate AnsweredBy(story: seq<Step>, answer: Answer)
    requires story != []
  {
    var last := story[|story| - 1];
    match last
    case Lookup(_) => |story| == 2 && answer.Found? && answer.fromCache
    case ExecutorFails(_) => |story| == 4 && answer == Failed
    case Assign(id) =>
      |story| == 5 && story[3].ExecutorAnswers? && answer == Found(story[3].url, true)
    case WaitTimesOut(_) => |story| == 4 && answer == Failed
    case LookupAgain(_) => |story| == 5 && (answer == NoUrl || (answer.Found? && !answer.fromCache))
    case _ => false
  }

  /** The way a caller has come, by its phase. */
  predicate CameBy(story: seq<Step>, c: Caller) {
    && story != [] && story[0].Arrive? && story[0].meta == c.meta
    && var n, last := |story|, story[|story| - 1];
      match c.phase
      case Start => n == 1 && c.answer == Pending
      case Asking => n == 2 && last.Lookup? && c.answer == Pending
      case Leading(_) => n == 3 && last.Ask? && c.answer == Pending
      case Holding(_, url) => n == 4 && last.ExecutorAnswers? && last.url == url && c.answer == Pending
      case Waiting(_) => n == 3 && last.Ask? && c.answer == Pending
      case Released(_) => n == 4 && last.WaitOver? && c.answer == Pending
      case Deleting(_, first) =>
        (if first then last.ExecutorFails? || last.Assign? else last.LookupAgain?) && AnsweredBy(story, c.answer)
      case Gone =>
        if last.HandleDelete?
        then n >= 2 && AnsweredBy(story[..n - 1], c.answer) && !story[n - 2].Lookup? && !story[n - 2].WaitTimesOut?
        else (last.Lookup? || last.WaitTimesOut?) && AnsweredBy(story, c.answer)
  }

  lemma OwnStep(s: State, step: Step, id: nat, story: seq<Step>, p: Params)
    requires Enabled(s, step) && Actor(step) == Some(id) && id in s.callers && CameBy(story, s.callers[id])
    ensures id in Apply(s, step, p).callers && CameBy(story + [step], Apply(s, step, p).callers[id])
  {
    assert (story + [step])[..|story|] == story;
  }

  lemma OtherStep(s: State, step: Step, id: nat, p: Params)
    requires Enabled(s, step) && Actor(step) != Some(id) && !(step.Arrive? && step.id == id)
    ensures var s' := Apply(s, step, p);
      (id in s'.callers <==> id in s.callers) && (id in s.callers ==> s'.callers[id] == s.callers[id])
  {
  }

  /** In every run each caller came one of these ways and is answered accordingly. */
  lemma {:induction false} EveryCallerCameBy(run: seq<Step>, id: nat, p: Params)
    requires Exec(run, p).Some?
    ensures var s := Exec(run, p).value;
      if id in s.callers then CameBy(Story(run, id), s.callers[id]) else Story(run, id) == []
  {
    if run != [] {
      var before, step := run[..|run| - 1], run[|run| - 1];
      EveryCallerCameBy(before, id, p);
      var s := Exec(before, p).value;
      if Actor(step) == Some(id) {
        OwnStep(s, step, id, Story(before, id), p);
      } else if !(step.Arrive? && step.id == id) {
        OtherStep(s, step, id, p);
      }
    }
  }
}
