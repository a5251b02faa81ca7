/** Where the URLs come from that callers of getServiceEntry are answered with
    (pkg/router/functionHandler.go, pkg/router/functionServiceMap.go). */
module ServiceUrls {
  import opened Keys
  import opened ServiceEntry
  import T = Throttler

  /** A caller that holds a URL, or has its answer, got it from the executor for this function. */
  predicate UrlOk(s: State, id: nat)
    requires id in s.callers
  {
    var key := KeyOf(s.callers[id].meta);
    && (s.callers[id].phase.Holding? ==>
          var l, url := s.callers[id].phase.lock, s.callers[id].phase.url;
          (key, url) in s.given && l in s.answered && s.answered[l] == url)
    && (s.callers[id].answer.Found? ==> (key, s.callers[id].answer.url) in s.given)
  }

  /** So did whoever stored the entry a leader left in the cache: that leader itself, unless it was refused. */
  predicate PlacedOk(s: State, l: nat)
    requires l in s.placed
  {
    && l < |s.leader| && s.leader[l] in s.callers
    && (KeyOf(s.callers[s.leader[l]].meta), s.placed[l].value) in s.given
    && (l !in s.refused ==> l in s.answered && s.placed[l].value == s.answered[l])
  }

  ghost predicate Given(s: State) {
    && (forall k :: k in s.cache ==> (k, s.cache[k].value) in s.given)
    && (forall id :: id in s.callers ==> UrlOk(s, id))
    && (forall l :: l in s.placed ==> PlacedOk(s, l))
  }

  /** One caller moves on without a URL of its own, with none or one that was
      given as its answer; the cache only loses entries, or has them touched. */
  lemma MoveKeepsGiven(s: State, s': State, id: nat)
    requires Given(s) && id in s.callers && id in s'.callers && s'.callers == s.callers[id := s'.callers[id]]
    requires var c := s'.callers[id];
      && c.meta == s.callers[id].meta && !c.phase.Holding?
      && (c.answer.Found? ==> (KeyOf(c.meta), c.answer.url) in s.given)
    requires forall k :: k in s'.cache ==> k in s.cache && s'.cache[k].value == s.cache[k].value
    requires s.leader <= s'.leader
    requires s'.given == s.given && s'.answered == s.answered && s'.placed == s.placed && s'.refused == s.refused
    ensures Given(s')
  {
    forall c | c in s'.callers ensures UrlOk(s', c) { if c != id { assert UrlOk(s, c); } }
    forall l | l in s'.placed ensures PlacedOk(s', l) { assert PlacedOk(s, l); }
  }

  lemma LookupKeepsGiven(s: State, id: nat, p: Params)
    requires Given(s) && Enabled(s, Lookup(id))
    ensures Given(Apply(s, Lookup(id), p))
  {
    assert UrlOk(s, id);
    MoveKeepsGiven(s, Apply(s, Lookup(id), p), id);
  }

  lemma LookupAgainKeepsGiven(s: State, id: nat, p: Params)
    requires Given(s) && Enabled(s, LookupAgain(id))
    ensures Given(Apply(s, LookupAgain(id), p))
  {
    MoveKeepsGiven(s, Apply(s, LookupAgain(id), p), id);
  }

  lemma AskKeepsGiven(s: State, id: nat, clock: T.Readings, p: Params)
    requires Given(s) && Enabled(s, Ask(id, clock))
    ensures Given(Apply(s, Ask(id, clock), p))
  {
    assert UrlOk(s, id);
    MoveKeepsGiven(s, Apply(s, Ask(id, clock), p), id);
  }

  lemma EndsKeepGiven(s: State, step: Step, p: Params)
    requires Given(s) && Enabled(s, step)
    requires step.ExecutorFails? || step.WaitOver? || step.WaitTimesOut? || step.HandleDelete?
    ensures Given(Apply(s, step, p))
  {
    assert UrlOk(s, step.id);
    MoveKeepsGiven(s, Apply(s, step, p), step.id);
  }

  lemma AnswerKeepsGiven(s: State, id: nat, url: Url, p: Params)
    requires Agree(s, p) && Given(s) && Enabled(s, ExecutorAnswers(id, url))
    ensures Given(Apply(s, ExecutorAnswers(id, url), p))
  {
    var s' := Apply(s, ExecutorAnswers(id, url), p);
    assert CallerOk(s, id);
    forall c | c in s'.callers ensures UrlOk(s', c) { assert UrlOk(s, c) && CallerOk(s, c); }
    forall l | l in s'.placed ensures PlacedOk(s', l) { assert PlacedOk(s, l); }
  }

  lemma AssignKeepsGiven(s: State, id: nat, p: Params)
    requires Agree(s, p) && Given(s) && Enabled(s, Assign(id))
    ensures Given(Apply(s, Assign(id), p))
  {
    var s' := Apply(s, Assign(id), p);
    assert CallerOk(s, id) && UrlOk(s, id);
    AssignKeepsPlaced(s, id, p);
    forall c | c in s'.callers ensures UrlOk(s', c) { assert UrlOk(s, c); }
  }

  lemma AssignKeepsPlaced(s: State, id: nat, p: Params)
    requires Agree(s, p) && Given(s) && Enabled(s, Assign(id))
    ensures forall l :: l in Apply(s, Assign(id), p).placed ==> PlacedOk(Apply(s, Assign(id), p), l)
  {
    var s' := Apply(s, Assign(id), p);
    assert CallerOk(s, id) && UrlOk(s, id);
    forall l | l in s'.placed ensures PlacedOk(s', l) { if l in s.placed { assert PlacedOk(s, l); } }
  }

  lemma WorldKeepsGiven(s: State, step: Step, p: Params)
    requires Agree(s, p) && Given(s) && Enabled(s, step) && Actor(step) == None
    ensures Given(Apply(s, step, p))
  {
    var s' := Apply(s, step, p);
    forall c | c in s'.callers ensures UrlOk(s', c) { if c in s.callers { assert UrlOk(s, c); } }
    forall l | l in s'.placed ensures PlacedOk(s', l) { assert PlacedOk(s, l); }
  }

  lemma StepKeepsGiven(s: State, step: Step, p: Params)
    requires Agree(s, p) && Given(s) && Enabled(s, step)
    ensures Given(Apply(s, step, p))
  {
    match step
    case Lookup(id) => LookupKeepsGiven(s, id, p);
    case LookupAgain(id) => LookupAgainKeepsGiven(s, id, p);
    case Ask(id, clock) => AskKeepsGiven(s, id, clock, p);
    case ExecutorAnswers(id, url) => AnswerKeepsGiven(s, id, url, p);
    case Assign(id) => AssignKeepsGiven(s, id, p);
    case ExecutorFails(_) => EndsKeepGiven(s, step, p);
    case WaitOver(_) => EndsKeepGiven(s, step, p);
    case WaitTimesOut(_) => EndsKeepGiven(s, step, p);
    case HandleDelete(_) => EndsKeepGiven(s, step, p);
    case _ => WorldKeepsGiven(s, step, p);
  }

  lemma {:induction false} EveryRunKeepsGiven(run: seq<Step>, p: Params)
    ensures Exec(run, p).Some? ==> Given(Exec(run, p).value)
  {
    if run != [] && Exec(run, p).Some? {
      var before, step := run[..|run| - 1], run[|run| - 1];
      EveryRunKeepsGiven(before, p);
      EveryRunKeepsInv(before, p);
      var s := Exec(before, p).value;
      StepKeepsGiven(s, step, p);
    }
  }

  /** In every run a caller that is answered with a URL gets one that the
      executor gave for this name, namespace and resource version. */
  lemma EveryUrlWasGiven(run: seq<Step>, id: nat, p: Params)
    requires Exec(run, p).Some?
    requires var s := Exec(run, p).value; id in s.callers && s.callers[id].answer.Found?
    ensures var c := Exec(run, p).value.callers[id]; (KeyOf(c.meta), c.answer.url) in Exec(run, p).value.given
  {
    EveryRunKeepsGiven(run, p);
    assert UrlOk(Exec(run, p).value, id);
  }

  /** A caller released by its own leader's DELETE, whose leader the executor
      answered with a URL, finds the entry that leader left in the router's
      cache, unless the function was removed from the cache since or that entry
      has outlived the cache's expiry. The entry holds the leader's own URL,
      or, if the leader's assign was refused, one that the executor had given
      for the same function before. */
  lemma FollowerFindsUrl(run: seq<Step>, id: nat, p: Params)
    requires Exec(run, p).Some?
    requires var s := Exec(run, p).value; id in s.callers && s.callers[id].phase.Released?
    ensures var s := Exec(run, p).value;
      var l := s.callers[id].phase.lock;
      l in s.ownRelease && l in s.answered && l !in s.removed ==>
        && l in s.placed
        && (l !in s.refused ==> s.placed[l].value == s.answered[l])
        && (KeyOf(s.callers[id].meta), s.placed[l].value) in s.given
        && (p.cacheExpiry == 0 || s.now - s.placed[l].ctime <= p.cacheExpiry ==>
              Apply(s, LookupAgain(id), p).callers[id].answer == Found(s.placed[l].value, false))
  {
    EveryRunKeepsInv(run, p);
    EveryRunKeepsGiven(run, p);
    var s := Exec(run, p).value;
    var l := s.callers[id].phase.lock;
    assert CallerOk(s, id);
    if l in s.ownRelease && l in s.answered && l !in s.removed {
      assert LockOk(s, l) && PlacedOk(s, l) && EntryOk(s, l, p);
      SameFunction(s, id, p);
      if p.cacheExpiry == 0 || s.now - s.placed[l].ctime <= p.cacheExpiry {
        LookupFinds(s, id, s.placed[l].value, p);
      }
    }
  }

  lemma LookupFinds(s: State, id: nat, url: Url, p: Params)
    requires Enabled(s, LookupAgain(id))
    requires var key := KeyOf(s.callers[id].meta);
      key in s.cache && s.cache[key].value == url && (p.cacheExpiry == 0 || s.now - s.cache[key].ctime <= p.cacheExpiry)
    ensures Apply(s, LookupAgain(id), p).callers[id].answer == Found(url, false)
  {
  }

  /** A caller released from a lock asks for the same function as that lock's leader. */
  lemma SameFunction(s: State, id: nat, p: Params)
    requires Agree(s, p) && id in s.callers && s.callers[id].phase.Released?
    ensures var l := s.callers[id].phase.lock;
      l < |s.leader| && s.leader[l] in s.callers && KeyOf(s.callers[s.leader[l]].meta) == KeyOf(s.callers[id].meta)
  {
    assert CallerOk(s, id);
    var leader := s.leader[s.callers[id].phase.lock];
    assert CallerOk(s, leader);
    CacheKeyIdentifies(s.callers[id].meta, s.callers[leader].meta);
  }

  /** What a leader leaves in the cache is its own URL, fresh from now, unless
      the cache already held an entry for the function. */
  lemma AssignPlacesUrl(s: State, id: nat, p: Params)
    requires Enabled(s, Assign(id))
    ensures var c, s' := s.callers[id], Apply(s, Assign(id), p);
      var l, key := c.phase.lock, KeyOf(c.meta);
      && l in s'.placed && l !in s'.removed && s'.callers[id].answer == Found(c.phase.url, true)
      && (l !in s.refused ==> (l in s'.refused <==> key in s.cache))
      && s'.placed[l] == s'.cache[key]
      && (key !in s.cache ==> s'.placed[l].value == c.phase.url && s'.placed[l].ctime == s.now)
      && (key in s.cache ==> s'.placed[l].value == s.cache[key].value && s'.placed[l].ctime == s.cache[key].ctime)
  {
  }
}
