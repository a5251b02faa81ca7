/** The executor's single flight (pkg/executor/executor.go): one goroutine
    serves requests; for each it starts a leader that creates the function's
    service, or a follower that waits for the leader already at work. Every
    access to the map of wait groups is one atomic step. */
module Executor {
  import opened Keys

  datatype Phase =
    | Creating(wg: nat)     // leader, inside createServiceForFunction
    | Created(wg: nat)      // the create call has returned
    | Replied(wg: nat)      // its answer is sent
    | Freed(wg: nat)        // its key is deleted from the map
    | Following(wg: nat)    // follower, in wg.Wait()
    | Woken(wg: nat)        // Wait has returned
    | Finished

  datatype Request = Request(key: string, phase: Phase, answers: nat)

  /** requests, and leads: the request that leads each wait group, in order of arrival. */
  datatype State = State(requests: seq<Request>, fsCreateWg: map<string, nat>, counters: seq<int>, leads: seq<nat>) {
    function To(id: nat, phase: Phase): State
      requires id < |requests|
    {
      this.(requests := requests[id := requests[id].(phase := phase)])
    }

    function Answer(id: nat, phase: Phase): State
      requires id < |requests|
    {
      this.(requests := requests[id := requests[id].(phase := phase, answers := requests[id].answers + 1)])
    }
  }

  const Initial := State([], map[], [], [])

  datatype Step =
    | Receive(key: string)
    | CreateReturns(id: nat)
    | LeaderReplies(id: nat)
    | LeaderFrees(id: nat)
    | LeaderDone(id: nat)
    | FollowerWakes(id: nat)
    | FollowerReplies(id: nat)

  predicate Enabled(s: State, step: Step) {
    match step
    case Receive(_) => true
    case CreateReturns(id) => id < |s.requests| && s.requests[id].phase.Creating?
    case LeaderReplies(id) => id < |s.requests| && s.requests[id].phase.Created?
    case LeaderFrees(id) => id < |s.requests| && s.requests[id].phase.Replied?
    case LeaderDone(id) => id < |s.requests| && s.requests[id].phase.Freed? && s.requests[id].phase.wg < |s.counters|
    case FollowerWakes(id) =>
      && id < |s.requests| && s.requests[id].phase.Following?
      && s.requests[id].phase.wg < |s.counters| && s.counters[s.requests[id].phase.wg] == 0
    case FollowerReplies(id) => id < |s.requests| && s.requests[id].phase.Woken?
  }

  function Apply(s: State, step: Step): State
    requires Enabled(s, step)
  {
    match step
    case Receive(key) =>
      if key in s.fsCreateWg then
        s.(requests := s.requests + [Request(key, Following(s.fsCreateWg[key]), 0)])
      else
        var w := |s.counters|;
        State(s.requests + [Request(key, Creating(w), 0)], s.fsCreateWg[key := w], s.counters + [1],
              s.leads + [|s.requests|])
    case CreateReturns(id) => s.To(id, Created(s.requests[id].phase.wg))
    case LeaderReplies(id) => s.Answer(id, Replied(s.requests[id].phase.wg))
    case LeaderFrees(id) => s.To(id, Freed(s.requests[id].phase.wg)).(fsCreateWg := s.fsCreateWg - {s.requests[id].key})
    case LeaderDone(id) =>
      var w := s.requests[id].phase.wg;
      s.To(id, Finished).(counters := s.counters[w := s.counters[w] - 1])
    case FollowerWakes(id) => s.To(id, Woken(s.requests[id].phase.wg))
    case FollowerReplies(id) => s.Answer(id, Finished)
  }

  // ----- the invariant

  predicate Leads(ph: Phase) { ph.Creating? || ph.Created? || ph.Replied? || ph.Freed? }

  /** A leader owns its wait group, and until it frees its key the map holds
      that group under it; a follower waits on a group led for the same key. */
  predicate RequestOk(s: State, id: nat)
    requires id < |s.requests|
  {
    var r := s.requests[id];
    && r.answers == (if r.phase.Replied? || r.phase.Freed? || r.phase.Finished? then 1 else 0)
    && (!r.phase.Finished? ==> r.phase.wg < |s.leads| && s.leads[r.phase.wg] < |s.requests|)
    && (Leads(r.phase) ==> s.leads[r.phase.wg] == id)
    && (r.phase.Creating? || r.phase.Created? || r.phase.Replied? ==>
          r.key in s.fsCreateWg && s.fsCreateWg[r.key] == r.phase.wg)
    && (r.phase.Following? || r.phase.Woken? ==> s.requests[s.leads[r.phase.wg]].key == r.key)
    && (r.phase.Woken? ==> r.phase.wg < |s.counters| && s.counters[r.phase.wg] == 0)
  }

  /** A wait group counts 1 until its leader is done with it, then 0. */
  predicate GroupOk(s: State, w: nat)
    requires w < |s.leads| == |s.counters|
  {
    && s.leads[w] < |s.requests|
    && var r := s.requests[s.leads[w]];
    if r.phase.Finished? then s.counters[w] == 0 else Leads(r.phase) && r.phase.wg == w && s.counters[w] == 1
  }

  /** Whatever the map holds is led by a request for that key that has not freed it yet. */
  predicate EntryOk(s: State, key: string)
    requires key in s.fsCreateWg
  {
    && s.fsCreateWg[key] < |s.leads|
    && s.leads[s.fsCreateWg[key]] < |s.requests|
    && var r := s.requests[s.leads[s.fsCreateWg[key]]];
    r.key == key && (r.phase.Creating? || r.phase.Created? || r.phase.Replied?)
  }

  ghost predicate Inv(s: State) {
    && |s.leads| == |s.counters|
    && (forall id :: 0 <= id < |s.requests| ==> RequestOk(s, id))
    && (forall w :: 0 <= w < |s.leads| ==> GroupOk(s, w))
    && (forall k :: k in s.fsCreateWg ==> EntryOk(s, k))
  }

  lemma ReceiveKeepsRequests(s: State, key: string)
    requires Inv(s)
    ensures var s' := Apply(s, Receive(key)); forall id :: 0 <= id < |s'.requests| ==> RequestOk(s', id)
  {
    var s' := Apply(s, Receive(key));
    forall id | 0 <= id < |s'.requests| ensures RequestOk(s', id) {
      if id < |s.requests| {
        assert RequestOk(s, id);
      } else if key in s.fsCreateWg {
        assert EntryOk(s, key);
      }
    }
  }

  /** A leader that frees its key takes nothing from any other request. */
  lemma FreeKeepsRequests(s: State, own: nat)
    requires Inv(s) && Enabled(s, LeaderFrees(own))
    ensures var s' := Apply(s, LeaderFrees(own)); forall id :: 0 <= id < |s'.requests| ==> RequestOk(s', id)
  {
    var s' := Apply(s, LeaderFrees(own));
    assert RequestOk(s, own);
    forall id | 0 <= id < |s'.requests| ensures RequestOk(s', id) {
      assert RequestOk(s, id);
    }
  }

  lemma DoneKeepsRequests(s: State, own: nat)
    requires Inv(s) && Enabled(s, LeaderDone(own))
    ensures var s' := Apply(s, LeaderDone(own)); forall id :: 0 <= id < |s'.requests| ==> RequestOk(s', id)
  {
    var s' := Apply(s, LeaderDone(own));
    assert RequestOk(s, own) && GroupOk(s, s.requests[own].phase.wg);
    forall id | 0 <= id < |s'.requests| ensures RequestOk(s', id) {
      assert RequestOk(s, id);
      if s.requests[id].phase.Woken? { assert GroupOk(s, s.requests[id].phase.wg); }
    }
  }

  /** A step that touches neither the map nor a counter. */
  predicate Local(step: Step) {
    step.CreateReturns? || step.LeaderReplies? || step.FollowerWakes? || step.FollowerReplies?
  }

  lemma LocalKeepsRequests(s: State, step: Step)
    requires Inv(s) && Enabled(s, step) && Local(step)
    ensures var s' := Apply(s, step); forall id :: 0 <= id < |s'.requests| ==> RequestOk(s', id)
  {
    var s' := Apply(s, step);
    assert RequestOk(s, step.id);
    forall id | 0 <= id < |s'.requests| ensures RequestOk(s', id) {
      assert RequestOk(s, id);
    }
  }

  lemma StepKeepsRequests(s: State, step: Step)
    requires Inv(s) && Enabled(s, step)
    ensures forall id :: 0 <= id < |Apply(s, step).requests| ==> RequestOk(Apply(s, step), id)
  {
    match step
    case Receive(key) => ReceiveKeepsRequests(s, key);
    case LeaderFrees(id) => FreeKeepsRequests(s, id);
    case LeaderDone(id) => DoneKeepsRequests(s, id);
    case _ => LocalKeepsRequests(s, step);
  }

  lemma StepKeepsGroups(s: State, step: Step)
    requires Inv(s) && Enabled(s, step)
    ensures var s' := Apply(s, step);
      |s'.leads| == |s'.counters| && forall w :: 0 <= w < |s'.leads| ==> GroupOk(s', w)
  {
    var s' := Apply(s, step);
    if !step.Receive? {
      assert RequestOk(s, step.id);
    }
    forall w | 0 <= w < |s'.leads| ensures GroupOk(s', w) {
      if w < |s.leads| { assert GroupOk(s, w); }
    }
  }

  lemma StepKeepsEntries(s: State, step: Step)
    requires Inv(s) && Enabled(s, step)
    ensures var s' := Apply(s, step); forall k :: k in s'.fsCreateWg ==> EntryOk(s', k)
  {
    var s' := Apply(s, step);
    if !step.Receive? {
      assert RequestOk(s, step.id);
    }
    forall k | k in s'.fsCreateWg ensures EntryOk(s', k) {
      if k in s.fsCreateWg { assert EntryOk(s, k); }
    }
  }

  lemma StepKeepsInv(s: State, step: Step)
    requires Inv(s) && Enabled(s, step)
    ensures Inv(Apply(s, step))
  {
    StepKeepsRequests(s, step);
    StepKeepsGroups(s, step);
    StepKeepsEntries(s, step);
  }

  // ----- whole runs

  function Exec(s: State, run: seq<Step>): Option<State>
    decreases |run|
  {
    if run == [] then Some(s)
    else if Enabled(s, run[0]) then Exec(Apply(s, run[0]), run[1..])
    else None
  }

  lemma {:induction false} RunsKeepInv(s: State, run: seq<Step>)
    requires Inv(s)
    ensures Exec(s, run).Some? ==> Inv(Exec(s, run).value)
    decreases |run|
  {
    if run != [] && Enabled(s, run[0]) {
      StepKeepsInv(s, run[0]);
      RunsKeepInv(Apply(s, run[0]), run[1..]);
    }
  }

  /** In every run: at most one create call per key is in flight, a leader's
      delete removes its own wait group and nothing else, no counter is ever
      negative, a woken follower's leader is for the same key and has replied,
      and no request is answered twice; a finished one was answered once. */
  lemma SingleFlight(run: seq<Step>)
    requires Exec(Initial, run).Some?
    ensures var s := Exec(Initial, run).value;
      && (forall i, j | 0 <= i < |s.requests| && 0 <= j < |s.requests| && s.requests[i].key == s.requests[j].key ::
            s.requests[i].phase.Creating? && s.requests[j].phase.Creating? ==> i == j)
      && (forall i :: 0 <= i < |s.requests| && Enabled(s, LeaderFrees(i)) ==>
            s.requests[i].key in s.fsCreateWg && s.fsCreateWg[s.requests[i].key] == s.requests[i].phase.wg)
      && (forall w :: 0 <= w < |s.counters| ==> 0 <= s.counters[w] <= 1)
      && (forall i :: 0 <= i < |s.requests| && s.requests[i].phase.Woken? ==>
            && s.requests[i].phase.wg < |s.leads| && s.leads[s.requests[i].phase.wg] < |s.requests|
            && var l := s.requests[s.leads[s.requests[i].phase.wg]];
            l.key == s.requests[i].key && l.answers == 1)
      && (forall i :: 0 <= i < |s.requests| ==>
            s.requests[i].answers <= 1 && (s.requests[i].phase.Finished? ==> s.requests[i].answers == 1))
  {
    RunsKeepInv(Initial, run);
    var s := Exec(Initial, run).value;
    forall i | 0 <= i < |s.requests|
      ensures s.requests[i].phase.Woken? ==>
        && s.requests[i].phase.wg < |s.leads| && s.leads[s.requests[i].phase.wg] < |s.requests|
        && var l := s.requests[s.leads[s.requests[i].phase.wg]];
        l.key == s.requests[i].key && l.answers == 1
    {
      assert RequestOk(s, i);
      if s.requests[i].phase.Woken? {
        assert GroupOk(s, s.requests[i].phase.wg);
        assert RequestOk(s, s.leads[s.requests[i].phase.wg]);
      }
    }
    forall w | 0 <= w < |s.counters| ensures 0 <= s.counters[w] <= 1 { assert GroupOk(s, w); }
    forall i | 0 <= i < |s.requests|
      ensures s.requests[i].answers <= 1 && (s.requests[i].phase.Finished? ==> s.requests[i].answers == 1)
      ensures s.requests[i].phase.Creating? || s.requests[i].phase.Replied? ==>
        s.requests[i].key in s.fsCreateWg && s.fsCreateWg[s.requests[i].key] == s.requests[i].phase.wg &&
        s.leads[s.requests[i].phase.wg] == i
    {
      assert RequestOk(s, i);
    }
  }

  // ----- every request is answered

  /** Steps a request still has before it. */
  function Left(ph: Phase): nat {
    match ph
    case Creating(_) => 4
    case Created(_) => 3
    case Replied(_) => 2
    case Freed(_) => 1
    case Following(_) => 2
    case Woken(_) => 1
    case Finished => 0
  }

  function Work(rs: seq<Request>): nat {
    if rs == [] then 0 else Left(rs[0].phase) + Work(rs[1..])
  }

  lemma {:induction false} WorkUpdate(rs: seq<Request>, id: nat, r: Request)
    requires id < |rs|
    ensures Work(rs[id := r]) == Work(rs) - Left(rs[id].phase) + Left(r.phase)
  {
    if id > 0 {
      assert rs[id := r][1..] == rs[1..][id - 1 := r];
      WorkUpdate(rs[1..], id - 1, r);
    } else {
      assert rs[id := r][1..] == rs[1..];
    }
  }

  lemma {:induction false} NoWorkLeft(rs: seq<Request>)
    ensures Work(rs) == 0 <==> forall i :: 0 <= i < |rs| ==> rs[i].phase.Finished?
  {
    if rs != [] {
      NoWorkLeft(rs[1..]);
      assert forall i :: 0 < i < |rs| ==> rs[i] == rs[1..][i - 1];
      assert forall i :: 0 <= i < |rs| - 1 ==> rs[1..][i] == rs[i + 1];
    }
  }

  /** Once requests stop arriving, every step uses up one unit of work. */
  lemma StepsUseUpWork(s: State, step: Step)
    requires Inv(s) && Enabled(s, step) && !step.Receive?
    ensures Work(Apply(s, step).requests) == Work(s.requests) - 1
  {
    WorkUpdate(s.requests, step.id, Apply(s, step).requests[step.id]);
  }

  /** While a request is unfinished some step is enabled: its own, or that of
      the leader it waits for. */
  lemma SomeStepIsEnabled(s: State, id: nat) returns (step: Step)
    requires Inv(s) && id < |s.requests| && !s.requests[id].phase.Finished?
    ensures Enabled(s, step) && !step.Receive?
  {
    assert RequestOk(s, id);
    var w := s.requests[id].phase.wg;
    assert GroupOk(s, w);
    match s.requests[id].phase
    case Creating(_) => step := CreateReturns(id);
    case Created(_) => step := LeaderReplies(id);
    case Replied(_) => step := LeaderFrees(id);
    case Freed(_) => step := LeaderDone(id);
    case Woken(_) => step := FollowerReplies(id);
    case Following(_) =>
      var l := s.leads[w];
      match s.requests[l].phase {
        case Creating(_) => step := CreateReturns(l);
        case Created(_) => step := LeaderReplies(l);
        case Replied(_) => step := LeaderFrees(l);
        case Freed(_) => step := LeaderDone(l);
        case _ => step := FollowerWakes(id);
      }
  }

  ghost predicate Drains(run: seq<Step>) {
    forall i :: 0 <= i < |run| ==> !run[i].Receive?
  }

  /** From any state, runs without arrivals are no longer than the work left,
      and one that reaches the end of the work has answered every request once. */
  lemma {:induction false} DrainsInBoundedTime(s: State, run: seq<Step>)
    requires Inv(s) && Drains(run) && Exec(s, run).Some?
    ensures var s' := Exec(s, run).value;
      && |run| + Work(s'.requests) == Work(s.requests)
      && |s'.requests| == |s.requests|
      && (Work(s'.requests) == 0 ==> forall i :: 0 <= i < |s'.requests| ==> s'.requests[i].answers == 1)
    decreases |run|
  {
    if run == [] {
      NoWorkLeft(s.requests);
      forall i | 0 <= i < |s.requests| && Work(s.requests) == 0 ensures s.requests[i].answers == 1 {
        assert RequestOk(s, i);
      }
    } else {
      StepKeepsInv(s, run[0]);
      StepsUseUpWork(s, run[0]);
      DrainsInBoundedTime(Apply(s, run[0]), run[1..]);
    }
  }

  /** And any run without arrivals can be carried on until no work is left. */
  lemma {:induction false} EveryRequestIsAnswered(s: State) returns (run: seq<Step>)
    requires Inv(s)
    ensures Drains(run) && Exec(s, run).Some? && Work(Exec(s, run).value.requests) == 0
    decreases Work(s.requests)
  {
    run := [];
    if Work(s.requests) != 0 {
      NoWorkLeft(s.requests);
      var id :| 0 <= id < |s.requests| && !s.requests[id].phase.Finished?;
      var step := SomeStepIsEnabled(s, id);
      StepKeepsInv(s, step);
      StepsUseUpWork(s, step);
      var rest := EveryRequestIsAnswered(Apply(s, step));
      run := [step] + rest;
      assert run[1..] == rest;
    }
  }

  // ----- the shared map itself, over wait-group objects

  class WaitGroup {
    const id: nat
    var counter: int

    constructor (id: nat)
      ensures this.id == id && counter == 1
    {
      this.id, counter := id, 1;
    }
  }

  /** The map and the wait groups that its goroutines share. The ghost state
      follows the requests; Valid ties it to the objects. */
  class Executor {
    var fsCreateWg: map<string, WaitGroup>
    ghost var groups: seq<WaitGroup>
    ghost var state: State
    var made: nat

    ghost predicate Valid()
      reads this, groups
    {
      && Inv(state)
      && made == |groups| == |state.counters|
      && (forall w :: 0 <= w < |groups| ==> groups[w].id == w && groups[w].counter == state.counters[w])
      && fsCreateWg.Keys == state.fsCreateWg.Keys
      && (forall k :: k in fsCreateWg ==>
            state.fsCreateWg[k] < |groups| && fsCreateWg[k] == groups[state.fsCreateWg[k]])
    }

    constructor ()
      ensures Valid() && state == Initial
    {
      fsCreateWg, groups, state, made := map[], [], Initial, 0;
    }

    /** One turn of serveCreateFuncServices: the group to lead or to wait on. */
    method Serve(key: string) returns (wg: WaitGroup, found: bool)
      requires Valid()
      modifies this
      ensures Valid() && old(groups) <= groups && fresh(groups[|old(groups)|..])
      ensures state == Apply(old(state), Receive(key)) && found == (key in old(state).fsCreateWg)
      ensures key in fsCreateWg && fsCreateWg[key] == wg && wg.id == state.requests[|old(state).requests|].phase.wg
    {
      ghost var was := state;
      StepKeepsInv(was, Receive(key));
      found := key in fsCreateWg;
      if !found {
        wg := new WaitGroup(made);
        fsCreateWg := fsCreateWg[key := wg];
        groups := groups + [wg];
        made := made + 1;
      } else {
        wg := fsCreateWg[key];
        assert EntryOk(was, key);
      }
      state := Apply(was, Receive(key));
    }

    /** The leader's create call returns, or its answer is sent; a woken follower
        answers from the cache. Nothing that is shared changes. */
    ghost method Proceed(step: Step)
      requires Valid() && Enabled(state, step) && Local(step) && !step.FollowerWakes?
      modifies this`state
      ensures Valid() && state == Apply(old(state), step)
    {
      StepKeepsInv(state, step);
      state := Apply(state, step);
    }

    /** A follower's wg.Wait() returns once the counter of its group is 0. */
    ghost method Wake(id: nat, wg: WaitGroup)
      requires Valid() && id < |state.requests| && state.requests[id].phase == Following(wg.id)
      requires wg in groups && wg.counter == 0
      modifies this`state
      ensures Valid() && Enabled(old(state), FollowerWakes(id)) && state == Apply(old(state), FollowerWakes(id))
    {
      StepKeepsInv(state, FollowerWakes(id));
      state := Apply(state, FollowerWakes(id));
    }

    /** The leader's delete from the shared map. */
    method Free(ghost id: nat, key: string)
      requires Valid() && Enabled(state, LeaderFrees(id)) && state.requests[id].key == key
      modifies this`fsCreateWg, this`state
      ensures Valid() && state == Apply(old(state), LeaderFrees(id))
      ensures key in old(fsCreateWg) && old(fsCreateWg)[key].id == old(state).requests[id].phase.wg
    {
      StepKeepsInv(state, LeaderFrees(id));
      assert RequestOk(state, id);
      state := Apply(state, LeaderFrees(id));
      fsCreateWg := fsCreateWg - {key};
    }

    /** The leader's wg.Done(): its group was counting 1 and now lets every follower go. */
    method Done(ghost id: nat, wg: WaitGroup)
      requires Valid() && Enabled(state, LeaderDone(id)) && wg in groups && wg.id == state.requests[id].phase.wg
      modifies wg, this`state
      ensures Valid() && state == Apply(old(state), LeaderDone(id))
      ensures old(wg.counter) == 1 && wg.counter == 0
    {
      StepKeepsInv(state, LeaderDone(id));
      assert RequestOk(state, id) && GroupOk(state, wg.id);
      state := Apply(state, LeaderDone(id));
      wg.counter := wg.counter - 1;
      assert forall w :: 0 <= w < |groups| && w != wg.id ==> groups[w] != wg;
    }

    /** A leader's goroutine up to its answer, if nothing else happens meanwhile. */
    ghost method CreateAndReply(id: nat)
      requires Valid() && id < |state.requests| && state.requests[id].phase.Creating?
      modifies this`state
      ensures Valid() && |state.requests| == |old(state).requests|
      ensures var r := old(state).requests[id]; state.requests[id] == Request(r.key, Replied(r.phase.wg), 1)
    {
      assert RequestOk(state, id);
      Proceed(CreateReturns(id));
      Proceed(LeaderReplies(id));
    }

    /** And from there to its end. */
    method FreeAndDone(ghost id: nat, key: string, wg: WaitGroup)
      requires Valid() && id < |state.requests| && state.requests[id] == Request(key, Replied(wg.id), 1) && wg in groups
      modifies wg, this`fsCreateWg, this`state
      ensures Valid() && |state.requests| == |old(state).requests|
      ensures state.requests[id] == Request(key, Finished, 1) && key !in fsCreateWg && wg.counter == 0
    {
      Free(id, key);
      Done(id, wg);
    }
  }
}
