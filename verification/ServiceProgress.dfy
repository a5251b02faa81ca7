/** Every caller of getServiceEntry finishes (pkg/router/functionHandler.go,
    pkg/throttler/throttler.go). */
module ServiceProgress {
  import opened Keys
  import opened ServiceEntry
  import T = Throttler

  /** A step of the caller itself, other than a time-out. */
  ghost predicate Moves(s: State, step: Step, id: nat) {
    Enabled(s, step) && !step.WaitTimesOut? && Actor(step) == Some(id)
  }

  /** A caller that is not done and does not wait for another has a step of its own. */
  lemma OwnStep(s: State, id: nat) returns (step: Step)
    requires s.table.WellFormed() && id in s.callers && !s.callers[id].phase.Gone? && !s.callers[id].phase.Waiting?
    ensures Moves(s, step, id)
  {
    match s.callers[id].phase
    case Start => step := Lookup(id);
    case Asking => step := Ask(id, T.Readings(s.now, s.now, s.now));
    case Leading(_) => step := ExecutorFails(id);
    case Holding(_, _) => step := Assign(id);
    case Released(_) => step := LookupAgain(id);
    case Deleting(_, _) => step := HandleDelete(id);
  }

  /** No caller is ever stuck: each one not yet done has a step of its own, or
      waits on a lock whose leader has one; time-outs and EXPIRE are not needed. */
  lemma NoCallerIsStuck(s: State, id: nat, p: Params) returns (step: Step, actor: nat)
    requires Inv(s, p) && id in s.callers && !s.callers[id].phase.Gone?
    ensures Moves(s, step, actor)
    ensures actor == id || (s.callers[id].phase.Waiting? &&
                            s.callers[id].phase.lock < |s.leader| && s.leader[s.callers[id].phase.lock] == actor)
  {
    T.EveryRunIsSound(s.handled, p.lockExpiry);
    actor := id;
    if !s.callers[id].phase.Waiting? {
      step := OwnStep(s, id);
    } else {
      var l := s.callers[id].phase.lock;
      assert CallerOk(s, id);
      if s.table.Held(l) {
        var k :| k in s.table.locks && s.table.locks[k] == l;
        assert HeldOk(s, k) && LockOk(s, l);
        actor := s.leader[l];
        step := OwnStep(s, actor);
      } else {
        step := WaitOver(id);
      }
    }
  }

  /** How many steps a caller has before it at most. */
  function Rank(ph: Phase): nat {
    match ph
    case Start => 5
    case Asking => 4
    case Leading(_) => 3
    case Waiting(_) => 3
    case Holding(_, _) => 2
    case Released(_) => 2
    case Deleting(_, _) => 1
    case Gone => 0
  }

  function Above(callers: map<nat, Caller>, r: nat): set<nat> {
    set c | c in callers && Rank(callers[c].phase) > r
  }

  /** The sum of all callers' ranks. */
  function Work(callers: map<nat, Caller>): nat {
    |Above(callers, 0)| + |Above(callers, 1)| + |Above(callers, 2)| + |Above(callers, 3)| + |Above(callers, 4)|
  }

  lemma AboveShrinks(callers: map<nat, Caller>, id: nat, c: Caller, r: nat)
    requires id in callers && Rank(c.phase) < Rank(callers[id].phase)
    ensures |Above(callers[id := c], r)| <= |Above(callers, r)|
    ensures r == Rank(c.phase) ==> |Above(callers[id := c], r)| < |Above(callers, r)|
  {
    if Rank(c.phase) <= r < Rank(callers[id].phase) {
      assert Above(callers[id := c], r) == Above(callers, r) - {id};
      assert id in Above(callers, r);
    } else {
      assert Above(callers[id := c], r) == Above(callers, r);
    }
  }

  lemma WorkDrops(callers: map<nat, Caller>, id: nat, c: Caller)
    requires id in callers && Rank(c.phase) < Rank(callers[id].phase)
    ensures Work(callers[id := c]) < Work(callers)
  {
    AboveShrinks(callers, id, c, 0);
    AboveShrinks(callers, id, c, 1);
    AboveShrinks(callers, id, c, 2);
    AboveShrinks(callers, id, c, 3);
    AboveShrinks(callers, id, c, 4);
  }

  /** A caller's step brings it closer to its end. */
  lemma StepDropsRank(s: State, step: Step, id: nat, p: Params)
    requires Enabled(s, step) && Actor(step) == Some(id)
    ensures var s' := Apply(s, step, p);
      && id in s.callers && id in s'.callers && s'.callers == s.callers[id := s'.callers[id]]
      && Rank(s'.callers[id].phase) < Rank(s.callers[id].phase)
  {
  }

  /** Every caller's step uses up work, and only arrivals add any. */
  lemma StepUsesWork(s: State, step: Step, p: Params)
    requires Enabled(s, step) && !step.Arrive?
    ensures Work(Apply(s, step, p).callers) + (if Actor(step).Some? then 1 else 0) <= Work(s.callers)
  {
    match Actor(step)
    case Some(id) =>
      StepDropsRank(s, step, id, p);
      WorkDrops(s.callers, id, Apply(s, step, p).callers[id]);
    case None =>
      assert Apply(s, step, p).callers == s.callers;
  }

  /** The state after more steps, if they are enabled. */
  ghost function Continue(s: State, more: seq<Step>, p: Params): Option<State>
    decreases |more|
  {
    if more == [] then Some(s)
    else if Enabled(s, more[0]) then Continue(Apply(s, more[0], p), more[1..], p)
    else None
  }

  lemma ContinueWith(s: State, step: Step, rest: seq<Step>, p: Params)
    requires Enabled(s, step)
    ensures Continue(s, [step] + rest, p) == Continue(Apply(s, step, p), rest, p)
  {
    assert ([step] + rest)[1..] == rest;
  }

  function CallerSteps(run: seq<Step>): nat {
    if run == [] then 0 else (if Actor(run[0]).Some? then 1 else 0) + CallerSteps(run[1..])
  }

  ghost predicate NoArrivals(run: seq<Step>) { forall i :: 0 <= i < |run| ==> !run[i].Arrive? }

  /** Once callers stop arriving, they take at most as many steps as their ranks add up to. */
  lemma {:induction false} CallersStop(s: State, more: seq<Step>, p: Params)
    requires Continue(s, more, p).Some? && NoArrivals(more)
    ensures CallerSteps(more) + Work(Continue(s, more, p).value.callers) <= Work(s.callers)
    decreases |more|
  {
    if more != [] {
      StepUsesWork(s, more[0], p);
      CallersStop(Apply(s, more[0], p), more[1..], p);
    }
  }

  predicate Own(step: Step) { Actor(step).Some? && !step.WaitTimesOut? }

  ghost predicate AllGone(s: State) { forall id :: id in s.callers ==> s.callers[id].phase.Gone? }

  /** Some caller that is not done can bring the callers closer to their end. */
  lemma SomeStep(s: State, p: Params) returns (step: Step, next: State)
    requires Inv(s, p) && !AllGone(s)
    ensures Own(step) && forall rest :: Continue(s, [step] + rest, p) == Continue(next, rest, p)
    ensures Inv(next, p) && Work(next.callers) < Work(s.callers)
  {
    var id :| id in s.callers && !s.callers[id].phase.Gone?;
    var actor;
    step, actor := NoCallerIsStuck(s, id, p);
    StepKeepsInv(s, step, p);
    StepUsesWork(s, step, p);
    next := Apply(s, step, p);
    forall rest ensures Continue(s, [step] + rest, p) == Continue(next, rest, p) { ContinueWith(s, step, rest, p); }
  }

  /** These steps of the callers, none a time-out, lead from s to a state where all are done. */
  ghost predicate Finishes(s: State, more: seq<Step>, p: Params) {
    && (forall i :: 0 <= i < |more| ==> Own(more[i]))
    && Continue(s, more, p).Some? && AllGone(Continue(s, more, p).value)
  }

  lemma FinishesWith(s: State, step: Step, next: State, rest: seq<Step>, p: Params)
    requires Finishes(next, rest, p) && Own(step) && Continue(s, [step] + rest, p) == Continue(next, rest, p)
    ensures Finishes(s, [step] + rest, p)
  {
  }

  /** And from every state that meets the invariant, as every reachable one
      does, the callers can go on, without time-outs or EXPIRE, until all are done. */
  lemma {:induction false} EveryCallerFinishes(s: State, p: Params) returns (more: seq<Step>)
    requires Inv(s, p)
    ensures Finishes(s, more, p)
    decreases Work(s.callers)
  {
    more := [];
    if !AllGone(s) {
      var step, next := SomeStep(s, p);
      var rest := EveryCallerFinishes(next, p);
      FinishesWith(s, step, next, rest, p);
      more := [step] + rest;
    }
  }
}
