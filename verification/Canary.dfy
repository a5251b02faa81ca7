/** Canary deployment (pkg/canaryconfigmgr/canaryConfigMgr.go): on each tick the
    manager moves weight from the old function to the new one, until the new
    one has it all or fails too often. It is the only writer of the weights,
    and a stopped ticker delivers no further tick. */
module Canary {
  const MAX_RETRIES := 10

  datatype Status = Pending | Succeeded | Failed

  datatype Config = Config(newFunction: string, oldFunction: string, increment: int, threshold: int, status: Status)

  /** What the API server answers to one get-and-update. */
  datatype Answer = GetFailed | Updated | Conflict | UpdateFailed

  datatype TriggerAnswer = NotFound | GetError | Got
  datatype FailureAnswer = QueryError | NoRequests | Percent(percent: int)

  /** All the answers one tick may ask for. */
  datatype Tick = Tick(inCache: bool, trigger: TriggerAnswer, failures: FailureAnswer,
                       triggerUpdate: nat -> Answer, statusUpdate: nat -> Answer)

  /** What the API server holds; whether quit is closed, so that the select may
      leave the loop; whether the ticker is stopped; and whether quit was closed
      twice, which panics. */
  datatype State = State(weights: map<string, int>, status: Status, quit: bool, stopped: bool, panicked: bool) {
    function Close(): State { if quit then this.(panicked := true) else this.(quit := true) }

    /** Another tick may be taken, even if quit is closed: the select picks either. */
    predicate Ticks() { !stopped && !panicked }
  }

  function Weight(w: map<string, int>, f: string): int { if f in w then w[f] else 0 }

  // ----- updates with retries

  /** The first attempt, from i on, that was not a conflict. */
  function Settled(answers: nat -> Answer, i: nat := 0): nat
    requires i <= MAX_RETRIES
    decreases MAX_RETRIES - i
  {
    if i == MAX_RETRIES || answers(i) != Conflict then i else Settled(answers, i + 1)
  }

  predicate AllConflict(answers: nat -> Answer) { Settled(answers) == MAX_RETRIES }

  predicate Stored(answers: nat -> Answer) { !AllConflict(answers) && answers(Settled(answers)) == Updated }

  /** The error that leaves the loop is the named result, which the inner one
      shadows: when every attempt conflicts the caller is told nil. */
  predicate ReportsOk(answers: nat -> Answer) { AllConflict(answers) || Stored(answers) }

  /** An update that reports success was stored, for these answers, exactly when
      some attempt did not conflict. */
  lemma {:induction false} ReportIsTrueIff(answers: nat -> Answer)
    ensures (ReportsOk(answers) ==> Stored(answers)) <==> exists i :: 0 <= i < MAX_RETRIES && answers(i) != Conflict
  {
    SettledIs(answers, 0);
  }

  lemma {:induction false} SettledIs(answers: nat -> Answer, i: nat)
    requires i <= MAX_RETRIES
    ensures i <= Settled(answers, i) <= MAX_RETRIES
    ensures forall j :: i <= j < Settled(answers, i) ==> answers(j) == Conflict
    ensures Settled(answers, i) < MAX_RETRIES ==> answers(Settled(answers, i)) != Conflict
    decreases MAX_RETRIES - i
  {
    if i < MAX_RETRIES && answers(i) == Conflict {
      SettledIs(answers, i + 1);
    }
  }

  // ----- one tick

  function RollForward(c: Config, w: map<string, int>): (map<string, int>, bool) {
    var n := Weight(w, c.newFunction);
    if n + c.increment >= 100 then (w[c.newFunction := 100][c.oldFunction := 0], true)
    else
      var w' := w[c.newFunction := n + c.increment];
      var o' := Weight(w', c.oldFunction);
      (w'[c.oldFunction := if o' - c.increment < 0 then 0 else o' - c.increment], false)
  }

  predicate RollsBack(c: Config, w: map<string, int>, t: Tick) {
    Weight(w, c.newFunction) > 0 && t.failures.Percent? && t.failures.percent > c.threshold
  }

  /** Nothing is done on this tick: the config is gone or not pending, the
      trigger could not be read, or its failure rate is not known. */
  predicate Skips(c: Config, w: map<string, int>, t: Tick) {
    || !t.inCache || t.trigger != Got || c.status != Pending
    || (Weight(w, c.newFunction) > 0 && !t.failures.Percent?)
  }

  function OnTick(c: Config, s: State, t: Tick): State {
    if Skips(c, s.weights, t) then if t.inCache && t.trigger == NotFound then s.Close() else s
    else if RollsBack(c, s.weights, t) then
      var w := s.weights[c.newFunction := 0][c.oldFunction := 100];
      s.(weights := if Stored(t.triggerUpdate) then w else s.weights,
         status := if ReportsOk(t.triggerUpdate) && Stored(t.statusUpdate) then Failed else s.status,
         stopped := true).Close()
    else
      var (w, done) := RollForward(c, s.weights);
      var moved := s.(weights := if Stored(t.triggerUpdate) then w else s.weights);
      if ReportsOk(t.triggerUpdate) && done then
        moved.(status := if Stored(t.statusUpdate) then Succeeded else s.status, stopped := true).Close()
      else moved
  }

  class Manager {
    const config: Config
    var weights: map<string, int>      // as held by the API server
    var status: Status                 // as held by the API server
    var quit: bool                     // whether the channel is closed
    var stopped: bool                  // whether the ticker is
    var panicked: bool

    constructor (config: Config, weights: map<string, int>, status: Status)
      ensures this.config == config && Model() == State(weights, status, false, false, false)
    {
      this.config, this.weights, this.status := config, weights, status;
      this.quit, this.stopped, this.panicked := false, false, false;
    }

    function Model(): State
      reads this
    {
      State(weights, status, quit, stopped, panicked)
    }

    /** close(quit). */
    method CloseQuit()
      modifies this`quit, this`panicked
      ensures Model() == old(Model()).Close()
    {
      if quit {
        panicked := true;
      } else {
        quit := true;
      }
    }

    method UpdateHttpTriggerWithRetries(fnWeights: map<string, int>, answers: nat -> Answer) returns (ok: bool)
      modifies this`weights
      ensures weights == if Stored(answers) then fnWeights else old(weights)
      ensures ok == ReportsOk(answers)
    {
      for i := 0 to MAX_RETRIES
        invariant weights == old(weights) && Settled(answers) == Settled(answers, i)
      {
        var answer := answers(i);
        if answer == GetFailed {
          return false;
        }
        match answer {
          case Updated =>
            weights := fnWeights;
            return true;
          case Conflict => continue;
          case _ => return false;
        }
      }
      return true;
    }

    method UpdateStatusWithRetries(newStatus: Status, answers: nat -> Answer) returns (ok: bool)
      modifies this`status
      ensures status == if Stored(answers) then newStatus else old(status)
      ensures ok == ReportsOk(answers)
    {
      for i := 0 to MAX_RETRIES
        invariant status == old(status) && Settled(answers) == Settled(answers, i)
      {
        var answer := answers(i);
        if answer == GetFailed {
          return false;
        }
        match answer {
          case Updated =>
            status := newStatus;
            return true;
          case Conflict => continue;
          case _ => return false;
        }
      }
      return true;
    }

    method RollForwardOrBack(t: Tick)
      requires Model().Ticks()
      modifies this
      ensures Model() == OnTick(config, old(Model()), t)
    {
      if !t.inCache {
        return;
      }
      if t.trigger != Got {
        if t.trigger == NotFound {
          CloseQuit();
        }
        return;
      }
      if config.status != Pending {
        return;
      }
      var functionWeights := weights;
      if Weight(functionWeights, config.newFunction) > 0 {
        if t.failures.QueryError? {
          return;
        }
        if t.failures.NoRequests? {
          return;
        }
        if t.failures.percent > config.threshold {
          functionWeights := functionWeights[config.newFunction := 0];
          functionWeights := functionWeights[config.oldFunction := 100];
          stopped := true;
          var ok := UpdateHttpTriggerWithRetries(functionWeights, t.triggerUpdate);
          if ok {
            ok := UpdateStatusWithRetries(Failed, t.statusUpdate);
          }
          CloseQuit();
          return;
        }
      }
      var done := false;
      if Weight(functionWeights, config.newFunction) + config.increment >= 100 {
        done := true;
        functionWeights := functionWeights[config.newFunction := 100];
        functionWeights := functionWeights[config.oldFunction := 0];
      } else {
        functionWeights :=
          functionWeights[config.newFunction := Weight(functionWeights, config.newFunction) + config.increment];
        if Weight(functionWeights, config.oldFunction) - config.increment < 0 {
          functionWeights := functionWeights[config.oldFunction := 0];
        } else {
          functionWeights :=
            functionWeights[config.oldFunction := Weight(functionWeights, config.oldFunction) - config.increment];
        }
      }
      var ok := UpdateHttpTriggerWithRetries(functionWeights, t.triggerUpdate);
      if !ok {
        return;
      }
      if done {
        stopped := true;
        var _ := UpdateStatusWithRetries(Succeeded, t.statusUpdate);
        CloseQuit();
      }
    }

    /** The select loop, on the ticks it takes before it is cancelled or takes
        quit. No tick comes from a stopped ticker. */
    method ProcessCanaryConfig(ticks: seq<Tick>)
      modifies this
      ensures Model() == Run(config, old(Model()), ticks)
    {
      var i := 0;
      while i < |ticks| && !stopped && !panicked
        invariant 0 <= i <= |ticks|
        invariant Run(config, old(Model()), ticks) == Run(config, Model(), ticks[i..])
      {
        RollForwardOrBack(ticks[i]);
        i := i + 1;
      }
    }
  }

  /** What the ticks taken do; after the ticker was stopped, or a panic, none does anything. */
  function Run(c: Config, s: State, ticks: seq<Tick>): State
    decreases |ticks|
  {
    if ticks == [] || !s.Ticks() then s else Run(c, OnTick(c, s, ticks[0]), ticks[1..])
  }

  // ----- what the ticks keep

  predicate Balanced(c: Config, w: map<string, int>) {
    && c.newFunction in w && c.oldFunction in w
    && 0 <= w[c.newFunction] <= 100
    && w[c.oldFunction] == 100 - w[c.newFunction]
  }

  predicate Sensible(c: Config) { c.newFunction != c.oldFunction && c.increment >= 0 }

  /** A forward step below 100 moves exactly the increment from the old function
      to the new: the old function's weight is never clamped at 0. */
  lemma ForwardStepMovesIncrement(c: Config, w: map<string, int>)
    requires Sensible(c) && Balanced(c, w)
    ensures var (w', done) := RollForward(c, w);
      && Balanced(c, w') && w'.Keys == w.Keys
      && (done <==> w[c.newFunction] + c.increment >= 100)
      && w'[c.newFunction] == (if done then 100 else w[c.newFunction] + c.increment)
      && (!done ==> w[c.oldFunction] - c.increment >= 0 && w'[c.oldFunction] == w[c.oldFunction] - c.increment)
      && (forall f :: f in w && f != c.newFunction && f != c.oldFunction ==> w'[f] == w[f])
  {
  }

  /** Whatever the API server and Prometheus answer, every reachable state keeps
      both weights within [0, 100] and adding up to 100. */
  lemma {:induction false} EveryRunIsBalanced(c: Config, s: State, ticks: seq<Tick>)
    requires Sensible(c) && Balanced(c, s.weights)
    ensures Balanced(c, Run(c, s, ticks).weights)
    decreases |ticks|
  {
    if ticks != [] && s.Ticks() {
      ForwardStepMovesIncrement(c, s.weights);
      EveryRunIsBalanced(c, OnTick(c, s, ticks[0]), ticks[1..]);
    }
  }

  /** When a canary is rolled back: once the new function has weight, exactly
      when more than threshold percent of its requests failed. A tick that
      does not know the failure rate does nothing, and one with a rate of at
      most the threshold steps forward. */
  lemma RollsBackIff(c: Config, s: State, t: Tick)
    requires Sensible(c) && Balanced(c, s.weights) && c.status == Pending && s.status == Pending && s.Ticks()
    requires s.weights[c.newFunction] > 0 && t.inCache && t.trigger == Got
    requires t.triggerUpdate(0) == Updated && t.statusUpdate(0) == Updated
    ensures var s' := OnTick(c, s, t);
      match t.failures
      case Percent(q) =>
        && (s'.status == Failed <==> q > c.threshold)
        && (q > c.threshold ==> Split(c, s'.weights) == (0, 100) && s'.stopped && (s'.quit || s'.panicked))
        && (q <= c.threshold ==>
              && Split(c, s'.weights) == Forward(c, s.weights)
              && (s'.status == Succeeded <==> Split(c, s'.weights) == (100, 0)))
      case _ => s' == s
  {
  }

  /** Where the weights of a balanced canary go if it is stepped forward. */
  function Forward(c: Config, w: map<string, int>): (int, int) {
    var n := Weight(w, c.newFunction) + c.increment;
    if n >= 100 then (100, 0) else (n, 100 - n)
  }

  /** A new function without weight yet is stepped forward whatever the failure rate. */
  lemma FirstStepIsForward(c: Config, s: State, t: Tick)
    requires Sensible(c) && Balanced(c, s.weights) && c.status == Pending && t.inCache && t.trigger == Got
    requires s.weights[c.newFunction] == 0 && t.triggerUpdate(0) == Updated
    ensures Split(c, OnTick(c, s, t).weights) == Forward(c, s.weights)
  {
  }

  /** Weights that do not add up to 100, or are missing, are stepped forward too;
      there the old function's weight may run out first. */
  lemma AnyForwardStep(c: Config, w: map<string, int>)
    requires c.newFunction != c.oldFunction
    ensures var (w', done) := RollForward(c, w);
      var n := (if c.newFunction in w then w[c.newFunction] else 0) + c.increment;
      var o := (if c.oldFunction in w then w[c.oldFunction] else 0) - c.increment;
      && (done <==> n >= 100)
      && w' == w[c.newFunction := if done then 100 else n][c.oldFunction := if done || o < 0 then 0 else o]
  {
  }

  /** One of the ten attempts stores the update; all before it were conflicts. */
  ghost predicate StoresInTime(answers: nat -> Answer) {
    exists i: nat :: i < 10 && answers(i) == Updated && forall j: nat :: j < i ==> answers(j) == Conflict
  }

  predicate TenConflicts(answers: nat -> Answer) { forall i :: 0 <= i < 10 ==> answers(i) == Conflict }

  lemma StoredIff(answers: nat -> Answer)
    ensures Stored(answers) <==> StoresInTime(answers)
    ensures ReportsOk(answers) <==> StoresInTime(answers) || TenConflicts(answers)
  {
    SettledIs(answers, 0);
  }

  /** A pending canary ends on a tick exactly when the failure rate asks for a
      rollback, or the new function reaches all the weight; when its trigger's
      update is reported as done; and when the update of its status is stored. A
      rollback stops the ticker however its updates go, a last step forward only
      if the trigger's update is reported as done. */
  lemma EndsIff(c: Config, s: State, t: Tick)
    requires Sensible(c) && Balanced(c, s.weights) && c.status == Pending && s.status == Pending && s.Ticks()
    requires t.inCache && t.trigger == Got
    ensures var s', n := OnTick(c, s, t), s.weights[c.newFunction];
      var back := n > 0 && t.failures.Percent? && t.failures.percent > c.threshold;
      var last := (n == 0 || (t.failures.Percent? && !back)) && n + c.increment >= 100;
      var reported := StoresInTime(t.triggerUpdate) || TenConflicts(t.triggerUpdate);
      && (s'.status == Failed <==> back && reported && StoresInTime(t.statusUpdate))
      && (s'.status == Succeeded <==> last && reported && StoresInTime(t.statusUpdate))
      && (s'.stopped <==> back || (last && reported))
      && (s'.quit || s'.panicked <==> s.quit || s'.stopped)
  {
    StoredIff(t.triggerUpdate);
    StoredIff(t.statusUpdate);
  }

  /** Nothing happens for a config that is not pending or has been cancelled, or
      while the trigger cannot be read; a trigger that is gone closes quit. */
  lemma OtherTicks(c: Config, s: State, t: Tick)
    ensures !t.inCache || t.trigger == GetError || (t.trigger == Got && c.status != Pending) ==> OnTick(c, s, t) == s
    ensures t.inCache && t.trigger == NotFound ==>
      OnTick(c, s, t) == if s.quit then s.(panicked := true) else s.(quit := true)
  {
  }

  function Split(c: Config, w: map<string, int>): (int, int) { (Weight(w, c.newFunction), Weight(w, c.oldFunction)) }

  /** A tick that marks the canary Succeeded leaves all weight on the new
      function, and one that marks it Failed leaves it all on the old one,
      exactly when its weight update was not lost to ten conflicts in a row, or
      the weights were there already. */
  lemma EndStateIff(c: Config, s: State, t: Tick)
    requires Sensible(c) && Balanced(c, s.weights) && s.status == Pending
    ensures var s' := OnTick(c, s, t);
      && (s'.status == Succeeded ==>
            (Split(c, s'.weights) == (100, 0) <==> !AllConflict(t.triggerUpdate) || Split(c, s.weights) == (100, 0)))
      && (s'.status == Failed ==>
            (Split(c, s'.weights) == (0, 100) <==> !AllConflict(t.triggerUpdate) || Split(c, s.weights) == (0, 100)))
  {
    ForwardStepMovesIncrement(c, s.weights);
  }

  function EndSplit(status: Status): (int, int) { if status == Succeeded then (100, 0) else (0, 100) }

  /** A canary that starts Pending keeps that status until one tick ends it, the last that does anything. */
  lemma {:induction false} EndingTick(c: Config, s: State, ticks: seq<Tick>) returns (i: nat)
    requires s.status == Pending && s.Ticks() && Run(c, s, ticks).status != Pending
    ensures i < |ticks|
    ensures var before := Run(c, s, ticks[..i]);
      before.status == Pending && before.Ticks() && Run(c, s, ticks) == OnTick(c, before, ticks[i])
    decreases |ticks|
  {
    var s1 := OnTick(c, s, ticks[0]);
    i := 0;
    if s1.status == Pending {
      var j := EndingTick(c, s1, ticks[1..]);
      i := j + 1;
      assert ticks[..i][1..] == ticks[1..][..j];
    }
  }

  /** So in every run, a canary that ends Succeeded has all weight on the new
      function, and one that ends Failed all of it on the old one, exactly when
      the weight update of its last tick was not lost to ten conflicts in a
      row, or the weights were there already. */
  lemma RunEndsIff(c: Config, s: State, ticks: seq<Tick>) returns (i: nat)
    requires Sensible(c) && Balanced(c, s.weights)
    requires s.status == Pending && s.Ticks() && Run(c, s, ticks).status != Pending
    ensures i < |ticks|
    ensures var before, end := Run(c, s, ticks[..i]), Run(c, s, ticks);
      && end == OnTick(c, before, ticks[i])
      && (Split(c, end.weights) == EndSplit(end.status) <==>
          !AllConflict(ticks[i].triggerUpdate) || Split(c, before.weights) == EndSplit(end.status))
  {
    i := EndingTick(c, s, ticks);
    EveryRunIsBalanced(c, s, ticks[..i]);
    EndStateIff(c, Run(c, s, ticks[..i]), ticks[i]);
  }

  /** The lost case: ten conflicts, and a canary at weight 50 is marked Succeeded. */
  lemma TenConflictsSucceedAtHalf()
    ensures var c := Config("new", "old", 50, 10, Pending);
      var s := State(map["new" := 50, "old" := 50], Pending, false, false, false);
      var t := Tick(true, Got, Percent(0), _ => Conflict, _ => Updated);
      OnTick(c, s, t) == State(s.weights, Succeeded, true, true, false)
  {
    var answers: nat -> Answer := _ => Conflict;
    SettledIs(answers, 0);
  }

  // ----- closing quit twice

  /** This tick closes quit: the trigger is gone, or the canary is rolled back or done. */
  predicate Closes(c: Config, w: map<string, int>, t: Tick) {
    if Skips(c, w, t) then t.inCache && t.trigger == NotFound
    else RollsBack(c, w, t) || (ReportsOk(t.triggerUpdate) && Weight(w, c.newFunction) + c.increment >= 100)
  }

  /** The first of these leaves the ticker running: a tick that is taken before
      quit is may then close it again. */
  lemma TickPanicsIff(c: Config, s: State, t: Tick)
    requires s.Ticks()
    ensures OnTick(c, s, t).panicked <==> s.quit && Closes(c, s.weights, t)
    ensures Closes(c, s.weights, t) && !OnTick(c, s, t).stopped ==> t.inCache && t.trigger == NotFound
  {
  }

  /** A run panics only if the trigger was missing at some tick before its last. */
  lemma {:induction false} PanicNeedsMissingTrigger(c: Config, s: State, ticks: seq<Tick>) returns (i: nat)
    requires s.Ticks() && !s.quit && Run(c, s, ticks).panicked
    ensures i + 1 < |ticks| && ticks[i].inCache && ticks[i].trigger == NotFound
    decreases |ticks|
  {
    var s1 := OnTick(c, s, ticks[0]);
    TickPanicsIff(c, s, ticks[0]);
    i := 0;
    if !s1.quit {
      var j := PanicNeedsMissingTrigger(c, s1, ticks[1..]);
      i := j + 1;
    }
  }

  /** And it does if a second such tick is taken next, or any other that closes quit. */
  lemma MissingTriggerCanPanic(c: Config, s: State, first: Tick, second: Tick)
    requires s.Ticks() && first.inCache && first.trigger == NotFound && Closes(c, s.weights, second)
    ensures Run(c, s, [first, second]).panicked
  {
    var s1 := OnTick(c, s, first);
    if s1.Ticks() {
      TickPanicsIff(c, s1, second);
    }
    assert [first, second][1..] == [second];
    assert Run(c, s1, [second]) == if s1.Ticks() then OnTick(c, s1, second) else s1;
  }

  // ----- how many steps it takes

  predicate StepsForward(c: Config, s: State, t: Tick) {
    s.Ticks() && !Skips(c, s.weights, t) && !RollsBack(c, s.weights, t) && Stored(t.triggerUpdate)
  }

  function ForwardSteps(c: Config, s: State, ticks: seq<Tick>): nat
    decreases |ticks|
  {
    if ticks == [] || !s.Ticks() then 0
    else (if StepsForward(c, s, ticks[0]) then 1 else 0) + ForwardSteps(c, OnTick(c, s, ticks[0]), ticks[1..])
  }

  lemma OneMore(n: int, d: int)
    ensures n * d == (n - 1) * d + d
  {
  }

  /** A tick that steps forward moves the increment, or ends the canary; any
      other tick leaves the new function's weight alone or ends the canary. */
  lemma TickMoves(c: Config, s: State, t: Tick)
    requires Sensible(c) && Balanced(c, s.weights) && s.Ticks()
    ensures var s' := OnTick(c, s, t);
      && Balanced(c, s'.weights)
      && (s'.stopped ||
          s'.weights[c.newFunction] == s.weights[c.newFunction] + if StepsForward(c, s, t) then c.increment else 0)
      && (StepsForward(c, s, t) && !s'.stopped ==> s'.weights[c.newFunction] < 100)
  {
    ForwardStepMovesIncrement(c, s.weights);
  }

  lemma {:induction false} EachStepUsesIncrement(c: Config, s: State, ticks: seq<Tick>)
    requires Sensible(c) && c.increment >= 1 && Balanced(c, s.weights)
    ensures var n := ForwardSteps(c, s, ticks);
      n >= 2 ==> (n - 1) * c.increment < 100 - s.weights[c.newFunction]
    decreases |ticks|
  {
    if ticks != [] && s.Ticks() {
      TickMoves(c, s, ticks[0]);
      var s' := OnTick(c, s, ticks[0]);
      EachStepUsesIncrement(c, s', ticks[1..]);
      OneMore(ForwardSteps(c, s', ticks[1..]), c.increment);
    }
  }

  /** However the ticks go, a canary that starts at weight w makes at most
      max(1, ceil((100 - w) / increment)) successful forward steps. */
  lemma ForwardStepsAreBounded(c: Config, s: State, ticks: seq<Tick>)
    requires Sensible(c) && c.increment >= 1 && Balanced(c, s.weights)
    ensures var missing := 100 - s.weights[c.newFunction];
      var ceiling := (missing + c.increment - 1) / c.increment;
      ForwardSteps(c, s, ticks) <= if ceiling > 1 then ceiling else 1
  {
    EachStepUsesIncrement(c, s, ticks);
    var n, missing := ForwardSteps(c, s, ticks), 100 - s.weights[c.newFunction];
    if n >= 2 {
      Ceiling(n - 1, c.increment, missing);
    }
  }

  lemma Ceiling(n: nat, d: int, m: int)
    requires d >= 1 && n * d < m
    ensures n + 1 <= (m + d - 1) / d
  {
    var q := (m + d - 1) / d;
    assert q * d + (m + d - 1) % d == m + d - 1;
    assert q * d >= m > n * d;
    assert q <= n ==> q * d <= n * d;
  }
}
