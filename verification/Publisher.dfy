/** The webhook publisher (pkg/publisher/webhookPublisher.go): a queue served
    by one goroutine; a request that fails goes back to the queue after a
    growing delay, until its retries are used up. */
module Publisher {
  import opened Keys

  const CAPACITY := 32

  datatype Params = Params(maxRetries: nat, retryDelay: int)

  /** The wait after the n-th failure. */
  function Delay(p: Params, n: nat): int { if n == 0 then p.retryDelay else 2 * Delay(p, n - 1) }

  function Pow2(n: nat): int { if n == 0 then 1 else 2 * Pow2(n - 1) }

  lemma {:induction false} DelayIsGeometric(p: Params, n: nat)
    ensures Delay(p, n) == p.retryDelay * Pow2(n)
  {
    if n > 0 {
      DelayIsGeometric(p, n - 1);
      assert 2 * (p.retryDelay * Pow2(n - 1)) == p.retryDelay * (2 * Pow2(n - 1));
    }
  }

  /** How one HTTP request goes: it cannot be built, it gets a response (of any
      status), or it ends in an error. */
  datatype Answer = CannotBuild | Responds | Errs

  datatype Outcome = Unbuildable | Delivered | GivenUp

  /** A try of an event: when its HTTP request began and ended. */
  datatype Try = Try(start: int, end: int)

  datatype Place = Queued | Current | Timed(due: int) | Done(outcome: Outcome)

  /** An event; handled tells whether it was ever taken up. */
  datatype Event = Event(place: Place, retries: int, retryDelay: int, tries: seq<Try>, handled: bool)

  /** events in the order of their Publish calls; queue and current hold their indices. */
  datatype State = State(events: seq<Event>, queue: seq<nat>, current: Option<nat>, now: int)

  const Initial := State([], [], None, 0)

  datatype Step =
    | Publish
    | Take
    | Request(answer: Answer, duration: nat)
    | Fire(id: nat)
    | Tick(duration: nat)

  predicate Enabled(s: State, step: Step) {
    match step
    case Publish => |s.queue| < CAPACITY
    case Take => s.current == None && s.queue != [] && s.queue[0] < |s.events|
    case Request(_, _) => s.current.Some? && s.current.value < |s.events|
    case Fire(id) =>
      id < |s.events| && s.events[id].place.Timed? && s.events[id].place.due <= s.now && |s.queue| < CAPACITY
    case Tick(_) => true
  }

  /** makeHttpRequest on an event, its request beginning at start and ending at end. */
  function Handled(e: Event, answer: Answer, start: int, end: int): Event {
    match answer
    case CannotBuild => e.(place := Done(Unbuildable), handled := true)
    case Responds => e.(place := Done(Delivered), tries := e.tries + [Try(start, end)], handled := true)
    case Errs =>
      var e' := e.(retries := e.retries - 1, tries := e.tries + [Try(start, end)], handled := true);
      if e'.retries > 0 then e'.(retryDelay := e.retryDelay * 2, place := Timed(end + e.retryDelay * 2))
      else e'.(place := Done(GivenUp))
  }

  function Apply(s: State, step: Step, p: Params): State
    requires Enabled(s, step)
  {
    match step
    case Publish =>
      s.(events := s.events + [Event(Queued, p.maxRetries, p.retryDelay, [], false)], queue := s.queue + [|s.events|])
    case Take =>
      var id := s.queue[0];
      s.(events := s.events[id := s.events[id].(place := Current)], queue := s.queue[1..], current := Some(id))
    case Request(answer, d) =>
      var id := s.current.value;
      s.(events := s.events[id := Handled(s.events[id], answer, s.now, s.now + d)], current := None, now := s.now + d)
    case Fire(id) => s.(events := s.events[id := s.events[id].(place := Queued)], queue := s.queue + [id])
    case Tick(d) => s.(now := s.now + d)
  }

  // ----- the invariant

  /** The k-th failed try (from 1) is followed by a wait of retryDelay * 2^k. */
  predicate Spaced(tries: seq<Try>, p: Params) {
    forall k: nat :: 1 <= k < |tries| ==> WaitsFor(tries, k, p)
  }

  predicate WaitsFor(tries: seq<Try>, k: nat, p: Params)
    requires 1 <= k < |tries|
  {
    tries[k].start >= tries[k - 1].end + Delay(p, k)
  }

  /** What an event's place says of its tries and retries; one that waits, is
      queued or is current may not be tried again before its delay is over. */
  predicate EventOk(e: Event, now: int, p: Params) {
    var n := |e.tries|;
    && Spaced(e.tries, p)
    && (e.handled <==> n > 0 || e.place == Done(Unbuildable))
    && (match e.place
        case Done(Unbuildable) => n < p.maxRetries
        case Done(Delivered) => 1 <= n <= p.maxRetries
        case Done(GivenUp) => n == p.maxRetries
        case Timed(due) => Pending(e, p) && n > 0 && due >= e.tries[n - 1].end + Delay(p, n)
        case _ => Pending(e, p) && (n > 0 ==> now >= e.tries[n - 1].end + Delay(p, n)))
  }

  predicate Pending(e: Event, p: Params) {
    |e.tries| < p.maxRetries && e.retries == p.maxRetries - |e.tries| && e.retryDelay == Delay(p, |e.tries|)
  }

  /** Every event is in the one place it says it is. */
  ghost predicate Placed(s: State) {
    && (forall i :: 0 <= i < |s.queue| ==> s.queue[i] < |s.events| && s.events[s.queue[i]].place == Queued)
    && (forall i, j :: 0 <= i < j < |s.queue| ==> s.queue[i] != s.queue[j])
    && (forall id :: 0 <= id < |s.events| && s.events[id].place == Queued ==> id in s.queue)
    && (s.current.Some? ==> s.current.value < |s.events| && s.events[s.current.value].place == Current)
    && (forall id :: 0 <= id < |s.events| && s.events[id].place == Current ==> s.current == Some(id))
  }

  ghost predicate Inv(s: State, p: Params) {
    && Placed(s)
    && forall id :: 0 <= id < |s.events| ==> EventOk(s.events[id], s.now, p)
  }

  lemma HandledIsOk(e: Event, answer: Answer, start: int, end: int, p: Params)
    requires p.maxRetries >= 1 && e.place == Current && EventOk(e, start, p)
    ensures EventOk(Handled(e, answer, start, end), end, p)
  {
    var e' := Handled(e, answer, start, end);
    forall k: nat | 1 <= k < |e'.tries| ensures WaitsFor(e'.tries, k, p) {
      if k < |e.tries| { assert WaitsFor(e.tries, k, p); }
    }
  }

  lemma TakeKeepsPlaced(s: State, p: Params)
    requires Placed(s) && Enabled(s, Take)
    ensures Placed(Apply(s, Take, p))
  {
    var s' := Apply(s, Take, p);
    var h := s.queue[0];
    assert forall i :: 0 <= i < |s'.queue| ==> s'.queue[i] == s.queue[i + 1];
    forall id | 0 <= id < |s'.events| && s'.events[id].place == Queued ensures id in s'.queue {
      assert id != h && id in s.queue;
      assert s.queue == [h] + s'.queue;
    }
  }

  /** An event that was not in the queue, new or not, joins it. */
  lemma JoinKeepsPlaced(s: State, events: seq<Event>, id: nat)
    requires Placed(s) && id < |events| && |s.events| <= |events| <= |s.events| + 1
    requires events[id].place == Queued && (id < |s.events| ==> s.events[id].place.Timed?)
    requires id == |s.events| || |events| == |s.events|
    requires forall i :: 0 <= i < |s.events| && i != id ==> events[i] == s.events[i]
    ensures Placed(s.(events := events, queue := s.queue + [id]))
  {
    var s' := s.(events := events, queue := s.queue + [id]);
    assert s'.queue[|s.queue|] == id;
    forall i | 0 <= i < |events| && events[i].place == Queued ensures i in s'.queue {
      if i != id {
        assert i in s.queue;
      }
    }
  }

  lemma RequestKeepsPlaced(s: State, step: Step, p: Params)
    requires Placed(s) && Enabled(s, step) && step.Request?
    ensures Placed(Apply(s, step, p))
  {
    var c := s.current.value;
    var e' := Handled(s.events[c], step.answer, s.now, s.now + step.duration);
    assert e'.place != Queued && e'.place != Current;
    assert c !in s.queue;
  }

  lemma StepKeepsPlaced(s: State, step: Step, p: Params)
    requires Placed(s) && Enabled(s, step)
    ensures Placed(Apply(s, step, p))
  {
    match step
    case Take => TakeKeepsPlaced(s, p);
    case Request(_, _) => RequestKeepsPlaced(s, step, p);
    case Tick(_) =>
    case Publish => JoinKeepsPlaced(s, Apply(s, step, p).events, |s.events|);
    case Fire(id) => JoinKeepsPlaced(s, Apply(s, step, p).events, id);
  }

  /** An event that is not being handled stays as it is, is taken up, or goes back to the queue in time. */
  lemma EventStaysOk(e: Event, place: Place, now: int, later: int, p: Params)
    requires EventOk(e, now, p) && now <= later
    requires place == e.place || (e.place == Queued && place == Current)
          || (e.place.Timed? && e.place.due <= now && place == Queued)
    ensures EventOk(e.(place := place), later, p)
  {
  }

  lemma StepKeepsEventOk(s: State, step: Step, id: nat, p: Params)
    requires Placed(s) && Enabled(s, step) && p.maxRetries >= 1
    requires id < |Apply(s, step, p).events| && (id < |s.events| ==> EventOk(s.events[id], s.now, p))
    ensures EventOk(Apply(s, step, p).events[id], Apply(s, step, p).now, p)
  {
    var s' := Apply(s, step, p);
    if id < |s.events| {
      if step.Request? && s.current == Some(id) {
        HandledIsOk(s.events[id], step.answer, s.now, s'.now, p);
      } else {
        OtherEventMoves(s, step, id, p);
        EventStaysOk(s.events[id], s'.events[id].place, s.now, s'.now, p);
      }
    }
  }

  lemma OtherEventMoves(s: State, step: Step, id: nat, p: Params)
    requires Placed(s) && Enabled(s, step) && id < |s.events| && !(step.Request? && s.current == Some(id))
    ensures var e, e', now := s.events[id], Apply(s, step, p).events[id], Apply(s, step, p).now;
      && e' == e.(place := e'.place) && s.now <= now
      && (e'.place == e.place || (e.place == Queued && e'.place == Current) ||
          (e.place.Timed? && e.place.due <= s.now && e'.place == Queued))
  {
  }

  lemma StepKeepsInv(s: State, step: Step, p: Params)
    requires Inv(s, p) && Enabled(s, step) && p.maxRetries >= 1
    ensures Inv(Apply(s, step, p), p)
  {
    StepKeepsPlaced(s, step, p);
    forall id | 0 <= id < |Apply(s, step, p).events|
      ensures EventOk(Apply(s, step, p).events[id], Apply(s, step, p).now, p)
    {
      StepKeepsEventOk(s, step, id, p);
    }
  }

  function Exec(s: State, run: seq<Step>, p: Params): Option<State>
    decreases |run|
  {
    if run == [] then Some(s)
    else if Enabled(s, run[0]) then Exec(Apply(s, run[0], p), run[1..], p)
    else None
  }

  lemma {:induction false} RunsKeepInv(s: State, run: seq<Step>, p: Params)
    requires Inv(s, p) && p.maxRetries >= 1
    ensures Exec(s, run, p).Some? ==> Inv(Exec(s, run, p).value, p)
    decreases |run|
  {
    if run != [] && Enabled(s, run[0]) {
      StepKeepsInv(s, run[0], p);
      RunsKeepInv(Apply(s, run[0], p), run[1..], p);
    }
  }

  /** In every run: each event makes at most maxRetries HTTP requests; after its
      k-th failure it waits at least retryDelay * 2^k; it is given up only
      after the last of them; and each published event is in exactly one place. */
  lemma EventsAreConserved(run: seq<Step>, id: nat, p: Params)
    requires Exec(Initial, run, p).Some? && p.maxRetries >= 1 && id < |Exec(Initial, run, p).value.events|
    ensures var s := Exec(Initial, run, p).value;
      var e := s.events[id];
      && |e.tries| <= p.maxRetries
      && (forall k: nat :: 1 <= k < |e.tries| ==> e.tries[k].start >= e.tries[k - 1].end + p.retryDelay * Pow2(k))
      && (e.place == Done(GivenUp) ==> |e.tries| == p.maxRetries)
      && (!e.place.Done? ==> |e.tries| < p.maxRetries && e.retries == p.maxRetries - |e.tries|)
      && (id in s.queue <==> e.place.Queued?) && (s.current == Some(id) <==> e.place.Current?)
      && (forall i, j :: 0 <= i < j < |s.queue| ==> s.queue[i] != s.queue[j])
  {
    RunsKeepInv(Initial, run, p);
    var s := Exec(Initial, run, p).value;
    assert EventOk(s.events[id], s.now, p);
    forall k: nat | 1 <= k < |s.events[id].tries|
      ensures s.events[id].tries[k].start >= s.events[id].tries[k - 1].end + p.retryDelay * Pow2(k)
    {
      assert WaitsFor(s.events[id].tries, k, p);
      DelayIsGeometric(p, k);
    }
  }

  // ----- how an event ends, by the answers its requests got

  datatype Attempt = Attempt(answer: Answer, start: int, end: int)

  /** The requests a run makes for one event: what they came to, and when. */
  function Attempts(s: State, run: seq<Step>, id: nat, p: Params): seq<Attempt>
    requires Exec(s, run, p).Some?
    decreases |run|
  {
    if run == [] then []
    else AttemptOf(s, run[0], id) + Attempts(Apply(s, run[0], p), run[1..], id, p)
  }

  function AttemptOf(s: State, step: Step, id: nat): seq<Attempt> {
    match step
    case Request(answer, d) => if s.current == Some(id) then [Attempt(answer, s.now, s.now + d)] else []
    case _ => []
  }

  /** What an event's place and tries say of the requests made for it. */
  predicate Tells(e: Event, made: seq<Attempt>, now: int, p: Params) {
    var n := |made|;
    && n <= p.maxRetries
    && (forall k :: 0 <= k < n - 1 ==> FailsBefore(made[k], made[k + 1], k + 1, p))
    && (e.place == Done(Delivered) <==> n > 0 && made[n - 1].answer == Responds)
    && (e.place == Done(Unbuildable) <==> n > 0 && made[n - 1].answer == CannotBuild)
    && (e.place == Done(GivenUp) <==> n > 0 && n == p.maxRetries && made[n - 1].answer == Errs)
    && (e.place.Timed? ==> n > 0 && e.place.due == made[n - 1].end + Delay(p, n))
    && (e.place in {Queued, Current} && n > 0 ==> now >= made[n - 1].end + Delay(p, n))
    && |e.tries| == (if e.place == Done(Unbuildable) then n - 1 else n)
    && forall k :: 0 <= k < |e.tries| ==> e.tries[k] == Try(made[k].start, made[k].end)
  }

  /** The n-th request ended in an error, and the next one waited for its delay. */
  predicate FailsBefore(a: Attempt, next: Attempt, n: nat, p: Params) {
    a.answer == Errs && next.start >= a.end + Delay(p, n)
  }

  predicate Told(s: State, id: nat, made: seq<Attempt>, p: Params) {
    if id < |s.events| then Tells(s.events[id], made, s.now, p) else made == []
  }

  lemma StepTells(s: State, step: Step, id: nat, made: seq<Attempt>, p: Params)
    requires Inv(s, p) && Enabled(s, step) && p.maxRetries >= 1 && Told(s, id, made, p)
    ensures Told(Apply(s, step, p), id, made + AttemptOf(s, step, id), p)
  {
    if step.Request? && s.current == Some(id) {
      CurrentTells(s, step, id, made, p);
    } else {
      assert made + AttemptOf(s, step, id) == made;
      if id < |s.events| {
        OtherEventTells(s, step, id, made, p);
      }
    }
  }

  lemma CurrentTells(s: State, step: Step, id: nat, made: seq<Attempt>, p: Params)
    requires Inv(s, p) && Enabled(s, step) && p.maxRetries >= 1 && step.Request? && s.current == Some(id)
    requires Tells(s.events[id], made, s.now, p)
    ensures Told(Apply(s, step, p), id, made + AttemptOf(s, step, id), p)
  {
    var end := s.now + step.duration;
    assert EventOk(s.events[id], s.now, p);
    RequestTells(s.events[id], step.answer, s.now, end, made, p);
    assert AttemptOf(s, step, id) == [Attempt(step.answer, s.now, end)];
  }

  lemma OtherEventTells(s: State, step: Step, id: nat, made: seq<Attempt>, p: Params)
    requires Placed(s) && Enabled(s, step) && id < |s.events| && !(step.Request? && s.current == Some(id))
    requires Tells(s.events[id], made, s.now, p)
    ensures Tells(Apply(s, step, p).events[id], made, Apply(s, step, p).now, p)
  {
    OtherEventMoves(s, step, id, p);
    MoveTells(s.events[id], Apply(s, step, p).events[id].place, made, s.now, Apply(s, step, p).now, p);
  }

  lemma MoveTells(e: Event, place: Place, made: seq<Attempt>, now: int, later: int, p: Params)
    requires Tells(e, made, now, p) && now <= later
    requires place == e.place || (e.place == Queued && place == Current)
          || (e.place.Timed? && e.place.due <= now && place == Queued)
    ensures Tells(e.(place := place), made, later, p)
  {
  }

  lemma RequestTells(e: Event, answer: Answer, start: int, end: int, made: seq<Attempt>, p: Params)
    requires e.place == Current && p.maxRetries >= 1
    requires EventOk(e, start, p) && Tells(e, made, start, p)
    ensures Tells(Handled(e, answer, start, end), made + [Attempt(answer, start, end)], end, p)
  {
  }

  lemma {:induction false} RunTells(s: State, run: seq<Step>, id: nat, made: seq<Attempt>, p: Params)
    requires Inv(s, p) && Exec(s, run, p).Some? && p.maxRetries >= 1 && Told(s, id, made, p)
    ensures Told(Exec(s, run, p).value, id, made + Attempts(s, run, id, p), p)
    decreases |run|
  {
    if run == [] {
      assert made + Attempts(s, run, id, p) == made;
    } else {
      var step, s' := run[0], Apply(s, run[0], p);
      StepKeepsInv(s, step, p);
      StepTells(s, step, id, made, p);
      RunTells(s', run[1..], id, made + AttemptOf(s, step, id), p);
      assert made + Attempts(s, run, id, p) == made + AttemptOf(s, step, id) + Attempts(s', run[1..], id, p);
    }
  }

  /** How an event goes by the requests made for it: it is delivered once one
      got a response, of any status; unbuildable once one could not be built;
      and given up once maxRetries of them ended in an error. After fewer errors
      and nothing else it is not done: its timer is set to go off
      retryDelay * 2^n after the n-th error, and until then it is not queued. */
  predicate GoesBy(place: Place, made: seq<Attempt>, now: int, p: Params) {
    var n := |made|;
    && n <= p.maxRetries
    && (forall k :: 0 <= k < n - 1 ==> Retried(made[k], made[k + 1], p.retryDelay * Pow2(k + 1)))
    && (place == Done(Delivered) <==> n > 0 && made[n - 1].answer == Responds)
    && (place == Done(Unbuildable) <==> n > 0 && made[n - 1].answer == CannotBuild)
    && (place == Done(GivenUp) <==> n > 0 && n == p.maxRetries && made[n - 1].answer == Errs)
    && (place.Timed? ==> n > 0 && place.due == made[n - 1].end + p.retryDelay * Pow2(n))
    && (place in {Queued, Current} && n > 0 ==> now >= made[n - 1].end + p.retryDelay * Pow2(n))
  }

  predicate Retried(a: Attempt, next: Attempt, delay: int) { a.answer == Errs && next.start >= a.end + delay }

  lemma TellsHowItGoes(e: Event, made: seq<Attempt>, now: int, p: Params)
    requires Tells(e, made, now, p)
    ensures GoesBy(e.place, made, now, p)
  {
    DelayIsGeometric(p, |made|);
    forall k | 0 <= k < |made| - 1 ensures Retried(made[k], made[k + 1], p.retryDelay * Pow2(k + 1)) {
      assert FailsBefore(made[k], made[k + 1], k + 1, p);
      DelayIsGeometric(p, k + 1);
    }
  }

  /** Every event of every run goes by the requests the run made for it. */
  lemma OutcomeIsExact(run: seq<Step>, id: nat, p: Params)
    requires Exec(Initial, run, p).Some? && p.maxRetries >= 1 && id < |Exec(Initial, run, p).value.events|
    ensures var s := Exec(Initial, run, p).value;
      GoesBy(s.events[id].place, Attempts(Initial, run, id, p), s.now, p)
  {
    var s, made := Exec(Initial, run, p).value, Attempts(Initial, run, id, p);
    RunTells(Initial, run, id, [], p);
    assert [] + made == made;
    TellsHowItGoes(s.events[id], made, s.now, p);
  }

  /** The queue's capacity: Publish and a due event wait while it holds 32. */
  lemma {:induction false} QueueIsBounded(s: State, run: seq<Step>, p: Params)
    requires |s.queue| <= 32
    ensures Exec(s, run, p).Some? ==>
      var end := Exec(s, run, p).value; |end.queue| <= 32 && (Enabled(end, Publish) <==> |end.queue| < 32)
    decreases |run|
  {
    if run != [] && Enabled(s, run[0]) {
      QueueIsBounded(Apply(s, run[0], p), run[1..], p);
    }
  }

  /** An event that is not done is never stuck: the request at hand can end, or
      the queue be served, or the event's own timer goes off in time. */
  lemma NoEventIsStuck(s: State, id: nat, answer: Answer, duration: nat, p: Params)
    requires Inv(s, p) && id < |s.events| && !s.events[id].place.Done?
    ensures if s.current.Some? then Enabled(s, Request(answer, duration))
            else if s.queue != [] then Enabled(s, Take)
            else
              && s.events[id].place.Timed?
              && (s.now + duration >= s.events[id].place.due ==> Enabled(Apply(s, Tick(duration), p), Fire(id)))
  {
  }

  // ----- remaining work

  function Left(e: Event): nat { if e.place.Done? || e.retries < 0 then 0 else e.retries }

  function Work(es: seq<Event>): nat {
    if es == [] then 0 else Left(es[0]) + Work(es[1..])
  }

  lemma {:induction false} WorkUpdate(es: seq<Event>, id: nat, e: Event)
    requires id < |es|
    ensures Work(es[id := e]) == Work(es) - Left(es[id]) + Left(e)
  {
    if id == 0 {
      assert es[id := e][1..] == es[1..];
    } else {
      assert es[id := e][1..] == es[1..][id - 1 := e];
      WorkUpdate(es[1..], id - 1, e);
    }
  }

  lemma {:induction false} WorkAppend(es: seq<Event>, e: Event)
    ensures Work(es + [e]) == Work(es) + Left(e)
  {
    if es != [] {
      assert (es + [e])[1..] == es[1..] + [e];
      WorkAppend(es[1..], e);
    }
  }

  function Requests(run: seq<Step>): nat {
    if run == [] then 0 else (if run[0].Request? then 1 else 0) + Requests(run[1..])
  }

  function Publishes(run: seq<Step>): nat {
    if run == [] then 0 else (if run[0].Publish? then 1 else 0) + Publishes(run[1..])
  }

  lemma StepUsesWork(s: State, step: Step, p: Params)
    requires Inv(s, p) && Enabled(s, step) && p.maxRetries >= 1
    ensures (if step.Request? then 1 else 0) + Work(Apply(s, step, p).events)
         <= Work(s.events) + if step.Publish? then p.maxRetries else 0
  {
    var s' := Apply(s, step, p);
    match step
    case Publish => WorkAppend(s.events, s'.events[|s.events|]);
    case Take => WorkUpdate(s.events, s.queue[0], s'.events[s.queue[0]]);
    case Request(_, _) => WorkUpdate(s.events, s.current.value, s'.events[s.current.value]);
    case Fire(id) => WorkUpdate(s.events, id, s'.events[id]);
    case Tick(_) =>
  }

  lemma OneMore(m: nat, n: nat)
    ensures m * (1 + n) == m + m * n
  {
  }

  /** The retries left over queued, timed and current events bound the HTTP
      requests still to come: each uses up at least one, and only a Publish,
      which brings maxRetries of them, adds any. */
  lemma {:induction false} WorkIsBounded(s: State, run: seq<Step>, p: Params)
    requires Inv(s, p) && p.maxRetries >= 1 && Exec(s, run, p).Some?
    ensures Requests(run) + Work(Exec(s, run, p).value.events) <= Work(s.events) + p.maxRetries * Publishes(run)
    decreases |run|
  {
    if run != [] {
      StepKeepsInv(s, run[0], p);
      StepUsesWork(s, run[0], p);
      WorkIsBounded(Apply(s, run[0], p), run[1..], p);
      OneMore(p.maxRetries, Publishes(run[1..]));
    }
  }

  // ----- order

  /** Events never handled are queued in the order they were published, and
      every event published after one of them has not been taken up either. */
  ghost predicate InOrder(s: State) {
    && (forall i, j | 0 <= i < j < |s.queue| && s.queue[i] < |s.events| && s.queue[j] < |s.events| ::
          !s.events[s.queue[i]].handled && !s.events[s.queue[j]].handled ==> s.queue[i] < s.queue[j])
    && (forall i, j | 0 <= i < j < |s.events| :: !s.events[i].handled ==> Untouched(s.events[j]))
  }

  predicate Untouched(e: Event) { !e.handled && e.place != Current }

  lemma TakeKeepsOrder(s: State, p: Params)
    requires Inv(s, p) && InOrder(s) && Enabled(s, Take)
    ensures InOrder(Apply(s, Take, p))
  {
    var s' := Apply(s, Take, p);
    var h := s.queue[0];
    forall i, j | 0 <= i < j < |s'.events| && !s'.events[i].handled ensures Untouched(s'.events[j]) {
      assert EventOk(s.events[i], s.now, p);
      assert !s.events[i].handled && Untouched(s.events[j]);
      assert i in s.queue;
      assert j != h;
    }
  }

  lemma FireKeepsOrder(s: State, id: nat, p: Params)
    requires Inv(s, p) && InOrder(s) && Enabled(s, Fire(id))
    ensures InOrder(Apply(s, Fire(id), p))
  {
    assert EventOk(s.events[id], s.now, p);
  }

  lemma RequestKeepsOrder(s: State, step: Step, p: Params)
    requires Placed(s) && InOrder(s) && Enabled(s, step) && step.Request?
    ensures InOrder(Apply(s, step, p))
  {
    var e' := Handled(s.events[s.current.value], step.answer, s.now, s.now + step.duration);
    assert e'.handled && s.current.value !in s.queue;
  }

  lemma StepKeepsOrder(s: State, step: Step, p: Params)
    requires Inv(s, p) && InOrder(s) && Enabled(s, step)
    ensures InOrder(Apply(s, step, p))
  {
    match step
    case Take => TakeKeepsOrder(s, p);
    case Publish =>
    case Tick(_) =>
    case Fire(id) => FireKeepsOrder(s, id, p);
    case Request(_, _) => RequestKeepsOrder(s, step, p);
  }

  lemma {:induction false} PublishOrderIsKept(s: State, run: seq<Step>, p: Params)
    requires Inv(s, p) && InOrder(s) && p.maxRetries >= 1
    ensures Exec(s, run, p).Some? ==> InOrder(Exec(s, run, p).value)
    decreases |run|
  {
    if run != [] && Enabled(s, run[0]) {
      StepKeepsInv(s, run[0], p);
      StepKeepsOrder(s, run[0], p);
      PublishOrderIsKept(Apply(s, run[0], p), run[1..], p);
    }
  }

  /** Hence requests are first sent in the order they were published: when an
      event has been taken up, so has every event published before it. */
  lemma SentInOrder(run: seq<Step>, i: nat, j: nat, p: Params)
    requires Exec(Initial, run, p).Some? && p.maxRetries >= 1
    requires i < j < |Exec(Initial, run, p).value.events|
    requires Exec(Initial, run, p).value.events[j].handled
    ensures Exec(Initial, run, p).value.events[i].handled
  {
    RunsKeepInv(Initial, run, p);
    PublishOrderIsKept(Initial, run, p);
  }

  // ----- the publisher's own requests

  class PublishRequest {
    var retries: int
    var retryDelay: int

    constructor (p: Params)
      ensures retries == p.maxRetries && retryDelay == p.retryDelay
    {
      retries, retryDelay := p.maxRetries, p.retryDelay;
    }

    /** Makes one HTTP request, and says how long to wait before the next, if there is to be one. */
    method MakeHttpRequest(answer: Answer, ghost e: Event, ghost start: int, end: int) returns (again: Option<int>)
      requires e.retries == retries && e.retryDelay == retryDelay
      modifies this
      ensures var e' := Handled(e, answer, start, end);
        && e'.retries == retries && e'.retryDelay == retryDelay
        && (e'.place.Timed? <==> again.Some?) && (again.Some? ==> e'.place == Timed(end + again.value))
    {
      if answer.CannotBuild? {
        return None;
      }
      if answer.Responds? {
        return None;
      }
      retries := retries - 1;
      if retries > 0 {
        retryDelay := retryDelay * 2;
        again := Some(retryDelay);
      } else {
        again := None;
      }
    }
  }
}
