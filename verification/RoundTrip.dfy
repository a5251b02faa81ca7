/** The router's retrying transport (RetryingRoundTripper.RoundTrip in
    pkg/router/functionHandler.go). */
module RoundTrip {
  import opened Keys

  const TwoTo63 := 0x8000_0000_0000_0000

  /** A time.Duration: 64 bits of nanoseconds. */
  type Duration = x: int | -TwoTo63 <= x < TwoTo63

  datatype Params = Params(timeout: Duration, exponent: int, maxRetries: int, svcAddrRetryCount: int, isDebugEnv: bool)

  /** What getServiceEntry answers. */
  datatype Entry = EntryError | NoUrl | Url(addr: string, fromCache: bool)

  /** What the transport answers: a response, or an error that may be a dial
      error and may be a time-out. */
  datatype Reply = Response | Failure(isDial: bool, isTimeout: bool)

  datatype Answers = Answers(entry: Entry, reply: Reply)

  datatype Event =
    | Lookup(entry: Entry)
    | Attempt(addr: string, dialTimeout: Duration, reply: Reply)
    | RemoveFromCache
    | Sleep(duration: Duration)

  datatype Result = GotResponse | DebugResponse | ServiceEntryError | TransportError | NoServiceUrl

  datatype Outcome = Outcome(log: seq<Event>, result: Result, totalRetry: nat)

  // ----- 64-bit durations

  function Wrap(x: int): Duration { (x + TwoTo63) % (2 * TwoTo63) - TwoTo63 }

  function Pow(b: int, e: nat): int { if e == 0 then 1 else Pow(b, e - 1) * b }

  lemma ModUnique(x: int, q: int, m: int)
    requires m > 0 && 0 <= x < m
    ensures (x + q * m) % m == x
  {
    var d := (x + q * m) / m - q;
    assert (x + q * m) % m == x - d * m;
    assert d >= 1 ==> d * m >= m;
    assert d <= -1 ==> d * m <= -m;
  }

  lemma WrapShift(x: int, q: int)
    ensures Wrap(x + q * (2 * TwoTo63)) == Wrap(x)
  {
    var m := 2 * TwoTo63;
    var y := x + TwoTo63;
    ModUnique(y % m, y / m + q, m);
    assert y + q * m == y % m + (y / m + q) * m;
  }

  /** Wrapping stays within 64 bits, and takes away a multiple of 2^64. */
  lemma WrapIsExact(x: int) returns (q: int)
    ensures -0x8000_0000_0000_0000 <= Wrap(x) < 0x8000_0000_0000_0000
    ensures Wrap(x) == x - q * 0x1_0000_0000_0000_0000
  {
    q := (x + TwoTo63) / (2 * TwoTo63);
  }

  /** Multiplying a wrapped duration and wrapping again loses nothing. */
  lemma WrapMul(a: int, b: int)
    ensures Wrap(Wrap(a) * b) == Wrap(a * b)
  {
    var m := 2 * TwoTo63;
    var q := (a + TwoTo63) / m;
    assert Wrap(a) == a - q * m;
    assert Wrap(a) * b == a * b + (-q * b) * m by {
      assert (a - q * m) * b == a * b - (q * m) * b;
      assert (q * m) * b == (q * b) * m;
    }
    WrapShift(a * b, -q * b);
  }

  /** The dial timeout and the back-off of round i. */
  function Wait(p: Params, i: nat): Duration { Wrap(p.timeout * Pow(p.exponent, i)) }

  lemma WaitNext(p: Params, i: nat)
    ensures Wrap(Wait(p, i) * p.exponent) == Wait(p, i + 1)
  {
    WrapMul(p.timeout * Pow(p.exponent, i), p.exponent);
    assert p.timeout * Pow(p.exponent, i) * p.exponent == p.timeout * Pow(p.exponent, i + 1);
  }

  // ----- what the rounds from i on do, as a function of the answers

  function Rounds(p: Params, world: nat -> Answers, i: nat, retryCounter: nat, addr: string, fromCache: bool,
                  log: seq<Event>, failed: nat): Outcome
    decreases p.maxRetries - i, 1
  {
    if i >= p.maxRetries then Outcome(log, NoServiceUrl, failed)
    else if retryCounter != 0 then Try(p, world, i, retryCounter, addr, fromCache, log, failed)
    else
      var e := world(i).entry;
      var looked := log + [Lookup(e)];
      match e
      case EntryError => Outcome(looked, if p.isDebugEnv then DebugResponse else ServiceEntryError, failed)
      case NoUrl => Rounds(p, world, i + 1, 0, "", false, looked + [Sleep(Wait(p, i))], failed)
      case Url(a, c) => Try(p, world, i, 0, a, c, looked, failed)
  }

  function Try(p: Params, world: nat -> Answers, i: nat, retryCounter: nat, addr: string, fromCache: bool,
                  log: seq<Event>, failed: nat): Outcome
    requires i < p.maxRetries
    decreases p.maxRetries - i, 0
  {
    var r := world(i).reply;
    var tried := log + [Attempt(addr, Wait(p, i), r)];
    if r.Response? then Outcome(tried, GotResponse, failed)
    else if i >= p.maxRetries - 1 || !r.isDial then Outcome(tried, TransportError, failed + 1)
    else if !Abandons(p, r, retryCounter) then
      Rounds(p, world, i + 1, retryCounter + 1, addr, fromCache, tried + [Sleep(Wait(p, i))], failed + 1)
    else
      var dropped := if fromCache then tried + [RemoveFromCache] else tried;
      Rounds(p, world, i + 1, 0, addr, fromCache, dropped + [Sleep(Wait(p, i))], failed + 1)
  }

  predicate Abandons(p: Params, r: Reply, retryCounter: nat)
    requires r.Failure?
  {
    !r.isTimeout || retryCounter >= p.svcAddrRetryCount
  }

  class RetryingRoundTripper {
    const params: Params
    var serviceUrl: Option<string>
    var urlFromCache: bool
    var totalRetry: nat

    constructor (params: Params)
      ensures this.params == params && serviceUrl == None && !urlFromCache && totalRetry == 0
    {
      this.params, serviceUrl, urlFromCache, totalRetry := params, None, false, 0;
    }

    /** executingTimeout * timeoutExponent, in 64 bits. */
    method Grow(ghost i: nat, executingTimeout: Duration) returns (next: Duration)
      requires executingTimeout == Wait(params, i)
      ensures next == Wait(params, i + 1)
    {
      WaitNext(params, i);
      next := Wrap(executingTimeout * params.exponent);
    }

    /** world(i) holds what getServiceEntry and the transport answer if round i asks them. */
    method RoundTrip(world: nat -> Answers) returns (result: Result, log: seq<Event>)
      requires serviceUrl == None && !urlFromCache && totalRetry == 0
      modifies this
      ensures Outcome(log, result, totalRetry) == Rounds(params, world, 0, 0, "", false, [], 0)
    {
      var executingTimeout: Duration := params.timeout;
      var retryCounter: nat := 0;
      log := [];
      ghost var goal := Rounds(params, world, 0, 0, "", false, [], 0);
      var i := 0;
      while i < params.maxRetries
        invariant 0 <= i && executingTimeout == Wait(params, i)
        invariant retryCounter != 0 ==> serviceUrl.Some?
        invariant goal == match serviceUrl
          case Some(a) => Rounds(params, world, i, retryCounter, a, urlFromCache, log, totalRetry)
          case None => Rounds(params, world, i, 0, "", false, log, totalRetry)
      {
        if retryCounter == 0 {
          var e := world(i).entry;
          serviceUrl := if e.Url? then Some(e.addr) else None;
          urlFromCache := e.Url? && e.fromCache;
          log := log + [Lookup(e)];
          if e.EntryError? {
            return if params.isDebugEnv then DebugResponse else ServiceEntryError, log;
          }
          if serviceUrl == None {
            log := log + [Sleep(executingTimeout)];
            executingTimeout := Grow(i, executingTimeout);
            i := i + 1;
            continue;
          }
        }
        assert goal == Try(params, world, i, retryCounter, serviceUrl.value, urlFromCache, log, totalRetry);
        var reply := world(i).reply;
        log := log + [Attempt(serviceUrl.value, executingTimeout, reply)];
        if reply.Response? {
          return GotResponse, log;
        }
        totalRetry := totalRetry + 1;
        if i >= params.maxRetries - 1 {
          return TransportError, log;
        }
        if !reply.isDial {
          return TransportError, log;
        }
        if !reply.isTimeout || retryCounter >= params.svcAddrRetryCount {
          if urlFromCache {
            log := log + [RemoveFromCache];
          }
          retryCounter := 0;
        } else {
          retryCounter := retryCounter + 1;
        }
        log := log + [Sleep(executingTimeout)];
        executingTimeout := Grow(i, executingTimeout);
        i := i + 1;
      }
      result := NoServiceUrl;
    }
  }

  // ----- what the log shows

  function FailedAttempts(log: seq<Event>): nat {
    if log == [] then 0
    else
      var e := log[|log| - 1];
      FailedAttempts(log[..|log| - 1]) + if e.Attempt? && e.reply.Failure? then 1 else 0
  }

  lemma OneMoreEvent(log: seq<Event>, e: Event)
    ensures FailedAttempts(log + [e]) == FailedAttempts(log) + if e.Attempt? && e.reply.Failure? then 1 else 0
  {
    assert (log + [e])[..|log + [e]| - 1] == log;
  }

  function Attempts(log: seq<Event>): nat {
    if log == [] then 0 else Attempts(log[..|log| - 1]) + if log[|log| - 1].Attempt? then 1 else 0
  }

  /** Each round but an ending one sleeps once: the round a log has reached. */
  function Sleeps(log: seq<Event>): nat {
    if log == [] then 0 else Sleeps(log[..|log| - 1]) + if log[|log| - 1].Sleep? then 1 else 0
  }

  function SleepTime(log: seq<Event>): int {
    if log == [] then 0
    else SleepTime(log[..|log| - 1]) + if log[|log| - 1].Sleep? then log[|log| - 1].duration else 0
  }

  /** Where a log has come to: the round, and the last thing that happened. */
  datatype Place =
    | Idle                                                          // nothing, or no URL was found
    | Looked(entry: Entry)
    | Tried(addr: string, fromCache: bool, tries: nat, reply: Reply)    // tries: attempts since the lookup
    | Dropped(addr: string, tries: nat)
    | Slept(addr: string, fromCache: bool, tries: nat, givenUp: bool)
  datatype Mark = Mark(round: nat, place: Place)

  function MaxTries(p: Params): nat { if p.svcAddrRetryCount < 0 then 1 else p.svcAddrRetryCount + 1 }

  /** An address is given up after n attempts of which the last failed to dial:
      it did not time out, or there have been enough of them. */
  predicate GivesUp(p: Params, n: nat, isTimeout: bool) { !isTimeout || n >= MaxTries(p) }

  /** The rules of an orderly log. An attempt goes to the address looked up
      last. Exactly when that address is given up, a lookup follows the sleep
      instead of another attempt, and, if the address came from the cache, its
      entry is removed first. In round i each lookup and each attempt gets what
      the world answers in that round, and each dial timeout and each sleep is
      Wait(i). */
  function Next(p: Params, world: nat -> Answers, m: Mark, e: Event): Option<Mark> {
    match (m.place, e)
    case (Idle, Lookup(x)) => if x == world(m.round).entry then Some(Mark(m.round, Looked(x))) else None
    case (Slept(_, _, _, givenUp), Lookup(x)) =>
      if givenUp && x == world(m.round).entry then Some(Mark(m.round, Looked(x))) else None
    case (Looked(Url(a, c)), Attempt(b, d, r)) =>
      if a == b && d == Wait(p, m.round) && r == world(m.round).reply
      then Some(Mark(m.round, Tried(a, c, 1, r))) else None
    case (Slept(a, c, n, givenUp), Attempt(b, d, r)) =>
      if !givenUp && a == b && d == Wait(p, m.round) && r == world(m.round).reply
      then Some(Mark(m.round, Tried(a, c, n + 1, r))) else None
    case (Looked(NoUrl), Sleep(d)) => if d == Wait(p, m.round) then Some(Mark(m.round + 1, Idle)) else None
    case (Tried(a, c, n, Failure(true, isTimeout)), RemoveFromCache) =>
      if c && GivesUp(p, n, isTimeout) then Some(Mark(m.round, Dropped(a, n))) else None
    case (Tried(a, c, n, Failure(true, isTimeout)), Sleep(d)) =>
      var up := GivesUp(p, n, isTimeout);
      if !(c && up) && d == Wait(p, m.round) then Some(Mark(m.round + 1, Slept(a, c, n, up))) else None
    case (Dropped(a, n), Sleep(d)) =>
      if d == Wait(p, m.round) then Some(Mark(m.round + 1, Slept(a, true, n, true))) else None
    case _ => None
  }

  function Watch(p: Params, world: nat -> Answers, log: seq<Event>): Option<Mark> {
    if log == [] then Some(Mark(0, Idle))
    else
      match Watch(p, world, log[..|log| - 1])
      case None => None
      case Some(m) => Next(p, world, m, log[|log| - 1])
  }

  lemma WatchSnoc(p: Params, world: nat -> Answers, log: seq<Event>, e: Event)
    requires Watch(p, world, log).Some?
    ensures Watch(p, world, log + [e]) == Next(p, world, Watch(p, world, log).value, e)
  {
    assert (log + [e])[..|log + [e]| - 1] == log;
  }

  /** How each result comes about. */
  predicate Explains(p: Params, m: Mark, result: Result) {
    match result
    case GotResponse => m.round < p.maxRetries && m.place.Tried? && m.place.reply.Response?
    case TransportError =>
      && m.round < p.maxRetries && m.place.Tried? && m.place.reply.Failure?
      && (m.place.reply.isDial ==> m.round == p.maxRetries - 1)
    case ServiceEntryError => m.round < p.maxRetries && m.place == Looked(EntryError) && !p.isDebugEnv
    case DebugResponse => m.round < p.maxRetries && m.place == Looked(EntryError) && p.isDebugEnv
    case NoServiceUrl => m.place == Idle && m.round == if p.maxRetries < 0 then 0 else p.maxRetries
  }

  /** The log keeps the rules, and the result is the one it explains. */
  predicate Orderly(p: Params, world: nat -> Answers, o: Outcome) {
    Watch(p, world, o.log).Some? && Explains(p, Watch(p, world, o.log).value, o.result)
  }

  lemma {:induction false} RoundsAreOrderly(p: Params, world: nat -> Answers, i: nat, retryCounter: nat, addr: string,
                                            fromCache: bool, log: seq<Event>, failed: nat)
    requires Watch(p, world, log).Some? && Watch(p, world, log).value.round == i
    requires var at := Watch(p, world, log).value.place;
      if retryCounter == 0 then at.Idle? || (at.Slept? && at.givenUp)
      else at == Slept(addr, fromCache, retryCounter, false) && retryCounter <= p.svcAddrRetryCount
    requires i >= p.maxRetries ==>
      Watch(p, world, log).value.place.Idle? && i == if p.maxRetries < 0 then 0 else p.maxRetries
    ensures Orderly(p, world, Rounds(p, world, i, retryCounter, addr, fromCache, log, failed))
    decreases p.maxRetries - i, 1
  {
    if i < p.maxRetries {
      if retryCounter != 0 {
        TryIsOrderly(p, world, i, retryCounter, addr, fromCache, log, failed);
      } else {
        var e := world(i).entry;
        var looked := log + [Lookup(e)];
        WatchSnoc(p, world, log, Lookup(e));
        match e
        case EntryError =>
        case NoUrl =>
          WatchSnoc(p, world, looked, Sleep(Wait(p, i)));
          RoundsAreOrderly(p, world, i + 1, 0, "", false, looked + [Sleep(Wait(p, i))], failed);
        case Url(a, c) => TryIsOrderly(p, world, i, 0, a, c, looked, failed);
      }
    }
  }

  lemma {:induction false} TryIsOrderly(p: Params, world: nat -> Answers, i: nat, retryCounter: nat, addr: string,
                                        fromCache: bool, log: seq<Event>, failed: nat)
    requires i < p.maxRetries && Watch(p, world, log).Some? && Watch(p, world, log).value.round == i
    requires Watch(p, world, log).value.place ==
      if retryCounter == 0 then Looked(Url(addr, fromCache)) else Slept(addr, fromCache, retryCounter, false)
    requires retryCounter != 0 ==> retryCounter <= p.svcAddrRetryCount
    ensures Orderly(p, world, Try(p, world, i, retryCounter, addr, fromCache, log, failed))
    decreases p.maxRetries - i, 0
  {
    var r, attempt, sleep := world(i).reply, Attempt(addr, Wait(p, i), world(i).reply), Sleep(Wait(p, i));
    AttemptMark(p, world, log, i, retryCounter, addr, fromCache, r);
    if r.Failure? && i < p.maxRetries - 1 && r.isDial {
      SleepMark(p, world, log + [attempt], i, retryCounter + 1, addr, fromCache, r);
      if Abandons(p, r, retryCounter) {
        var dropped := if fromCache then log + [attempt] + [RemoveFromCache] else log + [attempt];
        RoundsAreOrderly(p, world, i + 1, 0, addr, fromCache, dropped + [sleep], failed + 1);
      } else {
        RoundsAreOrderly(p, world, i + 1, retryCounter + 1, addr, fromCache, log + [attempt] + [sleep], failed + 1);
      }
    }
  }

  lemma AttemptMark(p: Params, world: nat -> Answers, log: seq<Event>, i: nat, n: nat, addr: string,
                    fromCache: bool, r: Reply)
    requires r == world(i).reply
    requires Watch(p, world, log) ==
      Some(Mark(i, if n == 0 then Looked(Url(addr, fromCache)) else Slept(addr, fromCache, n, false)))
    requires n != 0 ==> n <= p.svcAddrRetryCount
    ensures Watch(p, world, log + [Attempt(addr, Wait(p, i), r)]) == Some(Mark(i, Tried(addr, fromCache, n + 1, r)))
  {
    WatchSnoc(p, world, log, Attempt(addr, Wait(p, i), r));
  }

  lemma SleepMark(p: Params, world: nat -> Answers, tried: seq<Event>, i: nat, n: nat, addr: string,
                  fromCache: bool, r: Reply)
    requires r.Failure? && r.isDial && Watch(p, world, tried) == Some(Mark(i, Tried(addr, fromCache, n, r)))
    ensures var up := GivesUp(p, n, r.isTimeout);
      Watch(p, world, (if fromCache && up then tried + [RemoveFromCache] else tried) + [Sleep(Wait(p, i))])
      == Some(Mark(i + 1, Slept(addr, fromCache, n, up)))
  {
    if fromCache && GivesUp(p, n, r.isTimeout) {
      WatchSnoc(p, world, tried, RemoveFromCache);
      WatchSnoc(p, world, tried + [RemoveFromCache], Sleep(Wait(p, i)));
    } else {
      WatchSnoc(p, world, tried, Sleep(Wait(p, i)));
    }
  }

  /** In an orderly log no address is tried more often than svcAddrRetryCount + 1 times to one lookup. */
  lemma {:induction false} TriesAreBounded(p: Params, world: nat -> Answers, log: seq<Event>)
    requires Watch(p, world, log).Some?
    ensures match Watch(p, world, log).value.place
      case Tried(_, _, n, _) => 1 <= n <= MaxTries(p)
      case Slept(_, _, n, givenUp) => givenUp || n < MaxTries(p)
      case _ => true
  {
    if log != [] {
      TriesAreBounded(p, world, log[..|log| - 1]);
    }
  }

  /** An orderly log in round n has slept n times and made at most one attempt a round. */
  lemma {:induction false} RoundsCount(p: Params, world: nat -> Answers, log: seq<Event>)
    requires Watch(p, world, log).Some?
    ensures var m := Watch(p, world, log).value;
      && Sleeps(log) == m.round
      && Attempts(log) <= m.round + if m.place.Tried? || m.place.Dropped? then 1 else 0
  {
    if log != [] {
      RoundsCount(p, world, log[..|log| - 1]);
    }
  }

  /** Idle after a round means that the last lookup found no URL. */
  lemma IdleAfterNoUrl(p: Params, world: nat -> Answers, log: seq<Event>)
    requires Watch(p, world, log).Some? && Watch(p, world, log).value.place.Idle? && log != []
    ensures |log| >= 2 && log[|log| - 2] == Lookup(NoUrl) && log[|log| - 1].Sleep?
  {
    var before := log[..|log| - 1];
    assert Watch(p, world, before).value.place == Looked(NoUrl);
    assert before != [];
    var earlier := Watch(p, world, before[..|before| - 1]).value;
    assert Next(p, world, earlier, before[|before| - 1]).value.place == Looked(NoUrl);
  }

  /** RoundTrip, for all parameters and all answers: its log keeps the rules,
      it makes at most maxRetries attempts, its result is the one its last event
      explains, and it falls out of the loop only if the last lookup gave no URL. */
  lemma RoundTripIsOrderly(p: Params, world: nat -> Answers)
    ensures var o := Rounds(p, world, 0, 0, "", false, [], 0);
      && Orderly(p, world, o)
      && Attempts(o.log) <= (if p.maxRetries < 0 then 0 else p.maxRetries)
      && (p.maxRetries >= 1 && o.result.NoServiceUrl? ==>
            |o.log| >= 2 && o.log[|o.log| - 2] == Lookup(NoUrl) && Sleeps(o.log) == p.maxRetries)
  {
    RoundsAreOrderly(p, world, 0, 0, "", false, [], 0);
    var o := Rounds(p, world, 0, 0, "", false, [], 0);
    RoundsCount(p, world, o.log);
    if p.maxRetries >= 1 && o.result.NoServiceUrl? {
      IdleAfterNoUrl(p, world, o.log);
    }
  }

  /** totalRetry counts the failed attempts. */
  lemma {:induction false} FailuresAreCounted(p: Params, world: nat -> Answers, i: nat, retryCounter: nat, addr: string,
                                              fromCache: bool, log: seq<Event>, failed: nat)
    requires failed == FailedAttempts(log)
    ensures var o := Rounds(p, world, i, retryCounter, addr, fromCache, log, failed);
      o.totalRetry == FailedAttempts(o.log)
    decreases p.maxRetries - i, 1
  {
    if i < p.maxRetries {
      if retryCounter != 0 {
        TryFailuresAreCounted(p, world, i, retryCounter, addr, fromCache, log, failed);
      } else {
        var e := world(i).entry;
        OneMoreEvent(log, Lookup(e));
        match e
        case EntryError =>
        case NoUrl =>
          OneMoreEvent(log + [Lookup(e)], Sleep(Wait(p, i)));
          FailuresAreCounted(p, world, i + 1, 0, "", false, log + [Lookup(e)] + [Sleep(Wait(p, i))], failed);
        case Url(a, c) => TryFailuresAreCounted(p, world, i, 0, a, c, log + [Lookup(e)], failed);
      }
    }
  }

  lemma {:induction false} TryFailuresAreCounted(p: Params, world: nat -> Answers, i: nat, retryCounter: nat,
                                                 addr: string, fromCache: bool, log: seq<Event>, failed: nat)
    requires i < p.maxRetries && failed == FailedAttempts(log)
    ensures var o := Try(p, world, i, retryCounter, addr, fromCache, log, failed); o.totalRetry == FailedAttempts(o.log)
    decreases p.maxRetries - i, 0
  {
    var r, attempt, sleep := world(i).reply, Attempt(addr, Wait(p, i), world(i).reply), Sleep(Wait(p, i));
    OneMoreEvent(log, attempt);
    if r.Failure? && i < p.maxRetries - 1 && r.isDial {
      var up := Abandons(p, r, retryCounter);
      OneFailure(log, attempt, up && fromCache, sleep);
      if up {
        var dropped := if fromCache then log + [attempt] + [RemoveFromCache] else log + [attempt];
        FailuresAreCounted(p, world, i + 1, 0, addr, fromCache, dropped + [sleep], failed + 1);
      } else {
        FailuresAreCounted(p, world, i + 1, retryCounter + 1, addr, fromCache, log + [attempt] + [sleep], failed + 1);
      }
    }
  }

  lemma OneFailure(log: seq<Event>, attempt: Event, drops: bool, sleep: Event)
    requires attempt.Attempt? && attempt.reply.Failure? && sleep.Sleep?
    ensures FailedAttempts((if drops then log + [attempt] + [RemoveFromCache] else log + [attempt]) + [sleep])
         == FailedAttempts(log) + 1
  {
    OneMoreEvent(log, attempt);
    if drops {
      OneMoreEvent(log + [attempt], RemoveFromCache);
      OneMoreEvent(log + [attempt] + [RemoveFromCache], sleep);
    } else {
      OneMoreEvent(log + [attempt], sleep);
    }
  }

  // ----- how long it sleeps

  lemma {:induction false} PowGrows(b: int, i: nat, j: nat)
    requires b >= 1 && i <= j
    ensures 1 <= Pow(b, i) <= Pow(b, j)
  {
    if j > 0 {
      PowGrows(b, if i < j then i else i - 1, j - 1);
      MulGrows(Pow(b, j - 1), 1, b);
    }
  }

  /** No duration overflows if that of the last round does not. */
  ghost predicate Fits(p: Params) {
    && p.timeout >= 0 && p.exponent >= 1 && p.maxRetries >= 0
    && (p.maxRetries >= 1 ==> p.timeout * Pow(p.exponent, p.maxRetries - 1) < TwoTo63)
  }

  lemma WrapSmall(x: int)
    requires 0 <= x < TwoTo63
    ensures Wrap(x) == x
  {
  }

  lemma MulGrows(t: int, a: int, b: int)
    requires t >= 0 && 0 <= a <= b
    ensures 0 <= t * a <= t * b
  {
  }

  /** Then round i waits timeout * exponent^i. */
  lemma WaitIsGeometric(p: Params, i: nat)
    requires Fits(p) && i < p.maxRetries
    ensures Wait(p, i) == p.timeout * Pow(p.exponent, i)
  {
    PowGrows(p.exponent, i, p.maxRetries - 1);
    MulGrows(p.timeout, Pow(p.exponent, i), Pow(p.exponent, p.maxRetries - 1));
    WrapSmall(p.timeout * Pow(p.exponent, i));
  }

  /** (x - 1) * (s + t * w) == t * (w * x - 1), if (x - 1) * s == t * (w - 1). */
  lemma GeometricStep(x: int, s: int, t: int, w: int)
    requires (x - 1) * s == t * (w - 1)
    ensures (x - 1) * (s + t * w) == t * (w * x - 1)
  {
    calc {
      (x - 1) * (s + t * w);
      (x - 1) * s + (x - 1) * (t * w);
      t * (w - 1) + (x - 1) * (t * w);
      { assert (x - 1) * (t * w) == t * (w * x) - t * w; }
      t * (w - 1) + t * (w * x) - t * w;
      t * (w * x - 1);
    }
  }

  lemma {:induction false} SleepTimeIsGeometric(p: Params, world: nat -> Answers, log: seq<Event>)
    requires Fits(p) && Watch(p, world, log).Some? && Watch(p, world, log).value.round <= p.maxRetries
    ensures (p.exponent - 1) * SleepTime(log) == p.timeout * (Pow(p.exponent, Watch(p, world, log).value.round) - 1)
  {
    if log != [] {
      var before, e := log[..|log| - 1], log[|log| - 1];
      var n := Watch(p, world, before).value.round;
      SleepTimeIsGeometric(p, world, before);
      if e.Sleep? {
        WaitIsGeometric(p, n);
        GeometricStep(p.exponent, SleepTime(before), p.timeout, Pow(p.exponent, n));
      }
    }
  }

  /** With n rounds slept through, RoundTrip sleeps timeout * (exponent^n - 1) / (exponent - 1)
      in all, and n is at most maxRetries. */
  lemma SleepsAtMost(p: Params, world: nat -> Answers)
    requires Fits(p)
    ensures var log := Rounds(p, world, 0, 0, "", false, [], 0).log;
      && Sleeps(log) <= p.maxRetries
      && (p.exponent - 1) * SleepTime(log) == p.timeout * (Pow(p.exponent, Sleeps(log)) - 1)
      && (p.exponent - 1) * SleepTime(log) <= p.timeout * (Pow(p.exponent, p.maxRetries) - 1)
  {
    RoundTripIsOrderly(p, world);
    var log := Rounds(p, world, 0, 0, "", false, [], 0).log;
    RoundsCount(p, world, log);
    SleepTimeIsGeometric(p, world, log);
    PowGrows(p.exponent, Sleeps(log), p.maxRetries);
    MulGrows(p.timeout, Pow(p.exponent, Sleeps(log)) - 1, Pow(p.exponent, p.maxRetries) - 1);
  }
}
