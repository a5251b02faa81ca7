/** The executor's index of function services with its operations interleaved
    (pkg/executor/fscache/functionServiceCache.go): Add and DeleteEntry are
    three cache operations each, and run in several goroutines at once. */
module FunctionServiceRaces {
  import opened Keys
  import opened FunctionServiceCache

  /** What a goroutine is about to do. */
  datatype Phase =
    | StoreFunction(fn: Meta, address: string)
    | StoreAddress(fn: Meta, address: string)
    | StoreUid(fn: Meta)
    | TouchExisting(address: string)             // the function was cached already
    | DropFunction(fn: Meta, address: string)
    | DropAddress(fn: Meta, address: string)
    | DropUid(fn: Meta)
    | Finished

  datatype Conf = Conf(s: State, threads: map<nat, Phase>)

  const Initial := Conf(Empty, map[])

  /** One cache operation, and what the goroutine does next. */
  function Effect(s: State, phase: Phase, now: int): (State, Phase) {
    match phase
    case StoreFunction(fn, a) =>
      var key := CacheKey(fn);
      if key in s.byFunction then (s, TouchExisting(s.byFunction[key].address))
      else (s.(byFunction := s.byFunction[key := Svc(fn, a, now, now)]), StoreAddress(fn, a))
    case StoreAddress(fn, a) =>
      if a in s.byAddress then (s, Finished) else (s.(byAddress := s.byAddress[a := fn]), StoreUid(fn))
    case StoreUid(fn) => (s.(byFunctionUID := InsertIfAbsent(s.byFunctionUID, fn.uid, fn)), Finished)
    case TouchExisting(a) => (AfterTouch(s, a, now), Finished)
    case DropFunction(fn, a) => (s.(byFunction := s.byFunction - {CacheKey(fn)}), DropAddress(fn, a))
    case DropAddress(fn, a) => (s.(byAddress := s.byAddress - {a}), DropUid(fn))
    case DropUid(fn) => (s.(byFunctionUID := s.byFunctionUID - {fn.uid}), Finished)
    case Finished => (s, Finished)
  }

  /** Alone, the operations amount to AfterAdd and AfterDelete. */
  lemma AloneIsSerial(s: State, fn: Meta, address: string, now: int)
    ensures var (s1, p1) := Effect(s, StoreFunction(fn, address), now);
      var (s2, p2) := Effect(s1, p1, now);
      var (s3, p3) := Effect(s2, p2, now);
      s3 == AfterAdd(s, fn, address, now).0 && p3 == Finished
    ensures var (s1, p1) := Effect(s, DropFunction(fn, address), now);
      var (s2, p2) := Effect(s1, p1, now);
      var (s3, p3) := Effect(s2, p2, now);
      s3 == AfterDelete(s, fn, address) && p3 == Finished
  {
  }

  function Next(c: Conf, id: nat, now: int): Conf
    requires id in c.threads
  {
    var (s, phase) := Effect(c.s, c.threads[id], now);
    Conf(s, c.threads[id := phase])
  }

  // ----- agreement while operations are under way

  /** A delete is on its way to this address. */
  ghost predicate AddressDoomed(c: Conf, a: string) {
    exists t :: t in c.threads && c.threads[t].DropAddress? && c.threads[t].address == a
  }

  ghost predicate UidDoomed(c: Conf, u: string) {
    exists t :: t in c.threads && (c.threads[t].DropAddress? || c.threads[t].DropUid?) && c.threads[t].fn.uid == u
  }

  predicate Leads(s: State, m: Meta, a: string) {
    CacheKey(m) in s.byFunction && s.byFunction[CacheKey(m)].address == a
  }

  ghost predicate AddressCovered(c: Conf, a: string)
    requires a in c.s.byAddress
  {
    Clean(c.s.byAddress[a]) && (Leads(c.s, c.s.byAddress[a], a) || AddressDoomed(c, a))
  }

  ghost predicate UidCovered(c: Conf, u: string)
    requires u in c.s.byFunctionUID
  {
    var m := c.s.byFunctionUID[u];
    Clean(m) && m.uid == u && (CacheKey(m) in c.s.byFunction || UidDoomed(c, u))
  }

  predicate ThreadOk(phase: Phase) { phase.TouchExisting? || phase.Finished? || Clean(phase.fn) }

  /** Every address and UID leads to its service, or a delete is about to take it out. */
  ghost predicate Covered(c: Conf) {
    && (forall k :: k in c.s.byFunction ==> CacheKey(c.s.byFunction[k].fn) == k && Clean(c.s.byFunction[k].fn))
    && (forall a :: a in c.s.byAddress ==> AddressCovered(c, a))
    && (forall u :: u in c.s.byFunctionUID ==> UidCovered(c, u))
    && (forall t :: t in c.threads ==> ThreadOk(c.threads[t]))
  }

  ghost predicate AtRest(c: Conf) { forall t :: t in c.threads ==> c.threads[t].Finished? }

  /** With no operation under way that is the agreement of the three indexes. */
  lemma RestAgreesIff(c: Conf)
    requires AtRest(c)
    ensures Covered(c) <==> Agree(c.s)
  {
    if Covered(c) {
      forall a | a in c.s.byAddress ensures AddressOk(c.s, a) { assert AddressCovered(c, a); }
      forall u | u in c.s.byFunctionUID ensures UidOk(c.s, u) { assert UidCovered(c, u); }
    }
    if Agree(c.s) {
      forall a | a in c.s.byAddress ensures AddressCovered(c, a) { assert AddressOk(c.s, a); }
      forall u | u in c.s.byFunctionUID ensures UidCovered(c, u) { assert UidOk(c.s, u); }
    }
  }

  /** What the goroutine should find when it takes its next step: a store of an
      address or a UID, its own service still cached, unless the entry is there
      already or about to be taken out; a delete, that the address cached for
      its function is its own, leads elsewhere, or is about to be taken out. */
  ghost predicate Fits(c: Conf, phase: Phase) {
    match phase
    case StoreAddress(fn, a) => a in c.s.byAddress || Leads(c.s, fn, a) || AddressDoomed(c, a)
    case StoreUid(fn) => fn.uid in c.s.byFunctionUID || CacheKey(fn) in c.s.byFunction || UidDoomed(c, fn.uid)
    case DropFunction(fn, a) =>
      var key := CacheKey(fn);
      key in c.s.byFunction ==>
        var b := c.s.byFunction[key].address;
        b == a || b !in c.s.byAddress || CacheKey(c.s.byAddress[b]) != key || AddressDoomed(c, b)
    case _ => true
  }

  lemma DoomedStays(c: Conf, id: nat, now: int, a: string)
    requires id in c.threads
    ensures var c' := Next(c, id, now);
      AddressDoomed(c', a) <==>
        (exists t :: t in c.threads && t != id && c.threads[t].DropAddress? && c.threads[t].address == a)
        || (c.threads[id].DropFunction? && c.threads[id].address == a)
  {
    var c' := Next(c, id, now);
    if t :| t in c.threads && t != id && c.threads[t].DropAddress? && c.threads[t].address == a {
      assert c'.threads[t] == c.threads[t];
    }
    if c.threads[id].DropFunction? && c.threads[id].address == a {
      assert c'.threads[id].DropAddress? && c'.threads[id].address == a;
    }
  }

  lemma UidDoomedStays(c: Conf, id: nat, now: int, u: string)
    requires id in c.threads
    ensures var c' := Next(c, id, now);
      UidDoomed(c, u) && !(c.threads[id].DropUid? && c.threads[id].fn.uid == u) ==> UidDoomed(c', u)
    ensures c.threads[id].DropFunction? && c.threads[id].fn.uid == u ==> UidDoomed(Next(c, id, now), u)
    ensures UidDoomed(Next(c, id, now), u) ==>
      UidDoomed(c, u) || (c.threads[id].DropFunction? && c.threads[id].fn.uid == u)
  {
    var c' := Next(c, id, now);
    if UidDoomed(c, u) {
      var t :| t in c.threads && (c.threads[t].DropAddress? || c.threads[t].DropUid?) && c.threads[t].fn.uid == u;
      assert t != id ==> c'.threads[t] == c.threads[t];
      assert t == id && c.threads[id].DropAddress? ==> c'.threads[id].DropUid? && c'.threads[id].fn.uid == u;
    }
    if c.threads[id].DropFunction? && c.threads[id].fn.uid == u {
      assert c'.threads[id].DropAddress? && c'.threads[id].fn.uid == u;
    }
  }

  lemma StoreFunctionKeepsCovered(c: Conf, id: nat, now: int)
    requires Covered(c) && id in c.threads && c.threads[id].StoreFunction?
    ensures Covered(Next(c, id, now))
  {
    var c' := Next(c, id, now);
    assert ThreadOk(c.threads[id]);
    forall a | a in c'.s.byAddress ensures AddressCovered(c', a) {
      assert AddressCovered(c, a);
      DoomedStays(c, id, now, a);
    }
    forall u | u in c'.s.byFunctionUID ensures UidCovered(c', u) {
      assert UidCovered(c, u);
      UidDoomedStays(c, id, now, u);
    }
    forall t | t in c'.threads ensures ThreadOk(c'.threads[t]) { assert ThreadOk(c.threads[t]); }
  }

  lemma TouchKeepsCovered(c: Conf, id: nat, now: int)
    requires Covered(c) && id in c.threads && (c.threads[id].TouchExisting? || c.threads[id].Finished?)
    ensures Covered(Next(c, id, now))
  {
    var c' := Next(c, id, now);
    forall a | a in c'.s.byAddress ensures AddressCovered(c', a) {
      assert AddressCovered(c, a);
      DoomedStays(c, id, now, a);
    }
    forall u | u in c'.s.byFunctionUID ensures UidCovered(c', u) {
      assert UidCovered(c, u);
      UidDoomedStays(c, id, now, u);
    }
    forall t | t in c'.threads ensures ThreadOk(c'.threads[t]) { assert ThreadOk(c.threads[t]); }
  }

  lemma StoreAddressKeepsCoveredIff(c: Conf, id: nat, now: int)
    requires Covered(c) && id in c.threads && c.threads[id].StoreAddress?
    ensures Covered(Next(c, id, now)) <==> Fits(c, c.threads[id])
  {
    var c', own := Next(c, id, now), c.threads[id].address;
    assert ThreadOk(c.threads[id]);
    DoomedStays(c, id, now, own);
    if Fits(c, c.threads[id]) {
      forall a | a in c'.s.byAddress ensures AddressCovered(c', a) {
        if a in c.s.byAddress { assert AddressCovered(c, a); }
        DoomedStays(c, id, now, a);
      }
      forall u | u in c'.s.byFunctionUID ensures UidCovered(c', u) {
        assert UidCovered(c, u);
        UidDoomedStays(c, id, now, u);
      }
      forall t | t in c'.threads ensures ThreadOk(c'.threads[t]) { assert ThreadOk(c.threads[t]); }
    } else {
      assert own in c'.s.byAddress && !AddressCovered(c', own);
    }
  }

  lemma StoreUidKeepsCoveredIff(c: Conf, id: nat, now: int)
    requires Covered(c) && id in c.threads && c.threads[id].StoreUid?
    ensures Covered(Next(c, id, now)) <==> Fits(c, c.threads[id])
  {
    var c', own := Next(c, id, now), c.threads[id].fn.uid;
    assert ThreadOk(c.threads[id]);
    UidDoomedStays(c, id, now, own);
    if Fits(c, c.threads[id]) {
      forall a | a in c'.s.byAddress ensures AddressCovered(c', a) {
        assert AddressCovered(c, a);
        DoomedStays(c, id, now, a);
      }
      forall u | u in c'.s.byFunctionUID ensures UidCovered(c', u) {
        if u in c.s.byFunctionUID { assert UidCovered(c, u); }
        UidDoomedStays(c, id, now, u);
      }
      forall t | t in c'.threads ensures ThreadOk(c'.threads[t]) { assert ThreadOk(c.threads[t]); }
    } else {
      assert own in c'.s.byFunctionUID && !UidCovered(c', own);
    }
  }

  lemma DropFunctionKeepsCoveredIff(c: Conf, id: nat, now: int)
    requires Covered(c) && id in c.threads && c.threads[id].DropFunction?
    ensures Covered(Next(c, id, now)) <==> Fits(c, c.threads[id])
  {
    var c', fn := Next(c, id, now), c.threads[id].fn;
    assert ThreadOk(c.threads[id]);
    if Fits(c, c.threads[id]) {
      forall a | a in c'.s.byAddress ensures AddressCovered(c', a) {
        assert AddressCovered(c, a);
        DoomedStays(c, id, now, a);
      }
      forall u | u in c'.s.byFunctionUID ensures UidCovered(c', u) {
        assert UidCovered(c, u);
        CacheKeyIdentifies(c.s.byFunctionUID[u], fn);
        UidDoomedStays(c, id, now, u);
      }
      forall t | t in c'.threads ensures ThreadOk(c'.threads[t]) { assert ThreadOk(c.threads[t]); }
    } else {
      var b := c.s.byFunction[CacheKey(fn)].address;
      DoomedStays(c, id, now, b);
      assert b in c'.s.byAddress && !AddressCovered(c', b);
    }
  }

  lemma DropKeepsCovered(c: Conf, id: nat, now: int)
    requires Covered(c) && id in c.threads && (c.threads[id].DropAddress? || c.threads[id].DropUid?)
    ensures Covered(Next(c, id, now))
  {
    var c' := Next(c, id, now);
    assert ThreadOk(c.threads[id]);
    forall a | a in c'.s.byAddress ensures AddressCovered(c', a) {
      assert AddressCovered(c, a);
      DoomedStays(c, id, now, a);
    }
    forall u | u in c'.s.byFunctionUID ensures UidCovered(c', u) {
      assert UidCovered(c, u);
      UidDoomedStays(c, id, now, u);
    }
    forall t | t in c'.threads ensures ThreadOk(c'.threads[t]) { assert ThreadOk(c.threads[t]); }
  }

  /** Of all the steps that any number of Adds and DeleteEntrys take in any
      order, exactly those that do not find what fits them break the agreement. */
  lemma NextKeepsCoveredIff(c: Conf, id: nat, now: int)
    requires Covered(c) && id in c.threads
    ensures Covered(Next(c, id, now)) <==> Fits(c, c.threads[id])
  {
    match c.threads[id]
    case StoreFunction(_, _) => StoreFunctionKeepsCovered(c, id, now);
    case StoreAddress(_, _) => StoreAddressKeepsCoveredIff(c, id, now);
    case StoreUid(_) => StoreUidKeepsCoveredIff(c, id, now);
    case TouchExisting(_) => TouchKeepsCovered(c, id, now);
    case DropFunction(_, _) => DropFunctionKeepsCoveredIff(c, id, now);
    case DropAddress(_, _) => DropKeepsCovered(c, id, now);
    case DropUid(_) => DropKeepsCovered(c, id, now);
    case Finished => TouchKeepsCovered(c, id, now);
  }

  // ----- runs

  datatype Step = Begin(id: nat, phase: Phase) | Go(id: nat, now: int)

  predicate Enabled(c: Conf, step: Step) {
    match step
    case Begin(id, phase) => id !in c.threads && (phase.StoreFunction? || phase.DropFunction?) && Clean(phase.fn)
    case Go(id, _) => id in c.threads
  }

  function Apply(c: Conf, step: Step): Conf
    requires Enabled(c, step)
  {
    match step
    case Begin(id, phase) => c.(threads := c.threads[id := phase])
    case Go(id, now) => Next(c, id, now)
  }

  function Exec(run: seq<Step>): Option<Conf> {
    if run == [] then Some(Initial)
    else
      match Exec(run[..|run| - 1])
      case None => None
      case Some(c) => if Enabled(c, run[|run| - 1]) then Some(Apply(c, run[|run| - 1])) else None
  }

  // ----- runs without a delete inside an Add

  /** An Add of this function has stored it, and has yet to store its address or UID. */
  ghost predicate BeingAdded(c: Conf, fn: Meta) {
    exists t :: t in c.threads && (c.threads[t].StoreAddress? || c.threads[t].StoreUid?) &&
                CacheKey(c.threads[t].fn) == CacheKey(fn)
  }

  /** A service is deleted with the address it is cached under, and not while it is being added. */
  ghost predicate Apart(c: Conf, step: Step) {
    step.Go? && step.id in c.threads && c.threads[step.id].DropFunction? ==>
      var fn, a := c.threads[step.id].fn, c.threads[step.id].address;
      !BeingAdded(c, fn) && (CacheKey(fn) in c.s.byFunction ==> c.s.byFunction[CacheKey(fn)].address == a)
  }

  ghost predicate AllApart(run: seq<Step>) {
    forall i :: 0 <= i < |run| && Exec(run[..i]).Some? ==> Apart(Exec(run[..i]).value, run[i])
  }

  /** What is being added is cached, at its address. */
  ghost predicate AddsHold(c: Conf) { forall t :: t in c.threads ==> AddHolds(c, c.threads[t]) }

  predicate AddHolds(c: Conf, phase: Phase) {
    match phase
    case StoreAddress(fn, a) => Leads(c.s, fn, a)
    case StoreUid(fn) => CacheKey(fn) in c.s.byFunction
    case _ => true
  }

  lemma GoKeepsAdds(c: Conf, id: nat, now: int)
    requires AddsHold(c) && id in c.threads && Apart(c, Go(id, now))
    ensures AddsHold(Next(c, id, now)) && Fits(c, c.threads[id])
  {
    var c' := Next(c, id, now);
    assert AddHolds(c, c.threads[id]);
    forall t | t in c'.threads ensures AddHolds(c', c'.threads[t]) {
      assert AddHolds(c, c.threads[t]);
      if c.threads[id].DropFunction? && t != id {
        assert c'.threads[t] == c.threads[t];
        assert !BeingAdded(c, c.threads[id].fn);
      }
    }
  }

  lemma BeginKeepsCovered(c: Conf, step: Step)
    requires Covered(c) && AddsHold(c) && Enabled(c, step) && step.Begin?
    ensures Covered(Apply(c, step)) && AddsHold(Apply(c, step))
  {
    var c' := Apply(c, step);
    forall a | a in c'.s.byAddress ensures AddressCovered(c', a) {
      assert AddressCovered(c, a);
      BeginKeepsDoomed(c, step, a, "");
    }
    forall u | u in c'.s.byFunctionUID ensures UidCovered(c', u) {
      assert UidCovered(c, u);
      BeginKeepsDoomed(c, step, "", u);
    }
    forall t | t in c'.threads ensures ThreadOk(c'.threads[t]) && AddHolds(c', c'.threads[t]) {
      if t in c.threads { assert ThreadOk(c.threads[t]) && AddHolds(c, c.threads[t]); }
    }
  }

  lemma BeginKeepsDoomed(c: Conf, step: Step, a: string, u: string)
    requires Enabled(c, step) && step.Begin?
    ensures AddressDoomed(Apply(c, step), a) <==> AddressDoomed(c, a)
    ensures UidDoomed(Apply(c, step), u) <==> UidDoomed(c, u)
  {
    var c' := Apply(c, step);
    assert forall t :: t in c.threads ==> c'.threads[t] == c.threads[t];
    if AddressDoomed(c, a) {
      var t :| t in c.threads && c.threads[t].DropAddress? && c.threads[t].address == a;
      assert t in c'.threads;
    }
    if UidDoomed(c, u) {
      var t :| t in c.threads && (c.threads[t].DropAddress? || c.threads[t].DropUid?) && c.threads[t].fn.uid == u;
      assert t in c'.threads;
    }
  }

  lemma {:induction false} EveryRunIsCovered(run: seq<Step>)
    requires Exec(run).Some? && AllApart(run)
    ensures Covered(Exec(run).value) && AddsHold(Exec(run).value)
  {
    if run != [] {
      var before := run[..|run| - 1];
      var c, step := Exec(before).value, run[|run| - 1];
      assert AllApart(before) by {
        assert forall i :: 0 <= i < |before| ==> before[..i] == run[..i] && before[i] == run[i];
      }
      EveryRunIsCovered(before);
      match step
      case Begin(_, _) => BeginKeepsCovered(c, step);
      case Go(id, now) =>
        GoKeepsAdds(c, id, now);
        NextKeepsCoveredIff(c, id, now);
    }
  }

  /** Any number of Adds and DeleteEntrys, interleaved in any way in which no
      service is deleted while it is being added, leave the three indexes in
      agreement once they are done. */
  lemma EveryInterleavingAgrees(run: seq<Step>)
    requires Exec(run).Some? && AtRest(Exec(run).value) && AllApart(run)
    ensures Agree(Exec(run).value.s)
  {
    EveryRunIsCovered(run);
    RestAgreesIff(Exec(run).value);
  }

  // ----- any runs: what is broken, and what heals it

  /** An entry of one of the two indexes that lead to byFunction. */
  datatype Pointer = Address(a: string) | Uid(u: string)

  /** The entry leads nowhere, and nobody is about to take it out. */
  ghost predicate Stray(c: Conf, x: Pointer) {
    match x
    case Address(a) => a in c.s.byAddress && !Leads(c.s, c.s.byAddress[a], a) && !AddressDoomed(c, a)
    case Uid(u) =>
      u in c.s.byFunctionUID && CacheKey(c.s.byFunctionUID[u]) !in c.s.byFunction && !UidDoomed(c, u)
  }

  /** The entry that a step which does not fit leaves stray. */
  ghost predicate Breaks(c: Conf, phase: Phase, x: Pointer) {
    !Fits(c, phase) &&
    match phase
    case StoreAddress(_, a) => x == Address(a)
    case StoreUid(fn) => x == Uid(fn.uid)
    case DropFunction(fn, _) => CacheKey(fn) in c.s.byFunction && x == Address(c.s.byFunction[CacheKey(fn)].address)
    case _ => false
  }

  /** The step begins a delete that will take the entry out, or caches the service it leads to again. */
  predicate Heals(c: Conf, phase: Phase, x: Pointer) {
    match (phase, x)
    case (DropFunction(_, b), Address(a)) => b == a
    case (DropFunction(fn, _), Uid(u)) => fn.uid == u
    case (StoreFunction(fn, b), Address(a)) =>
      && CacheKey(fn) !in c.s.byFunction && b == a
      && a in c.s.byAddress && CacheKey(c.s.byAddress[a]) == CacheKey(fn)
    case (StoreFunction(fn, _), Uid(u)) =>
      && CacheKey(fn) !in c.s.byFunction
      && u in c.s.byFunctionUID && CacheKey(c.s.byFunctionUID[u]) == CacheKey(fn)
    case _ => false
  }

  /** What every run keeps, whatever breaks: no UID holds the separator, and
      services and UIDs are under their own keys. */
  ghost predicate Keyed(s: State) {
    && (forall k :: k in s.byFunction ==> CacheKey(s.byFunction[k].fn) == k && Clean(s.byFunction[k].fn))
    && (forall a :: a in s.byAddress ==> Clean(s.byAddress[a]))
    && (forall u :: u in s.byFunctionUID ==> Clean(s.byFunctionUID[u]) && s.byFunctionUID[u].uid == u)
  }

  ghost predicate Kept(c: Conf) { Keyed(c.s) && forall t :: t in c.threads ==> ThreadOk(c.threads[t]) }

  lemma EffectKeepsKeyed(s: State, phase: Phase, now: int)
    requires Keyed(s) && ThreadOk(phase)
    ensures var (s', phase') := Effect(s, phase, now); Keyed(s') && ThreadOk(phase')
  {
  }

  lemma StepKeepsKept(c: Conf, step: Step)
    requires Kept(c) && Enabled(c, step)
    ensures Kept(Apply(c, step))
  {
    match step
    case Begin(_, _) =>
    case Go(id, now) =>
      EffectKeepsKeyed(c.s, c.threads[id], now);
      assert Apply(c, step).threads == c.threads[id := Effect(c.s, c.threads[id], now).1];
  }

  lemma AddressStrayAfter(c: Conf, id: nat, now: int, a: string)
    requires Kept(c) && id in c.threads
    ensures Stray(Next(c, id, now), Address(a)) <==>
      Breaks(c, c.threads[id], Address(a)) || (Stray(c, Address(a)) && !Heals(c, c.threads[id], Address(a)))
  {
    DoomedStays(c, id, now, a);
    var phase := c.threads[id];
    if AddressDoomed(c, a) && !AddressDoomed(Next(c, id, now), a) {
      assert phase.DropAddress? && phase.address == a;
    }
  }

  lemma UidStrayAfter(c: Conf, id: nat, now: int, u: string)
    requires Kept(c) && id in c.threads
    ensures Stray(Next(c, id, now), Uid(u)) <==>
      Breaks(c, c.threads[id], Uid(u)) || (Stray(c, Uid(u)) && !Heals(c, c.threads[id], Uid(u)))
  {
    UidDoomedStays(c, id, now, u);
    assert ThreadOk(c.threads[id]);
    if c.threads[id].DropFunction? && u in c.s.byFunctionUID {
      CacheKeyIdentifies(c.s.byFunctionUID[u], c.threads[id].fn);
    }
  }

  ghost predicate BreaksAt(run: seq<Step>, i: int, x: Pointer) {
    && 0 <= i < |run| && run[i].Go? && Exec(run[..i]).Some?
    && run[i].id in Exec(run[..i]).value.threads
    && Breaks(Exec(run[..i]).value, Exec(run[..i]).value.threads[run[i].id], x)
  }

  ghost predicate HealsAt(run: seq<Step>, i: int, x: Pointer) {
    && 0 <= i < |run| && run[i].Go? && Exec(run[..i]).Some?
    && run[i].id in Exec(run[..i]).value.threads
    && Heals(Exec(run[..i]).value, Exec(run[..i]).value.threads[run[i].id], x)
  }

  /** Some step broke the entry, and none after it has healed it. */
  ghost predicate LeftBroken(run: seq<Step>, x: Pointer) {
    exists i :: BreaksAt(run, i, x) && forall j :: i < j < |run| ==> !HealsAt(run, j, x)
  }

  lemma PrefixAgrees(run: seq<Step>, i: int, x: Pointer)
    requires 0 <= i < |run| - 1
    ensures BreaksAt(run[..|run| - 1], i, x) <==> BreaksAt(run, i, x)
    ensures HealsAt(run[..|run| - 1], i, x) <==> HealsAt(run, i, x)
  {
    assert run[..|run| - 1][..i] == run[..i];
  }

  lemma LeftBrokenNext(run: seq<Step>, x: Pointer)
    requires run != []
    ensures var before, n := run[..|run| - 1], |run| - 1;
      LeftBroken(run, x) <==> BreaksAt(run, n, x) || (LeftBroken(before, x) && !HealsAt(run, n, x))
  {
    var before, n := run[..|run| - 1], |run| - 1;
    if BreaksAt(run, n, x) {
      assert LeftBroken(run, x);
    } else {
      if LeftBroken(before, x) && !HealsAt(run, n, x) { StaysBroken(run, x); }
      if LeftBroken(run, x) { WasBroken(run, x); }
    }
  }

  lemma StaysBroken(run: seq<Step>, x: Pointer)
    requires run != [] && LeftBroken(run[..|run| - 1], x) && !HealsAt(run, |run| - 1, x)
    ensures LeftBroken(run, x)
  {
    var before, n := run[..|run| - 1], |run| - 1;
    var i :| BreaksAt(before, i, x) && forall j :: i < j < n ==> !HealsAt(before, j, x);
    PrefixAgrees(run, i, x);
    forall j | i < j < |run| ensures !HealsAt(run, j, x) { if j < n { PrefixAgrees(run, j, x); } }
  }

  lemma WasBroken(run: seq<Step>, x: Pointer)
    requires run != [] && LeftBroken(run, x) && !BreaksAt(run, |run| - 1, x)
    ensures LeftBroken(run[..|run| - 1], x) && !HealsAt(run, |run| - 1, x)
  {
    var before, n := run[..|run| - 1], |run| - 1;
    var i :| BreaksAt(run, i, x) && forall j :: i < j < |run| ==> !HealsAt(run, j, x);
    PrefixAgrees(run, i, x);
    forall j | i < j < n ensures !HealsAt(before, j, x) { PrefixAgrees(run, j, x); }
  }

  lemma {:induction false} StrayIffLeftBroken(run: seq<Step>, x: Pointer)
    requires Exec(run).Some?
    ensures Kept(Exec(run).value)
    ensures Stray(Exec(run).value, x) <==> LeftBroken(run, x)
  {
    if run != [] {
      var before := run[..|run| - 1];
      var c, step := Exec(before).value, run[|run| - 1];
      StrayIffLeftBroken(before, x);
      StepKeepsKept(c, step);
      LeftBrokenNext(run, x);
      match step
      case Begin(_, _) => BeginKeepsDoomed(c, step, if x.Address? then x.a else "", if x.Uid? then x.u else "");
      case Go(id, now) => if x.Address? { AddressStrayAfter(c, id, now, x.a); } else { UidStrayAfter(c, id, now, x.u); }
    }
  }

  /** However Adds and DeleteEntrys are interleaved, once they are done the
      three indexes agree exactly when every entry that some step broke has been
      healed since: by a delete begun for its address or UID, or by its service
      being cached again. */
  lemma RunAgreesIff(run: seq<Step>)
    requires Exec(run).Some? && AtRest(Exec(run).value)
    ensures Agree(Exec(run).value.s) <==> forall x :: !LeftBroken(run, x)
  {
    var c := Exec(run).value;
    forall x ensures Stray(c, x) <==> LeftBroken(run, x) { StrayIffLeftBroken(run, x); }
    StrayIffLeftBroken(run, Address(""));
    CoveredIffNoStray(c);
    RestAgreesIff(c);
  }

  lemma CoveredIffNoStray(c: Conf)
    requires Kept(c)
    ensures Covered(c) <==> forall x :: !Stray(c, x)
  {
    if forall x :: !Stray(c, x) {
      forall a | a in c.s.byAddress ensures AddressCovered(c, a) { assert !Stray(c, Address(a)); }
      forall u | u in c.s.byFunctionUID ensures UidCovered(c, u) { assert !Stray(c, Uid(u)); }
    }
    if Covered(c) {
      forall x ensures !Stray(c, x) {
        match x
        case Address(a) => if a in c.s.byAddress { assert AddressCovered(c, a); }
        case Uid(u) => if u in c.s.byFunctionUID { assert UidCovered(c, u); }
      }
    }
  }

  lemma Extend(run: seq<Step>, step: Step)
    requires Exec(run).Some? && Enabled(Exec(run).value, step)
    ensures Exec(run + [step]) == Some(Apply(Exec(run).value, step))
  {
    assert (run + [step])[..|run|] == run;
  }

  /** A run that makes these operations, begun one after the other, in this order. */
  lemma Interleave(run: seq<Step>, order: seq<nat>, now: int) returns (whole: seq<Step>)
    requires Exec(run).Some? && forall i :: 0 <= i < |order| ==> order[i] in Exec(run).value.threads
    ensures Exec(whole) == Some(Turns(Exec(run).value, order, now))
    decreases |order|
  {
    whole := run;
    if order != [] {
      Extend(run, Go(order[0], now));
      whole := Interleave(run + [Go(order[0], now)], order[1..], now);
    }
  }

  function Turns(c: Conf, order: seq<nat>, now: int): Conf
    requires forall i :: 0 <= i < |order| ==> order[i] in c.threads
    decreases |order|
  {
    if order == [] then c else Turns(Next(c, order[0], now), order[1..], now)
  }

  /** A delete that runs between the first and the second store of an Add of
      the same new service leaves its address and its UID leading nowhere. */
  lemma DeleteInsideAddBreaks(fn: Meta, a: string, now: int) returns (run: seq<Step>)
    requires Clean(fn)
    ensures Exec(run).Some?
    ensures var c := Exec(run).value;
      && AtRest(c) && !Agree(c.s)
      && a in c.s.byAddress && fn.uid in c.s.byFunctionUID && CacheKey(fn) !in c.s.byFunction
  {
    assert Exec([]) == Some(Initial);
    Extend([], Begin(0, StoreFunction(fn, a)));
    Extend([] + [Begin(0, StoreFunction(fn, a))], Begin(1, DropFunction(fn, a)));
    var begun := [] + [Begin(0, StoreFunction(fn, a))] + [Begin(1, DropFunction(fn, a))];
    var c0 := Conf(Empty, map[0 := StoreFunction(fn, a), 1 := DropFunction(fn, a)]);
    assert Exec(begun) == Some(c0);
    run := Interleave(begun, [0, 1, 1, 1, 0, 0], now);
    ThenBreaks(fn, a, now);
  }

  lemma ThenBreaks(fn: Meta, a: string, now: int)
    requires Clean(fn)
    ensures var c0 := Conf(Empty, map[0 := StoreFunction(fn, a), 1 := DropFunction(fn, a)]);
      var c := Turns(c0, [0, 1, 1, 1, 0, 0], now);
      && AtRest(c) && !Agree(c.s)
      && a in c.s.byAddress && fn.uid in c.s.byFunctionUID && CacheKey(fn) !in c.s.byFunction
  {
    var c0 := Conf(Empty, map[0 := StoreFunction(fn, a), 1 := DropFunction(fn, a)]);
    var c1 := Next(c0, 0, now);
    assert c1 == Conf(Empty.(byFunction := map[CacheKey(fn) := Svc(fn, a, now, now)]),
                      map[0 := StoreAddress(fn, a), 1 := DropFunction(fn, a)]);
    var c4 := Next(Next(Next(c1, 1, now), 1, now), 1, now);
    assert c4 == Conf(Empty, map[0 := StoreAddress(fn, a), 1 := Finished]);
    var c6 := Next(Next(c4, 0, now), 0, now);
    assert c6 == Conf(State(map[], map[a := fn], map[fn.uid := fn]), map[0 := Finished, 1 := Finished]);
    assert !AddressOk(c6.s, a);
    assert Turns(c0, [0, 1, 1, 1, 0, 0], now) == c6 by {
      assert Turns(c4, [0, 0], now) == c6;
    }
  }
}
