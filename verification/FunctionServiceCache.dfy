/** The executor's index of function services
    (pkg/executor/fscache/functionServiceCache.go): three caches without
    expiry, which therefore act as plain insert-if-absent maps
    (TimedCache.NoExpiryRefinesMap). Operations run one after another. */
module FunctionServiceCache {
  import opened Keys

  /** A function service: the function it is for, its address, and when it was made and last used. */
  datatype Svc = Svc(fn: Meta, address: string, ctime: int, atime: int)

  datatype State = State(byFunction: map<string, Svc>, byAddress: map<string, Meta>, byFunctionUID: map<string, Meta>)

  const Empty := State(map[], map[], map[])

  /** What Add answers: nothing, the service already cached, or a not-found error. */
  datatype Added = Fresh | Existing(svc: Svc) | TouchFailed

  function TouchKey(s: State, key: string, now: int): State
    requires key in s.byFunction
  {
    s.(byFunction := s.byFunction[key := s.byFunction[key].(atime := now)])
  }

  predicate Touches(s: State, address: string) {
    address in s.byAddress && CacheKey(s.byAddress[address]) in s.byFunction
  }

  function AfterTouch(s: State, address: string, now: int): State {
    if Touches(s, address) then TouchKey(s, CacheKey(s.byAddress[address]), now) else s
  }

  function InsertIfAbsent(m: map<string, Meta>, k: string, v: Meta): map<string, Meta> {
    if k in m then m else m[k := v]
  }

  function AfterAdd(s: State, fn: Meta, address: string, now: int): (State, Added) {
    var key := CacheKey(fn);
    if key in s.byFunction then
      var s' := AfterTouch(s, s.byFunction[key].address, now);
      (s', if Touches(s, s.byFunction[key].address) then Existing(s'.byFunction[key]) else TouchFailed)
    else
      (State(s.byFunction[key := Svc(fn, address, now, now)],
             InsertIfAbsent(s.byAddress, address, fn),
             if address in s.byAddress then s.byFunctionUID else InsertIfAbsent(s.byFunctionUID, fn.uid, fn)),
       Fresh)
  }

  function AfterDelete(s: State, fn: Meta, address: string): State {
    State(s.byFunction - {CacheKey(fn)}, s.byAddress - {address}, s.byFunctionUID - {fn.uid})
  }

  function AfterGet(s: State, key: string, now: int): (State, Option<Svc>) {
    if key in s.byFunction then
      var s' := TouchKey(s, key, now);
      (s', Some(s'.byFunction[key]))
    else (s, None)
  }

  function AfterGetUID(s: State, uid: string, now: int): (State, Option<Svc>) {
    if uid in s.byFunctionUID then AfterGet(s, CacheKey(s.byFunctionUID[uid]), now) else (s, None)
  }

  // ----- agreement of the three indexes

  predicate Clean(m: Meta) { '_' !in m.uid }

  predicate AddressOk(s: State, a: string)
    requires a in s.byAddress
  {
    var k := CacheKey(s.byAddress[a]);
    Clean(s.byAddress[a]) && k in s.byFunction && s.byFunction[k].address == a
  }

  predicate UidOk(s: State, u: string)
    requires u in s.byFunctionUID
  {
    var m := s.byFunctionUID[u];
    Clean(m) && m.uid == u && CacheKey(m) in s.byFunction
  }

  /** Every address points to a cached service with that address, every UID to
      a cached service of that function, and every service is under its own key. */
  ghost predicate Agree(s: State) {
    && (forall k :: k in s.byFunction ==> CacheKey(s.byFunction[k].fn) == k && Clean(s.byFunction[k].fn))
    && (forall a :: a in s.byAddress ==> AddressOk(s, a))
    && (forall u :: u in s.byFunctionUID ==> UidOk(s, u))
  }

  lemma TouchKeepsAgree(s: State, key: string, now: int)
    requires Agree(s) && key in s.byFunction
    ensures Agree(TouchKey(s, key, now))
  {
    var s' := TouchKey(s, key, now);
    forall a | a in s'.byAddress ensures AddressOk(s', a) { assert AddressOk(s, a); }
    forall u | u in s'.byFunctionUID ensures UidOk(s', u) { assert UidOk(s, u); }
  }

  lemma AddKeepsAgree(s: State, fn: Meta, address: string, now: int)
    requires Agree(s) && Clean(fn)
    ensures Agree(AfterAdd(s, fn, address, now).0)
  {
    var s' := AfterAdd(s, fn, address, now).0;
    var key := CacheKey(fn);
    if key in s.byFunction {
      if Touches(s, s.byFunction[key].address) {
        TouchKeepsAgree(s, CacheKey(s.byAddress[s.byFunction[key].address]), now);
      }
    } else {
      forall a | a in s'.byAddress ensures AddressOk(s', a) { if a in s.byAddress { assert AddressOk(s, a); } }
      forall u | u in s'.byFunctionUID ensures UidOk(s', u) { if u in s.byFunctionUID { assert UidOk(s, u); } }
    }
  }

  /** The services a caller may delete: those not cached any more, and those
      whose address is the cached one, or whose cached address leads elsewhere. */
  predicate Deletable(s: State, fn: Meta, address: string) {
    var key := CacheKey(fn);
    key in s.byFunction && s.byFunction[key].address != address ==>
      !(s.byFunction[key].address in s.byAddress && CacheKey(s.byAddress[s.byFunction[key].address]) == key)
  }

  /** DeleteEntry keeps the indexes in agreement exactly for those. */
  lemma DeleteKeepsAgreeIff(s: State, fn: Meta, address: string)
    requires Agree(s) && Clean(fn)
    ensures Agree(AfterDelete(s, fn, address)) <==> Deletable(s, fn, address)
  {
    var s' := AfterDelete(s, fn, address);
    var key := CacheKey(fn);
    if Deletable(s, fn, address) {
      forall a | a in s'.byAddress ensures AddressOk(s', a) { assert AddressOk(s, a); }
      forall u | u in s'.byFunctionUID ensures UidOk(s', u) {
        assert UidOk(s, u);
        CacheKeyIdentifies(s.byFunctionUID[u], fn);
      }
    } else {
      var a := s.byFunction[key].address;
      assert a in s'.byAddress && !AddressOk(s', a);
    }
  }

  /** While the indexes agree, an address that is indexed is never found to
      lead nowhere: touching it succeeds, and refreshes exactly one service,
      which has that address. */
  lemma TouchIsExact(s: State, address: string, now: int)
    requires Agree(s)
    ensures Touches(s, address) <==> address in s.byAddress
    ensures var s' := AfterTouch(s, address, now);
      address in s.byAddress ==>
        var k := CacheKey(s.byAddress[address]);
        && s'.byFunction[k] == s.byFunction[k].(atime := now) && s.byFunction[k].address == address
        && s'.byFunction.Keys == s.byFunction.Keys
        && forall l :: l in s.byFunction && l != k ==> s'.byFunction[l] == s.byFunction[l]
  {
    if address in s.byAddress {
      assert AddressOk(s, address);
    }
  }

  /** Likewise a UID that is indexed always finds a service of that very function. */
  lemma GetUIDIsExact(s: State, uid: string, now: int)
    requires Agree(s)
    ensures var r := AfterGetUID(s, uid, now).1;
      && (r.Some? <==> uid in s.byFunctionUID)
      && (r.Some? ==> r.value.fn.uid == uid && r.value.atime == now)
  {
    if uid in s.byFunctionUID {
      assert UidOk(s, uid);
      var m := s.byFunctionUID[uid];
      CacheKeyIdentifies(m, s.byFunction[CacheKey(m)].fn);
    }
  }

  /** A new service is found by its function; its address and UID lead to it
      unless another service had taken the address, or the address or the UID, first. */
  lemma AddThenFind(s: State, fn: Meta, address: string, now: int, later: int)
    requires Agree(s) && Clean(fn) && CacheKey(fn) !in s.byFunction
    ensures var s' := AfterAdd(s, fn, address, now).0;
      && AfterGet(s', CacheKey(fn), later).1 == Some(Svc(fn, address, now, later))
      && AfterAdd(s, fn, address, now).1 == Fresh
      && (address in s.byAddress ==> s'.byAddress == s.byAddress && s'.byFunctionUID == s.byFunctionUID)
      && (AfterTouch(s', address, later).byFunction[CacheKey(fn)].atime == later <==>
          later == now || address !in s.byAddress)
      && (address !in s.byAddress && fn.uid !in s.byFunctionUID ==>
            AfterGetUID(s', fn.uid, later).1 == Some(Svc(fn, address, now, later)))
  {
    if address in s.byAddress {
      assert AddressOk(s, address);
    }
  }

  /** A service for a function that is cached already is not added. Add touches
      the service that the cached one's address leads to, and answers with the
      cached one as it then is, with a new access time only if it is the one
      touched. If the address leads nowhere, Add fails and changes nothing. */
  lemma AddAgainIsExact(s: State, fn: Meta, address: string, now: int)
    requires Agree(s) && CacheKey(fn) in s.byFunction
    ensures var (s', r) := AfterAdd(s, fn, address, now);
      var key := CacheKey(fn);
      var cached := s.byFunction[key];
      if cached.address !in s.byAddress then s' == s && r == TouchFailed
      else
        var leads := CacheKey(s.byAddress[cached.address]);
        && s'.byAddress == s.byAddress && s'.byFunctionUID == s.byFunctionUID
        && s'.byFunction.Keys == s.byFunction.Keys
        && (forall k | k in s.byFunction ::
              var svc := s.byFunction[k];
              s'.byFunction[k] == Svc(svc.fn, svc.address, svc.ctime, if k == leads then now else svc.atime))
        && r == Existing(Svc(cached.fn, cached.address, cached.ctime, if leads == key then now else cached.atime))
  {
    var address := s.byFunction[CacheKey(fn)].address;
    if address in s.byAddress {
      assert AddressOk(s, address);
    }
  }

  /** Delete removes what is cached for the function, whatever its address, and
      what the address and the UID lead to, whatever that is; nothing else. */
  lemma DeleteIsExact(s: State, fn: Meta, address: string, k: string, a: string, u: string)
    ensures var s' := AfterDelete(s, fn, address);
      && (k in s'.byFunction <==> k in s.byFunction && k != CacheKey(fn))
      && (a in s'.byAddress <==> a in s.byAddress && a != address)
      && (u in s'.byFunctionUID <==> u in s.byFunctionUID && u != fn.uid)
      && (k in s'.byFunction ==> s'.byFunction[k] == s.byFunction[k])
      && (a in s'.byAddress ==> s'.byAddress[a] == s.byAddress[a])
      && (u in s'.byFunctionUID ==> s'.byFunctionUID[u] == s.byFunctionUID[u])
  {
  }

  /** Deleting what was just added undoes the Add exactly when the new
      service's address and UID were not indexed before. */
  lemma DeleteUndoesAddIff(s: State, fn: Meta, address: string, now: int)
    requires CacheKey(fn) !in s.byFunction
    ensures AfterDelete(AfterAdd(s, fn, address, now).0, fn, address) == s
       <==> address !in s.byAddress && fn.uid !in s.byFunctionUID
  {
    var s'' := AfterDelete(AfterAdd(s, fn, address, now).0, fn, address);
    assert s''.byFunction == s.byFunction;
    if address !in s.byAddress && fn.uid !in s.byFunctionUID {
      assert s''.byAddress == s.byAddress && s''.byFunctionUID == s.byFunctionUID;
    } else {
      assert address !in s''.byAddress && fn.uid !in s''.byFunctionUID;
    }
  }

  // ----- whole runs

  datatype Op =
    | Add(fn: Meta, address: string)
    | DeleteEntry(fn: Meta, address: string)
    | Touch(address: string)
    | GetByFunction(fn: Meta)
    | GetByFunctionUID(uid: string)

  function Apply(s: State, op: Op, now: int): State {
    match op
    case Add(fn, a) => AfterAdd(s, fn, a, now).0
    case DeleteEntry(fn, a) => AfterDelete(s, fn, a)
    case Touch(a) => AfterTouch(s, a, now)
    case GetByFunction(fn) => AfterGet(s, CacheKey(fn), now).0
    case GetByFunctionUID(u) => AfterGetUID(s, u, now).0
  }

  predicate Proper(s: State, op: Op) {
    match op
    case Add(fn, _) => Clean(fn)
    case DeleteEntry(fn, a) => Clean(fn) && Deletable(s, fn, a)
    case _ => true
  }

  function Exec(s: State, run: seq<(Op, int)>): Option<State>
    decreases |run|
  {
    if run == [] then Some(s)
    else if Proper(s, run[0].0) then Exec(Apply(s, run[0].0, run[0].1), run[1..])
    else None
  }

  /** Between operations the indexes agree, in every run whose deletes are proper. */
  lemma {:induction false} EveryRunAgrees(s: State, run: seq<(Op, int)>)
    requires Agree(s)
    ensures Exec(s, run).Some? ==> Agree(Exec(s, run).value)
    decreases |run|
  {
    if run != [] && Proper(s, run[0].0) {
      var (op, now) := run[0];
      match op {
        case Add(fn, a) => AddKeepsAgree(s, fn, a, now);
        case DeleteEntry(fn, a) => DeleteKeepsAgreeIff(s, fn, a);
        case Touch(a) => if Touches(s, a) { TouchKeepsAgree(s, CacheKey(s.byAddress[a]), now); }
        case GetByFunction(fn) => if CacheKey(fn) in s.byFunction { TouchKeepsAgree(s, CacheKey(fn), now); }
        case GetByFunctionUID(u) =>
          if u in s.byFunctionUID {
            assert UidOk(s, u);
            TouchKeepsAgree(s, CacheKey(s.byFunctionUID[u]), now);
          }
      }
      EveryRunAgrees(Apply(s, op, now), run[1..]);
    }
  }

  // ----- the cache itself, whose entries are shared objects

  class FuncSvc {
    const fn: Meta
    const address: string
    var ctime: int
    var atime: int

    constructor (fn: Meta, address: string, ctime: int, atime: int)
      ensures Value() == Svc(fn, address, ctime, atime)
    {
      this.fn, this.address, this.ctime, this.atime := fn, address, ctime, atime;
    }

    function Value(): Svc
      reads this
    {
      Svc(fn, address, ctime, atime)
    }
  }

  class Cache {
    var byFunction: map<string, FuncSvc>
    var byAddress: map<string, Meta>
    var byFunctionUID: map<string, Meta>
    ghost var state: State

    ghost predicate Valid()
      reads this, byFunction.Values
    {
      && byFunction.Keys == state.byFunction.Keys
      && (forall k :: k in byFunction ==> byFunction[k].Value() == state.byFunction[k])
      && (forall k, l :: k in byFunction && l in byFunction && byFunction[k] == byFunction[l] ==> k == l)
      && byAddress == state.byAddress && byFunctionUID == state.byFunctionUID
    }

    constructor ()
      ensures Valid() && state == Empty
    {
      byFunction, byAddress, byFunctionUID, state := map[], map[], map[], Empty;
    }

    /** fsvc.Atime = now, through the shared pointer. */
    method SetAtime(key: string, now: int)
      requires Valid() && key in byFunction
      modifies byFunction[key], this`state
      ensures Valid() && state == TouchKey(old(state), key, now)
    {
      byFunction[key].atime := now;
      state := TouchKey(state, key, now);
    }

    method TouchByAddress(address: string, now: int) returns (ok: bool)
      requires Valid()
      modifies byFunction.Values, this`state
      ensures Valid() && state == AfterTouch(old(state), address, now)
      ensures ok == Touches(old(state), address)
    {
      if address !in byAddress {
        return false;
      }
      var m := byAddress[address];
      if CacheKey(m) !in byFunction {
        return false;
      }
      SetAtime(CacheKey(m), now);
      return true;
    }

    method GetByFunction(m: Meta, now: int) returns (r: Option<Svc>)
      requires Valid()
      modifies byFunction.Values, this`state
      ensures Valid() && (state, r) == AfterGet(old(state), CacheKey(m), now)
    {
      var key := CacheKey(m);
      if key !in byFunction {
        return None;
      }
      SetAtime(key, now);
      r := Some(byFunction[key].Value());
    }

    method GetByFunctionUID(uid: string, now: int) returns (r: Option<Svc>)
      requires Valid()
      modifies byFunction.Values, this`state
      ensures Valid() && (state, r) == AfterGetUID(old(state), uid, now)
    {
      if uid !in byFunctionUID {
        return None;
      }
      r := GetByFunction(byFunctionUID[uid], now);
    }

    /** Caches a new object and then sets both its times through the shared pointer. */
    method Store(key: string, fn: Meta, address: string, now: int)
      requires Valid() && key !in byFunction
      modifies this`byFunction, this`state
      ensures Valid()
      ensures state == old(state).(byFunction := old(state).byFunction[key := Svc(fn, address, now, now)])
    {
      var fsvc := new FuncSvc(fn, address, 0, 0);
      byFunction := byFunction[key := fsvc];
      fsvc.ctime := now;
      fsvc.atime := now;
      state := state.(byFunction := state.byFunction[key := Svc(fn, address, now, now)]);
    }

    method Add(fn: Meta, address: string, now: int) returns (r: Added)
      requires Valid()
      modifies this, byFunction.Values
      ensures Valid() && (state, r) == AfterAdd(old(state), fn, address, now)
    {
      var key := CacheKey(fn);
      if key in byFunction {
        var f := byFunction[key];
        var ok := TouchByAddress(f.address, now);
        return if ok then Existing(f.Value()) else TouchFailed;
      }
      Store(key, fn, address, now);
      r := Fresh;
      if address in byAddress {
        return;
      }
      byAddress := byAddress[address := fn];
      state := state.(byAddress := byAddress);
      if fn.uid in byFunctionUID {
        return;
      }
      byFunctionUID := byFunctionUID[fn.uid := fn];
      state := state.(byFunctionUID := byFunctionUID);
    }

    method DeleteEntry(fn: Meta, address: string)
      requires Valid()
      modifies this
      ensures Valid() && state == AfterDelete(old(state), fn, address)
    {
      byFunction := byFunction - {CacheKey(fn)};
      byAddress := byAddress - {address};
      byFunctionUID := byFunctionUID - {fn.uid};
      state := AfterDelete(state, fn, address);
    }

    /** fsvc may be an entry that ListOld returned, shared with the cache. */
    method DeleteOld(fsvc: FuncSvc, minAge: int, now: int) returns (deleted: bool)
      requires Valid()
      modifies this
      ensures Valid() && deleted == (now - fsvc.atime >= minAge)
      ensures state == if deleted then AfterDelete(old(state), fsvc.fn, fsvc.address) else old(state)
    {
      if now - fsvc.atime < minAge {
        return false;
      }
      DeleteEntry(fsvc.fn, fsvc.address);
      return true;
    }

    /** The services idle for longer than age: the cached objects themselves, each once. */
    method ListOld(age: int, now: int) returns (objects: seq<FuncSvc>)
      requires Valid()
      ensures forall k :: k in byFunction ==> (byFunction[k] in objects <==> now - state.byFunction[k].atime > age)
      ensures forall o :: o in objects ==> o in byFunction.Values
      ensures forall i, j :: 0 <= i < j < |objects| ==> objects[i] != objects[j]
    {
      objects := [];
      var rest := byFunction.Keys;
      while rest != {}
        invariant rest <= byFunction.Keys
        invariant forall k :: k in byFunction ==>
          (byFunction[k] in objects <==> k !in rest && now - state.byFunction[k].atime > age)
        invariant forall o :: o in objects ==> o in byFunction.Values
        invariant forall i, j :: 0 <= i < j < |objects| ==> objects[i] != objects[j]
      {
        var k :| k in rest;
        var fsvc := byFunction[k];
        if now - fsvc.atime > age {
          objects := objects + [fsvc];
        }
        rest := rest - {k};
      }
    }

    /** What ListOld gave back, with its own address, is always safe to delete. */
    lemma CachedIsDeletable(fsvc: FuncSvc)
      requires Valid() && Agree(state) && fsvc in byFunction.Values
      ensures Deletable(state, fsvc.fn, fsvc.address)
    {
      var k :| k in byFunction && byFunction[k] == fsvc;
      assert state.byFunction[k] == fsvc.Value();
      assert CacheKey(state.byFunction[k].fn) == k;
    }
  }
}
