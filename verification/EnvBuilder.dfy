/** Environment builders (pkg/buildermgr/envwatcher.go): one service and one
    deployment for each environment that has a builder image, kept by a service
    loop that handles GET_BUILDER and CLEANUP_BUILDERS one after another. */
module EnvBuilder {
  import opened Keys

  datatype Labels = Labels(envName: string, envNamespace: string, envResourceVersion: string)

  /** A service or a deployment that carries the builder manager's labels. */
  datatype Object = Object(name: string, namespace: string, labels: Labels)

  datatype Env = Env(meta: Meta, version: int, builderImage: string)

  datatype BuilderInfo = BuilderInfo(service: Object, deployment: Object)

  /** What one create or delete call does: it works, it fails, or it reports an
      error although it has worked. */
  datatype Call = Works | Fails | WorksWithError {
    predicate Applied() { !Fails? }
    predicate Reported() { Works? }
  }

  datatype GetAnswers = GetAnswers(svcListOk: bool, svcCreate: Call, deployListOk: bool, saOk: bool, deployCreate: Call)
  datatype CleanupAnswers =
    CleanupAnswers(svcListOk: bool, svcDelete: nat -> Call, deployListOk: bool, deployDelete: nat -> Call)

  datatype State = State(services: seq<Object>, deployments: seq<Object>, cache: map<string, BuilderInfo>)

  const DEFAULT_NAMESPACE := "default"

  function CacheKeyOf(l: Labels): string { l.envName + "-" + l.envNamespace + "-" + l.envResourceVersion }

  function NamespaceOf(builderNamespace: string, env: Env): string {
    if env.meta.namespace != DEFAULT_NAMESPACE then env.meta.namespace else builderNamespace
  }

  function LabelsOf(builderNamespace: string, env: Env): Labels {
    Labels(env.meta.name, NamespaceOf(builderNamespace, env), env.meta.resourceVersion)
  }

  function ObjectFor(l: Labels): Object { Object(l.envName + "-" + l.envResourceVersion, l.envNamespace, l) }

  /** The objects a list call with all four labels finds in the labels' namespace. */
  function Select(objs: seq<Object>, l: Labels): seq<Object> {
    if objs == [] then []
    else
      var rest := Select(objs[..|objs| - 1], l);
      if objs[|objs| - 1].labels == l && objs[|objs| - 1].namespace == l.envNamespace
      then rest + [objs[|objs| - 1]] else rest
  }

  /** One half of createBuilder, for services or for deployments: use the one
      object there is, create it if there is none, refuse if there are more. */
  function Ensure(objs: seq<Object>, l: Labels, listOk: bool, setupOk: bool, create: Call)
    : (seq<Object>, Option<Object>)
  {
    if !listOk then (objs, None)
    else
      var found := Select(objs, l);
      if |found| == 1 then (objs, Some(found[0]))
      else if |found| > 1 || !setupOk then (objs, None)
      else
        (if create.Applied() then objs + [ObjectFor(l)] else objs,
         if create.Reported() then Some(ObjectFor(l)) else None)
  }

  datatype Response = Err | Info(info: Option<BuilderInfo>)

  function AfterCreate(s: State, l: Labels, a: GetAnswers): (State, Option<BuilderInfo>) {
    var (services, svc) := Ensure(s.services, l, a.svcListOk, true, a.svcCreate);
    if svc == None then (s.(services := services), None)
    else
      var (deployments, deploy) := Ensure(s.deployments, l, a.deployListOk, a.saOk, a.deployCreate);
      (s.(services := services, deployments := deployments),
       if deploy == None then None else Some(BuilderInfo(svc.value, deploy.value)))
  }

  /** GET_BUILDER. The variable that createBuilder's result is assigned to is
      local to its branch, so the response to a creation carries no info. */
  function AfterGet(s: State, l: Labels, a: GetAnswers): (State, Response) {
    var key := CacheKeyOf(l);
    if key in s.cache then (s, Info(Some(s.cache[key])))
    else
      var (s', info) := AfterCreate(s, l, a);
      if info == None then (s', Err) else (s'.(cache := s'.cache[key := info.value]), Info(None))
  }

  /** The objects left after the first n have been visited: those with a listed
      key, and those whose deletion did not happen. */
  function Kept(objs: seq<Object>, listed: set<string>, delete: nat -> Call, n: nat): seq<Object>
    requires n <= |objs|
  {
    if n == 0 then []
    else
      var rest := Kept(objs, listed, delete, n - 1);
      if CacheKeyOf(objs[n - 1].labels) in listed || !delete(n - 1).Applied() then rest + [objs[n - 1]] else rest
  }

  function KeysOf(objs: seq<Object>): set<string> { set i | 0 <= i < |objs| :: CacheKeyOf(objs[i].labels) }

  function AfterCleanup(s: State, listed: set<string>, a: CleanupAnswers): State {
    State(if a.svcListOk then Kept(s.services, listed, a.svcDelete, |s.services|) else s.services,
          if a.deployListOk then Kept(s.deployments, listed, a.deployDelete, |s.deployments|) else s.deployments,
          s.cache
            - (if a.svcListOk then KeysOf(s.services) else {})
            - (if a.deployListOk then KeysOf(s.deployments) else {}))
  }

  // ----- at most one of each

  ghost predicate AtMostOne(objs: seq<Object>) {
    forall i, j :: 0 <= i < j < |objs| ==> objs[i].labels != objs[j].labels
  }

  /** Every builder object lives in the namespace its labels name. */
  ghost predicate InPlace(objs: seq<Object>) {
    forall i :: 0 <= i < |objs| ==> objs[i].namespace == objs[i].labels.envNamespace
  }

  ghost predicate Has(objs: seq<Object>, l: Labels) {
    exists i :: 0 <= i < |objs| && objs[i].labels == l
  }

  lemma {:induction false} SelectFinds(objs: seq<Object>, l: Labels)
    requires InPlace(objs)
    ensures (Select(objs, l) == []) <==> !Has(objs, l)
    ensures forall i :: 0 <= i < |Select(objs, l)| ==> Select(objs, l)[i].labels == l
    ensures AtMostOne(objs) ==> |Select(objs, l)| <= 1
  {
    if objs != [] {
      var before, o := objs[..|objs| - 1], objs[|objs| - 1];
      SelectFinds(before, l);
      assert Has(before, l) ==> Has(objs, l);
      if o.labels == l {
        assert objs[|objs| - 1].labels == l;
        assert Has(objs, l);
        if AtMostOne(objs) { assert !Has(before, l); }
      } else if Has(objs, l) {
        var i :| 0 <= i < |objs| && objs[i].labels == l;
        assert before[i].labels == l;
      }
    }
  }

  lemma EnsureKeepsAtMostOne(objs: seq<Object>, l: Labels, listOk: bool, setupOk: bool, create: Call)
    requires AtMostOne(objs) && InPlace(objs)
    ensures var (objs', o) := Ensure(objs, l, listOk, setupOk, create);
      && AtMostOne(objs') && InPlace(objs')
      && (o.Some? ==> o.value.labels == l && Has(objs', l))
      && (forall m :: Has(objs', m) <==> Has(objs, m) || (m == l && Has(objs', l)))
      && (listOk && setupOk && create.Works? ==> o.Some?)
  {
    SelectFinds(objs, l);
    var (objs', o) := Ensure(objs, l, listOk, setupOk, create);
    if objs' != objs {
      assert objs'[|objs|].labels == l;
      forall m ensures Has(objs', m) <==> Has(objs, m) || (m == l && Has(objs', l)) {
        if Has(objs, m) {
          var i :| 0 <= i < |objs| && objs[i].labels == m;
          assert objs'[i].labels == m;
        }
      }
    }
  }

  lemma {:induction false} KeptIsExact(objs: seq<Object>, listed: set<string>, delete: nat -> Call, n: nat)
    requires n <= |objs|
    ensures var kept := Kept(objs, listed, delete, n);
      && (AtMostOne(objs) ==> AtMostOne(kept)) && (InPlace(objs) ==> InPlace(kept))
      && (forall o :: o in kept ==> StaysBelow(objs, listed, delete, n, o))
      && (forall j :: 0 <= j < n && Stays(objs, listed, delete, j) ==> objs[j] in kept)
  {
    if n > 0 {
      KeptIsExact(objs, listed, delete, n - 1);
      var before, kept := Kept(objs, listed, delete, n - 1), Kept(objs, listed, delete, n);
      forall o | o in kept ensures StaysBelow(objs, listed, delete, n, o) {
        if o in before {
          assert StaysBelow(objs, listed, delete, n - 1, o);
        } else {
          assert objs[n - 1] == o && Stays(objs, listed, delete, n - 1);
        }
      }
      forall i, j | 0 <= i < j < |kept| && AtMostOne(objs) ensures kept[i].labels != kept[j].labels {
        assert kept[i] in before;
        assert StaysBelow(objs, listed, delete, n - 1, kept[i]);
      }
    }
  }

  ghost predicate StaysBelow(objs: seq<Object>, listed: set<string>, delete: nat -> Call, n: nat, o: Object) {
    exists j :: 0 <= j < n && Stays(objs, listed, delete, j) && objs[j] == o
  }

  predicate Stays(objs: seq<Object>, listed: set<string>, delete: nat -> Call, j: int) {
    0 <= j < |objs| && (CacheKeyOf(objs[j].labels) in listed || !delete(j).Applied())
  }

  ghost predicate Sound(s: State) {
    && AtMostOne(s.services) && InPlace(s.services)
    && AtMostOne(s.deployments) && InPlace(s.deployments)
  }

  /** Requests of the service loop, with whatever the cluster answers to them. */
  datatype Request =
    | Get(labels: Labels, getAnswers: GetAnswers)
    | Cleanup(listed: set<string>, cleanupAnswers: CleanupAnswers)

  function Apply(s: State, r: Request): State {
    match r
    case Get(l, a) => AfterGet(s, l, a).0
    case Cleanup(listed, a) => AfterCleanup(s, listed, a)
  }

  function Run(s: State, rs: seq<Request>): State
    decreases |rs|
  {
    if rs == [] then s else Run(Apply(s, rs[0]), rs[1..])
  }

  lemma RequestKeepsSound(s: State, r: Request)
    requires Sound(s)
    ensures Sound(Apply(s, r))
  {
    match r
    case Get(l, a) =>
      EnsureKeepsAtMostOne(s.services, l, a.svcListOk, true, a.svcCreate);
      EnsureKeepsAtMostOne(s.deployments, l, a.deployListOk, a.saOk, a.deployCreate);
    case Cleanup(listed, a) =>
      KeptIsExact(s.services, listed, a.svcDelete, |s.services|);
      KeptIsExact(s.deployments, listed, a.deployDelete, |s.deployments|);
  }

  /** However creations and deletions fail, half done or done and reported as
      errors, any run of requests keeps at most one service and one deployment
      for each environment name, namespace and resource version. */
  lemma {:induction false} EveryRunIsSound(s: State, rs: seq<Request>)
    requires Sound(s)
    ensures Sound(Run(s, rs))
    decreases |rs|
  {
    if rs != [] {
      RequestKeepsSound(s, rs[0]);
      EveryRunIsSound(Apply(s, rs[0]), rs[1..]);
    }
  }

  /** CLEANUP removes nothing of a listed environment, and when no call fails it
      leaves nothing of any other. */
  lemma CleanupIsExact(s: State, listed: set<string>, a: CleanupAnswers)
    ensures var s' := AfterCleanup(s, listed, a);
      && (forall o :: o in s.services && CacheKeyOf(o.labels) in listed ==> o in s'.services)
      && (forall o :: o in s.deployments && CacheKeyOf(o.labels) in listed ==> o in s'.deployments)
      && (forall o :: o in s'.services ==> o in s.services) && (forall o :: o in s'.deployments ==> o in s.deployments)
      && (a.svcListOk && (forall i :: a.svcDelete(i).Works?) ==>
            forall o :: o in s'.services ==> CacheKeyOf(o.labels) in listed)
      && (a.deployListOk && (forall i :: a.deployDelete(i).Works?) ==>
            forall o :: o in s'.deployments ==> CacheKeyOf(o.labels) in listed)
  {
    KeptIsExact(s.services, listed, a.svcDelete, |s.services|);
    KeptIsExact(s.deployments, listed, a.deployDelete, |s.deployments|);
    var s' := AfterCleanup(s, listed, a);
    forall o | o in s.services && CacheKeyOf(o.labels) in listed ensures o in s'.services {
      var j :| 0 <= j < |s.services| && s.services[j] == o;
      assert Stays(s.services, listed, a.svcDelete, j);
    }
    forall o | o in s.deployments && CacheKeyOf(o.labels) in listed ensures o in s'.deployments {
      var j :| 0 <= j < |s.deployments| && s.deployments[j] == o;
      assert Stays(s.deployments, listed, a.deployDelete, j);
    }
  }

  /** CLEANUP drops from the cache the keys of all services and deployments it
      lists, also of those that stay, and no others. */
  lemma CleanupDropsKeys(s: State, listed: set<string>, a: CleanupAnswers, key: string)
    ensures var cache := AfterCleanup(s, listed, a).cache;
      && (key in cache <==>
            && key in s.cache
            && !(a.svcListOk && exists o :: o in s.services && CacheKeyOf(o.labels) == key)
            && !(a.deployListOk && exists o :: o in s.deployments && CacheKeyOf(o.labels) == key))
      && (key in cache ==> cache[key] == s.cache[key])
  {
    if o :| o in s.services && CacheKeyOf(o.labels) == key {
      assert key in KeysOf(s.services);
    }
    if o :| o in s.deployments && CacheKeyOf(o.labels) == key {
      assert key in KeysOf(s.deployments);
    }
  }

  // ----- when a GET fails

  predicate Match(o: Object, l: Labels) { o.labels == l && o.namespace == l.envNamespace }

  predicate NoMatch(objs: seq<Object>, l: Labels) { forall i :: 0 <= i < |objs| ==> !Match(objs[i], l) }

  /** Exactly one object carries the labels. */
  ghost predicate OneMatch(objs: seq<Object>, l: Labels) {
    exists i :: 0 <= i < |objs| && OnlyMatch(objs, l, i)
  }

  predicate OnlyMatch(objs: seq<Object>, l: Labels, i: nat)
    requires i < |objs|
  {
    Match(objs[i], l) && forall j :: 0 <= j < |objs| && j != i ==> !Match(objs[j], l)
  }

  lemma {:induction false} SelectCounts(objs: seq<Object>, l: Labels)
    ensures |Select(objs, l)| == 0 <==> NoMatch(objs, l)
    ensures |Select(objs, l)| == 1 <==> OneMatch(objs, l)
    ensures forall o :: o in Select(objs, l) ==> o in objs && Match(o, l)
  {
    if objs != [] {
      var n := |objs| - 1;
      var before := objs[..n];
      SelectCounts(before, l);
      if Match(objs[n], l) {
        assert NoMatch(before, l) ==> OnlyMatch(objs, l, n);
        if i :| 0 <= i < |objs| && OnlyMatch(objs, l, i) {
          assert i == n;
          assert forall j :: 0 <= j < n ==> before[j] == objs[j];
        }
      } else {
        if i :| 0 <= i < n && OnlyMatch(before, l, i) { assert OnlyMatch(objs, l, i); }
        if i :| 0 <= i < |objs| && OnlyMatch(objs, l, i) { assert OnlyMatch(before, l, i); }
      }
    }
  }

  /** There is one such object, or there is none and one could be created. */
  ghost predicate Available(objs: seq<Object>, l: Labels, listOk: bool, setupOk: bool, create: Call) {
    listOk && (OneMatch(objs, l) || (NoMatch(objs, l) && setupOk && create.Works?))
  }

  /** An object is used if it is the only one there, created if there is none,
      and refused if there are more, or if a call on the way reports an error. */
  lemma EnsureIsExact(objs: seq<Object>, l: Labels, listOk: bool, setupOk: bool, create: Call)
    ensures var (objs', o) := Ensure(objs, l, listOk, setupOk, create);
      && (o.Some? <==> Available(objs, l, listOk, setupOk, create))
      && (o.Some? ==> o.value in objs' && Match(o.value, l))
      && objs' == if listOk && NoMatch(objs, l) && setupOk && !create.Fails?
                  then objs + [Object(l.envName + "-" + l.envResourceVersion, l.envNamespace, l)] else objs
  {
    SelectCounts(objs, l);
  }

  /** A GET for a builder that is not cached is answered without error exactly
      when both its service and its deployment are available, and then cached;
      no deployment is made without the service. */
  lemma GetIsExact(s: State, l: Labels, a: GetAnswers)
    requires CacheKeyOf(l) !in s.cache
    ensures var (s', r) := AfterGet(s, l, a);
      var svc := Available(s.services, l, a.svcListOk, true, a.svcCreate);
      && (r.Info? <==> svc && Available(s.deployments, l, a.deployListOk, a.saOk, a.deployCreate))
      && (!svc ==> s'.deployments == s.deployments)
      && (r.Err? ==> s'.cache == s.cache)
      && (r.Info? ==> CacheKeyOf(l) in s'.cache && s'.cache == s.cache[CacheKeyOf(l) := s'.cache[CacheKeyOf(l)]])
  {
    EnsureIsExact(s.services, l, a.svcListOk, true, a.svcCreate);
    EnsureIsExact(s.deployments, l, a.deployListOk, a.saOk, a.deployCreate);
  }

  /** A GET that is answered without error carries builder info exactly when
      the builder was cached already; a builder just made is answered with none. */
  lemma GetCarriesInfoIff(s: State, l: Labels, a: GetAnswers)
    requires AfterGet(s, l, a).1.Info?
    ensures AfterGet(s, l, a).1.info.Some? <==> CacheKeyOf(l) in s.cache
    ensures CacheKeyOf(l) in AfterGet(s, l, a).0.cache
  {
  }

  /** A creation carries no info, but the same request sent again does, with
      the service and the deployment that carry the environment's labels. */
  lemma NextGetCarriesInfo(s: State, l: Labels, a: GetAnswers, again: GetAnswers)
    requires Sound(s) && CacheKeyOf(l) !in s.cache && AfterGet(s, l, a).1.Info?
    ensures AfterGet(s, l, a).1 == Info(None)
    ensures var r := AfterGet(AfterGet(s, l, a).0, l, again).1;
      r.Info? && r.info.Some? && r.info.value.service.labels == l && r.info.value.deployment.labels == l
  {
    EnsureKeepsAtMostOne(s.services, l, a.svcListOk, true, a.svcCreate);
    EnsureKeepsAtMostOne(s.deployments, l, a.deployListOk, a.saOk, a.deployCreate);
  }

  /** In an empty cluster a first request, with every call working, is answered without info. */
  lemma FirstGetHasNoInfo(l: Labels)
    ensures AfterGet(State([], [], map[]), l, GetAnswers(true, Works, true, true, Works)).1 == Info(None)
  {
    assert Select([], l) == [];
  }

  // ----- which environments share a cache key

  /** With no '-' in resource versions, two environments share a key exactly
      when they have one resource version and their names and namespaces,
      joined by '-', read alike. */
  lemma KeysCollideIff(l: Labels, m: Labels)
    requires '-' !in l.envResourceVersion && '-' !in m.envResourceVersion
    ensures CacheKeyOf(l) == CacheKeyOf(m) <==>
      && l.envResourceVersion == m.envResourceVersion
      && l.envName + "-" + l.envNamespace == m.envName + "-" + m.envNamespace
  {
    if CacheKeyOf(l) == CacheKeyOf(m) {
      JoinInjectiveLast(l.envName + "-" + l.envNamespace, l.envResourceVersion,
                        m.envName + "-" + m.envNamespace, m.envResourceVersion, '-');
    }
  }

  /** Such names exist; only the resource version keeps their keys apart. */
  lemma NamesCollide(v: string)
    ensures CacheKeyOf(Labels("a", "b-c", v)) == CacheKeyOf(Labels("a-b", "c", v))
  {
    assert "a" + "-" + "b-c" == "a-b-c" == "a-b" + "-" + "c";
  }

  /** No two of the environments have the same resource version, and none holds
      a '-': what one API server hands out. */
  ghost predicate OwnVersions(ls: set<Labels>) {
    && (forall l :: l in ls ==> '-' !in l.envResourceVersion)
    && (forall l, m :: l in ls && m in ls && l.envResourceVersion == m.envResourceVersion ==> l == m)
  }

  /** Then equal keys mean the same environment. */
  lemma OwnKeys(l: Labels, m: Labels, ls: set<Labels>)
    requires OwnVersions(ls) && l in ls && m in ls && CacheKeyOf(l) == CacheKeyOf(m)
    ensures l == m
  {
    KeysCollideIff(l, m);
  }

  /** What the cache holds is backed by the cluster. */
  ghost predicate Backed(s: State, ls: set<Labels>) {
    forall l :: l in ls && CacheKeyOf(l) in s.cache ==> Has(s.services, l) && Has(s.deployments, l)
  }

  lemma GetKeepsBacked(s: State, l: Labels, a: GetAnswers, ls: set<Labels>)
    requires Sound(s) && Backed(s, ls) && OwnVersions(ls) && l in ls
    ensures Backed(AfterGet(s, l, a).0, ls)
    ensures AfterGet(s, l, a).1.Info? ==>
      Has(AfterGet(s, l, a).0.services, l) && Has(AfterGet(s, l, a).0.deployments, l)
    ensures a.svcListOk && a.svcCreate.Works? && a.deployListOk && a.saOk && a.deployCreate.Works? ==>
      AfterGet(s, l, a).1.Info?
    ensures forall m :: Has(s.services, m) ==> Has(AfterGet(s, l, a).0.services, m)
    ensures forall m :: Has(s.deployments, m) ==> Has(AfterGet(s, l, a).0.deployments, m)
  {
    EnsureKeepsAtMostOne(s.services, l, a.svcListOk, true, a.svcCreate);
    EnsureKeepsAtMostOne(s.deployments, l, a.deployListOk, a.saOk, a.deployCreate);
    forall m | m in ls && CacheKeyOf(m) == CacheKeyOf(l) ensures m == l { OwnKeys(m, l, ls); }
  }

  lemma CleanupKeepsBacked(s: State, listed: set<string>, a: CleanupAnswers, ls: set<Labels>)
    requires Backed(s, ls)
    ensures Backed(AfterCleanup(s, listed, a), ls)
  {
    var s' := AfterCleanup(s, listed, a);
    forall l | l in ls && CacheKeyOf(l) in s'.cache ensures Has(s'.services, l) && Has(s'.deployments, l) {
      var i :| 0 <= i < |s.services| && s.services[i].labels == l;
      assert CacheKeyOf(s.services[i].labels) in KeysOf(s.services);
      var j :| 0 <= j < |s.deployments| && s.deployments[j].labels == l;
      assert CacheKeyOf(s.deployments[j].labels) in KeysOf(s.deployments);
    }
  }

  /** In every run, whatever fails, a cached builder is backed by the cluster,
      if ls, the environments there ever were, have their own resource versions. */
  lemma {:induction false} EveryRunIsBacked(s: State, rs: seq<Request>, ls: set<Labels>)
    requires Sound(s) && Backed(s, ls) && OwnVersions(ls)
    requires forall i :: 0 <= i < |rs| && rs[i].Get? ==> rs[i].labels in ls
    ensures Backed(Run(s, rs), ls)
    decreases |rs|
  {
    if rs != [] {
      RequestKeepsSound(s, rs[0]);
      match rs[0] {
        case Get(l, a) => GetKeepsBacked(s, l, a, ls);
        case Cleanup(listed, a) => CleanupKeepsBacked(s, listed, a, ls);
      }
      EveryRunIsBacked(Apply(s, rs[0]), rs[1..], ls);
    }
  }

  // ----- one synchronisation: a GET for each buildable environment, then a CLEANUP

  predicate Buildable(env: Env) { env.version != 1 && env.builderImage != "" }

  /** The GETs for the first n environments. */
  function AfterGets(s: State, ns: string, envs: seq<Env>, answers: nat -> GetAnswers, n: nat): State
    requires n <= |envs|
  {
    if n == 0 then s
    else
      GetIfBuildable(AfterGets(s, ns, envs, answers, n - 1), ns, envs[n - 1], answers(n - 1))
  }

  function GetIfBuildable(s: State, ns: string, env: Env, a: GetAnswers): State {
    if Buildable(env) then AfterGet(s, LabelsOf(ns, env), a).0 else s
  }

  function ListedKeys(ns: string, envs: seq<Env>): set<string> {
    set i | 0 <= i < |envs| :: CacheKeyOf(LabelsOf(ns, envs[i]))
  }

  function AfterSync(s: State, ns: string, envs: seq<Env>, answers: nat -> GetAnswers, a: CleanupAnswers): State {
    AfterCleanup(AfterGets(s, ns, envs, answers, |envs|), ListedKeys(ns, envs), a)
  }

  predicate AllWork(a: GetAnswers) {
    a.svcListOk && a.svcCreate.Works? && a.deployListOk && a.saOk && a.deployCreate.Works?
  }

  ghost predicate Built(s: State, l: Labels) { Has(s.services, l) && Has(s.deployments, l) }

  ghost predicate BuiltIfBuildable(s: State, ns: string, env: Env) { Buildable(env) ==> Built(s, LabelsOf(ns, env)) }

  lemma {:induction false} GetsKeepSound(s: State, ns: string, envs: seq<Env>, answers: nat -> GetAnswers, n: nat)
    requires n <= |envs| && Sound(s)
    ensures Sound(AfterGets(s, ns, envs, answers, n))
  {
    if n > 0 {
      GetsKeepSound(s, ns, envs, answers, n - 1);
      RequestKeepsSound(AfterGets(s, ns, envs, answers, n - 1), Get(LabelsOf(ns, envs[n - 1]), answers(n - 1)));
    }
  }

  lemma {:induction false} GetsKeepBacked(s: State, ns: string, envs: seq<Env>, answers: nat -> GetAnswers, n: nat,
                                          ls: set<Labels>)
    requires n <= |envs| && Sound(s) && Backed(s, ls) && OwnVersions(ls)
    requires forall i :: 0 <= i < n ==> LabelsOf(ns, envs[i]) in ls
    ensures Backed(AfterGets(s, ns, envs, answers, n), ls)
  {
    if n > 0 {
      GetsKeepSound(s, ns, envs, answers, n - 1);
      GetsKeepBacked(s, ns, envs, answers, n - 1, ls);
      GetKeepsBacked(AfterGets(s, ns, envs, answers, n - 1), LabelsOf(ns, envs[n - 1]), answers(n - 1), ls);
    }
  }

  lemma GetBuildsOne(s: State, ns: string, env: Env, a: GetAnswers, ls: set<Labels>)
    requires Sound(s) && Backed(s, ls) && OwnVersions(ls) && LabelsOf(ns, env) in ls && AllWork(a)
    ensures var s' := GetIfBuildable(s, ns, env, a);
      BuiltIfBuildable(s', ns, env) && forall m :: Built(s, m) ==> Built(s', m)
  {
    if Buildable(env) {
      GetKeepsBacked(s, LabelsOf(ns, env), a, ls);
    }
  }

  /** The n-th request builds its own environment's builder, and takes no other one away. */
  lemma NthGetBuilds(s: State, ns: string, envs: seq<Env>, answers: nat -> GetAnswers, n: nat, ls: set<Labels>,
                     other: Env)
    requires n < |envs| && Sound(s) && Backed(s, ls) && OwnVersions(ls)
    requires forall i :: 0 <= i <= n ==> LabelsOf(ns, envs[i]) in ls && AllWork(answers(i))
    ensures var before, after := AfterGets(s, ns, envs, answers, n), AfterGets(s, ns, envs, answers, n + 1);
      && BuiltIfBuildable(after, ns, envs[n])
      && (BuiltIfBuildable(before, ns, other) ==> BuiltIfBuildable(after, ns, other))
  {
    GetsKeepSound(s, ns, envs, answers, n);
    GetsKeepBacked(s, ns, envs, answers, n, ls);
    GetBuildsOne(AfterGets(s, ns, envs, answers, n), ns, envs[n], answers(n), ls);
  }

  /** After n requests each of the first n environments has its builder. */
  lemma {:induction false} GetsBuildAll(s: State, ns: string, envs: seq<Env>, answers: nat -> GetAnswers, n: nat,
                                        i: nat, ls: set<Labels>)
    requires i < n <= |envs| && Sound(s) && Backed(s, ls) && OwnVersions(ls)
    requires forall j :: 0 <= j < n ==> LabelsOf(ns, envs[j]) in ls && AllWork(answers(j))
    ensures BuiltIfBuildable(AfterGets(s, ns, envs, answers, n), ns, envs[i])
  {
    NthGetBuilds(s, ns, envs, answers, n - 1, ls, envs[i]);
    if i < n - 1 {
      GetsBuildAll(s, ns, envs, answers, n - 1, i, ls);
    }
  }

  ghost predicate ListedLabels(ns: string, envs: seq<Env>, l: Labels) {
    exists i :: 0 <= i < |envs| && LabelsOf(ns, envs[i]) == l
  }

  lemma CleanupKeepsListed(s: State, ns: string, envs: seq<Env>, i: nat, a: CleanupAnswers)
    requires i < |envs| && BuiltIfBuildable(s, ns, envs[i])
    ensures BuiltIfBuildable(AfterCleanup(s, ListedKeys(ns, envs), a), ns, envs[i])
  {
    if Buildable(envs[i]) {
      var l, listed := LabelsOf(ns, envs[i]), ListedKeys(ns, envs);
      var s' := AfterCleanup(s, listed, a);
      CleanupIsExact(s, listed, a);
      assert CacheKeyOf(l) in listed;
      var j :| 0 <= j < |s.services| && s.services[j].labels == l;
      assert s.services[j] in s'.services;
      var k :| 0 <= k < |s.deployments| && s.deployments[k].labels == l;
      assert s.deployments[k] in s'.deployments;
    }
  }

  /** Where environments have their own resource versions, a synchronisation in
      which no call fails leaves exactly one service and one deployment for each
      buildable environment, and nothing for environments that are not listed. */
  lemma SyncConverges(s: State, ns: string, envs: seq<Env>, answers: nat -> GetAnswers, a: CleanupAnswers,
                      ls: set<Labels>)
    requires Sound(s) && Backed(s, ls) && OwnVersions(ls)
    requires forall i :: 0 <= i < |envs| ==> LabelsOf(ns, envs[i]) in ls && AllWork(answers(i))
    requires a.svcListOk && a.deployListOk && forall i :: a.svcDelete(i).Works? && a.deployDelete(i).Works?
    ensures var s' := AfterSync(s, ns, envs, answers, a);
      && Sound(s')
      && (forall i :: 0 <= i < |envs| ==> BuiltIfBuildable(s', ns, envs[i]))
      && (forall o :: (o in s'.services || o in s'.deployments) && o.labels in ls ==> ListedLabels(ns, envs, o.labels))
  {
    var s1, listed := AfterGets(s, ns, envs, answers, |envs|), ListedKeys(ns, envs);
    var s' := AfterSync(s, ns, envs, answers, a);
    GetsKeepSound(s, ns, envs, answers, |envs|);
    RequestKeepsSound(s1, Cleanup(listed, a));
    CleanupIsExact(s1, listed, a);
    forall i | 0 <= i < |envs| ensures BuiltIfBuildable(s', ns, envs[i]) {
      GetsBuildAll(s, ns, envs, answers, |envs|, i, ls);
      CleanupKeepsListed(s1, ns, envs, i, a);
    }
    forall o | (o in s'.services || o in s'.deployments) && o.labels in ls ensures ListedLabels(ns, envs, o.labels) {
      var i :| 0 <= i < |envs| && CacheKeyOf(LabelsOf(ns, envs[i])) == CacheKeyOf(o.labels);
      OwnKeys(LabelsOf(ns, envs[i]), o.labels, ls);
    }
  }

  /** The object is what a synchronisation makes for this environment: one with
      a builder image that does not have version 1. It lies in the environment's
      own namespace, or in the common one if that is "default". */
  predicate BuilderOf(ns: string, env: Env, o: Object) {
    && env.version != 1 && env.builderImage != ""
    && (env.meta.namespace == "default" ==> o.namespace == ns)
    && (env.meta.namespace != "default" ==> o.namespace == env.meta.namespace)
    && o.name == env.meta.name + "-" + env.meta.resourceVersion
    && o.labels == Labels(env.meta.name, o.namespace, env.meta.resourceVersion)
  }

  ghost predicate OnlyBuilders(ns: string, envs: seq<Env>, before: seq<Object>, after: seq<Object>) {
    forall o :: o in after ==> o in before || exists i :: 0 <= i < |envs| && BuilderOf(ns, envs[i], o)
  }

  lemma GetBuildsOnly(s: State, ns: string, env: Env, a: GetAnswers)
    ensures var s' := GetIfBuildable(s, ns, env, a);
      && (forall o :: o in s'.services && o !in s.services ==> BuilderOf(ns, env, o))
      && (forall o :: o in s'.deployments && o !in s.deployments ==> BuilderOf(ns, env, o))
  {
    var l := LabelsOf(ns, env);
    EnsureIsExact(s.services, l, a.svcListOk, true, a.svcCreate);
    EnsureIsExact(s.deployments, l, a.deployListOk, a.saOk, a.deployCreate);
  }

  lemma {:induction false} GetsBuildOnly(s: State, ns: string, envs: seq<Env>, answers: nat -> GetAnswers, n: nat)
    requires n <= |envs|
    ensures OnlyBuilders(ns, envs, s.services, AfterGets(s, ns, envs, answers, n).services)
    ensures OnlyBuilders(ns, envs, s.deployments, AfterGets(s, ns, envs, answers, n).deployments)
  {
    if n > 0 {
      GetsBuildOnly(s, ns, envs, answers, n - 1);
      GetBuildsOnly(AfterGets(s, ns, envs, answers, n - 1), ns, envs[n - 1], answers(n - 1));
    }
  }

  /** Whatever fails, a synchronisation makes builders for listed environments
      only, and only for those that have an image and are not of version 1. */
  lemma SyncBuildsOnly(s: State, ns: string, envs: seq<Env>, answers: nat -> GetAnswers, a: CleanupAnswers)
    ensures OnlyBuilders(ns, envs, s.services, AfterSync(s, ns, envs, answers, a).services)
    ensures OnlyBuilders(ns, envs, s.deployments, AfterSync(s, ns, envs, answers, a).deployments)
  {
    GetsBuildOnly(s, ns, envs, answers, |envs|);
    CleanupIsExact(AfterGets(s, ns, envs, answers, |envs|), ListedKeys(ns, envs), a);
  }

  /** Once it has synchronised with no call failing, each listed environment with
      an image, other than of version 1, has a service and a deployment in its
      place, with its labels. */
  lemma SyncPlacesBuilders(s: State, ns: string, envs: seq<Env>, answers: nat -> GetAnswers, a: CleanupAnswers,
                           ls: set<Labels>, i: nat)
    requires Sound(s) && Backed(s, ls) && OwnVersions(ls)
    requires forall j :: 0 <= j < |envs| ==> LabelsOf(ns, envs[j]) in ls && AllWork(answers(j))
    requires a.svcListOk && a.deployListOk && forall j :: a.svcDelete(j).Works? && a.deployDelete(j).Works?
    requires i < |envs| && envs[i].version != 1 && envs[i].builderImage != ""
    ensures var s', m := AfterSync(s, ns, envs, answers, a), envs[i].meta;
      var l := Labels(m.name, if m.namespace == "default" then ns else m.namespace, m.resourceVersion);
      && (exists o :: o in s'.services && o.labels == l && o.namespace == l.envNamespace)
      && (exists o :: o in s'.deployments && o.labels == l && o.namespace == l.envNamespace)
  {
    var s', l := AfterSync(s, ns, envs, answers, a), LabelsOf(ns, envs[i]);
    SyncConverges(s, ns, envs, answers, a, ls);
    assert BuiltIfBuildable(s', ns, envs[i]);
    var j :| 0 <= j < |s'.services| && s'.services[j].labels == l;
    assert s'.services[j] in s'.services;
    var k :| 0 <= k < |s'.deployments| && s'.deployments[k].labels == l;
    assert s'.deployments[k] in s'.deployments;
  }

  // ----- the watcher

  class Watcher {
    var services: seq<Object>          // in the cluster
    var deployments: seq<Object>       // in the cluster
    var cache: map<string, BuilderInfo>
    const builderNamespace: string

    constructor (builderNamespace: string, services: seq<Object>, deployments: seq<Object>)
      ensures Model() == State(services, deployments, map[]) && this.builderNamespace == builderNamespace
    {
      this.services, this.deployments, this.cache := services, deployments, map[];
      this.builderNamespace := builderNamespace;
    }

    function Model(): State
      reads this
    {
      State(services, deployments, cache)
    }

    method CreateBuilder(l: Labels, a: GetAnswers) returns (info: Option<BuilderInfo>)
      modifies this`services, this`deployments
      ensures (Model(), info) == AfterCreate(old(Model()), l, a)
    {
      if !a.svcListOk {
        return None;
      }
      var svcList := Select(services, l);
      var svc := ObjectFor(l);
      if |svcList| == 0 {
        if a.svcCreate.Applied() {
          services := services + [svc];
        }
        if !a.svcCreate.Reported() {
          return None;
        }
      } else if |svcList| == 1 {
        svc := svcList[0];
      } else {
        return None;
      }
      if !a.deployListOk {
        return None;
      }
      var deployList := Select(deployments, l);
      var deploy := ObjectFor(l);
      if |deployList| == 0 {
        if !a.saOk {
          return None;
        }
        if a.deployCreate.Applied() {
          deployments := deployments + [deploy];
        }
        if !a.deployCreate.Reported() {
          return None;
        }
      } else if |deployList| == 1 {
        deploy := deployList[0];
      } else {
        return None;
      }
      info := Some(BuilderInfo(svc, deploy));
    }

    method GetBuilder(env: Env, a: GetAnswers) returns (r: Response)
      modifies this
      ensures (Model(), r) == AfterGet(old(Model()), LabelsOf(builderNamespace, env), a)
    {
      var l := LabelsOf(builderNamespace, env);
      var key := CacheKeyOf(l);
      if key !in cache {
        var info := CreateBuilder(l, a);
        if info == None {
          return Err;
        }
        cache := cache[key := info.value];
        return Info(None);
      }
      r := Info(Some(cache[key]));
    }

    method Cleanup(envs: seq<Env>, a: CleanupAnswers)
      modifies this
      ensures Model() == AfterCleanup(old(Model()), ListedKeys(builderNamespace, envs), a)
    {
      var latestEnvList: set<string> := {};
      for i := 0 to |envs|
        invariant latestEnvList == ListedKeys(builderNamespace, envs[..i]) && Model() == old(Model())
      {
        latestEnvList := latestEnvList + {CacheKeyOf(LabelsOf(builderNamespace, envs[i]))};
        ListedKeysGrow(envs, i);
      }
      assert envs[..|envs|] == envs;
      if a.svcListOk {
        services := RemoveUnlisted(services, latestEnvList, a.svcDelete);
      }
      if a.deployListOk {
        deployments := RemoveUnlisted(deployments, latestEnvList, a.deployDelete);
      }
    }

    /** Goes over the services, or the deployments: deletes those whose key is
        not listed, and drops the key of each from the cache. */
    method RemoveUnlisted(objs: seq<Object>, latestEnvList: set<string>, delete: nat -> Call)
      returns (kept: seq<Object>)
      modifies this`cache
      ensures kept == Kept(objs, latestEnvList, delete, |objs|) && cache == old(cache) - KeysOf(objs)
    {
      kept := [];
      for i := 0 to |objs|
        invariant kept == Kept(objs, latestEnvList, delete, i)
        invariant cache == old(cache) - KeysOf(objs[..i])
      {
        var key := CacheKeyOf(objs[i].labels);
        if key in latestEnvList || !delete(i).Applied() {
          kept := kept + [objs[i]];
        }
        cache := cache - {key};
        KeysOfGrow(objs, i);
      }
      assert objs[..|objs|] == objs;
    }

    method Sync(envs: seq<Env>, answers: nat -> GetAnswers, a: CleanupAnswers)
      modifies this
      ensures Model() == AfterSync(old(Model()), builderNamespace, envs, answers, a)
    {
      for i := 0 to |envs|
        invariant Model() == AfterGets(old(Model()), builderNamespace, envs, answers, i)
      {
        if envs[i].version == 1 || |envs[i].builderImage| == 0 {
          continue;
        }
        var _ := GetBuilder(envs[i], answers(i));
      }
      Cleanup(envs, a);
    }

    lemma ListedKeysGrow(envs: seq<Env>, i: nat)
      requires i < |envs|
      ensures ListedKeys(builderNamespace, envs[..i + 1])
           == ListedKeys(builderNamespace, envs[..i]) + {CacheKeyOf(LabelsOf(builderNamespace, envs[i]))}
    {
    }

    lemma KeysOfGrow(objs: seq<Object>, i: nat)
      requires i < |objs|
      ensures KeysOf(objs[..i + 1]) == KeysOf(objs[..i]) + {CacheKeyOf(objs[i].labels)}
    {
    }
  }
}
