/** Building source packages (pkg/buildermgr/pkgwatcher.go): the status a
    package ends in, and the lock that lets one build at a time work on it. */
module PackageBuild {
  import opened Keys

  datatype Status = Pending | Running | Succeeded | Failed | NoBuild

  datatype Package =
    Package(name: string, namespace: string, resourceVersion: string, sourceEmpty: bool, deployEmpty: bool)

  datatype EnvAnswer = Found(env: Meta) | NotFound | EnvError
  datatype Pod = Pod(envName: string, envNamespace: string, envVersion: string, ready: seq<bool>)

  /** A function, and the package it refers to. */
  datatype Fn = Fn(id: nat, pkgName: string, pkgNamespace: string, pkgVersion: string)

  /** Everything the API server, the builder and the storage answer to one
      build. The client returns an empty list along with a listing error. */
  datatype Answers = Answers(
    builderNamespace: string,
    env: EnvAnswer,
    pods: nat -> seq<Pod>,             // the pod store at the i-th health check
    roleBindingOk: (nat, nat) -> bool, // for the j-th pod of the i-th check
    buildOk: bool,
    listOk: bool,
    fns: seq<Fn>,
    fnUpdateOk: nat -> bool,           // by function id
    accepts: nat -> bool,              // whether the k-th write of this build is stored, if its version is current
    version: nat -> string)            // the package's resource version after n stored writes
  {
    function Listed(): seq<Fn> { if listOk then fns else [] }
  }

  /** A write of the package: of its status, or of the package itself, which
      leaves the status alone (they are separate subresources). */
  datatype Change = SetStatus(status: Status) | SetPackage
  datatype Write = Write(change: Change, stored: bool)

  const CHECKS := 15
  const DEFAULT_NAMESPACE := "default"

  /** Duplicate builds are told by this key. */
  function BuildKey(pkg: Package): string { pkg.name + "-" + pkg.resourceVersion }

  // ----- the builder pod

  function BuilderNs(a: Answers, env: Meta): string {
    if env.namespace != DEFAULT_NAMESPACE then env.namespace else a.builderNamespace
  }

  predicate Matches(a: Answers, env: Meta, pod: Pod) {
    pod.envName == env.name && pod.envNamespace == BuilderNs(a, env) && pod.envVersion == env.resourceVersion
  }

  predicate AllReady(ready: seq<bool>) { forall i :: 0 <= i < |ready| ==> ready[i] }

  /** The j-th pod of check i is passed over: it belongs to another builder, or
      is ready but its role binding could not be set up. */
  predicate PassedOver(a: Answers, env: Meta, i: nat, j: nat)
    requires j < |a.pods(i)|
  {
    !Matches(a, env, a.pods(i)[j]) || (AllReady(a.pods(i)[j].ready) && !a.roleBindingOk(i, j))
  }

  predicate Builds(a: Answers, env: Meta, i: nat, j: nat) {
    && j < |a.pods(i)|
    && Matches(a, env, a.pods(i)[j]) && AllReady(a.pods(i)[j].ready) && a.roleBindingOk(i, j)
    && forall k: nat :: k < j ==> PassedOver(a, env, i, k)
  }

  /** Some health check finds a ready builder pod, before one that is not ready. */
  ghost predicate ReachesBuilder(a: Answers, env: Meta) {
    exists i: nat, j: nat :: i < CHECKS && Builds(a, env, i, j)
  }

  // ----- what the build writes

  /** Each stored write gives the package a new version: the number of that version. */
  function Version(log: seq<Write>): nat {
    if log == [] then 0 else Version(log[..|log| - 1]) + if log[|log| - 1].stored then 1 else 0
  }

  /** One write by a build that holds the given version of the package: it is
      stored only if that version is still the current one. */
  function Put(a: Answers, log: seq<Write>, held: nat, c: Change): seq<Write> {
    log + [Write(c, a.accepts(|log|) && held == Version(log))]
  }

  predicate LastStored(log: seq<Write>)
    requires log != []
  {
    log[|log| - 1].stored
  }

  predicate Follows(a: Answers, updated: map<nat, string>, fn: Fn) {
    fn.id in updated && updated[fn.id] == a.version(1)
  }

  /** Only listed functions that refer to another version of the package are
      updated, to the version the build holds. */
  predicate UpdatesOnly(a: Answers, pkg: Package, updated: map<nat, string>) {
    forall id :: id in updated ==>
      updated[id] == a.version(1) && exists i :: 0 <= i < |a.Listed()| && Lags(a.Listed()[i], pkg, id, a.version(1))
  }

  predicate Lags(fn: Fn, pkg: Package, id: nat, version: string) {
    fn.id == id && fn.pkgName == pkg.name && fn.pkgNamespace == pkg.namespace && fn.pkgVersion != version
  }

  /** The function refers to this package, in another version than the one the build holds. */
  predicate RefersTo(a: Answers, pkg: Package, fn: Fn) {
    fn.pkgName == pkg.name && fn.pkgNamespace == pkg.namespace && fn.pkgVersion != a.version(1)
  }

  /** No update of a function that refers to another version of the package fails. */
  predicate FunctionsUpdate(a: Answers, pkg: Package) {
    forall i :: 0 <= i < |a.Listed()| && RefersTo(a, pkg, a.Listed()[i]) ==> a.fnUpdateOk(a.Listed()[i].id)
  }

  /** The log after a successful build. From here on the build holds version 1,
      except for the Succeeded write, which goes to the package just updated. */
  function AfterListing(a: Answers, pkg: Package, log: seq<Write>): (log': seq<Write>)
    ensures log <= log' && |log'| > |log|
  {
    if !FunctionsUpdate(a, pkg) then Put(a, log, 1, SetStatus(Failed))
    else
      var updated := Put(a, log, 1, SetPackage);
      if !LastStored(updated) then Put(a, updated, 1, SetStatus(Failed))
      else
        var succeeded := Put(a, updated, Version(updated), SetStatus(Succeeded));
        if LastStored(succeeded) then succeeded else Put(a, succeeded, 1, SetStatus(Failed))
  }

  function AfterSuccess(a: Answers, pkg: Package, log: seq<Write>): (log': seq<Write>)
    ensures log <= log' && |log'| > |log|
  {
    AfterListing(a, pkg, if a.listOk then log else Put(a, log, 1, SetStatus(Failed)))
  }

  /** A ready builder is reached and builds the package. */
  ghost predicate BuildSucceeds(a: Answers) {
    a.env.Found? && ReachesBuilder(a, a.env.env) && a.buildOk
  }

  ghost function AfterRunning(a: Answers, pkg: Package, running: seq<Write>): seq<Write> {
    if a.env.EnvError? then running
    else if !BuildSucceeds(a) then Put(a, running, 1, SetStatus(Failed))
    else AfterSuccess(a, pkg, running)
  }

  ghost function Writes(a: Answers, pkg: Package): seq<Write> {
    if pkg.sourceEmpty then Put(a, [], 0, SetStatus(if pkg.deployEmpty then Failed else NoBuild))
    else
      var running := Put(a, [], 0, SetStatus(Running));
      if LastStored(running) then AfterRunning(a, pkg, running) else running
  }

  /** The status the package is left in. */
  function Final(start: Status, log: seq<Write>): Status {
    if log == [] then start
    else
      var w := log[|log| - 1];
      if w.stored && w.change.SetStatus? then w.change.status else Final(start, log[..|log| - 1])
  }

  // ----- the build itself

  class Watcher {
    var buildCache: set<string>
    var log: seq<Write>              // the package writes of the build at hand
    var server: nat                  // the version of the package the API server holds
    var updated: map<nat, string>    // the functions updated, and the package version each now refers to

    constructor ()
      ensures buildCache == {} && log == [] && server == 0 && updated == map[]
    {
      buildCache, log, server, updated := {}, [], 0, map[];
    }

    method Send(a: Answers, held: nat, c: Change) returns (ok: bool)
      requires server == Version(log)
      modifies this`log, this`server
      ensures server == Version(log) && log == Put(a, old(log), held, c) && ok == LastStored(log)
    {
      ok := a.accepts(|log|) && held == server;
      log := log + [Write(c, ok)];
      assert log[..|log| - 1] == old(log);
      if ok {
        server := server + 1;
      }
    }

    method Build(pkg: Package, a: Answers)
      modifies this
      ensures buildCache == old(buildCache)
      ensures BuildKey(pkg) in old(buildCache) ==> log == old(log) && updated == old(updated)
      ensures BuildKey(pkg) !in old(buildCache) ==> log == Writes(a, pkg)
      ensures BuildKey(pkg) !in old(buildCache) && Write(SetStatus(Succeeded), true) in log ==>
        forall i :: 0 <= i < |a.Listed()| && RefersTo(a, pkg, a.Listed()[i]) ==> Follows(a, updated, a.Listed()[i])
      ensures BuildKey(pkg) !in old(buildCache) ==> UpdatesOnly(a, pkg, updated)
    {
      var key := BuildKey(pkg);
      if key in buildCache {
        return;
      }
      buildCache := buildCache + {key};
      log, server, updated := [], 0, map[];
      BuildLocked(pkg, a);
      buildCache := buildCache - {key};
    }

    /** What build does between setting the key and the deferred delete. */
    method BuildLocked(pkg: Package, a: Answers)
      requires log == [] && server == 0 && updated == map[]
      modifies this`log, this`server, this`updated
      ensures log == Writes(a, pkg)
      ensures Write(SetStatus(Succeeded), true) in log ==>
        forall i :: 0 <= i < |a.Listed()| && RefersTo(a, pkg, a.Listed()[i]) ==> Follows(a, updated, a.Listed()[i])
      ensures UpdatesOnly(a, pkg, updated)
    {
      if pkg.sourceEmpty {
        var _ := Send(a, 0, SetStatus(if pkg.deployEmpty then Failed else NoBuild));
        return;
      }
      var ok := Send(a, 0, SetStatus(Running));
      if !ok {
        return;
      }
      BuildRunning(pkg, a);
    }

    /** The build once its Running write is stored. */
    method BuildRunning(pkg: Package, a: Answers)
      requires log == [Write(SetStatus(Running), true)] && server == Version(log) == 1 && updated == map[]
      modifies this`log, this`server, this`updated
      ensures log == AfterRunning(a, pkg, [Write(SetStatus(Running), true)])
      ensures Write(SetStatus(Succeeded), true) in log ==>
        forall i :: 0 <= i < |a.Listed()| && RefersTo(a, pkg, a.Listed()[i]) ==> Follows(a, updated, a.Listed()[i])
      ensures UpdatesOnly(a, pkg, updated)
    {
      if a.env.NotFound? {
        var _ := Send(a, server, SetStatus(Failed));
        return;
      }
      for i := 0 to CHECKS
        invariant log == [Write(SetStatus(Running), true)] && server == Version(log) == 1 && updated == map[]
        invariant a.env.EnvError? ==> i == 0
        invariant a.env.Found? ==> forall m: nat, n: nat :: m < i ==> !Builds(a, a.env.env, m, n)
      {
        if a.env.EnvError? {
          return;
        }
        var builder := CheckPods(a, a.env.env, i);
        if builder == None {
          continue;
        }
        assert Builds(a, a.env.env, i, builder.value);
        if !a.buildOk {
          var _ := Send(a, server, SetStatus(Failed));
          return;
        }
        AfterBuild(pkg, a, server);
        return;
      }
      var _ := Send(a, server, SetStatus(Failed));
    }

    /** One health check: the pod that builds the package, if there is one. */
    method CheckPods(a: Answers, env: Meta, i: nat) returns (builder: Option<nat>)
      ensures builder.Some? ==> Builds(a, env, i, builder.value)
      ensures builder == None ==> forall n: nat :: !Builds(a, env, i, n)
    {
      var items := a.pods(i);
      for j := 0 to |items|
        invariant forall k: nat :: k < j ==> PassedOver(a, env, i, k)
        invariant forall n: nat :: n < j ==> !Builds(a, env, i, n)
      {
        if !Matches(a, env, items[j]) {
          continue;
        }
        var podIsReady := IsReady(items[j].ready);
        if !podIsReady {
          assert !PassedOver(a, env, i, j);
          return None;
        }
        if !a.roleBindingOk(i, j) {
          continue;
        }
        return Some(j);
      }
      builder := None;
    }

    method IsReady(statuses: seq<bool>) returns (podIsReady: bool)
      ensures podIsReady == AllReady(statuses)
    {
      podIsReady := true;
      for c := 0 to |statuses|
        invariant podIsReady <==> forall d :: 0 <= d < c ==> statuses[d]
      {
        podIsReady := podIsReady && statuses[c];
      }
    }

    /** held is the version the build read back from its Running write. */
    method AfterBuild(pkg: Package, a: Answers, held: nat)
      requires updated == map[] && held == server == Version(log) == 1
      requires forall i :: 0 <= i < |log| ==> log[i].change == SetStatus(Running)
      modifies this`log, this`server, this`updated
      ensures log == AfterSuccess(a, pkg, old(log))
      ensures Write(SetStatus(Succeeded), true) in log ==>
        forall i :: 0 <= i < |a.Listed()| && RefersTo(a, pkg, a.Listed()[i]) ==> Follows(a, updated, a.Listed()[i])
      ensures UpdatesOnly(a, pkg, updated)
    {
      if !a.listOk {
        var _ := Send(a, held, SetStatus(Failed));
      }
      ghost var listed := log;
      var items := a.Listed();
      for i := 0 to |items|
        invariant log == listed && server == Version(log) && UpdatesOnly(a, pkg, updated)
        invariant forall j | 0 <= j < i && RefersTo(a, pkg, items[j]) ::
          a.fnUpdateOk(items[j].id) && Follows(a, updated, items[j])
      {
        if RefersTo(a, pkg, items[i]) {
          if !a.fnUpdateOk(items[i].id) {
            var _ := Send(a, held, SetStatus(Failed));
            return;
          }
          assert Lags(items[i], pkg, items[i].id, a.version(1));
          updated := updated[items[i].id := a.version(held)];
        }
      }
      var ok := Send(a, held, SetPackage);
      if ok {
        ok := Send(a, server, SetStatus(Succeeded));
      }
      if !ok {
        var _ := Send(a, held, SetStatus(Failed));
      }
    }
  }

  // ----- where a package ends

  lemma PutAdds(a: Answers, log: seq<Write>, held: nat, c: Change, start: Status)
    ensures var log' := Put(a, log, held, c);
      var stored := a.accepts(|log|) && held == Version(log);
      && |log'| == |log| + 1 && LastStored(log') == stored
      && Version(log') == Version(log) + (if stored then 1 else 0)
      && Final(start, log') == if stored && c.SetStatus? then c.status else Final(start, log)
  {
    assert Put(a, log, held, c)[..|log|] == log;
  }

  /** After the function listing: the package ends Succeeded exactly when the
      package still had the version the build holds and both further writes were
      accepted; a Failed write cannot replace a refused Succeeded one, because
      the package update before it has moved the version on. */
  lemma ListingEnds(a: Answers, pkg: Package, log: seq<Write>, start: Status)
    ensures var n, end, now := |log|, AfterListing(a, pkg, log), Final(start, log);
      Final(start, end) ==
        if Version(log) != 1 then now
        else if !FunctionsUpdate(a, pkg) then if a.accepts(n) then Failed else now
        else if a.accepts(n) then if a.accepts(n + 1) then Succeeded else now
        else if a.accepts(n + 1) then Failed else now
    ensures FunctionsUpdate(a, pkg) && Version(log) == 1 && a.accepts(|log|) && a.accepts(|log| + 1) ==>
      Version(AfterListing(a, pkg, log)) == 3
  {
    if !FunctionsUpdate(a, pkg) {
      PutAdds(a, log, 1, SetStatus(Failed), start);
    } else {
      var updated := Put(a, log, 1, SetPackage);
      PutAdds(a, log, 1, SetPackage, start);
      if LastStored(updated) {
        var succeeded := Put(a, updated, Version(updated), SetStatus(Succeeded));
        PutAdds(a, updated, Version(updated), SetStatus(Succeeded), start);
        PutAdds(a, succeeded, 1, SetStatus(Failed), start);
      } else {
        PutAdds(a, updated, 1, SetStatus(Failed), start);
      }
    }
  }

  /** A package with sources whose Running write was stored ends by these guards. */
  ghost function Ending(a: Answers, pkg: Package): Status {
    if a.env.EnvError? then Running
    else if !BuildSucceeds(a) || !FunctionsUpdate(a, pkg) then if a.accepts(1) then Failed else Running
    else if a.listOk then
      if a.accepts(1) then if a.accepts(2) then Succeeded else Running
      else if a.accepts(2) then Failed else Running
    else if a.accepts(1) then Failed
    else if a.accepts(2) then if a.accepts(3) then Succeeded else Running
    else if a.accepts(3) then Failed else Running
  }

  lemma SuccessEnds(a: Answers, pkg: Package, running: seq<Write>, start: Status)
    requires |running| == 1 && Version(running) == 1 && Final(start, running) == Running
    requires BuildSucceeds(a)
    ensures Final(start, AfterSuccess(a, pkg, running)) == Ending(a, pkg)
  {
    if a.listOk {
      ListingEnds(a, pkg, running, start);
    } else {
      assert FunctionsUpdate(a, pkg);
      PutAdds(a, running, 1, SetStatus(Failed), start);
      ListingEnds(a, pkg, Put(a, running, 1, SetStatus(Failed)), start);
    }
  }

  lemma BuildEnds(a: Answers, pkg: Package, start: Status)
    requires !pkg.sourceEmpty && a.accepts(0)
    ensures Final(start, Writes(a, pkg)) == Ending(a, pkg)
  {
    var running := Put(a, [], 0, SetStatus(Running));
    PutAdds(a, [], 0, SetStatus(Running), start);
    if !a.env.EnvError? {
      if BuildSucceeds(a) {
        SuccessEnds(a, pkg, running, start);
      } else {
        PutAdds(a, running, 1, SetStatus(Failed), start);
      }
    }
  }

  /** The writes a build has left once its outcome is decided, by number: the
      package stays Running if the API server refuses them. */
  ghost predicate LastWritesRefused(a: Answers, pkg: Package) {
    if !BuildSucceeds(a) || !FunctionsUpdate(a, pkg) then !a.accepts(1)
    else if a.listOk then !a.accepts(2)
    else !a.accepts(1) && !a.accepts(3)
  }

  /** A build that wrote Running leaves the package Running exactly when the
      environment lookup gave an error other than not-found, or the API server
      refused the writes left to it. That includes a Succeeded write refused
      after the package update was stored, however well the Failed write after
      it is received. */
  lemma RunningEndsIff(a: Answers, pkg: Package, start: Status)
    requires !pkg.sourceEmpty && a.accepts(0)
    ensures Final(start, Writes(a, pkg)) in {Running, Failed, Succeeded}
    ensures Final(start, Writes(a, pkg)) == Running <==> a.env.EnvError? || LastWritesRefused(a, pkg)
  {
    BuildEnds(a, pkg, start);
  }

  /** So it always ends Failed or Succeeded when the lookup answers found or
      not-found and the API server refuses no write with a current version. */
  lemma RunningAlwaysEnds(a: Answers, pkg: Package, start: Status)
    requires !pkg.sourceEmpty && !a.env.EnvError? && forall k: nat :: a.accepts(k)
    ensures Final(start, Writes(a, pkg)) ==
      if BuildSucceeds(a) && a.listOk && FunctionsUpdate(a, pkg) then Succeeded else Failed
  {
    BuildEnds(a, pkg, start);
  }

  /** A package ends Succeeded exactly when Running was stored, a builder was
      reached and built it, no function update failed, and the package update
      and the Succeeded write were accepted. A failed function listing prevents
      it only if its Failed write is stored, which makes the update conflict. */
  lemma SucceedsIff(a: Answers, pkg: Package, start: Status)
    requires start != Succeeded
    ensures Final(start, Writes(a, pkg)) == Succeeded <==>
      && !pkg.sourceEmpty && a.accepts(0) && BuildSucceeds(a) && FunctionsUpdate(a, pkg)
      && if a.listOk then a.accepts(1) && a.accepts(2) else !a.accepts(1) && a.accepts(2) && a.accepts(3)
  {
    if !pkg.sourceEmpty && a.accepts(0) {
      BuildEnds(a, pkg, start);
    } else {
      PutAdds(a, [], 0, SetStatus(Running), start);
      PutAdds(a, [], 0, SetStatus(if pkg.deployEmpty then Failed else NoBuild), start);
    }
  }

  /** A package without sources gets one write and no build: it is marked as
      not to be built, or as failed if it has no deployment archive either. */
  lemma SourcelessEnds(a: Answers, pkg: Package, start: Status)
    requires pkg.sourceEmpty
    ensures |Writes(a, pkg)| == 1
    ensures Final(start, Writes(a, pkg)) ==
      if !a.accepts(0) then start else if pkg.deployEmpty then Failed else NoBuild
  {
    PutAdds(a, [], 0, SetStatus(if pkg.deployEmpty then Failed else NoBuild), start);
  }

  /** A build past its Running write that found its environment, or that there
      is none, ends by reporting: its last write is a stored Succeeded, or it is
      a Failed, stored or not. */
  lemma LastWriteReports(a: Answers, pkg: Package)
    requires !pkg.sourceEmpty && a.accepts(0) && !a.env.EnvError?
    ensures var log := Writes(a, pkg);
      |log| >= 2 && (log[|log| - 1] == Write(SetStatus(Succeeded), true) || log[|log| - 1].change == SetStatus(Failed))
  {
  }

  /** A package with sources whose first write is refused is left as it is. */
  lemma RefusedRunningEnds(a: Answers, pkg: Package, start: Status)
    requires !pkg.sourceEmpty && !a.accepts(0)
    ensures |Writes(a, pkg)| == 1 && Final(start, Writes(a, pkg)) == start
  {
    PutAdds(a, [], 0, SetStatus(Running), start);
  }

  /** The pod carries the labels of this environment's builder: its name, its
      version, and its own namespace, or the common one if that is "default". */
  predicate IsBuilderPod(pod: Pod, env: Meta, builderNamespace: string) {
    && pod.envName == env.name && pod.envVersion == env.resourceVersion
    && (env.namespace == "default" ==> pod.envNamespace == builderNamespace)
    && (env.namespace != "default" ==> pod.envNamespace == env.namespace)
  }

  /** Of the i-th check's pods the j-th one builds: the environment's, all its
      containers ready and its role binding set up, with every pod of that
      builder before it ready too, but without a role binding. */
  predicate PodBuilds(a: Answers, env: Meta, i: nat, j: nat) {
    var pods := a.pods(i);
    && j < |pods| && IsBuilderPod(pods[j], env, a.builderNamespace)
    && false !in pods[j].ready && a.roleBindingOk(i, j)
    && forall k: nat | k < j && IsBuilderPod(pods[k], env, a.builderNamespace) ::
         false !in pods[k].ready && !a.roleBindingOk(i, k)
  }

  lemma BuildsIff(a: Answers, env: Meta, i: nat, j: nat)
    ensures Builds(a, env, i, j) <==> PodBuilds(a, env, i, j)
  {
    if Builds(a, env, i, j) {
      forall k: nat | k < j && IsBuilderPod(a.pods(i)[k], env, a.builderNamespace)
        ensures false !in a.pods(i)[k].ready && !a.roleBindingOk(i, k)
      {
        assert PassedOver(a, env, i, k);
      }
    }
  }

  /** A build succeeds exactly when the environment is found, one of fifteen
      health checks finds a pod that builds, and the builder builds. */
  lemma BuildSucceedsIff(a: Answers)
    ensures BuildSucceeds(a) <==>
      && a.env.Found? && a.buildOk
      && exists i: nat, j: nat :: i < 15 && PodBuilds(a, a.env.env, i, j)
  {
    if a.env.Found? {
      forall i: nat, j: nat ensures Builds(a, a.env.env, i, j) <==> PodBuilds(a, a.env.env, i, j) {
        BuildsIff(a, a.env.env, i, j);
      }
    }
  }

  /** The updates a build needs all succeed exactly when those of the listed
      functions that refer to the package in another version do. */
  lemma FunctionsUpdateIff(a: Answers, pkg: Package)
    ensures FunctionsUpdate(a, pkg) <==>
      !a.listOk || forall fn :: fn in a.fns && Lags(fn, pkg, fn.id, a.version(1)) ==> a.fnUpdateOk(fn.id)
  {
    if a.listOk && FunctionsUpdate(a, pkg) {
      forall fn | fn in a.fns && Lags(fn, pkg, fn.id, a.version(1)) ensures a.fnUpdateOk(fn.id) {
        var i :| 0 <= i < |a.fns| && a.fns[i] == fn;
        assert RefersTo(a, pkg, a.Listed()[i]);
      }
    }
  }

  /** Builds are told apart by package name and version alone: packages of two
      namespaces that agree in both keep each other from being built. */
  lemma BuildKeysAgreeIff(p: Package, q: Package)
    requires '-' !in p.resourceVersion && '-' !in q.resourceVersion
    ensures BuildKey(p) == BuildKey(q) <==> p.name == q.name && p.resourceVersion == q.resourceVersion
  {
    if BuildKey(p) == BuildKey(q) {
      JoinInjectiveLast(p.name, p.resourceVersion, q.name, q.resourceVersion, '-');
    }
  }

  /** The functions a successful build updates refer to version 1 of the
      package, the one that was set to Running; by then it is at version 3. */
  lemma FunctionsLagBehind(a: Answers, pkg: Package, start: Status)
    requires start != Succeeded && Final(start, Writes(a, pkg)) == Succeeded
    ensures Version(Writes(a, pkg)) == 3
  {
    SucceedsIff(a, pkg, start);
    var running := Put(a, [], 0, SetStatus(Running));
    PutAdds(a, [], 0, SetStatus(Running), start);
    PutAdds(a, running, 1, SetStatus(Failed), start);
    ListingEnds(a, pkg, if a.listOk then running else Put(a, running, 1, SetStatus(Failed)), start);
  }

  // ----- cases

  /** A cluster with one builder pod, ready at once, in which the build works. */
  function OnePod(env: EnvAnswer, listOk: bool, accepts: nat -> bool): Answers {
    Answers("kubefaas-builder", env, _ => [Pod("go", "ns", "7", [true])], (_, _) => true, true, listOk, [], _ => true,
            accepts, _ => "v")
  }

  const GoEnv := Meta("go", "ns", "u", "7")
  const Pkg := Package("p", "ns", "1", false, true)

  lemma OnePodBuilds(listOk: bool, accepts: nat -> bool)
    ensures BuildSucceeds(OnePod(Found(GoEnv), listOk, accepts))
  {
    assert Builds(OnePod(Found(GoEnv), listOk, accepts), GoEnv, 0, 0);
  }

  /** The listing fails, the Failed write is lost, and the package ends Succeeded with no function updated. */
  lemma FailedListingCanSucceed()
    ensures Final(Pending, Writes(OnePod(Found(GoEnv), false, k => k != 1), Pkg)) == Succeeded
  {
    OnePodBuilds(false, k => k != 1);
    SucceedsIff(OnePod(Found(GoEnv), false, k => k != 1), Pkg, Pending);
  }

  /** Only the Succeeded write is lost: the Failed write that follows carries an
      old version, and the package stays Running. */
  lemma LostSuccessStaysRunning()
    ensures Final(Pending, Writes(OnePod(Found(GoEnv), true, k => k != 2), Pkg)) == Running
  {
    OnePodBuilds(true, k => k != 2);
    RunningEndsIff(OnePod(Found(GoEnv), true, k => k != 2), Pkg, Pending);
  }

  /** The environment lookup fails, but not as not-found: the package stays
      Running though every write would be stored. */
  lemma LookupErrorStaysRunning()
    ensures Final(Pending, Writes(OnePod(EnvError, true, _ => true), Pkg)) == Running
  {
    RunningEndsIff(OnePod(EnvError, true, _ => true), Pkg, Pending);
  }

  // ----- the de-duplication lock

  datatype Phase = Arrived | Building | Gone
  datatype Job = Job(key: string, phase: Phase)
  datatype Lock = Lock(jobs: seq<Job>, cache: set<string>)

  datatype Step = Arrive(key: string) | Enter(id: nat) | Return(id: nat)

  predicate Enabled(l: Lock, s: Step) {
    match s
    case Arrive(_) => true
    case Enter(id) => id < |l.jobs| && l.jobs[id].phase == Arrived
    case Return(id) => id < |l.jobs| && l.jobs[id].phase == Building
  }

  function Apply(l: Lock, s: Step): Lock
    requires Enabled(l, s)
  {
    match s
    case Arrive(key) => l.(jobs := l.jobs + [Job(key, Arrived)])
    case Enter(id) =>
      var j := l.jobs[id];
      if j.key in l.cache then l.(jobs := l.jobs[id := j.(phase := Gone)])
      else Lock(l.jobs[id := j.(phase := Building)], l.cache + {j.key})
    case Return(id) =>
      var j := l.jobs[id];
      Lock(l.jobs[id := j.(phase := Gone)], l.cache - {j.key})
  }

  function Exec(l: Lock, run: seq<Step>): Option<Lock>
    decreases |run|
  {
    if run == [] then Some(l)
    else if Enabled(l, run[0]) then Exec(Apply(l, run[0]), run[1..])
    else None
  }

  ghost predicate OneBuilder(l: Lock) {
    && (forall i, j | 0 <= i < |l.jobs| && 0 <= j < |l.jobs| ::
          l.jobs[i].phase == Building && l.jobs[j].phase == Building && l.jobs[i].key == l.jobs[j].key ==> i == j)
    && (forall k :: k in l.cache <==> exists i :: 0 <= i < |l.jobs| && l.jobs[i] == Job(k, Building))
  }

  lemma StepKeepsOneBuilder(l: Lock, s: Step)
    requires OneBuilder(l) && Enabled(l, s)
    ensures OneBuilder(Apply(l, s))
  {
    var l' := Apply(l, s);
    forall k
      ensures k in l'.cache <==> exists i :: 0 <= i < |l'.jobs| && l'.jobs[i] == Job(k, Building)
    {
      if i :| 0 <= i < |l.jobs| && l.jobs[i] == Job(k, Building) {
        assert k in l.cache;
        assert s != Return(i) ==> l'.jobs[i] == Job(k, Building);
      }
      if s.Enter? && l.jobs[s.id].key == k && k !in l.cache {
        assert l'.jobs[s.id] == Job(k, Building);
      }
    }
  }

  /** In every run at most one build per key is past the de-duplication point,
      and the key is held exactly while one is: it is freed on every return. */
  lemma {:induction false} OneBuildAtATime(l: Lock, run: seq<Step>)
    requires OneBuilder(l)
    ensures Exec(l, run).Some? ==> OneBuilder(Exec(l, run).value)
    decreases |run|
  {
    if run != [] && Enabled(l, run[0]) {
      StepKeepsOneBuilder(l, run[0]);
      OneBuildAtATime(Apply(l, run[0]), run[1..]);
    }
  }
}
