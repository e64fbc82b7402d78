/**
 * Create-or-skip provisioning of the two tiers into one namespace of a
 * cluster. The cluster is a map from (namespace, kind, name) to the stored
 * manifest; the control-plane API is an abstract create whose answer is an
 * injected failure, a 409 conflict when the key is taken, or the insertion.
 */
module Provisioning {
  import opened Wrappers
  import opened Manifests

  const Namespace := "default"
  const Conflict := 409

  /** The component names the run is given. */
  const DbName := "mongodb"
  const AppName := "webapp"

  datatype ResourceKey = ResourceKey(namespace: string, kind: Kind, name: string)

  /** Where a manifest submitted to the fixed namespace is stored. */
  function KeyOf(m: Manifest): ResourceKey {
    ResourceKey(Namespace, m.KindOf(), m.Name())
  }

  function KeysOf(ms: seq<Manifest>): (r: seq<ResourceKey>)
    ensures |r| == |ms| && forall i :: 0 <= i < |ms| ==> r[i] == KeyOf(ms[i])
  {
    seq(|ms|, i requires 0 <= i < |ms| => KeyOf(ms[i]))
  }

  /** A rejected create call; `code` is the status code of the response body, absent when there was none. */
  datatype ApiError = ApiError(code: Option<int>)

  datatype Response = Created(body: Manifest) | Rejected(error: ApiError)

  /** A failure that was reported for one submitted resource. */
  datatype Report = Report(key: ResourceKey, error: ApiError)

  type Cluster = map<ResourceKey, Manifest>

  /** Answers the API server gives whatever the cluster holds: authorisation, validation, quota or network failures. */
  type Faults = map<ResourceKey, ApiError>

  /** Every stored manifest sits under its own key. */
  ghost predicate WellKeyed(cluster: Cluster) {
    forall k :: k in cluster ==> KeyOf(cluster[k]) == k
  }

  /** index.ts `catchFailure`: a conflict is absorbed silently, every other error (or a missing code) is reported. */
  function CatchFailure(e: ApiError): (reported: Option<ApiError>)
    ensures reported == None <==> e.code == Some(Conflict)
    ensures reported != None ==> reported == Some(e)
  {
    if e.code == Some(Conflict) then None else Some(e)
  }

  /** The API server's answer to one create request. */
  function Respond(cluster: Cluster, m: Manifest, faults: Faults): (r: Response)
    ensures r.Created? <==> KeyOf(m) !in faults && KeyOf(m) !in cluster
    ensures r.Created? ==> r.body == m
    ensures r.Rejected? && KeyOf(m) !in faults ==> r.error.code == Some(Conflict)
  {
    var k := KeyOf(m);
    if k in faults then Rejected(faults[k])
    else if k in cluster then Rejected(ApiError(Some(Conflict)))
    else Created(m)
  }

  /** The observable state of a run: the cluster, every create request so far in order, every failure reported. */
  datatype Run = Run(cluster: Cluster, submitted: seq<ResourceKey>, reported: seq<Report>)

  function ReportsOf(k: ResourceKey, o: Option<ApiError>): seq<Report> {
    match o
    case None => []
    case Some(e) => [Report(k, e)]
  }

  /** One create-or-skip step: `create(...).catch(catchFailure)`. */
  function Submit(s: Run, m: Manifest, faults: Faults): Run {
    var k := KeyOf(m);
    match Respond(s.cluster, m, faults)
    case Created(body) => Run(s.cluster[k := body], s.submitted + [k], s.reported)
    case Rejected(e) => Run(s.cluster, s.submitted + [k], s.reported + ReportsOf(k, CatchFailure(e)))
  }

  /** The steps `ms` run one after another, none of them stopping the rest. */
  function SubmitAll(s: Run, ms: seq<Manifest>, faults: Faults): Run
    decreases |ms|
  {
    if ms == [] then s
    else Submit(SubmitAll(s, ms[..|ms| - 1], faults), ms[|ms| - 1], faults)
  }

  /**
   * The failures a run submitting `keys` should report, read off the faults
   * alone: one per key whose injected failure is not a conflict, in order.
   */
  function Expected(keys: seq<ResourceKey>, faults: Faults): seq<Report>
  {
    if keys == [] then [] else FaultReports(keys[0], faults) + Expected(keys[1..], faults)
  }

  function FaultReports(k: ResourceKey, faults: Faults): seq<Report> {
    if k in faults && faults[k].code != Some(Conflict) then [Report(k, faults[k])] else []
  }

  /** The order index.ts `provisionApp` submits in: Secret, ConfigMap, then each workload's Deployment before its Service. */
  function Plan(secret: Secret, config: ConfigMap, db: Workload, app: Workload): seq<Manifest> {
    [ SecretManifest(secret), ConfigMapManifest(config),
      DeploymentManifest(db.deployment), ServiceManifest(db.service),
      DeploymentManifest(app.deployment), ServiceManifest(app.service) ]
  }

  /** The manifests of index.ts `provisionApp` for the given component names, in submission order. */
  function PlanFor(db: string, app: string): seq<Manifest> {
    Plan(BuildSecretForDb(db), BuildConfigForDb(db), BuildDeploymentForDb(db), BuildDeploymentForApp(app))
  }

  function AppPlan(): seq<Manifest> {
    PlanFor(DbName, AppName)
  }

  lemma SubmitAllSnoc(s: Run, ms: seq<Manifest>, m: Manifest, faults: Faults)
    ensures SubmitAll(s, ms + [m], faults) == Submit(SubmitAll(s, ms, faults), m, faults)
  {
    assert (ms + [m])[..|ms|] == ms;
  }

  /** A run of a plan is its six steps, one after the other. */
  lemma SubmitPlan(s: Run, secret: Secret, config: ConfigMap, db: Workload, app: Workload, faults: Faults)
    ensures var s1 := Submit(Submit(s, SecretManifest(secret), faults), ConfigMapManifest(config), faults);
            var s2 := Submit(Submit(s1, DeploymentManifest(db.deployment), faults), ServiceManifest(db.service), faults);
            SubmitAll(s, Plan(secret, config, db, app), faults)
            == Submit(Submit(s2, DeploymentManifest(app.deployment), faults), ServiceManifest(app.service), faults)
  {
    var m0, m1, m2 := SecretManifest(secret), ConfigMapManifest(config), DeploymentManifest(db.deployment);
    var m3, m4, m5 := ServiceManifest(db.service), DeploymentManifest(app.deployment), ServiceManifest(app.service);
    var r1 := Submit(s, m0, faults);
    SubmitAllSnoc(s, [], m0, faults);
    assert [] + [m0] == [m0];
    assert SubmitAll(s, [m0], faults) == r1;
    var r2 := Submit(r1, m1, faults);
    SubmitAllSnoc(s, [m0], m1, faults);
    assert [m0] + [m1] == [m0, m1];
    assert SubmitAll(s, [m0, m1], faults) == r2;
    var r3 := Submit(r2, m2, faults);
    SubmitAllSnoc(s, [m0, m1], m2, faults);
    assert [m0, m1] + [m2] == [m0, m1, m2];
    assert SubmitAll(s, [m0, m1, m2], faults) == r3;
    var r4 := Submit(r3, m3, faults);
    SubmitAllSnoc(s, [m0, m1, m2], m3, faults);
    assert [m0, m1, m2] + [m3] == [m0, m1, m2, m3];
    assert SubmitAll(s, [m0, m1, m2, m3], faults) == r4;
    var r5 := Submit(r4, m4, faults);
    SubmitAllSnoc(s, [m0, m1, m2, m3], m4, faults);
    assert [m0, m1, m2, m3] + [m4] == [m0, m1, m2, m3, m4];
    assert SubmitAll(s, [m0, m1, m2, m3, m4], faults) == r5;
    SubmitAllSnoc(s, [m0, m1, m2, m3, m4], m5, faults);
    assert [m0, m1, m2, m3, m4] + [m5] == Plan(secret, config, db, app);
  }

  /**
   * The runner of index.ts `provisionApp`. `faults` stands for the API server
   * it talks to; `cluster` is what that server stores in the namespace.
   */
  class Provisioner {
    const faults: Faults
    var cluster: Cluster
    var submitted: seq<ResourceKey>
    var reported: seq<Report>

    ghost predicate Valid()
      reads this
    {
      && WellKeyed(cluster)
      && forall r :: r in reported ==> r.error.code != Some(Conflict)
    }

    function State(): Run
      reads this
    {
      Run(cluster, submitted, reported)
    }

    constructor (existing: Cluster, faults: Faults)
      requires WellKeyed(existing)
      ensures Valid()
      ensures State() == Run(existing, [], []) && this.faults == faults
    {
      this.faults := faults;
      cluster := existing;
      submitted := [];
      reported := [];
    }

    /** Submits one manifest and classifies the answer; returns the stored object when the create succeeded. */
    method CreateOrSkip(m: Manifest) returns (created: Option<Manifest>)
      requires Valid()
      modifies this
      ensures Valid()
      ensures State() == Submit(old(State()), m, faults)
      ensures created == if KeyOf(m) in faults || KeyOf(m) in old(cluster) then None else Some(m)
    {
      var k := KeyOf(m);
      var response := Respond(cluster, m, faults);
      submitted := submitted + [k];
      match response
      case Created(body) =>
        cluster := cluster[k := body];
        created := Some(body);
      case Rejected(e) =>
        var failure := CatchFailure(e);
        if failure.Some? {
          reported := reported + [Report(k, failure.value)];
        }
        created := None;
    }

    /** Submits a workload's Deployment, then its Service, the second whatever the first answered. */
    method CreateWorkload(w: Workload)
      requires Valid()
      modifies this
      ensures Valid()
      ensures State() == Submit(Submit(old(State()), DeploymentManifest(w.deployment), faults),
                                ServiceManifest(w.service), faults)
    {
      var deployment := CreateOrSkip(DeploymentManifest(w.deployment));
      var service := CreateOrSkip(ServiceManifest(w.service));
    }

    /** index.ts `provisionApp`: the six creates, in order, each one attempted whatever the earlier ones answered. */
    method ProvisionApp()
      requires Valid()
      modifies this
      ensures Valid()
      ensures State() == SubmitAll(old(State()), AppPlan(), faults)
      ensures submitted == old(submitted) + KeysOf(AppPlan())
      ensures reported == old(reported) + Expected(KeysOf(AppPlan()), faults)
      ensures forall k :: k in old(cluster) ==> k in cluster && cluster[k] == old(cluster)[k]
    {
      ghost var s0 := State();

      var dbName := DbName;
      var secretManifest := BuildSecretForDb(dbName);
      var secret := CreateOrSkip(SecretManifest(secretManifest));

      var configManifest := BuildConfigForDb(dbName);
      var config := CreateOrSkip(ConfigMapManifest(configManifest));

      var db := BuildDeploymentForDb(dbName);
      CreateWorkload(db);

      var appName := AppName;
      var app := BuildDeploymentForApp(appName);
      CreateWorkload(app);

      SubmitPlan(s0, secretManifest, configManifest, db, app, faults);
      SubmitAllAttemptsEvery(s0, AppPlan(), faults);
      SubmitAllReports(s0, AppPlan(), faults);
      SubmitAllKeeps(s0, AppPlan(), faults);
    }
  }

  /** Every step is attempted, in order, whatever the earlier steps answered. */
  lemma {:induction false} SubmitAllAttemptsEvery(s: Run, ms: seq<Manifest>, faults: Faults)
    ensures SubmitAll(s, ms, faults).submitted == s.submitted + KeysOf(ms)
    decreases |ms|
  {
    if ms != [] {
      var init := ms[..|ms| - 1];
      SubmitAllAttemptsEvery(s, init, faults);
      assert KeysOf(ms) == KeysOf(init) + [KeyOf(ms[|ms| - 1])];
    }
  }

  lemma {:induction false} ExpectedSnoc(keys: seq<ResourceKey>, k: ResourceKey, faults: Faults)
    ensures Expected(keys + [k], faults) == Expected(keys, faults) + FaultReports(k, faults)
  {
    if keys == [] {
      assert keys + [k] == [k];
      assert [k][1..] == [];
    } else {
      assert (keys + [k])[0] == keys[0];
      assert (keys + [k])[1..] == keys[1..] + [k];
      ExpectedSnoc(keys[1..], k, faults);
    }
  }

  /**
   * The reports of a run are exactly the non-conflict failures the server
   * answered with, in submission order; conflicts, whether injected or caused
   * by an existing resource, are never reported.
   */
  lemma {:induction false} SubmitAllReports(s: Run, ms: seq<Manifest>, faults: Faults)
    ensures SubmitAll(s, ms, faults).reported == s.reported + Expected(KeysOf(ms), faults)
    decreases |ms|
  {
    if ms != [] {
      var init, m := ms[..|ms| - 1], ms[|ms| - 1];
      SubmitAllReports(s, init, faults);
      ExpectedSnoc(KeysOf(init), KeyOf(m), faults);
      assert KeysOf(ms) == KeysOf(init) + [KeyOf(m)];
    }
  }

  /** A report is made for a step exactly when the server failed it with something other than a conflict. */
  lemma {:induction false} ExpectedReportsNonConflicts(keys: seq<ResourceKey>, faults: Faults)
    ensures forall r :: r in Expected(keys, faults) <==>
              r.key in keys && r.key in faults && r.error == faults[r.key] && r.error.code != Some(Conflict)
  {
    if keys != [] {
      ExpectedReportsNonConflicts(keys[1..], faults);
      assert keys == [keys[0]] + keys[1..];
    }
  }

  /** A run never overwrites or removes a resource, and the cluster stays well keyed. */
  lemma {:induction false} SubmitAllKeeps(s: Run, ms: seq<Manifest>, faults: Faults)
    requires WellKeyed(s.cluster)
    ensures WellKeyed(SubmitAll(s, ms, faults).cluster)
    ensures forall k :: k in s.cluster ==>
              k in SubmitAll(s, ms, faults).cluster && SubmitAll(s, ms, faults).cluster[k] == s.cluster[k]
    decreases |ms|
  {
    if ms != [] {
      SubmitAllKeeps(s, ms[..|ms| - 1], faults);
    }
  }

  /**
   * A run stores a resource exactly when one of its steps submits that key and
   * the server neither failed it nor already held the key; what it stores is
   * one of the run's manifests.
   */
  lemma {:induction false} SubmitAllStores(s: Run, ms: seq<Manifest>, faults: Faults)
    ensures forall k :: k in SubmitAll(s, ms, faults).cluster <==> k in s.cluster || (k in KeysOf(ms) && k !in faults)
    ensures forall k :: k in SubmitAll(s, ms, faults).cluster && k !in s.cluster ==> SubmitAll(s, ms, faults).cluster[k] in ms
    decreases |ms|
  {
    if ms != [] {
      var init, m := ms[..|ms| - 1], ms[|ms| - 1];
      SubmitAllStores(s, init, faults);
      assert KeysOf(ms) == KeysOf(init) + [KeyOf(m)];
      assert forall x :: x in init ==> x in ms;
    }
  }

  /** Against a cluster that already holds every resource of the run, the run changes nothing there. */
  lemma {:induction false} Idempotent(s: Run, ms: seq<Manifest>, faults: Faults)
    requires WellKeyed(s.cluster)
    requires forall k :: k in KeysOf(ms) ==> k in s.cluster
    ensures SubmitAll(s, ms, faults).cluster == s.cluster
    ensures faults == map[] ==> SubmitAll(s, ms, faults).reported == s.reported
  {
    SubmitAllKeeps(s, ms, faults);
    SubmitAllStores(s, ms, faults);
    SubmitAllReports(s, ms, faults);
    if faults == map[] {
      ConflictsNeverReported(KeysOf(ms), faults);
    }
  }

  /** When every failure the server answers with is a conflict, a run reports nothing. */
  lemma {:induction false} ConflictsNeverReported(keys: seq<ResourceKey>, faults: Faults)
    requires forall k :: k in faults ==> faults[k].code == Some(Conflict)
    ensures Expected(keys, faults) == []
  {
    if keys != [] {
      ConflictsNeverReported(keys[1..], faults);
    }
  }

  /**
   * Running the same steps a second time against the same server leaves the
   * cluster as the first run left it.
   */
  lemma RunTwice(s: Run, ms: seq<Manifest>, faults: Faults)
    requires WellKeyed(s.cluster)
    ensures var first := SubmitAll(s, ms, faults);
      SubmitAll(first, ms, faults).cluster == first.cluster
  {
    var first := SubmitAll(s, ms, faults);
    SubmitAllKeeps(s, ms, faults);
    SubmitAllStores(s, ms, faults);
    SubmitAllKeeps(first, ms, faults);
    SubmitAllStores(first, ms, faults);
  }

  /** Against a server that fails nothing, neither a run nor its repetition reports anything. */
  lemma RunTwiceQuiet(s: Run, ms: seq<Manifest>)
    ensures var first := SubmitAll(s, ms, map[]);
      first.reported == s.reported && SubmitAll(first, ms, map[]).reported == s.reported
  {
    var first := SubmitAll(s, ms, map[]);
    SubmitAllReports(s, ms, map[]);
    SubmitAllReports(first, ms, map[]);
    ConflictsNeverReported(KeysOf(ms), map[]);
  }

  /** A Secret or ConfigMap that carries the key `src` refers to, under the name it refers to. */
  predicate Provides(m: Manifest, src: EnvSource) {
    match src
    case SecretKeyRef(n, k) => m.SecretManifest? && m.secret.metadata.name == n && k in m.secret.data
    case ConfigMapKeyRef(n, k) => m.ConfigMapManifest? && m.configMap.metadata.name == n && k in m.configMap.data
  }

  predicate ResolvesIn(src: EnvSource, earlier: seq<Manifest>) {
    exists j :: 0 <= j < |earlier| && Provides(earlier[j], src)
  }

  /** Every environment reference of every Deployment in `plan` resolves to a Secret or ConfigMap submitted before it. */
  predicate ReferencesResolve(plan: seq<Manifest>) {
    forall i :: 0 <= i < |plan| && plan[i].DeploymentManifest? ==>
      forall src :: src in EnvSources(plan[i].deployment.template.containers) ==> ResolvesIn(src, plan[..i])
  }

  predicate Distinct<T(==)>(xs: seq<T>) {
    forall i, j :: 0 <= i < j < |xs| ==> xs[i] != xs[j]
  }

  /** The six keys a run submits, in order: the database's Secret, ConfigMap, Deployment and Service, then the application's Deployment and Service. */
  lemma PlanKeys(db: string, app: string)
    ensures KeysOf(PlanFor(db, app))
            == [ ResourceKey(Namespace, SecretKind, db + SecretSuffix),
                 ResourceKey(Namespace, ConfigMapKind, db + ConfigSuffix),
                 ResourceKey(Namespace, DeploymentKind, db + DeploymentSuffix),
                 ResourceKey(Namespace, ServiceKind, db + ServiceSuffix),
                 ResourceKey(Namespace, DeploymentKind, app + DeploymentSuffix),
                 ResourceKey(Namespace, ServiceKind, app + ServiceSuffix) ]
  {
  }

  /** No key is submitted twice in one run exactly when the two components have different names. */
  lemma PlanKeysDistinct(db: string, app: string)
    ensures Distinct(KeysOf(PlanFor(db, app))) <==> db != app
  {
    PlanKeys(db, app);
    SuffixedNamesInjective(db, app, DeploymentSuffix);
    SuffixedNamesInjective(db, app, ServiceSuffix);
    var keys := KeysOf(PlanFor(db, app));
    if db == app {
      assert keys[2] == keys[4];
    }
  }

  /**
   * Every Secret and ConfigMap reference in the plan resolves to a resource
   * submitted earlier in the same run exactly when the database component is
   * called "mongodb", the name the references are written with.
   */
  lemma PlanReferencesResolve(db: string, app: string)
    ensures ReferencesResolve(PlanFor(db, app)) <==> db == DbName
  {
    var plan := PlanFor(db, app);
    ReferencedNamesMatch(db);
    var userRef := SecretKeyRef(FixedSecretName, "username");
    var passwordRef := SecretKeyRef(FixedSecretName, "password");
    var endpointRef := ConfigMapKeyRef(FixedConfigName, "endpoint");
    assert plan[2].deployment.template.containers == BuildDeploymentForDb(db).deployment.template.containers;
    assert plan[4].deployment.template.containers == BuildDeploymentForApp(app).deployment.template.containers;
    if db == DbName {
      assert Provides(plan[0], userRef) && Provides(plan[0], passwordRef) && Provides(plan[1], endpointRef);
      forall i | 0 <= i < |plan| && plan[i].DeploymentManifest?
        ensures forall src :: src in EnvSources(plan[i].deployment.template.containers) ==> ResolvesIn(src, plan[..i])
      {
        assert i == 2 || i == 4;
        assert plan[..i][0] == plan[0] && plan[..i][1] == plan[1];
      }
    } else {
      assert userRef in EnvSources(plan[2].deployment.template.containers);
      assert !Provides(plan[0], userRef) && !Provides(plan[1], userRef);
      assert !ResolvesIn(userRef, plan[..2]);
    }
  }

  lemma {:induction false} ExpectedAt(keys: seq<ResourceKey>, faults: Faults, i: nat)
    requires i < |keys|
    ensures Expected(keys[i..], faults) == FaultReports(keys[i], faults) + Expected(keys[i + 1..], faults)
  {
    assert keys[i..][1..] == keys[i + 1..];
  }

  /** With only the fourth and sixth of six distinct keys failed by a non-conflict error, exactly those two are reported. */
  lemma FourthAndSixthReported(keys: seq<ResourceKey>, e: ApiError)
    requires |keys| == 6 && Distinct(keys) && e.code != Some(Conflict)
    ensures Expected(keys, map[keys[3] := e, keys[5] := e]) == [Report(keys[3], e), Report(keys[5], e)]
  {
    var faults := map[keys[3] := e, keys[5] := e];
    var tail := [Report(keys[5], e)];
    var both := [Report(keys[3], e)] + tail;
    ExpectedAt(keys, faults, 5);
    assert keys[6..] == [];
    assert Expected(keys[5..], faults) == tail;
    ExpectedAt(keys, faults, 4);
    assert keys[4] !in faults;
    assert Expected(keys[4..], faults) == tail;
    ExpectedAt(keys, faults, 3);
    assert Expected(keys[3..], faults) == both;
    ExpectedAt(keys, faults, 2);
    assert keys[2] !in faults;
    assert Expected(keys[2..], faults) == both;
    ExpectedAt(keys, faults, 1);
    assert keys[1] !in faults;
    assert Expected(keys[1..], faults) == both;
    ExpectedAt(keys, faults, 0);
    assert keys[0] !in faults;
    assert keys[0..] == keys;
  }

  /**
   * Against an empty namespace whose API server fails both Service creates with
   * status 500, a run for two differently named components still submits all
   * six resources in order, stores the other four, and reports exactly the two
   * failures.
   */
  lemma ServiceFailuresReported(db: string, app: string)
    requires db != app
    ensures var keys := KeysOf(PlanFor(db, app));
            var e := ApiError(Some(500));
            var r := SubmitAll(Run(map[], [], []), PlanFor(db, app), map[keys[3] := e, keys[5] := e]);
            && keys[3].kind == ServiceKind && keys[5].kind == ServiceKind
            && r.submitted == keys
            && r.reported == [Report(keys[3], e), Report(keys[5], e)]
            && forall k :: k in r.cluster <==> k in keys && k != keys[3] && k != keys[5]
  {
    var plan := PlanFor(db, app);
    var keys, e := KeysOf(plan), ApiError(Some(500));
    var faults := map[keys[3] := e, keys[5] := e];
    PlanKeys(db, app);
    PlanKeysDistinct(db, app);
    SubmitAllAttemptsEvery(Run(map[], [], []), plan, faults);
    SubmitAllReports(Run(map[], [], []), plan, faults);
    SubmitAllStores(Run(map[], [], []), plan, faults);
    FourthAndSixthReported(keys, e);
  }
}
