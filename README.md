# hello-k8s provisioner, modelled in Dafny

The repository's `index.ts` puts a two-tier application into the `default`
namespace of a Kubernetes cluster. The tiers are a MongoDB database and a
small web application. The file has two pieces of logic, and this project
models both:

- `manifests.dfy`, module `Manifests`, holds the four pure builders.
  - `buildSecretForDb` and `buildConfigForDb` build the database's
    credentials and endpoint.
  - `buildDeploymentForDb` and `buildDeploymentForApp` each build a
    Deployment and the Service in front of it.
  - The builders are Dafny functions over datatypes for Secret, ConfigMap,
    Deployment, Service and environment references.
  - Their contracts state:
    - the naming scheme: the component name comes back out of every
      resource name;
    - the label and selector agreement that Service-to-Pod routing depends
      on;
    - the ports;
    - the exact environment references.
  - Lemmas show that the hard-coded names `mongodb-secret`, `mongodb-config`
    and `mongodb-service` match the built resources only when the database
    component is called `mongodb`.
- `provisioning.dfy`, module `Provisioning`, holds create-or-skip
  provisioning.
  - The cluster is a map from (namespace, kind, name) to the stored
    manifest.
  - The API server is an abstract create. A failure injected for the key
    wins. Otherwise the server answers 409 when the key is taken, and
    otherwise it stores the manifest.
  - `CatchFailure` absorbs 409 and reports every other error, including one
    without a status code.
  - The class `Provisioner` has these fields:
    - the cluster;
    - the keys submitted so far;
    - the failures reported so far.
  - `Provisioner.ProvisionApp` makes the six creates of `provisionApp` in
    order, straight-line, as the source does.
  - `ProvisionApp` is proved against the specification function
    `SubmitAll`. The lemmas about `SubmitAll` cover:
    - order;
    - that every step is attempted;
    - that exactly the non-409 failures are reported;
    - what the cluster ends up holding;
    - idempotence;
    - the scenario in which both Service creates fail.
- `wrappers.dfy` holds the `Option` type.

## Model

| member | source | states |
|---|---|---|
| Manifests.BuildSecretForDb | index.ts:21-32 | The Secret's name is the component name followed by `-secret`, and that name gives the component back. The type is `Opaque`. The data has exactly the keys `username` and `password`, holding the fixed encoded credentials. |
| Manifests.BuildConfigForDb | index.ts:34-43 | The ConfigMap's name is the component name followed by `-config`. It has exactly one key, `endpoint`. That key's value is `mongodb-service` whatever the component is called. |
| Manifests.BuildDeploymentForDb | index.ts:45-113 | The Deployment's name is the component name followed by `-deployment`, and the Service's name is the component name followed by `-service`. There is one replica. The Deployment labels, the matchLabels, the pod labels and the Service selector are all `app = name`. The Service routes to the pods. Every Service port and target port is 27017, and a container listens on 27017. The only container is named after the component, runs image `mongo:5.0.14` and exposes only 27017. Its environment is exactly `MONGO_INITDB_ROOT_USERNAME` from `mongodb-secret`'s `username`, then `MONGO_INITDB_ROOT_PASSWORD` from its `password`. The Service has exactly one port, TCP 27017 to 27017. |
| Manifests.BuildDeploymentForApp | index.ts:116-191 | The same naming, replica, label, selector and routing agreement as the database builder, with port 3000. The only container is named after the component, runs image `nanajanashia/k8s-demo-app:v1.0` and exposes only 3000. Its environment is exactly `USER_NAME` from `mongodb-secret`'s `username`, then `USER_PWD` from its `password`, then `DB_URL` from `mongodb-config`'s `endpoint`. The Service has exactly one port, TCP 3000 to 3000. |
| Manifests.ComponentOfNamed | index.ts:24 | Naming by suffix loses nothing: stripping the suffix from a built name gives back the component name. |
| Manifests.SuffixedNamesInjective | index.ts:48 | Two components get the same suffixed name exactly when they are the same component. |
| Manifests.EndpointNamesDbService | index.ts:40 | The endpoint value in the ConfigMap equals the database Service's name (built at line 99) exactly when the database component is `mongodb`. |
| Manifests.ReferencedNamesMatch | index.ts:203-205 | The Secret is named `mongodb-secret`, the name the workloads use (lines 77, 86, 148, 157), exactly when the component is `mongodb`. The same holds for the ConfigMap and `mongodb-config` (line 166). |
| Provisioning.CatchFailure | index.ts:13-19 | Nothing is reported exactly when the status code is 409. A missing code or any other code reports the error unchanged. |
| Provisioning.Respond | index.ts:206 | The API server's answer to a create. It stores the manifest exactly when no failure is injected for the key and the key is free. Without an injected failure, a rejection is a 409. |
| Provisioning.Provisioner.constructor | index.ts:201-203 | Starts a run on a cluster whose entries sit under their own keys. Nothing has been submitted or reported yet. |
| Provisioning.Provisioner.CreateOrSkip | index.ts:206-210 | One `create(...).catch(catchFailure)` step. The new state is one `Submit` of the old state. The result is the stored object when the create succeeded and absent otherwise. The invariant is kept: keys are well-formed and no 409 is ever reported. |
| Provisioning.Provisioner.CreateWorkload | index.ts:220-222 | A workload's Deployment is submitted, then its Service, whatever the Deployment's answer was. |
| Provisioning.Provisioner.ProvisionApp | index.ts:201-230 | The new state is `SubmitAll` of the six manifests in order. Exactly those six keys are appended to the submitted list. The reports are exactly the injected non-409 failures, in order. Every resource the cluster already held keeps its manifest. |
| Provisioning.SubmitPlan | index.ts:205-227 | A run of the plan is its six creates, one after another. |
| Provisioning.SubmitAllAttemptsEvery | index.ts:205-227 | Every step is attempted, in order, whatever the earlier steps answered. |
| Provisioning.SubmitAllReports | index.ts:205-227 | The failures reported are exactly the injected non-409 failures of the submitted keys, in order. |
| Provisioning.ExpectedReportsNonConflicts | index.ts:13-19 | A report is made exactly for a submitted key whose injected failure is not a 409, and it carries that failure. |
| Provisioning.ConflictsNeverReported | index.ts:15-17 | A server that answers only 409 causes no report at all. |
| Provisioning.SubmitAllKeeps | index.ts:206-227 | A run never overwrites or removes what the cluster already held. It stores every manifest under its own key. |
| Provisioning.SubmitAllStores | index.ts:206-227 | After a run, a key is present exactly when it was present before, or it was submitted without an injected failure. Every new entry is one of the submitted manifests. |
| Provisioning.Idempotent | index.ts:206-227 | Against a cluster that already holds every key of the run, the cluster is unchanged. When no failure is injected, nothing is reported either. |
| Provisioning.RunTwice | index.ts:201-234 | A second run of the same steps leaves the cluster as the first run left it. |
| Provisioning.RunTwiceQuiet | index.ts:206-227 | Against a server that fails nothing, neither a run nor its repetition reports anything. |
| Provisioning.PlanKeys | index.ts:203-227 | The six keys in submission order are: Secret, ConfigMap, Deployment and Service of the database, then Deployment and Service of the application, each named component plus suffix. |
| Provisioning.PlanKeysDistinct | index.ts:203-227 | The six keys are pairwise distinct exactly when the two component names differ (`mongodb` and `webapp` do). |
| Provisioning.PlanReferencesResolve | index.ts:203-227 | Every secret and config-map reference of each Deployment resolves to a Secret or ConfigMap submitted earlier in the run, with the key present. This holds exactly when the database component is `mongodb`. |
| Provisioning.FourthAndSixthReported | index.ts:222-227 | Six distinct keys are submitted, and only the fourth and sixth fail, with a non-409 error. Exactly those two failures are reported, in order. |
| Provisioning.ServiceFailuresReported | index.ts:220-227 | An empty namespace, and a server that fails both Service creates with 500. All six creates are still submitted in order, the other four resources are stored, and exactly the two Service failures are reported. |

## Left out

- Kubeconfig loading and the construction of the API clients (index.ts:5-10) are left out. They are credential plumbing and foreign library calls. The API server is modelled as `Respond`: an injected-failure map, then a 409 on a taken key, then insertion.
- Injected failures are one fixed answer per key. A server whose answers change over time or between runs is not modelled.
- The cluster holds only what this program submits, under (namespace, kind, name) keys. API groups, resource versions and server-filled fields are not modelled.
- Console logging (index.ts:18, 208-209, 216-217, 229, 232) is left out. "Reported" is modelled as an appended list of `Report`s, not as printed output.
- Promises, `await` and the outer `try/catch` (index.ts:202, 231-233) are left out. The model's create never throws, so the catch-all has nothing to catch. The steps run in sequence as `await` makes them.
- `provisionDb` (index.ts:194-199) is dead code: it is never called and submits nothing. It passes already-suffixed names to the builders, so it would produce names such as `mongodb-secret-secret`.
- The unused `js-yaml` and `fs` imports are left out.
- The credential values are kept as the opaque strings the source writes. Base64 decoding is not modelled.
- Builder determinism needs no lemma, because Dafny functions are deterministic by construction.
- `provisionApp` makes six creates, because each workload's Deployment and Service are submitted separately (index.ts:205-227).
- The builders do not reject an empty component name, so the model's builders accept any name.
