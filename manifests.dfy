/**
 * Desired-state descriptions of a two-tier application (a MongoDB database
 * tier and a web tier) and the pure builders that derive them from a
 * component name. Only the fields the builders set are modelled.
 */
module Manifests {
  import opened Wrappers

  type Labels = map<string, string>

  datatype ObjectMeta = ObjectMeta(name: string, labels: Labels)

  /** `data` holds base64-encoded strings; they are kept opaque here. */
  datatype Secret = Secret(metadata: ObjectMeta, secretType: string, data: map<string, string>)

  datatype ConfigMap = ConfigMap(metadata: ObjectMeta, data: map<string, string>)

  /** Where an environment variable takes its value from: a key of a Secret or of a ConfigMap, each named. */
  datatype EnvSource =
    | SecretKeyRef(name: string, key: string)
    | ConfigMapKeyRef(name: string, key: string)

  datatype EnvVar = EnvVar(name: string, valueFrom: EnvSource)

  datatype Container = Container(name: string, image: string, containerPorts: seq<nat>, env: seq<EnvVar>)

  datatype PodTemplate = PodTemplate(labels: Labels, containers: seq<Container>)

  datatype Deployment = Deployment(metadata: ObjectMeta, replicas: nat, matchLabels: Labels, template: PodTemplate)

  datatype ServicePort = ServicePort(protocol: string, port: nat, targetPort: nat)

  datatype Service = Service(metadata: ObjectMeta, selector: Labels, ports: seq<ServicePort>)

  /** A Deployment with the Service that routes traffic to its pods. */
  datatype Workload = Workload(deployment: Deployment, service: Service)

  datatype Kind = SecretKind | ConfigMapKind | DeploymentKind | ServiceKind

  /** Any of the four resources the provisioner submits. */
  datatype Manifest =
    | SecretManifest(secret: Secret)
    | ConfigMapManifest(configMap: ConfigMap)
    | DeploymentManifest(deployment: Deployment)
    | ServiceManifest(service: Service)
  {
    function KindOf(): Kind {
      match this
      case SecretManifest(_) => SecretKind
      case ConfigMapManifest(_) => ConfigMapKind
      case DeploymentManifest(_) => DeploymentKind
      case ServiceManifest(_) => ServiceKind
    }

    function Name(): string {
      match this
      case SecretManifest(s) => s.metadata.name
      case ConfigMapManifest(c) => c.metadata.name
      case DeploymentManifest(d) => d.metadata.name
      case ServiceManifest(s) => s.metadata.name
    }
  }

  const SecretSuffix := "-secret"
  const ConfigSuffix := "-config"
  const DeploymentSuffix := "-deployment"
  const ServiceSuffix := "-service"

  const AppLabel := "app"

  /** The credential payload, already base64-encoded. */
  const EncodedUsername := "YWRtaW4="
  const EncodedPassword := "MWYyZDFlMmU2N2Rm"

  const DbImage := "mongo:5.0.14"
  const DbPort := 27017
  const AppImage := "nanajanashia/k8s-demo-app:v1.0"
  const AppPort := 3000

  /**
   * The names the workloads refer to, written in literally rather than
   * derived from the component name the builders are given.
   */
  const FixedSecretName := "mongodb-secret"
  const FixedConfigName := "mongodb-config"
  const FixedEndpoint := "mongodb-service"

  /** The component a resource name was derived from, when the name ends in `suffix`. */
  function ComponentOf(resourceName: string, suffix: string): (r: Option<string>)
    ensures r.Some? ==> r.value + suffix == resourceName
  {
    if |suffix| <= |resourceName| && resourceName[|resourceName| - |suffix|..] == suffix
    then Some(resourceName[..|resourceName| - |suffix|])
    else None
  }

  /** Naming by suffix loses nothing: the component name is recovered from the resource name. */
  lemma ComponentOfNamed(name: string, suffix: string)
    ensures ComponentOf(name + suffix, suffix) == Some(name)
  {
    var s := name + suffix;
    assert s[|s| - |suffix|..] == suffix;
    assert s[..|s| - |suffix|] == name;
  }

  /** Two components get the same suffixed name only if they are the same component. */
  lemma SuffixedNamesInjective(a: string, b: string, suffix: string)
    ensures a + suffix == b + suffix <==> a == b
  {
    ComponentOfNamed(a, suffix);
    ComponentOfNamed(b, suffix);
  }

  function AppLabels(name: string): Labels {
    map[AppLabel := name]
  }

  /** Every label the selector asks for is carried, with the same value. */
  predicate Selects(selector: Labels, labels: Labels) {
    forall k :: k in selector ==> k in labels && labels[k] == selector[k]
  }

  /** Some container of the template listens on `port`. */
  predicate Listens(t: PodTemplate, port: nat) {
    exists c :: c in t.containers && port in c.containerPorts
  }

  /**
   * What Service-to-Pod routing depends on: the Deployment's selector picks its
   * own pod template, the Service selects by the same non-empty labels, and each
   * Service port forwards to a port some container listens on.
   */
  predicate Routes(w: Workload) {
    var d, s := w.deployment, w.service;
    && d.matchLabels != map[]
    && Selects(d.matchLabels, d.template.labels)
    && s.selector == d.matchLabels
    && forall p :: p in s.ports ==> Listens(d.template, p.targetPort)
  }

  /** Every port the Service exposes is `port`, forwarded to `port` in the pods. */
  predicate ServesOnly(w: Workload, port: nat) {
    && w.service.ports != []
    && forall p :: p in w.service.ports ==> p.port == port && p.targetPort == port
  }

  /** The labels of the Deployment, of its selector, of its pods and the Service's selector all equal `labels`. */
  predicate LabelledWith(w: Workload, labels: Labels) {
    && w.deployment.metadata.labels == labels
    && w.deployment.matchLabels == labels
    && w.deployment.template.labels == labels
    && w.service.selector == labels
  }

  /** The sources of every environment variable of every container, in order. */
  function EnvSources(containers: seq<Container>): seq<EnvSource>
  {
    if containers == [] then []
    else EnvSources(containers[..|containers| - 1]) + EnvSourcesOf(containers[|containers| - 1].env)
  }

  function EnvSourcesOf(env: seq<EnvVar>): (r: seq<EnvSource>)
    ensures |r| == |env| && forall i :: 0 <= i < |env| ==> r[i] == env[i].valueFrom
  {
    if env == [] then [] else [env[0].valueFrom] + EnvSourcesOf(env[1..])
  }

  /** index.ts `buildSecretForDb`: the database credentials as an opaque Secret. */
  function BuildSecretForDb(name: string): (r: Secret)
    ensures ComponentOf(r.metadata.name, SecretSuffix) == Some(name)
    ensures r.secretType == "Opaque"
    ensures r.data.Keys == {"username", "password"}
    ensures r.data["username"] == EncodedUsername && r.data["password"] == EncodedPassword
  {
    ComponentOfNamed(name, SecretSuffix);
    Secret(ObjectMeta(name + SecretSuffix, map[]), "Opaque",
           map["username" := EncodedUsername, "password" := EncodedPassword])
  }

  /** index.ts `buildConfigForDb`: the database endpoint as a one-key ConfigMap. */
  function BuildConfigForDb(name: string): (r: ConfigMap)
    ensures ComponentOf(r.metadata.name, ConfigSuffix) == Some(name)
    ensures r.data.Keys == {"endpoint"} && r.data["endpoint"] == FixedEndpoint
  {
    ComponentOfNamed(name, ConfigSuffix);
    ConfigMap(ObjectMeta(name + ConfigSuffix, map[]), map["endpoint" := FixedEndpoint])
  }

  /** index.ts `buildDeploymentForDb`: a single MongoDB pod and the Service in front of it. */
  function BuildDeploymentForDb(name: string): (r: Workload)
    ensures ComponentOf(r.deployment.metadata.name, DeploymentSuffix) == Some(name)
    ensures ComponentOf(r.service.metadata.name, ServiceSuffix) == Some(name)
    ensures r.deployment.replicas == 1
    ensures LabelledWith(r, AppLabels(name)) && Routes(r) && ServesOnly(r, DbPort)
    ensures EnvSources(r.deployment.template.containers)
            == [SecretKeyRef(FixedSecretName, "username"), SecretKeyRef(FixedSecretName, "password")]
    ensures r.deployment.template.containers
            == [Container(name, DbImage, [DbPort],
                          [EnvVar("MONGO_INITDB_ROOT_USERNAME", SecretKeyRef(FixedSecretName, "username")),
                           EnvVar("MONGO_INITDB_ROOT_PASSWORD", SecretKeyRef(FixedSecretName, "password"))])]
    ensures r.service.ports == [ServicePort("TCP", DbPort, DbPort)]
  {
    ComponentOfNamed(name, DeploymentSuffix);
    ComponentOfNamed(name, ServiceSuffix);
    var labels := AppLabels(name);
    assert AppLabel in labels;
    var container := Container(name, DbImage, [DbPort],
                               [EnvVar("MONGO_INITDB_ROOT_USERNAME", SecretKeyRef(FixedSecretName, "username")),
                                EnvVar("MONGO_INITDB_ROOT_PASSWORD", SecretKeyRef(FixedSecretName, "password"))]);
    var template := PodTemplate(labels, [container]);
    assert Listens(template, DbPort) by { assert container in template.containers; }
    Workload(Deployment(ObjectMeta(name + DeploymentSuffix, labels), 1, labels, template),
             Service(ObjectMeta(name + ServiceSuffix, map[]), labels, [ServicePort("TCP", DbPort, DbPort)]))
  }

  /** index.ts `buildDeploymentForApp`: a single web-application pod and the Service in front of it. */
  function BuildDeploymentForApp(name: string): (r: Workload)
    ensures ComponentOf(r.deployment.metadata.name, DeploymentSuffix) == Some(name)
    ensures ComponentOf(r.service.metadata.name, ServiceSuffix) == Some(name)
    ensures r.deployment.replicas == 1
    ensures LabelledWith(r, AppLabels(name)) && Routes(r) && ServesOnly(r, AppPort)
    ensures EnvSources(r.deployment.template.containers)
            == [SecretKeyRef(FixedSecretName, "username"), SecretKeyRef(FixedSecretName, "password"),
                ConfigMapKeyRef(FixedConfigName, "endpoint")]
    ensures r.deployment.template.containers
            == [Container(name, AppImage, [AppPort],
                          [EnvVar("USER_NAME", SecretKeyRef(FixedSecretName, "username")),
                           EnvVar("USER_PWD", SecretKeyRef(FixedSecretName, "password")),
                           EnvVar("DB_URL", ConfigMapKeyRef(FixedConfigName, "endpoint"))])]
    ensures r.service.ports == [ServicePort("TCP", AppPort, AppPort)]
  {
    ComponentOfNamed(name, DeploymentSuffix);
    ComponentOfNamed(name, ServiceSuffix);
    var labels := AppLabels(name);
    assert AppLabel in labels;
    var container := Container(name, AppImage, [AppPort],
                               [EnvVar("USER_NAME", SecretKeyRef(FixedSecretName, "username")),
                                EnvVar("USER_PWD", SecretKeyRef(FixedSecretName, "password")),
                                EnvVar("DB_URL", ConfigMapKeyRef(FixedConfigName, "endpoint"))]);
    var template := PodTemplate(labels, [container]);
    assert Listens(template, AppPort) by { assert container in template.containers; }
    Workload(Deployment(ObjectMeta(name + DeploymentSuffix, labels), 1, labels, template),
             Service(ObjectMeta(name + ServiceSuffix, map[]), labels, [ServicePort("TCP", AppPort, AppPort)]))
  }

  /**
   * The ConfigMap's endpoint value names the database Service only when the
   * database component is called "mongodb".
   */
  lemma EndpointNamesDbService(db: string)
    ensures BuildConfigForDb(db).data["endpoint"] == BuildDeploymentForDb(db).service.metadata.name
            <==> db == "mongodb"
  {
    SuffixedNamesInjective(db, "mongodb", ServiceSuffix);
  }

  /**
   * The workloads' Secret and ConfigMap references, fixed names whatever the
   * component, name the database Secret and ConfigMap only when the database
   * component is called "mongodb".
   */
  lemma ReferencedNamesMatch(db: string)
    ensures BuildSecretForDb(db).metadata.name == FixedSecretName <==> db == "mongodb"
    ensures BuildConfigForDb(db).metadata.name == FixedConfigName <==> db == "mongodb"
  {
    SuffixedNamesInjective(db, "mongodb", SecretSuffix);
    SuffixedNamesInjective(db, "mongodb", ConfigSuffix);
  }

}
