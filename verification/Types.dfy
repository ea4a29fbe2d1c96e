/** The cluster resource as users write it, and the Kubernetes objects built from it. */
module Types {
  import opened Text

  type Labels = map<string, string>

  // ---------------------------------------------------------------- spec

  /** The part of a PicoclusterDB that never changes: metadata.name, metadata.namespace
      and the immutable spec.clusterName. */
  datatype Identity = Identity(name: string, namespace: string, clusterName: string)

  datatype PluginService = PluginService(name: string, listenerPort: Int32)

  datatype Plugin = Plugin(
    name: string,
    version: string,
    migrationContext: map<string, string>,
    services: seq<PluginService>)

  datatype EnvSource = Literal(text: string) | FieldRef(path: string) | SecretRef(secret: string)

  datatype EnvVar = EnvVar(name: string, source: EnvSource)

  /** A required pod anti-affinity term. */
  datatype Term = Term(matchLabels: Labels, topologyKey: string)

  /** An Affinity value: `required` is None when the PodAntiAffinity pointer is nil;
      `rest` stands for every other scheduling rule. */
  datatype Affinity = Affinity(required: Option<seq<Term>>, rest: string)

  datatype IngressSpec = IngressSpec(enabled: bool, host: string, options: string)

  /** `settings` stands for the fields that are copied without a decision
      (memtx, vinyl, log, pg, resources, tolerations, ...), `storage` for the volume claim. */
  datatype Tier = Tier(
    name: string,
    replicas: Int32,
    replicationFactor: Int32,
    canVote: bool,
    plugins: seq<Plugin>,
    env: seq<EnvVar>,
    affinity: Option<Affinity>,
    disableAutoAntiAffinity: bool,
    ingress: Option<IngressSpec>,
    storage: string,
    settings: string)

  datatype ServiceSpec = ServiceSpec(serviceType: string, binaryPort: Int32, httpPort: Int32, pgPort: Int32)

  datatype Cluster = Cluster(
    id: Identity,
    tiers: seq<Tier>,
    service: ServiceSpec,
    settings: string)

  // ---------------------------------------------------------------- objects

  datatype Kind = ConfigMapKind | ServiceKind | StatefulSetKind | IngressKind

  datatype Key = Key(kind: Kind, name: string)

  /** A port of a container. */
  datatype Port = Port(name: string, number: Int32)

  /** A port of a Service and the container port it forwards to. */
  datatype ExposedPort = ExposedPort(name: string, port: Int32, targetPort: Int32)

  /** The config.yaml of a tier, field by field. */
  datatype Config = Config(
    clusterName: string,
    topology: string,
    tierName: string,
    peer: string,
    pluginSection: string,
    settings: string)

  datatype Template = Template(
    labels: Labels,
    checksum: string,
    env: seq<EnvVar>,
    ports: seq<Port>,
    affinity: Option<Affinity>,
    initEnv: seq<EnvVar>,
    initScript: string,
    configMap: string,
    settings: string)

  /** The fields that a reconciler overwrites on an object that already exists. */
  datatype Live =
    | ConfigData(config: Config)
    | ServicePorts(servicePorts: seq<ExposedPort>, selector: Labels)
    | Replicaset(replicas: Int32, template: Template)
    | Route(host: string, backend: string, port: Int32, options: string)

  /** The fields that are written when the object is created and never again. */
  datatype Fixed =
    | NothingFixed
    | ServiceFixed(headless: bool, serviceType: string)
    | SetFixed(matchLabels: Labels, serviceName: string, claims: string)

  datatype Object = Object(labels: Labels, live: Live, fixed: Fixed)

  /** An object the operator wants to exist, under its key. */
  datatype Manifest = Manifest(key: Key, content: Object)

  // ---------------------------------------------------------------- status

  datatype Phase = NoPhase | Initializing | Ready

  datatype ConditionStatus = ConditionTrue | ConditionFalse | ConditionUnknown

  datatype Condition = Condition(
    kind: string,
    status: ConditionStatus,
    reason: string,
    message: string,
    lastTransitionTime: int)

  datatype PluginStatus = PluginStatus(name: string, version: string, enabled: bool)

  datatype TierStatus = TierStatus(
    name: string,
    readyReplicas: Int32,
    desiredReplicas: Int32,
    plugins: seq<PluginStatus>)

  datatype Status = Status(phase: Phase, tiers: seq<TierStatus>, conditions: seq<Condition>)
}
