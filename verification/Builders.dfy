/** The objects the operator wants for a tier. */
module Builders {
  import opened Text
  import opened Types
  import opened Names
  import opened Listeners
  import opened TopologyText

  // ---------------------------------------------------------------- ports and config

  function ServicePort(v: Int32, default: Int32): Int32 {
    if v == 0 then default else v
  }

  function BinaryPort(cl: Cluster): Int32 {
    ServicePort(cl.service.binaryPort, 3301)
  }

  function HttpPort(cl: Cluster): Int32 {
    ServicePort(cl.service.httpPort, 8081)
  }

  function PgPort(cl: Cluster): Int32 {
    ServicePort(cl.service.pgPort, 5432)
  }

  /** The bootstrap peer: ordinal 0 of replicaset 1 of the first tier. */
  function PeerAddress(cl: Cluster): string
    requires cl.tiers != []
  {
    var first := cl.tiers[0].name;
    first + "-" + cl.id.name + "-1-0." + first + "-" + cl.id.name + "-interconnect." + cl.id.namespace
    + ".svc.cluster.local:" + Decimal(BinaryPort(cl))
  }

  function PluginSection(t: Tier): string {
    SectionText(Groups(t.plugins), Placeholder)
  }

  function BuildConfig(cl: Cluster, at: nat): Config
    requires at < |cl.tiers|
  {
    var t := cl.tiers[at];
    Config(cl.id.clusterName, Topology(cl.tiers), t.name, PeerAddress(cl), PluginSection(t), cl.settings + t.settings)
  }

  function ConfigMapManifest(cl: Cluster, at: nat): Manifest
    requires at < |cl.tiers|
  {
    Manifest(ConfigMapKey(cl.id, cl.tiers[at].name),
             Object(map[], ConfigData(BuildConfig(cl, at)), NothingFixed))
  }

  // ---------------------------------------------------------------- services

  function SamePort(name: string, number: Int32): ExposedPort {
    ExposedPort(name, number, number)
  }

  function InterconnectManifest(cl: Cluster, at: nat): Manifest
    requires at < |cl.tiers|
  {
    var labels := TierLabels(cl.id, cl.tiers[at].name);
    Manifest(InterconnectKey(cl.id, cl.tiers[at].name),
             Object(labels,
                    ServicePorts([SamePort("binary", BinaryPort(cl)), SamePort("pg", PgPort(cl))], labels),
                    ServiceFixed(true, "ClusterIP")))
  }

  function StandardClientPorts(cl: Cluster): seq<ExposedPort> {
    [SamePort("binary", BinaryPort(cl)), SamePort("http", HttpPort(cl)), SamePort("pg", PgPort(cl))]
  }

  /** Ports of the client Service: three fixed ones, then the plugins'. */
  function ClientPorts(cl: Cluster, t: Tier): seq<ExposedPort> {
    StandardClientPorts(cl) + Each(PluginListeners(t.plugins), ExposedPortOf)
  }

  function ClientManifest(cl: Cluster, at: nat): Manifest
    requires at < |cl.tiers|
  {
    var labels := TierLabels(cl.id, cl.tiers[at].name);
    var serviceType := if cl.service.serviceType == "" then "ClusterIP" else cl.service.serviceType;
    Manifest(ClientKey(cl.id, cl.tiers[at].name),
             Object(labels, ServicePorts(ClientPorts(cl, cl.tiers[at]), labels), ServiceFixed(false, serviceType)))
  }

  // ---------------------------------------------------------------- scheduling

  const HOSTNAME_KEY := "kubernetes.io/hostname"

  function ReplicasetTerm(id: Identity, tier: string, index: int): Term {
    Term(ReplicasetLabels(id, tier, index), HOSTNAME_KEY)
  }

  /** The terms of replicasets 1..n, in order. */
  function TermsUpTo(id: Identity, tier: string, n: nat): seq<Term> {
    if n == 0 then [] else TermsUpTo(id, tier, n - 1) + [ReplicasetTerm(id, tier, n)]
  }

  /** The affinity of the StatefulSet that a pass submits for a replicaset. When the user gave a
      PodAntiAffinity, its list is shared by all replicasets of the pass and grows with each. */
  function SubmittedAffinity(id: Identity, t: Tier, index: nat): Option<Affinity> {
    if t.disableAutoAntiAffinity then t.affinity
    else
      match t.affinity
      case None => Some(Affinity(Some([ReplicasetTerm(id, t.name, index)]), ""))
      case Some(a) =>
        match a.required
        case None => Some(a.(required := Some([ReplicasetTerm(id, t.name, index)])))
        case Some(user) => Some(a.(required := Some(user + TermsUpTo(id, t.name, index))))
  }

  // ---------------------------------------------------------------- StatefulSets

  const ADVERTISE := "PICODATA_IPROTO_ADVERTISE"

  /** $(INSTANCE_NAME).<interconnect>.$(INSTANCE_NAMESPACE).svc.cluster.local:<port> */
  function AdvertiseTemplate(id: Identity, tier: string, port: int): string {
    "$(" + POD_VARIABLE + ")" + ("." + InterconnectName(id, tier) + ".")
    + ("$(" + NAMESPACE_VARIABLE + ")" + (".svc.cluster.local:" + Decimal(port)))
  }

  function GeneratedEnv(cl: Cluster, tier: string, index: int): seq<EnvVar> {
    [
      EnvVar("POD_IP", FieldRef("status.podIP")),
      EnvVar(POD_VARIABLE, FieldRef("metadata.name")),
      EnvVar(NAMESPACE_VARIABLE, FieldRef("metadata.namespace")),
      EnvVar("PICODATA_IPROTO_LISTEN", Literal("$(INSTANCE_NAME):" + Decimal(BinaryPort(cl)))),
      EnvVar(ADVERTISE, Literal(AdvertiseTemplate(cl.id, tier, BinaryPort(cl))))
    ] + [
      EnvVar("PICODATA_HTTP_LISTEN", Literal("0.0.0.0:" + Decimal(HttpPort(cl)))),
      EnvVar("PICODATA_HTTP_ADVERTISE", Literal(AdvertiseTemplate(cl.id, tier, HttpPort(cl)))),
      EnvVar("PICODATA_PG_LISTEN", Literal("0.0.0.0:" + Decimal(PgPort(cl)))),
      EnvVar("PICODATA_PG_ADVERTISE", Literal(AdvertiseTemplate(cl.id, tier, PgPort(cl)))),
      EnvVar("PICODATA_REPLICASET_NAME", Literal(tier + "_" + Decimal(index))),
      EnvVar("PICODATA_FAILURE_DOMAIN", Literal("HOST=$(INSTANCE_NAME)")),
      EnvVar("PICODATA_CONFIG_FILE", Literal("/pico/config.yaml")),
      EnvVar("PICODATA_ADMIN_SOCK", Literal("/pico/admin.sock")),
      EnvVar("PICODATA_ADMIN_PASSWORD", SecretRef("adminPassword"))
    ]
  }

  /** The init container knows its pod's name and namespace. */
  function InitEnv(): seq<EnvVar> {
    [EnvVar(POD_VARIABLE, FieldRef("metadata.name")), EnvVar(NAMESPACE_VARIABLE, FieldRef("metadata.namespace"))]
  }

  function StandardPorts(cl: Cluster): seq<Port> {
    [Port("binary", BinaryPort(cl)), Port("http", HttpPort(cl)), Port("pg", PgPort(cl))]
  }

  /** Ports of the container: three fixed ones, then the plugins'. */
  function ContainerPorts(cl: Cluster, t: Tier): seq<Port> {
    StandardPorts(cl) + Each(PluginListeners(t.plugins), PortOf)
  }

  function BuildTemplate(hash: Config -> string, cl: Cluster, at: nat, index: nat): Template
    requires at < |cl.tiers|
  {
    var t := cl.tiers[at];
    Template(
      ReplicasetLabels(cl.id, t.name, index),
      hash(BuildConfig(cl, at)),
      GeneratedEnv(cl, t.name, index) + t.env,
      ContainerPorts(cl, t),
      SubmittedAffinity(cl.id, t, index),
      InitEnv(),
      InitScript(SedExpressions(cl.id, t.name, Exposed(PluginListeners(t.plugins)))),
      TierName(cl.id, t.name),
      cl.settings + t.settings)
  }

  function SetManifest(hash: Config -> string, cl: Cluster, at: nat, index: nat): Manifest
    requires at < |cl.tiers|
  {
    var t := cl.tiers[at];
    var labels := ReplicasetLabels(cl.id, t.name, index);
    Manifest(SetKey(cl.id, t.name, index),
             Object(labels,
                    Replicaset(t.replicationFactor, BuildTemplate(hash, cl, at, index)),
                    SetFixed(labels, InterconnectName(cl.id, t.name), t.storage)))
  }

  function SetMaker(hash: Config -> string, cl: Cluster, at: nat): nat -> Manifest
    requires at < |cl.tiers|
  {
    (index: nat) => SetManifest(hash, cl, at, index)
  }

  /** How many replicasets the creation loop goes through. */
  function SetCount(t: Tier): nat {
    if t.replicas < 0 then 0 else t.replicas
  }

  function BaseManifests(cl: Cluster, at: nat): seq<Manifest>
    requires at < |cl.tiers|
  {
    [ConfigMapManifest(cl, at), InterconnectManifest(cl, at), ClientManifest(cl, at)]
  }

  /** Base objects followed by numbers 1..n of a series. */
  function Plan(base: seq<Manifest>, make: nat -> Manifest, n: nat): seq<Manifest> {
    base + seq(n, k requires 0 <= k < n => make(k + 1))
  }

  /** Everything a tier wants before its Ingress, in the order in which it is submitted. */
  function Manifests(hash: Config -> string, cl: Cluster, at: nat): seq<Manifest>
    requires at < |cl.tiers|
  {
    Plan(BaseManifests(cl, at), SetMaker(hash, cl, at), SetCount(cl.tiers[at]))
  }

  predicate WantsIngress(t: Tier) {
    t.ingress.Some? && t.ingress.value.enabled
  }

  function IngressManifest(cl: Cluster, at: nat): Manifest
    requires at < |cl.tiers| && WantsIngress(cl.tiers[at])
  {
    var t := cl.tiers[at];
    Manifest(IngressKey(cl.id, t.name),
             Object(TierLabels(cl.id, t.name),
                    Route(t.ingress.value.host, TierName(cl.id, t.name), HttpPort(cl), t.ingress.value.options),
                    NothingFixed))
  }

  // ---------------------------------------------------------------- facts about the list

  /** The key of manifest number i. */
  function ManifestKey(cl: Cluster, at: nat, i: nat): Key
    requires at < |cl.tiers|
  {
    var t := cl.tiers[at].name;
    if i == 0 then ConfigMapKey(cl.id, t)
    else if i == 1 then InterconnectKey(cl.id, t)
    else if i == 2 then ClientKey(cl.id, t)
    else SetKey(cl.id, t, i - 2)
  }

  lemma SetManifestHead(hash: Config -> string, cl: Cluster, at: nat, index: nat)
    requires at < |cl.tiers|
    ensures SetManifest(hash, cl, at, index).key == SetKey(cl.id, cl.tiers[at].name, index)
    ensures SetManifest(hash, cl, at, index).content.labels == ReplicasetLabels(cl.id, cl.tiers[at].name, index)
  {
  }

  lemma PlanAt(base: seq<Manifest>, make: nat -> Manifest, n: nat, i: nat)
    requires i < |base| + n
    ensures |Plan(base, make, n)| == |base| + n
    ensures Plan(base, make, n)[i] == if i < |base| then base[i] else make(i - |base| + 1)
  {
  }

  lemma ManifestAt(hash: Config -> string, cl: Cluster, at: nat, i: nat)
    requires at < |cl.tiers| && i < 3 + SetCount(cl.tiers[at])
    ensures |Manifests(hash, cl, at)| == 3 + SetCount(cl.tiers[at])
    ensures Manifests(hash, cl, at)[i] == if i < 3 then BaseManifests(cl, at)[i] else SetManifest(hash, cl, at, i - 2)
  {
    PlanAt(BaseManifests(cl, at), SetMaker(hash, cl, at), SetCount(cl.tiers[at]), i);
  }

  lemma BaseHeads(cl: Cluster, at: nat)
    requires at < |cl.tiers|
    ensures |BaseManifests(cl, at)| == 3
    ensures forall i: nat | i < 3 :: BaseManifests(cl, at)[i].key == ManifestKey(cl, at, i)
  {
  }

  lemma BaseManifestHead(hash: Config -> string, cl: Cluster, at: nat, i: nat)
    requires at < |cl.tiers| && i < 3
    ensures |Manifests(hash, cl, at)| == 3 + SetCount(cl.tiers[at])
    ensures Manifests(hash, cl, at)[i].key == ManifestKey(cl, at, i)
  {
    ManifestAt(hash, cl, at, i);
    BaseHeads(cl, at);
  }

  lemma LaterManifestAt(hash: Config -> string, cl: Cluster, at: nat, i: nat)
    requires at < |cl.tiers| && 3 <= i < 3 + SetCount(cl.tiers[at])
    ensures |Manifests(hash, cl, at)| == 3 + SetCount(cl.tiers[at])
    ensures Manifests(hash, cl, at)[i] == SetManifest(hash, cl, at, i - 2)
  {
    ManifestAt(hash, cl, at, i);
  }

  lemma LaterManifestHead(hash: Config -> string, cl: Cluster, at: nat, i: nat)
    requires at < |cl.tiers| && 3 <= i < 3 + SetCount(cl.tiers[at])
    ensures |Manifests(hash, cl, at)| == 3 + SetCount(cl.tiers[at])
    ensures Manifests(hash, cl, at)[i].key == ManifestKey(cl, at, i)
    ensures Manifests(hash, cl, at)[i].content.labels == ReplicasetLabels(cl.id, cl.tiers[at].name, i - 2)
  {
    LaterManifestAt(hash, cl, at, i);
    SetManifestHead(hash, cl, at, i - 2);
  }

  lemma ManifestHead(hash: Config -> string, cl: Cluster, at: nat, i: nat)
    requires at < |cl.tiers| && i < 3 + SetCount(cl.tiers[at])
    ensures |Manifests(hash, cl, at)| == 3 + SetCount(cl.tiers[at])
    ensures Manifests(hash, cl, at)[i].key == ManifestKey(cl, at, i)
    ensures i >= 3 ==> Manifests(hash, cl, at)[i].content.labels == ReplicasetLabels(cl.id, cl.tiers[at].name, i - 2)
  {
    if i >= 3 {
      LaterManifestHead(hash, cl, at, i);
    } else {
      BaseManifestHead(hash, cl, at, i);
    }
  }

  lemma ManifestKeys(hash: Config -> string, cl: Cluster, at: nat)
    requires at < |cl.tiers|
    ensures |Manifests(hash, cl, at)| == 3 + SetCount(cl.tiers[at])
    ensures forall i | 0 <= i < |Manifests(hash, cl, at)| ::
              Manifests(hash, cl, at)[i].key == ManifestKey(cl, at, i)
    ensures forall i | 3 <= i < |Manifests(hash, cl, at)| ::
              Manifests(hash, cl, at)[i].content.labels == ReplicasetLabels(cl.id, cl.tiers[at].name, i - 2)
  {
    ManifestHead(hash, cl, at, 0);
    forall i | 0 <= i < |Manifests(hash, cl, at)|
      ensures Manifests(hash, cl, at)[i].key == ManifestKey(cl, at, i)
      ensures i >= 3 ==> Manifests(hash, cl, at)[i].content.labels == ReplicasetLabels(cl.id, cl.tiers[at].name, i - 2)
    {
      ManifestHead(hash, cl, at, i);
    }
  }

  lemma ManifestKeyInjective(cl: Cluster, at: nat, i: nat, j: nat)
    requires at < |cl.tiers|
    requires ManifestKey(cl, at, i) == ManifestKey(cl, at, j)
    ensures i == j
  {
    var t := cl.tiers[at].name;
    assert |InterconnectName(cl.id, t)| > |TierName(cl.id, t)|;
    if i >= 3 && j >= 3 {
      SetNameInjective(cl.id, t, i - 2, t, j - 2);
    }
  }
}
