/** What a reconciled tier looks like in the store, in the terms of its spec: config, ports, scheduling,
    routes and labels, and how they fit together. */
module Deployment {
  import opened Text
  import opened Types
  import opened Names
  import opened Listeners
  import opened Builders
  import opened Machine
  import opened Protocol
  import opened TierConvergence
  import opened TierTheorems
  import opened TopologyText
  import opened Scheduling
  import opened Peer
  import opened InitContainer
  import opened Yaml
  import opened ConfigReads
  import opened Substitution

  // ---------------------------------------------------------------- config

  /** The ConfigMap of the tier holds this config. */
  predicate HoldsConfig(id: Identity, tier: string, objects: map<Key, Object>, config: Config) {
    var k := ConfigMapKey(id, tier);
    k in objects && objects[k].live == ConfigData(config)
  }

  /** The config is for an instance of this tier in this cluster. */
  lemma ConfigNames(cl: Cluster, at: nat)
    requires at < |cl.tiers|
    ensures BuildConfig(cl, at).tierName == cl.tiers[at].name && BuildConfig(cl, at).clusterName == cl.id.clusterName
  {
  }

  /** The topology in the config of any tier says the names, factors and voting rights of all tiers, in order:
      the configs of two specs, for whichever tiers, agree on it exactly if the specs do. */
  lemma TopologyIsOfAllTiers(a: Cluster, i: nat, b: Cluster, j: nat)
    requires i < |a.tiers| && j < |b.tiers| && forall t | t in a.tiers + b.tiers :: ':' !in t.name
    ensures BuildConfig(a, i).topology == BuildConfig(b, j).topology <==> AllFacts(a.tiers) == AllFacts(b.tiers)
  {
    TopologySays(a.tiers, b.tiers);
  }

  lemma ConfigInStore(e: Env, cl: Cluster, at: nat, a: map<Key, Object>, b: map<Key, Object>)
    requires Built(e) && at < |cl.tiers| && IsTarget(e, cl, at, a, b)
    ensures HoldsConfig(cl.id, cl.tiers[at].name, b, BuildConfig(cl, at))
  {
    WantedAt(e, cl, at);
    WantedLive(e, cl, at, a, b, 0);
    ManifestAt(e.hash, cl, at, 0);
  }

  /** After its reconciliation the tier's ConfigMap holds the config that its instances need: the tier's own
      name, and a topology on which it agrees with every other tier of the spec. */
  lemma ConfigStored(e: Env, cl: Cluster, at: nat, a: map<Key, Object>, b: map<Key, Object>, other: nat)
    requires Built(e) && at < |cl.tiers| && other < |cl.tiers| && IsTarget(e, cl, at, a, b)
    requires forall t | t in cl.tiers :: ':' !in t.name
    ensures HoldsConfig(cl.id, cl.tiers[at].name, b, BuildConfig(cl, at))
    ensures BuildConfig(cl, at).tierName == cl.tiers[at].name && BuildConfig(cl, at).clusterName == cl.id.clusterName
    ensures BuildConfig(cl, at).topology == BuildConfig(cl, other).topology
  {
    ConfigInStore(e, cl, at, a, b);
    TopologyIsOfAllTiers(cl, at, cl, other);
  }

  /** The plugin section of the config in the ConfigMap that a StatefulSet's pods mount. */
  function MountedSection(objects: map<Key, Object>, template: Template): Option<string> {
    var k := Key(ConfigMapKind, template.configMap);
    if k in objects && objects[k].live.ConfigData? then Some(objects[k].live.config.pluginSection) else None
  }

  /** What a pod of a stored StatefulSet finds as its config; `front` is what stands before the section. */
  function ConfigFile(objects: map<Key, Object>, k: Key, pod: Pod, front: string): Option<string> {
    if k !in objects || !objects[k].live.Replicaset? then None
    else
      var template := objects[k].live.template;
      var section := MountedSection(objects, template);
      if section.None? then None else InitOutput(template, pod, front + section.value)
  }

  lemma TemplateMounts(hash: Config -> string, cl: Cluster, at: nat, i: nat)
    requires at < |cl.tiers|
    ensures var live := SetManifest(hash, cl, at, i).content.live;
            && live.Replicaset? && live.template == BuildTemplate(hash, cl, at, i)
            && Key(ConfigMapKind, live.template.configMap) == ConfigMapKey(cl.id, cl.tiers[at].name)
  {
  }

  lemma SetIsWanted(e: Env, cl: Cluster, at: nat, i: nat)
    requires Built(e) && at < |cl.tiers| && 1 <= i <= SetCount(cl.tiers[at])
    ensures i + 2 < |Wanted(e, cl, at)| && Wanted(e, cl, at)[i + 2] == SetManifest(e.hash, cl, at, i)
  {
    WantedAt(e, cl, at);
    ManifestAt(e.hash, cl, at, i + 2);
  }

  lemma SetStored(e: Env, cl: Cluster, at: nat, a: map<Key, Object>, b: map<Key, Object>, i: nat)
    requires Built(e) && at < |cl.tiers| && IsTarget(e, cl, at, a, b) && 1 <= i <= SetCount(cl.tiers[at])
    ensures var k := SetKey(cl.id, cl.tiers[at].name, i);
            && k in b && b[k].live.Replicaset? && b[k].live.template == BuildTemplate(e.hash, cl, at, i)
  {
    SetIsWanted(e, cl, at, i);
    WantedLive(e, cl, at, a, b, i + 2);
    SetManifestHead(e.hash, cl, at, i);
    TemplateMounts(e.hash, cl, at, i);
  }

  /** After its reconciliation, whatever was stored before: every pod of every replicaset of the tier reads,
      after what stands in front, each usable listener of the tier's plugins with its port and the pod's own
      address. */
  lemma DeployedPodReads(
      e: Env, cl: Cluster, at: nat, a: map<Key, Object>, b: map<Key, Object>, i: nat, pod: Pod, front: string)
    requires Built(e) && at < |cl.tiers| && IsTarget(e, cl, at, a, b) && 1 <= i <= SetCount(cl.tiers[at])
    requires GoodSite(cl, at, pod) && PlainPlugins(cl.tiers[at].plugins) && EndsInInstance(front)
    requires NothingMistaken(front, Exposed(PluginListeners(cl.tiers[at].plugins)))
    ensures var t := cl.tiers[at];
            var file := ConfigFile(b, SetKey(cl.id, t.name, i), pod, front);
            && file.Some?
            && ReadText(NOTHING_READ, file.value).settings
               == ReadText(NOTHING_READ, front).settings
                  + SectionSettings(["instance", "plugin"], Exposed(PluginListeners(t.plugins)),
                                    OwnAddress(pod.field("metadata.name"), cl.id, t.name))
  {
    SetStored(e, cl, at, a, b, i);
    ConfigInStore(e, cl, at, a, b);
    TemplateMounts(e.hash, cl, at, i);
    PodConfigReads(e.hash, cl, at, i, pod, front);
  }

  // ---------------------------------------------------------------- ports

  /** The port given, or else the default. */
  predicate Chosen(port: Int32, given: Int32, default: Int32) {
    (given != 0 ==> port == given) && (given == 0 ==> port == default)
  }

  /** The ports of a client Service: the three of Picodata first. */
  predicate StandardFirst(cl: Cluster, ports: seq<ExposedPort>) {
    && |ports| >= 3 && ports[0].name == "binary" && ports[1].name == "http" && ports[2].name == "pg"
    && Chosen(ports[0].port, cl.service.binaryPort, 3301)
    && Chosen(ports[1].port, cl.service.httpPort, 8081)
    && Chosen(ports[2].port, cl.service.pgPort, 5432)
  }

  lemma ClientPortsChosen(cl: Cluster, at: nat)
    requires at < |cl.tiers|
    ensures StandardFirst(cl, ClientManifest(cl, at).content.live.servicePorts)
  {
  }

  /** Between the instances the binary and pg ports are exposed, under the same numbers as to clients. */
  lemma InterconnectPortsAre(cl: Cluster, at: nat)
    requires at < |cl.tiers|
    ensures var inner := InterconnectManifest(cl, at).content.live.servicePorts;
            var outer := ClientManifest(cl, at).content.live.servicePorts;
            |inner| == 2 && |outer| >= 3 && inner[0] == outer[0] && inner[1] == outer[2]
  {
  }

  /** The Ingress routes the host given to the tier's client Service, at the port that Service calls http. */
  lemma IngressRoutes(cl: Cluster, at: nat)
    requires at < |cl.tiers| && WantsIngress(cl.tiers[at])
    ensures var route, client := IngressManifest(cl, at).content.live, ClientManifest(cl, at);
            && route.Route? && route.host == cl.tiers[at].ingress.value.host
            && route.options == cl.tiers[at].ingress.value.options
            && client.key.kind == ServiceKind && route.backend == client.key.name
            && |client.content.live.servicePorts| >= 3 && client.content.live.servicePorts[1].name == "http"
            && route.port == client.content.live.servicePorts[1].port
  {
  }

  // ---------------------------------------------------------------- scheduling

  /** The pods of one replicaset keep off each other's nodes. */
  function OwnTerm(labels: Labels): Term {
    Term(labels, "kubernetes.io/hostname")
  }

  /** The affinity in the pod template is what the loop over the replicasets sends: unless it is disabled, the
      user's rules, then a term against pods with the template's own labels on the same node. */
  lemma TemplateAffinity(hash: Config -> string, cl: Cluster, at: nat, index: nat)
    requires at < |cl.tiers| && index >= 1
    ensures var t, template := cl.tiers[at], BuildTemplate(hash, cl, at, index);
            && template.affinity == SubmittedAffinity(cl.id, t, index)
            && (t.disableAutoAntiAffinity ==> template.affinity == t.affinity)
            && (!t.disableAutoAntiAffinity ==>
                  && template.affinity.Some? && template.affinity.value.required.Some?
                  && template.affinity.value.rest == (if t.affinity.Some? then t.affinity.value.rest else "")
                  && var terms := template.affinity.value.required.value;
                     UserTerms(t) <= terms && terms != [] && terms[|terms| - 1] == OwnTerm(template.labels))
  {
    if !cl.tiers[at].disableAutoAntiAffinity {
      SubmittedTerms(cl.id, cl.tiers[at], index);
    }
  }

  // ---------------------------------------------------------------- labels

  /** What the objects and pods of a tier are labelled with. */
  predicate Labelled(labels: Labels, cl: Cluster, tier: string) {
    && "app.kubernetes.io/name" in labels && labels["app.kubernetes.io/name"] == tier + "-" + cl.id.name
    && "app.kubernetes.io/cluster" in labels && labels["app.kubernetes.io/cluster"] == cl.id.clusterName
    && "app.kubernetes.io/instance" in labels && labels["app.kubernetes.io/instance"] == cl.id.name
  }

  lemma ObjectsLabelled(hash: Config -> string, cl: Cluster, at: nat, index: nat)
    requires at < |cl.tiers|
    ensures var t, sts := cl.tiers[at].name, SetManifest(hash, cl, at, index).content;
            && Labelled(InterconnectManifest(cl, at).content.labels, cl, t)
            && Labelled(ClientManifest(cl, at).content.labels, cl, t)
            && Labelled(sts.labels, cl, t) && sts.live.Replicaset? && sts.live.template.labels == sts.labels
            && "picodata.io/replicaset" in sts.labels && sts.labels["picodata.io/replicaset"] == Decimal(index)
            && (WantsIngress(cl.tiers[at]) ==> Labelled(IngressManifest(cl, at).content.labels, cl, t))
  {
  }
}
