/** Consequences of reaching the target: exact replicaset indices, the frame over other tiers,
    checksums, and tiers that stay as they are. */
module TierTheorems {
  import opened Text
  import opened Types
  import opened Names
  import opened Builders
  import opened Machine
  import opened Protocol
  import opened Invariants
  import opened Safety
  import opened TierConvergence

  predicate IsOwnSet(cl: Cluster, at: nat, k: Key, i: nat)
    requires at < |cl.tiers|
  {
    1 <= i <= SetCount(cl.tiers[at]) && k == SetKey(cl.id, cl.tiers[at].name, i)
  }

  // ---------------------------------------------------------------- keys of a tier

  /** The objects a tier of this name may have. */
  ghost predicate TierKey(id: Identity, tier: string, k: Key) {
    || k == ConfigMapKey(id, tier) || k == InterconnectKey(id, tier) || k == ClientKey(id, tier)
    || k == IngressKey(id, tier) || exists i: nat :: i > 0 && k == SetKey(id, tier, i)
  }

  lemma OwnKeyIsTierKey(e: Env, cl: Cluster, at: nat, k: Key)
    requires KeysBuilt(e) && at < |cl.tiers| && OwnKey(e, cl, at, k)
    ensures TierKey(cl.id, cl.tiers[at].name, k)
    ensures k.kind == StatefulSetKind ==> exists i: nat :: IsOwnSet(cl, at, k, i)
  {
    var ms, d := Wanted(e, cl, at), e.desired(cl, at);
    var j: nat :| j < |ms| && ms[j].key == k;
    if j < |d| {
      assert d[j].key == ManifestKey(cl, at, j);
      if j >= 3 {
        assert IsOwnSet(cl, at, k, j - 2);
      }
    } else {
      assert k == IngressManifest(cl, at).key;
    }
  }

  lemma OwnSetIsOwnKey(e: Env, cl: Cluster, at: nat, k: Key, i: nat)
    requires KeysBuilt(e) && at < |cl.tiers| && IsOwnSet(cl, at, k, i)
    ensures OwnKey(e, cl, at, k)
    ensures Wanted(e, cl, at)[i + 2].key == k
    ensures Wanted(e, cl, at)[i + 2].content.labels == ReplicasetLabels(cl.id, cl.tiers[at].name, i)
  {
    var d := e.desired(cl, at);
    assert d[i + 2].key == ManifestKey(cl, at, i + 2);
    assert Wanted(e, cl, at)[i + 2] == d[i + 2];
  }

  /** Unless Service names clash, an object belongs to one tier only. */
  lemma TierKeysDisjoint(id: Identity, s: string, t: string, k: Key)
    requires !ServicesClash(id, s, t) && !ServicesClash(id, t, s)
    requires TierKey(id, s, k) && TierKey(id, t, k)
    ensures s == t
  {
    if k.kind == StatefulSetKind {
      var i: nat :| i > 0 && k == SetKey(id, s, i);
      var j: nat :| j > 0 && k == SetKey(id, t, j);
      SetNameInjective(id, s, i, t, j);
    } else if TierName(id, s) == TierName(id, t) {
      TierNameInjective(id, s, t);
    } else {
      InterconnectNameInjective(id, s, t);
    }
  }

  // ---------------------------------------------------------------- extra replicasets

  /** In a store the cluster owns, extra means: the tier's replicaset with an index beyond. */
  lemma ExtraIsBeyond(cl: Cluster, at: nat, w: World, k: Key)
    requires at < |cl.tiers| && Owned(cl.id, w) && k in w.objects
    requires k.kind == StatefulSetKind && Matches(w.objects[k].labels, TierLabels(cl.id, cl.tiers[at].name))
    ensures exists i: nat :: 1 <= i && k == SetKey(cl.id, cl.tiers[at].name, i)
                          && (Extra(cl, at, w.objects, k) <==> i > SetCount(cl.tiers[at]))
  {
    ListedAreOwn(cl.id, w, cl.tiers[at].name, k);
    var i: nat :| IsReplicaset(cl.id, k, w.objects[k], cl.tiers[at].name, i);
    LabelRoundTrip(cl.id, cl.tiers[at].name, i);
  }

  /** After success the tier's label selector finds exactly the replicasets 1..Replicas. */
  lemma SuccessMeansExactSets(e: Env, s: Session, cl: Cluster, at: nat)
    requires Valid(e) && KeysBuilt(e) && at < |cl.tiers| && Owned(cl.id, s.world)
    requires ReconcileTier(e, s, cl, at).ok
    ensures forall k :: k in TierSets(ReconcileTier(e, s, cl, at).world, cl.id, cl.tiers[at].name)
                   <==> exists i: nat :: IsOwnSet(cl, at, k, i)
  {
    SuccessMeansTarget(e, s, cl, at);
    forall k
      ensures k in TierSets(ReconcileTier(e, s, cl, at).world, cl.id, cl.tiers[at].name)
         <==> exists i: nat :: IsOwnSet(cl, at, k, i)
    {
      TargetSet(e, cl, at, s.world, ReconcileTier(e, s, cl, at).world, k);
    }
  }

  lemma TargetSet(e: Env, cl: Cluster, at: nat, a: World, b: World, k: Key)
    requires KeysBuilt(e) && at < |cl.tiers| && Owned(cl.id, a)
    requires IsTarget(e, cl, at, a.objects, b.objects)
    ensures k in TierSets(b, cl.id, cl.tiers[at].name) <==> exists i: nat :: IsOwnSet(cl, at, k, i)
  {
    if i: nat :| IsOwnSet(cl, at, k, i) {
      OwnSetIsOwnKey(e, cl, at, k, i);
      LabelsIdentifyTier(cl.id, cl.tiers[at].name, cl.tiers[at].name, i);
      assert b.objects[k].labels == Wanted(e, cl, at)[i + 2].content.labels;
    }
    if k in TierSets(b, cl.id, cl.tiers[at].name) {
      if OwnKey(e, cl, at, k) {
        OwnKeyIsTierKey(e, cl, at, k);
      } else {
        ExtraIsBeyond(cl, at, a, k);
        var i: nat :| 1 <= i && k == SetKey(cl.id, cl.tiers[at].name, i)
                      && (Extra(cl, at, a.objects, k) <==> i > SetCount(cl.tiers[at]));
        assert IsOwnSet(cl, at, k, i);
      }
    }
  }

  // ---------------------------------------------------------------- frame

  /** An object that the tier could not have is untouched. */
  lemma OtherTierUntouched(e: Env, cl: Cluster, at: nat, a: World, b: World, k: Key)
    requires KeysBuilt(e) && at < |cl.tiers| && Owned(cl.id, a)
    requires IsTarget(e, cl, at, a.objects, b.objects)
    requires !TierKey(cl.id, cl.tiers[at].name, k)
    ensures (k in b.objects <==> k in a.objects) && (k in b.objects ==> b.objects[k] == a.objects[k])
  {
    if OwnKey(e, cl, at, k) {
      OwnKeyIsTierKey(e, cl, at, k);
    }
    if Extra(cl, at, a.objects, k) {
      ExtraIsBeyond(cl, at, a, k);
    }
  }

  /** Two tiers of a cluster have no possible object in common exactly when their names differ and
      neither's client Service has the name of the other's interconnect Service. */
  lemma NoSharedKeyIff(id: Identity, s: string, t: string)
    ensures (forall k :: !(TierKey(id, s, k) && TierKey(id, t, k)))
       <==> s != t && !ServicesClash(id, s, t) && !ServicesClash(id, t, s)
  {
    if s != t && !ServicesClash(id, s, t) && !ServicesClash(id, t, s) {
      forall k
        ensures !(TierKey(id, s, k) && TierKey(id, t, k))
      {
        if TierKey(id, s, k) && TierKey(id, t, k) {
          TierKeysDisjoint(id, s, t, k);
        }
      }
    } else if ServicesClash(id, t, s) {
      assert TierKey(id, s, InterconnectKey(id, s)) && TierKey(id, t, InterconnectKey(id, s));
    } else {
      assert TierKey(id, s, ClientKey(id, s)) && TierKey(id, t, ClientKey(id, s));
    }
  }

  // ---------------------------------------------------------------- selectors

  lemma ReplicasetLabelsMatch(id: Identity, s: string, i: nat, t: string, j: nat)
    ensures Matches(ReplicasetLabels(id, t, j), ReplicasetLabels(id, s, i)) <==> s == t && i == j
  {
    var own, other := ReplicasetLabels(id, s, i), ReplicasetLabels(id, t, j);
    if Matches(other, own) {
      assert forall k | k in TierLabels(id, s) :: k in own && own[k] == TierLabels(id, s)[k];
      assert Matches(other, TierLabels(id, s));
      LabelsIdentifyTier(id, t, s, j);
      assert REPLICASET_LABEL in own;
      DecimalInjective(i, j);
    }
  }

  /** The selectors partition the cluster's pods: both Services of a tier select exactly the tier's
      pods, a StatefulSet exactly its own, and it is governed by its tier's interconnect Service. */
  lemma SelectorsPartition(hash: Config -> string, cl: Cluster, at: nat, i: nat, other: nat, j: nat)
    requires at < |cl.tiers| && other < |cl.tiers|
    ensures var mine, theirs := SetManifest(hash, cl, at, i).content, SetManifest(hash, cl, other, j).content;
            var pods := theirs.live.template.labels;
            var same := cl.tiers[at].name == cl.tiers[other].name;
            && (Matches(pods, ClientManifest(cl, at).content.live.selector) <==> same)
            && (Matches(pods, InterconnectManifest(cl, at).content.live.selector) <==> same)
            && (Matches(pods, mine.fixed.matchLabels) <==> same && i == j)
            && mine.fixed.serviceName == InterconnectManifest(cl, at).key.name
  {
    LabelsIdentifyTier(cl.id, cl.tiers[other].name, cl.tiers[at].name, j);
    ReplicasetLabelsMatch(cl.id, cl.tiers[at].name, i, cl.tiers[other].name, j);
  }

  // ---------------------------------------------------------------- checksums

  /** Every desired StatefulSet carries the checksum of the desired config. */
  ghost predicate ChecksumsBuilt(e: Env) {
    forall cl: Cluster, at: nat, i: nat | at < |cl.tiers| && 3 <= i < |e.desired(cl, at)| ::
      var config, sts := e.desired(cl, at)[0].content.live, e.desired(cl, at)[i].content.live;
      config.ConfigData? && sts.Replicaset? && sts.template.checksum == e.hash(config.config)
  }

  lemma BuiltChecksums(e: Env)
    requires Built(e)
    ensures ChecksumsBuilt(e)
  {
    forall cl: Cluster, at: nat, i: nat | at < |cl.tiers| && 3 <= i < |e.desired(cl, at)|
      ensures var config, sts := e.desired(cl, at)[0].content.live, e.desired(cl, at)[i].content.live;
              config.ConfigData? && sts.Replicaset? && sts.template.checksum == e.hash(config.config)
    {
      ManifestAt(e.hash, cl, at, 0);
      ManifestAt(e.hash, cl, at, i);
      Checksum(e.hash, cl, at, i - 2);
    }
  }

  /** The checksum of replicaset number i is that of the config stored in the tier's ConfigMap. */
  predicate ChecksumStored(hash: Config -> string, id: Identity, tier: string, i: nat, objects: map<Key, Object>) {
    && SetKey(id, tier, i) in objects && ConfigMapKey(id, tier) in objects
    && objects[SetKey(id, tier, i)].live.Replicaset? && objects[ConfigMapKey(id, tier)].live.ConfigData?
    && objects[SetKey(id, tier, i)].live.template.checksum == hash(objects[ConfigMapKey(id, tier)].live.config)
  }

  /** Each replicaset's checksum matches the stored config once its tier has been reconciled. */
  lemma ChecksumMatchesConfig(e: Env, cl: Cluster, at: nat, a: map<Key, Object>, b: map<Key, Object>, i: nat)
    requires Built(e) && at < |cl.tiers| && IsTarget(e, cl, at, a, b)
    requires 1 <= i <= SetCount(cl.tiers[at])
    ensures ChecksumStored(e.hash, cl.id, cl.tiers[at].name, i, b)
  {
    BuiltKeys(e);
    BuiltChecksums(e);
    TargetChecksum(e, cl, at, a, b, i);
  }

  lemma TargetChecksum(e: Env, cl: Cluster, at: nat, a: map<Key, Object>, b: map<Key, Object>, i: nat)
    requires KeysBuilt(e) && ChecksumsBuilt(e) && at < |cl.tiers| && IsTarget(e, cl, at, a, b)
    requires 1 <= i <= SetCount(cl.tiers[at])
    ensures ChecksumStored(e.hash, cl.id, cl.tiers[at].name, i, b)
  {
    var d := e.desired(cl, at);
    WantedAt(e, cl, at);
    WantedLive(e, cl, at, a, b, i + 2);
    WantedLive(e, cl, at, a, b, 0);
    assert d[0].key == ManifestKey(cl, at, 0) && d[i + 2].key == ManifestKey(cl, at, i + 2);
  }

  lemma WantedLive(e: Env, cl: Cluster, at: nat, a: map<Key, Object>, b: map<Key, Object>, j: nat)
    requires at < |cl.tiers| && IsTarget(e, cl, at, a, b) && j < |Wanted(e, cl, at)|
    ensures var m := Wanted(e, cl, at)[j]; m.key in b && b[m.key].live == m.content.live
  {
  }

  /** Whatever was stored before: a wanted object that was not there is stored as a whole, one that was
      gets the wanted labels and live fields and keeps its creation-only fields. */
  lemma TargetStores(e: Env, cl: Cluster, at: nat, a: map<Key, Object>, b: map<Key, Object>, j: nat)
    requires at < |cl.tiers| && IsTarget(e, cl, at, a, b) && j < |Wanted(e, cl, at)|
    ensures var m := Wanted(e, cl, at)[j];
            && m.key in b
            && (m.key !in a ==> b[m.key] == m.content)
            && (m.key in a ==> b[m.key].labels == m.content.labels && b[m.key].live == m.content.live
                               && b[m.key].fixed == a[m.key].fixed)
  {
  }

  /** The same of a tier reconciliation that reports success, under any faults. */
  lemma SuccessStores(e: Env, s: Session, cl: Cluster, at: nat, j: nat)
    requires Valid(e) && KeysBuilt(e) && at < |cl.tiers| && ReconcileTier(e, s, cl, at).ok
    requires j < |Wanted(e, cl, at)|
    ensures var m, a, b := Wanted(e, cl, at)[j], s.world.objects, ReconcileTier(e, s, cl, at).world.objects;
            && m.key in b
            && (m.key !in a ==> b[m.key] == m.content)
            && (m.key in a ==> b[m.key].labels == m.content.labels && b[m.key].live == m.content.live
                               && b[m.key].fixed == a[m.key].fixed)
  {
    SuccessMeansTarget(e, s, cl, at);
    TargetStores(e, cl, at, s.world.objects, ReconcileTier(e, s, cl, at).world.objects, j);
  }

  lemma Checksum(hash: Config -> string, cl: Cluster, at: nat, i: nat)
    requires at < |cl.tiers|
    ensures var m, c := SetManifest(hash, cl, at, i), ConfigMapManifest(cl, at);
            && m.key == SetKey(cl.id, cl.tiers[at].name, i) && c.key == ConfigMapKey(cl.id, cl.tiers[at].name)
            && m.content.live.Replicaset? && c.content.live.ConfigData?
            && m.content.live.template.checksum == hash(c.content.live.config)
  {
  }

  // ---------------------------------------------------------------- pods asked for

  /** Replicaset number i of the tier asks for this many pods. */
  predicate AsksFor(id: Identity, tier: string, i: nat, objects: map<Key, Object>, pods: int) {
    var k := SetKey(id, tier, i);
    k in objects && objects[k].live.Replicaset? && objects[k].live.replicas == pods
  }

  lemma SetAsksFor(hash: Config -> string, cl: Cluster, at: nat, i: nat)
    requires at < |cl.tiers|
    ensures var live := SetManifest(hash, cl, at, i).content.live;
            live.Replicaset? && live.replicas == cl.tiers[at].replicationFactor
  {
  }

  /** Once its tier has been reconciled, each replicaset asks for as many pods as the replication factor. */
  lemma ReplicasStored(e: Env, cl: Cluster, at: nat, a: map<Key, Object>, b: map<Key, Object>, i: nat)
    requires Built(e) && at < |cl.tiers| && IsTarget(e, cl, at, a, b)
    requires 1 <= i <= SetCount(cl.tiers[at])
    ensures AsksFor(cl.id, cl.tiers[at].name, i, b, cl.tiers[at].replicationFactor)
  {
    BuiltKeys(e);
    WantedAt(e, cl, at);
    WantedLive(e, cl, at, a, b, i + 2);
    ManifestAt(e.hash, cl, at, i + 2);
    SetAsksFor(e.hash, cl, at, i);
    assert e.desired(cl, at)[i + 2].key == ManifestKey(cl, at, i + 2);
  }

  /** What replicasets 1..n of a tier ask for together. */
  function PodsAskedFor(id: Identity, tier: string, n: nat, objects: map<Key, Object>): int {
    if n == 0 then 0
    else
      var k := SetKey(id, tier, n);
      PodsAskedFor(id, tier, n - 1, objects)
      + (if k in objects && objects[k].live.Replicaset? then objects[k].live.replicas else 0)
  }

  lemma {:induction false} EqualShares(id: Identity, tier: string, n: nat, objects: map<Key, Object>, pods: int)
    requires forall i: nat | 1 <= i <= n :: AsksFor(id, tier, i, objects, pods)
    ensures PodsAskedFor(id, tier, n, objects) == n * pods
  {
    if n > 0 {
      EqualShares(id, tier, n - 1, objects, pods);
      assert AsksFor(id, tier, n, objects, pods);
      assert (n - 1) * pods + pods == n * pods;
    }
  }

  /** Together the stored replicasets ask for Replicas times ReplicationFactor pods. */
  lemma PodsStored(e: Env, cl: Cluster, at: nat, a: map<Key, Object>, b: map<Key, Object>)
    requires Built(e) && at < |cl.tiers| && IsTarget(e, cl, at, a, b)
    ensures PodsAskedFor(cl.id, cl.tiers[at].name, SetCount(cl.tiers[at]), b)
         == SetCount(cl.tiers[at]) * cl.tiers[at].replicationFactor
  {
    var t := cl.tiers[at];
    forall i: nat | 1 <= i <= SetCount(t)
      ensures AsksFor(cl.id, t.name, i, b, t.replicationFactor)
    {
      ReplicasStored(e, cl, at, a, b, i);
    }
    EqualShares(cl.id, t.name, SetCount(t), b, t.replicationFactor);
  }

  // ---------------------------------------------------------------- tiers at rest

  /** Every wanted object is there with its desired labels and live fields, and nothing is extra. */
  ghost predicate AtRest(e: Env, cl: Cluster, at: nat, objects: map<Key, Object>)
    requires at < |cl.tiers|
  {
    && (forall i | 0 <= i < |Wanted(e, cl, at)| ::
          var m := Wanted(e, cl, at)[i];
          m.key in objects && objects[m.key].labels == m.content.labels && objects[m.key].live == m.content.live)
    && (forall k :: !Extra(cl, at, objects, k))
  }

  lemma TargetIsAtRest(e: Env, cl: Cluster, at: nat, a: map<Key, Object>, b: map<Key, Object>)
    requires KeysBuilt(e) && at < |cl.tiers| && IsTarget(e, cl, at, a, b)
    ensures AtRest(e, cl, at, b)
  {
    var ms := Wanted(e, cl, at);
    forall k
      ensures !Extra(cl, at, b, k)
    {
      if OwnKey(e, cl, at, k) && k.kind == StatefulSetKind {
        OwnKeyIsTierKey(e, cl, at, k);
        var i: nat :| IsOwnSet(cl, at, k, i);
        OwnSetIsOwnKey(e, cl, at, k, i);
        assert b[k].labels == ms[i + 2].content.labels;
        LabelRoundTrip(cl.id, cl.tiers[at].name, i);
      }
    }
  }

  /** Reconciling a tier at rest leaves the whole store as it is. */
  lemma RestIsFixed(e: Env, cl: Cluster, at: nat, a: map<Key, Object>, b: map<Key, Object>)
    requires at < |cl.tiers| && AtRest(e, cl, at, a) && IsTarget(e, cl, at, a, b)
    ensures a == b
  {
    forall k
      ensures (k in b <==> k in a) && (k in b ==> b[k] == a[k])
    {
      if OwnKey(e, cl, at, k) {
        var i :| 0 <= i < |Wanted(e, cl, at)| && Wanted(e, cl, at)[i].key == k;
        assert b[k] == Settle(a, Wanted(e, cl, at)[i]);
      }
    }
  }

  // ---------------------------------------------------------------- tiers that get along

  /** What both tiers want of one object is the same, and no replicaset of the first is one too many
      for the second. */
  ghost predicate Compatible(e: Env, cl: Cluster, i: nat, j: nat)
    requires i < |cl.tiers| && j < |cl.tiers|
  {
    && (forall a: nat, b: nat | a < |Wanted(e, cl, i)| && b < |Wanted(e, cl, j)| ::
          SameDemand(Wanted(e, cl, i)[a], Wanted(e, cl, j)[b]))
    && (forall a: nat | a < |Wanted(e, cl, i)| :: !TooMany(cl, j, Wanted(e, cl, i)[a]))
  }

  predicate SameDemand(m: Manifest, n: Manifest) {
    m.key == n.key ==> m.content.labels == n.content.labels && m.content.live == n.content.live
  }

  /** The delete loop of the tier takes the StatefulSet for one of its own beyond its replicas. */
  predicate TooMany(cl: Cluster, at: nat, m: Manifest)
    requires at < |cl.tiers|
  {
    && m.key.kind == StatefulSetKind
    && Matches(m.content.labels, TierLabels(cl.id, cl.tiers[at].name))
    && BeyondReplicas(m.content.labels, cl.tiers[at])
  }

  /** All tiers of the spec get along. */
  ghost predicate AllCompatible(e: Env, cl: Cluster) {
    forall i: nat, j: nat | i < |cl.tiers| && j < |cl.tiers| && i != j :: Compatible(e, cl, i, j)
  }

  /** Two tiers can only be at rest together if they get along. */
  lemma RestTogether(e: Env, cl: Cluster, i: nat, j: nat, objects: map<Key, Object>)
    requires i < |cl.tiers| && j < |cl.tiers| && AtRest(e, cl, i, objects) && AtRest(e, cl, j, objects)
    ensures Compatible(e, cl, i, j)
  {
    var ms := Wanted(e, cl, i);
    forall a: nat | a < |ms|
      ensures !TooMany(cl, j, ms[a])
    {
      assert ms[a].key in objects && objects[ms[a].key].labels == ms[a].content.labels;
      assert !Extra(cl, j, objects, ms[a].key);
    }
  }

  /** A wanted object of a tier at rest is not deleted by a compatible one, and stays as wanted. */
  lemma WantedSurvives(
      e: Env, cl: Cluster, at: nat, other: nat, a: map<Key, Object>, b: map<Key, Object>, i: nat)
    requires at < |cl.tiers| && other < |cl.tiers| && Compatible(e, cl, other, at)
    requires AtRest(e, cl, other, a) && IsTarget(e, cl, at, a, b) && i < |Wanted(e, cl, other)|
    ensures var m := Wanted(e, cl, other)[i];
            m.key in b && b[m.key].labels == m.content.labels && b[m.key].live == m.content.live
  {
    var m := Wanted(e, cl, other)[i];
    assert m.key in a && a[m.key].labels == m.content.labels;
    if OwnKey(e, cl, at, m.key) {
      var j: nat :| j < |Wanted(e, cl, at)| && Wanted(e, cl, at)[j].key == m.key;
      assert SameDemand(m, Wanted(e, cl, at)[j]);
    } else {
      assert !TooMany(cl, at, m);
    }
  }

  lemma OwnNotExtra(e: Env, cl: Cluster, at: nat, other: nat, a: map<Key, Object>, b: map<Key, Object>, k: Key)
    requires at < |cl.tiers| && other < |cl.tiers| && Compatible(e, cl, at, other)
    requires IsTarget(e, cl, at, a, b) && OwnKey(e, cl, at, k)
    ensures !Extra(cl, other, b, k)
  {
    var i: nat :| i < |Wanted(e, cl, at)| && Wanted(e, cl, at)[i].key == k;
    assert b[k].labels == Wanted(e, cl, at)[i].content.labels;
    assert !TooMany(cl, other, Wanted(e, cl, at)[i]);
  }

  lemma NoNewExtra(e: Env, cl: Cluster, at: nat, other: nat, a: map<Key, Object>, b: map<Key, Object>, k: Key)
    requires at < |cl.tiers| && other < |cl.tiers| && Compatible(e, cl, at, other)
    requires IsTarget(e, cl, at, a, b)
    ensures Extra(cl, other, b, k) ==> Extra(cl, other, a, k)
  {
    if OwnKey(e, cl, at, k) {
      OwnNotExtra(e, cl, at, other, a, b, k);
    }
  }

  /** A tier at rest stays at rest when a tier it gets along with reaches its target. */
  lemma RestSurvivesOtherTier(
      e: Env, cl: Cluster, at: nat, other: nat, a: map<Key, Object>, b: map<Key, Object>)
    requires at < |cl.tiers| && other < |cl.tiers|
    requires Compatible(e, cl, other, at) && Compatible(e, cl, at, other)
    requires AtRest(e, cl, other, a) && IsTarget(e, cl, at, a, b)
    ensures AtRest(e, cl, other, b)
  {
    forall i | 0 <= i < |Wanted(e, cl, other)|
      ensures var m := Wanted(e, cl, other)[i];
              m.key in b && b[m.key].labels == m.content.labels && b[m.key].live == m.content.live
    {
      WantedSurvives(e, cl, at, other, a, b, i);
    }
    forall k
      ensures !Extra(cl, other, b, k)
    {
      NoNewExtra(e, cl, at, other, a, b, k);
    }
  }

  // ---------------------------------------------------------------- which tiers get along

  lemma WantedLabels(e: Env, cl: Cluster, at: nat, a: nat)
    requires KeysBuilt(e) && at < |cl.tiers| && a < |Wanted(e, cl, at)|
    ensures TierKey(cl.id, cl.tiers[at].name, Wanted(e, cl, at)[a].key)
    ensures Wanted(e, cl, at)[a].key.kind == StatefulSetKind ==>
              exists i: nat :: Wanted(e, cl, at)[a].content.labels == ReplicasetLabels(cl.id, cl.tiers[at].name, i)
  {
    var k := Wanted(e, cl, at)[a].key;
    OwnKeyIsTierKey(e, cl, at, k);
    if k.kind == StatefulSetKind {
      var i: nat :| IsOwnSet(cl, at, k, i);
      OwnSetIsOwnKey(e, cl, at, k, i);
      WantedDistinct(e, cl, at);
      assert a == i + 2;
    }
  }

  lemma ApartIsCompatible(e: Env, cl: Cluster, i: nat, j: nat)
    requires KeysBuilt(e) && i < |cl.tiers| && j < |cl.tiers| && cl.tiers[i].name != cl.tiers[j].name
    requires !ServicesClash(cl.id, cl.tiers[i].name, cl.tiers[j].name)
    requires !ServicesClash(cl.id, cl.tiers[j].name, cl.tiers[i].name)
    ensures Compatible(e, cl, i, j)
  {
    forall a: nat, b: nat | a < |Wanted(e, cl, i)| && b < |Wanted(e, cl, j)|
      ensures SameDemand(Wanted(e, cl, i)[a], Wanted(e, cl, j)[b])
    {
      WantedLabels(e, cl, i, a);
      WantedLabels(e, cl, j, b);
      NoSharedKeyIff(cl.id, cl.tiers[i].name, cl.tiers[j].name);
    }
    forall a: nat | a < |Wanted(e, cl, i)|
      ensures !TooMany(cl, j, Wanted(e, cl, i)[a])
    {
      if Wanted(e, cl, i)[a].key.kind == StatefulSetKind {
        WantedLabels(e, cl, i, a);
        var n: nat :| Wanted(e, cl, i)[a].content.labels == ReplicasetLabels(cl.id, cl.tiers[i].name, n);
        LabelsIdentifyTier(cl.id, cl.tiers[i].name, cl.tiers[j].name, n);
      }
    }
  }

  /** Three ports or more against two. */
  lemma ServicesDiffer(cl: Cluster, i: nat, j: nat)
    requires i < |cl.tiers| && j < |cl.tiers|
    ensures ClientManifest(cl, i).content.live != InterconnectManifest(cl, j).content.live
  {
    assert |ClientManifest(cl, i).content.live.servicePorts| >= 3;
    assert |InterconnectManifest(cl, j).content.live.servicePorts| == 2;
  }

  lemma ServiceManifests(e: Env, cl: Cluster, at: nat)
    requires Built(e) && at < |cl.tiers|
    ensures |Wanted(e, cl, at)| >= 3
    ensures Wanted(e, cl, at)[1] == InterconnectManifest(cl, at) && Wanted(e, cl, at)[2] == ClientManifest(cl, at)
  {
    ManifestAt(e.hash, cl, at, 1);
    ManifestAt(e.hash, cl, at, 2);
    WantedAt(e, cl, at);
  }

  lemma ClashIsIncompatible(e: Env, cl: Cluster, i: nat, j: nat)
    requires Built(e) && i < |cl.tiers| && j < |cl.tiers|
    requires ServicesClash(cl.id, cl.tiers[i].name, cl.tiers[j].name)
    ensures !Compatible(e, cl, i, j)
  {
    ServiceManifests(e, cl, i);
    ServiceManifests(e, cl, j);
    ServicesDiffer(cl, i, j);
    assert !SameDemand(Wanted(e, cl, i)[2], Wanted(e, cl, j)[1]);
  }

  predicate DistinctNames(cl: Cluster) {
    forall i, j | 0 <= i < |cl.tiers| && 0 <= j < |cl.tiers| && i != j :: cl.tiers[i].name != cl.tiers[j].name
  }

  predicate NoServicesClash(cl: Cluster) {
    forall i, j | 0 <= i < |cl.tiers| && 0 <= j < |cl.tiers| && i != j ::
      !ServicesClash(cl.id, cl.tiers[i].name, cl.tiers[j].name)
  }

  lemma NoClashMeansCompatible(e: Env, cl: Cluster)
    requires KeysBuilt(e) && DistinctNames(cl) && NoServicesClash(cl)
    ensures AllCompatible(e, cl)
  {
    forall i: nat, j: nat | i < |cl.tiers| && j < |cl.tiers| && i != j
      ensures Compatible(e, cl, i, j)
    {
      ApartIsCompatible(e, cl, i, j);
    }
  }

  lemma CompatibleMeansNoClash(e: Env, cl: Cluster)
    requires Built(e) && AllCompatible(e, cl)
    ensures NoServicesClash(cl)
  {
    forall i: nat, j: nat | i < |cl.tiers| && j < |cl.tiers| && i != j
      ensures !ServicesClash(cl.id, cl.tiers[i].name, cl.tiers[j].name)
    {
      assert Compatible(e, cl, i, j);
      if ServicesClash(cl.id, cl.tiers[i].name, cl.tiers[j].name) {
        ClashIsIncompatible(e, cl, i, j);
      }
    }
  }

  /** Tiers with pairwise distinct names get along exactly when no client Service has the name of another
      tier's interconnect Service. */
  lemma DistinctNamesCompatibleIff(e: Env, cl: Cluster)
    requires Built(e) && DistinctNames(cl)
    ensures AllCompatible(e, cl) <==> NoServicesClash(cl)
  {
    BuiltKeys(e);
    if NoServicesClash(cl) {
      NoClashMeansCompatible(e, cl);
    }
    if AllCompatible(e, cl) {
      CompatibleMeansNoClash(e, cl);
    }
  }

  /** Tiers of the same name only get along if they are of the same size. */
  lemma SameNameSameSize(e: Env, cl: Cluster, i: nat, j: nat)
    requires KeysBuilt(e) && i < |cl.tiers| && j < |cl.tiers| && cl.tiers[i].name == cl.tiers[j].name
    requires Compatible(e, cl, i, j) && Compatible(e, cl, j, i)
    ensures SetCount(cl.tiers[i]) == SetCount(cl.tiers[j])
  {
    SameNameNotLarger(e, cl, i, j);
    SameNameNotLarger(e, cl, j, i);
  }

  lemma SameNameNotLarger(e: Env, cl: Cluster, i: nat, j: nat)
    requires KeysBuilt(e) && i < |cl.tiers| && j < |cl.tiers| && cl.tiers[i].name == cl.tiers[j].name
    requires Compatible(e, cl, i, j)
    ensures SetCount(cl.tiers[i]) <= SetCount(cl.tiers[j])
  {
    var n, name := SetCount(cl.tiers[i]), cl.tiers[i].name;
    if n > 0 {
      OwnSetIsOwnKey(e, cl, i, SetKey(cl.id, name, n), n);
      LabelsIdentifyTier(cl.id, name, name, n);
      LabelRoundTrip(cl.id, name, n);
      assert !TooMany(cl, j, Wanted(e, cl, i)[n + 2]);
    }
  }
}
