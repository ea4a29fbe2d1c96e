/** When a command may be issued, and what holds in every world reached by such commands. */
module Invariants {
  import opened Text
  import opened Types
  import opened Names
  import opened Builders
  import opened Machine
  import opened Protocol

  // ---------------------------------------------------------------- guards

  /** The first desired object (in submission order) that k could be, with everything submitted
      before it already there. */
  ghost predicate SubmitsInOrder(e: Env, cl: Cluster, at: nat, w: World, k: Key, o: Object)
    requires at < |cl.tiers|
  {
    var ms := e.desired(cl, at);
    exists j | 0 <= j < |ms| ::
      && ms[j].key == k && o == Settle(w.objects, ms[j])
      && forall i | 0 <= i < j :: ms[i].key in w.objects
  }

  /** Every replicaset of the tier's current size exists. */
  ghost predicate AllSetsExist(cl: Cluster, at: nat, w: World)
    requires at < |cl.tiers|
  {
    forall i: nat | 1 <= i <= SetCount(cl.tiers[at]) :: SetKey(cl.id, cl.tiers[at].name, i) in w.objects
  }

  ghost predicate DependenciesOf(id: Identity, w: World, tier: string) {
    && ConfigMapKey(id, tier) in w.objects
    && InterconnectKey(id, tier) in w.objects
    && ClientKey(id, tier) in w.objects
  }

  ghost predicate NoExtraSets(cl: Cluster, at: nat, w: World)
    requires at < |cl.tiers|
  {
    forall k | k in TierSets(w, cl.id, cl.tiers[at].name) :: !BeyondReplicas(w.objects[k].labels, cl.tiers[at])
  }

  /** Everything else of the tier is there, and nothing too many. */
  ghost predicate InPlace(cl: Cluster, at: nat, w: World)
    requires at < |cl.tiers|
  {
    DependenciesOf(cl.id, w, cl.tiers[at].name) && AllSetsExist(cl, at, w) && NoExtraSets(cl, at, w)
  }

  /** The Ingress comes last. */
  ghost predicate SubmitsIngress(cl: Cluster, at: nat, w: World, k: Key, o: Object)
    requires at < |cl.tiers|
  {
    && WantsIngress(cl.tiers[at]) && k == IngressManifest(cl, at).key
    && o == Settle(w.objects, IngressManifest(cl, at)) && InPlace(cl, at, w)
  }

  ghost predicate BeyondTier(cl: Cluster, at: nat, k: Key)
    requires at < |cl.tiers|
  {
    exists i: nat :: i > SetCount(cl.tiers[at]) && k == SetKey(cl.id, cl.tiers[at].name, i)
  }

  predicate DeclaredBound(row: Install, p: Plugin, tier: string) {
    forall i | 0 <= i < |p.services| :: Bound(row, p.services[i].name, tier)
  }

  predicate ContextGiven(row: Install, p: Plugin) {
    forall k | k in p.migrationContext :: k in row.context && row.context[k] == p.migrationContext[k]
  }

  predicate DiscoveredBound(e: Env, id: PluginId, row: Install, tier: string) {
    forall svc | svc in VisibleServices(e, id, row) :: Bound(row, svc, tier)
  }

  /** How far the installation of a version has come: 0 created, 1 services of the spec bound,
      2 context given, 3 migrated, 4 every service of the manifest bound. */
  ghost predicate Stage(e: Env, w: World, p: Plugin, tier: string, stage: nat) {
    var id := Id(p);
    && id in w.plugins
    && !w.plugins[id].enabled
    && (stage >= 1 ==> DeclaredBound(w.plugins[id], p, tier))
    && (stage >= 2 ==> ContextGiven(w.plugins[id], p))
    && (stage >= 3 ==> w.plugins[id].migrated)
    && (stage >= 4 ==> DiscoveredBound(e, id, w.plugins[id], tier))
  }

  /** The plugin spec on whose behalf a statement is issued. */
  ghost predicate Declares(t: Tier, p: Plugin, id: PluginId) {
    p in t.plugins && Id(p) == id
  }

  ghost predicate Justified(e: Env, cl: Cluster, at: nat, w: World, c: Command)
    requires at <= |cl.tiers|
  {
    if c.PatchStatus? then at == |cl.tiers|
    else
      at < |cl.tiers| &&
      var t := cl.tiers[at];
      match c
      case CreateObject(k, o) =>
        k !in w.objects && (SubmitsInOrder(e, cl, at, w, k, o) || SubmitsIngress(cl, at, w, k, o))
      case PatchObject(k, o) =>
        k in w.objects && (SubmitsInOrder(e, cl, at, w, k, o) || SubmitsIngress(cl, at, w, k, o))
      case DeleteObject(k) => BeyondTier(cl, at, k) && AllSetsExist(cl, at, w)
      case CreatePlugin(id) => id !in w.plugins && exists p :: Declares(t, p, id)
      case AddService(id, svc, tier) =>
        && tier == t.name && id in w.plugins
        && exists p :: Declares(t, p, id)
             && ((Stage(e, w, p, tier, 0) && exists i :: 0 <= i < |p.services| && p.services[i].name == svc)
                 || svc in VisibleServices(e, id, w.plugins[id]))
      case SetContext(id, k, v) =>
        exists p :: Declares(t, p, id) && Stage(e, w, p, t.name, 1)
          && k in p.migrationContext && v == p.migrationContext[k]
      case MigratePlugin(id) => exists p :: Declares(t, p, id) && Stage(e, w, p, t.name, 2)
      case EnablePlugin(id) => exists p :: Declares(t, p, id) && Stage(e, w, p, t.name, 4)
      case DisablePlugin(id) => id in w.plugins && w.plugins[id].enabled && !IsDesired(t.plugins, id)
      case DropPlugin(id) => id in w.plugins && !w.plugins[id].enabled && !IsDesired(t.plugins, id)
  }

  // ---------------------------------------------------------------- invariants

  ghost predicate Ours(id: Identity, o: Object) {
    "app.kubernetes.io/instance" in o.labels && o.labels["app.kubernetes.io/instance"] == id.name
  }

  ghost predicate IsReplicaset(id: Identity, k: Key, o: Object, tier: string, i: nat) {
    1 <= i <= MAX_INT32 && k == SetKey(id, tier, i) && o.labels == ReplicasetLabels(id, tier, i)
  }

  /** Every StatefulSet labelled as the cluster's is one the cluster created, under its own name. */
  ghost predicate Owned(id: Identity, w: World) {
    forall k | k in w.objects && k.kind == StatefulSetKind && Ours(id, w.objects[k]) ::
      exists tier, i :: IsReplicaset(id, k, w.objects[k], tier, i)
  }

  /** Whenever a StatefulSet of a tier exists, the tier's ConfigMap and both Services do. */
  ghost predicate Ordered(id: Identity, w: World) {
    forall tier, i: nat | SetKey(id, tier, i) in w.objects :: DependenciesOf(id, w, tier)
  }

  ghost predicate InstallComplete(e: Env, id: PluginId, row: Install, p: Plugin, tier: string) {
    row.migrated && DeclaredBound(row, p, tier) && ContextGiven(row, p) && DiscoveredBound(e, id, row, tier)
  }

  ghost predicate InstalledFor(
      e: Env, specs: seq<Cluster>, id: PluginId, row: Install, cl: Cluster, at: nat, p: Plugin) {
    && cl in specs && at < |cl.tiers| && Declares(cl.tiers[at], p, id)
    && InstallComplete(e, id, row, p, cl.tiers[at].name)
  }

  /** Every enabled version was fully installed for some tier of some spec of the run. */
  ghost predicate EnabledSound(e: Env, specs: seq<Cluster>, w: World) {
    forall id | id in w.plugins && w.plugins[id].enabled ::
      exists cl, at: nat, p :: InstalledFor(e, specs, id, w.plugins[id], cl, at, p)
  }

  ghost predicate Inv(e: Env, id: Identity, specs: seq<Cluster>, w: World) {
    Owned(id, w) && Ordered(id, w) && EnabledSound(e, specs, w)
  }

  // ---------------------------------------------------------------- rows only grow

  /** What statements on a version that is being installed keep: nothing comes undone. */
  ghost predicate Grows(e: Env, p: Plugin, a: Install, b: Install) {
    && a.enabled == b.enabled
    && (a.migrated ==> b.migrated)
    && (forall svc, tier | Bound(a, svc, tier) :: Bound(b, svc, tier))
    && (forall k | k in p.migrationContext && k in a.context && a.context[k] == p.migrationContext[k] ::
          k in b.context && b.context[k] == p.migrationContext[k])
  }

  lemma BindingGrows(e: Env, p: Plugin, row: Install, svc: string, tier: string)
    requires EqualFold(e.spelling(tier), tier)
    ensures Grows(e, p, row, WithBinding(e, row, svc, tier))
    ensures Bound(WithBinding(e, row, svc, tier), svc, tier)
  {
    var now := WithBinding(e, row, svc, tier);
    var xs, ys := Tiers(row, svc), Tiers(now, svc);
    assert forall i | 0 <= i < |xs| :: ys[i] == xs[i];
    if e.spelling(tier) in xs {
      var i :| 0 <= i < |xs| && xs[i] == e.spelling(tier);
      assert EqualFold(ys[i], tier);
    } else {
      assert EqualFold(ys[|xs|], tier);
    }
    forall other, t | Bound(row, other, t)
      ensures Bound(now, other, t)
    {
      if other == svc {
        var i :| 0 <= i < |xs| && EqualFold(xs[i], t);
        assert EqualFold(ys[i], t);
      } else {
        assert Tiers(now, other) == Tiers(row, other);
      }
    }
  }

  // ---------------------------------------------------------------- steps keep the invariants

  /** A submitted object is one of the cluster's own kinds, and a StatefulSet carries its labels. */
  lemma SubmittedSet(e: Env, cl: Cluster, at: nat, w: World, k: Key, o: Object)
    requires KeysBuilt(e) && at < |cl.tiers|
    requires SubmitsInOrder(e, cl, at, w, k, o) || SubmitsIngress(cl, at, w, k, o)
    requires k.kind == StatefulSetKind
    ensures exists i: nat :: IsReplicaset(cl.id, k, o, cl.tiers[at].name, i) && i <= SetCount(cl.tiers[at])
    ensures DependenciesOf(cl.id, w, cl.tiers[at].name)
  {
    var ms, n := e.desired(cl, at), SetCount(cl.tiers[at]);
    var j :| 0 <= j < |ms| && ms[j].key == k && o == Settle(w.objects, ms[j])
             && forall i | 0 <= i < j :: ms[i].key in w.objects;
    assert ManifestKey(cl, at, j).kind == StatefulSetKind;
    assert ms[0].key in w.objects && ms[1].key in w.objects && ms[2].key in w.objects;
    assert ManifestKey(cl, at, 0) in w.objects && ManifestKey(cl, at, 1) in w.objects
        && ManifestKey(cl, at, 2) in w.objects;
    assert o.labels == ms[j].content.labels;
    assert IsReplicaset(cl.id, k, o, cl.tiers[at].name, j - 2);
  }

  lemma SubmitKeepsOwned(e: Env, cl: Cluster, at: nat, w: World, k: Key, o: Object)
    requires KeysBuilt(e) && at < |cl.tiers| && Owned(cl.id, w)
    requires SubmitsInOrder(e, cl, at, w, k, o) || SubmitsIngress(cl, at, w, k, o)
    ensures Owned(cl.id, w.(objects := w.objects[k := o]))
  {
    if k.kind == StatefulSetKind {
      SubmittedSet(e, cl, at, w, k, o);
    }
  }

  lemma SubmitKeepsOrdered(e: Env, cl: Cluster, at: nat, w: World, k: Key, o: Object)
    requires KeysBuilt(e) && at < |cl.tiers| && Ordered(cl.id, w)
    requires SubmitsInOrder(e, cl, at, w, k, o) || SubmitsIngress(cl, at, w, k, o)
    ensures Ordered(cl.id, w.(objects := w.objects[k := o]))
  {
    var now := w.(objects := w.objects[k := o]);
    forall tier, i: nat | SetKey(cl.id, tier, i) in now.objects
      ensures DependenciesOf(cl.id, now, tier)
    {
      if SetKey(cl.id, tier, i) !in w.objects {
        SubmittedSet(e, cl, at, w, k, o);
        var j: nat :| IsReplicaset(cl.id, k, o, cl.tiers[at].name, j) && j <= SetCount(cl.tiers[at]);
        SetNameInjective(cl.id, tier, i, cl.tiers[at].name, j);
      } else {
        assert DependenciesOf(cl.id, w, tier);
      }
    }
  }

  lemma DeleteKeepsOrdered(id: Identity, w: World, k: Key)
    requires Ordered(id, w) && k.kind == StatefulSetKind
    ensures Ordered(id, w.(objects := w.objects - {k}))
  {
    var now := w.(objects := w.objects - {k});
    forall tier, i: nat | SetKey(id, tier, i) in now.objects
      ensures DependenciesOf(id, now, tier)
    {
      assert DependenciesOf(id, w, tier);
    }
  }

  /** A row that grew, or lost its enabled flag, still backs the same specs. */
  lemma GrownRowSound(e: Env, specs: seq<Cluster>, w: World, id: PluginId, row: Install)
    requires EnabledSound(e, specs, w) && id in w.plugins
    requires row.enabled ==> forall p :: Grows(e, p, w.plugins[id], row)
    requires row.migrated ==> w.plugins[id].migrated || !row.enabled
    ensures EnabledSound(e, specs, w.(plugins := w.plugins[id := row]))
  {
    var now := w.(plugins := w.plugins[id := row]);
    forall x | x in now.plugins && now.plugins[x].enabled
      ensures exists cl, at: nat, p :: InstalledFor(e, specs, x, now.plugins[x], cl, at, p)
    {
      if x == id {
        var any := Plugin("", "", map[], []);
        assert Grows(e, any, w.plugins[id], row);
      }
      assert w.plugins[x].enabled;
      var cl, at: nat, p :| InstalledFor(e, specs, x, w.plugins[x], cl, at, p);
      if x == id {
        assert Grows(e, p, w.plugins[id], row);
        StillComplete(e, x, w.plugins[x], row, p, cl.tiers[at].name);
      }
      assert InstalledFor(e, specs, x, now.plugins[x], cl, at, p);
    }
  }

  lemma StillComplete(e: Env, id: PluginId, a: Install, b: Install, p: Plugin, tier: string)
    requires Grows(e, p, a, b) && InstallComplete(e, id, a, p, tier)
    ensures InstallComplete(e, id, b, p, tier)
  {
  }

  lemma EnabledRowComplete(e: Env, id: PluginId, row: Install, p: Plugin, tier: string)
    requires InstallComplete(e, id, row, p, tier)
    ensures InstallComplete(e, id, row.(enabled := true), p, tier)
  {
    var now := row.(enabled := true);
    assert forall svc :: Tiers(now, svc) == Tiers(row, svc);
    assert VisibleServices(e, id, now) == VisibleServices(e, id, row);
  }

  lemma OtherRowsSound(e: Env, specs: seq<Cluster>, w: World, now: World, id: PluginId)
    requires EnabledSound(e, specs, w)
    requires forall x | x in now.plugins && x != id :: x in w.plugins && now.plugins[x] == w.plugins[x]
    requires id in now.plugins && now.plugins[id].enabled ==>
               exists cl, at: nat, p :: InstalledFor(e, specs, id, now.plugins[id], cl, at, p)
    ensures EnabledSound(e, specs, now)
  {
  }

  lemma BindingKeepsSound(e: Env, specs: seq<Cluster>, w: World, id: PluginId, svc: string, tier: string)
    requires Valid(e) && EnabledSound(e, specs, w) && id in w.plugins
    ensures EnabledSound(e, specs, Apply(e, w, AddService(id, svc, tier)))
  {
    forall p {
      BindingGrows(e, p, w.plugins[id], svc, tier);
    }
    GrownRowSound(e, specs, w, id, WithBinding(e, w.plugins[id], svc, tier));
  }

  lemma EnablingKeepsSound(e: Env, specs: seq<Cluster>, cl: Cluster, at: nat, w: World, p: Plugin)
    requires cl in specs && at < |cl.tiers| && EnabledSound(e, specs, w)
    requires p in cl.tiers[at].plugins && Stage(e, w, p, cl.tiers[at].name, 4)
    ensures EnabledSound(e, specs, w.(plugins := w.plugins[Id(p) := w.plugins[Id(p)].(enabled := true)]))
  {
    var id := Id(p);
    var row := w.plugins[id].(enabled := true);
    var now := w.(plugins := w.plugins[id := row]);
    EnabledRowComplete(e, id, w.plugins[id], p, cl.tiers[at].name);
    assert InstalledFor(e, specs, id, row, cl, at, p);
    OtherRowsSound(e, specs, w, now, id);
  }

  /** The other statements are only justified on versions that are not enabled afterwards. */
  lemma NotEnabledAfter(e: Env, cl: Cluster, at: nat, w: World, c: Command)
    requires at <= |cl.tiers| && IsSql(c) && Accepts(w, c) && Justified(e, cl, at, w, c)
    requires !c.AddService? && !c.EnablePlugin?
    ensures var now := Apply(e, w, c);
            && (forall x | x in now.plugins && x != c.id :: x in w.plugins && now.plugins[x] == w.plugins[x])
            && (c.id in now.plugins ==> !now.plugins[c.id].enabled)
  {
  }

  /** No justified SQL statement breaks the soundness of enabled versions. */
  lemma SqlKeepsEnabledSound(e: Env, specs: seq<Cluster>, cl: Cluster, at: nat, w: World, c: Command)
    requires Valid(e) && at <= |cl.tiers| && cl in specs
    requires EnabledSound(e, specs, w) && IsSql(c) && Accepts(w, c) && Justified(e, cl, at, w, c)
    ensures EnabledSound(e, specs, Apply(e, w, c))
  {
    if c.AddService? {
      BindingKeepsSound(e, specs, w, c.id, c.service, c.tier);
    } else if c.EnablePlugin? {
      var p :| Declares(cl.tiers[at], p, c.id) && Stage(e, w, p, cl.tiers[at].name, 4);
      EnablingKeepsSound(e, specs, cl, at, w, p);
    } else {
      NotEnabledAfter(e, cl, at, w, c);
      OtherRowsSound(e, specs, w, Apply(e, w, c), c.id);
    }
  }

  lemma JustifiedKeepsInv(e: Env, specs: seq<Cluster>, cl: Cluster, at: nat, w: World, c: Command)
    requires Valid(e) && KeysBuilt(e) && at <= |cl.tiers| && cl in specs
    requires Inv(e, cl.id, specs, w) && Accepts(w, c) && Justified(e, cl, at, w, c)
    ensures Inv(e, cl.id, specs, Apply(e, w, c))
  {
    if IsSql(c) {
      SqlKeepsEnabledSound(e, specs, cl, at, w, c);
    } else {
      match c {
        case CreateObject(k, o) =>
          SubmitKeepsOwned(e, cl, at, w, k, o);
          SubmitKeepsOrdered(e, cl, at, w, k, o);
        case PatchObject(k, o) =>
          SubmitKeepsOwned(e, cl, at, w, k, o);
          SubmitKeepsOrdered(e, cl, at, w, k, o);
        case DeleteObject(k) => DeleteKeepsOrdered(cl.id, w, k);
        case PatchStatus(_) =>
      }
    }
  }
}
