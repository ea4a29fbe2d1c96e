/** Every command of every faulty run is justified in the world it is issued in, and every world
    reached keeps the invariants. */
module Safety {
  import opened Types
  import opened Names
  import opened Builders
  import opened Machine
  import opened Protocol
  import opened Invariants
  import opened TierConvergence

  // ---------------------------------------------------------------- histories

  /** The world once the first i commands of a run that began in w0 have been issued. */
  function WorldAt(w0: World, log: seq<Step>, i: nat): World
    requires i <= |log|
  {
    if i == 0 then w0 else log[i - 1].after
  }

  /** The log links the first world to the present one without a gap. */
  ghost predicate Chained(w0: World, log: seq<Step>, w: World) {
    && (forall i | 0 <= i < |log| :: log[i].before == WorldAt(w0, log, i))
    && w == WorldAt(w0, log, |log|)
  }

  ghost predicate Took(e: Env, st: Step) {
    Accepts(st.before, st.command) && st.after == Apply(e, st.before, st.command)
  }

  ghost predicate StepSafe(e: Env, id: Identity, specs: seq<Cluster>, st: Step) {
    && st.cluster in specs && st.cluster.id == id && st.at <= |st.cluster.tiers|
    && Justified(e, st.cluster, st.at, st.before, st.command)
    && (st.after == st.before || Took(e, st))
    && Inv(e, id, specs, st.before) && Inv(e, id, specs, st.after)
  }

  /** The last |cs| entries of the log are exactly these commands, and each took effect. */
  ghost predicate JustRan(e: Env, log: seq<Step>, cl: Cluster, at: nat, cs: seq<Command>) {
    && |cs| <= |log|
    && forall k | 0 <= k < |cs| ::
         var st := log[|log| - |cs| + k];
         st.command == cs[k] && st.cluster == cl && st.at == at && Took(e, st)
  }

  /** Directly before a version is enabled, its whole script ran in this very order: ADD SERVICE
      for the declared services, SET for each context key, MIGRATE, ADD SERVICE for every service
      that the migrated version shows and the tier is not in yet. */
  ghost predicate Prepared(e: Env, log: seq<Step>, cl: Cluster, at: nat, id: PluginId) {
    at < |cl.tiers| &&
    exists p, keys, row :: PreparedBy(e, log, cl, at, id, p, keys, row)
  }

  ghost predicate PreparedBy(
      e: Env, log: seq<Step>, cl: Cluster, at: nat, id: PluginId, p: Plugin, keys: seq<string>, row: Install)
    requires at < |cl.tiers|
  {
    var tier := cl.tiers[at].name;
    && Declares(cl.tiers[at], p, id)
    && Lists(keys, p.migrationContext.Keys)
    && row.migrated
    && var late := AddMissing(id, row, e.manifest(id), tier);
       && JustRan(e, log, cl, at, InstallScript(p, tier, keys) + late)
       && id in log[|log| - |late| - 1].after.plugins
       && row == log[|log| - |late| - 1].after.plugins[id]
  }

  ghost predicate EnabledInOrder(e: Env, log: seq<Step>) {
    forall i | 0 <= i < |log| && log[i].command.EnablePlugin? ::
      Prepared(e, log[..i], log[i].cluster, log[i].at, log[i].command.id)
  }

  ghost predicate Safe(e: Env, id: Identity, specs: seq<Cluster>, w0: World, s: Session) {
    && Chained(w0, s.log, s.world)
    && (forall i | 0 <= i < |s.log| :: StepSafe(e, id, specs, s.log[i]))
    && EnabledInOrder(e, s.log)
    && Inv(e, id, specs, s.world)
  }

  // ---------------------------------------------------------------- one command

  lemma ChainedDo(w0: World, log: seq<Step>, w: World, st: Step)
    requires Chained(w0, log, w) && st.before == w
    ensures Chained(w0, log + [st], st.after)
  {
    var now := log + [st];
    forall i | 0 <= i < |now|
      ensures now[i].before == WorldAt(w0, now, i)
    {
      assert WorldAt(w0, now, i) == WorldAt(w0, log, i);
    }
  }

  lemma EnabledInOrderDo(e: Env, log: seq<Step>, st: Step)
    requires EnabledInOrder(e, log)
    requires st.command.EnablePlugin? ==> Prepared(e, log, st.cluster, st.at, st.command.id)
    ensures EnabledInOrder(e, log + [st])
  {
    var now := log + [st];
    forall i | 0 <= i < |now| && now[i].command.EnablePlugin?
      ensures Prepared(e, now[..i], now[i].cluster, now[i].at, now[i].command.id)
    {
      assert now[..|log|] == log;
      if i < |log| {
        assert now[..i] == log[..i];
      }
    }
  }

  lemma StepSafeDo(e: Env, specs: seq<Cluster>, w: World, cl: Cluster, at: nat, call: nat, c: Command, o: Outcome)
    requires Valid(e) && KeysBuilt(e) && cl in specs && at <= |cl.tiers|
    requires Inv(e, cl.id, specs, w) && Justified(e, cl, at, w, c)
    ensures StepSafe(e, cl.id, specs, Step(cl, at, call, c, w, After(e, w, o, c)))
  {
    if o != Lost && Accepts(w, c) {
      JustifiedKeepsInv(e, specs, cl, at, w, c);
    }
  }

  lemma SafeDo(e: Env, specs: seq<Cluster>, w0: World, s: Session, cl: Cluster, at: nat, c: Command)
    requires Valid(e) && KeysBuilt(e) && Safe(e, cl.id, specs, w0, s) && cl in specs && at <= |cl.tiers|
    requires s.ok ==> Justified(e, cl, at, s.world, c)
    requires s.ok && c.EnablePlugin? ==> Prepared(e, s.log, cl, at, c.id)
    ensures Safe(e, cl.id, specs, w0, Do(e, s, cl, at, c))
  {
    if s.ok {
      var st := Step(cl, at, s.calls, c, s.world, After(e, s.world, e.outcome(s.calls), c));
      StepSafeDo(e, specs, s.world, cl, at, s.calls, c, e.outcome(s.calls));
      ChainedDo(w0, s.log, s.world, st);
      EnabledInOrderDo(e, s.log, st);
    }
  }

  // ---------------------------------------------------------------- objects

  /** The keys of the first n manifests are all there. */
  ghost predicate Present(w: World, ms: seq<Manifest>, n: nat) {
    n <= |ms| && forall i | 0 <= i < n :: ms[i].key in w.objects
  }

  lemma UpsertOneMore(e: Env, s: Session, cl: Cluster, at: nat, ms: seq<Manifest>, n: nat)
    requires n < |ms|
    ensures UpsertAll(e, s, cl, at, ms[..n + 1]) == Upsert(e, UpsertAll(e, s, cl, at, ms[..n]), cl, at, ms[n])
  {
    assert ms[..n + 1][..n] == ms[..n];
  }

  /** What each submission keeps, with one more object there, the whole list keeps. */
  lemma {:induction false} SubmitInduction(
      e: Env, s: Session, cl: Cluster, at: nat, ms: seq<Manifest>, n: nat, kept: (Session, nat) -> bool)
    requires n <= |ms| && kept(s, 0)
    requires forall r: Session, j: nat | j < |ms| && kept(r, j) :: kept(Upsert(e, r, cl, at, ms[j]), j + 1)
    ensures kept(UpsertAll(e, s, cl, at, ms[..n]), n)
  {
    if n == 0 {
      assert ms[..0] == [];
    } else {
      SubmitInduction(e, s, cl, at, ms, n - 1, kept);
      UpsertOneMore(e, s, cl, at, ms, n - 1);
    }
  }

  /** Safe, and if all went well the first n objects are there. */
  ghost predicate SubmittedSafely(
      e: Env, id: Identity, specs: seq<Cluster>, w0: World, s: Session, ms: seq<Manifest>, n: nat) {
    Safe(e, id, specs, w0, s) && (s.ok ==> Present(s.world, ms, n))
  }

  lemma SafeUpsertAll(
      e: Env, specs: seq<Cluster>, w0: World, s: Session, cl: Cluster, at: nat, ms: seq<Manifest>, n: nat)
    requires Valid(e) && KeysBuilt(e) && Safe(e, cl.id, specs, w0, s) && cl in specs && at < |cl.tiers|
    requires ms == e.desired(cl, at) && n <= |ms|
    ensures SubmittedSafely(e, cl.id, specs, w0, UpsertAll(e, s, cl, at, ms[..n]), ms, n)
  {
    var kept := (r: Session, j: nat) => SubmittedSafely(e, cl.id, specs, w0, r, ms, j);
    forall r: Session, j: nat | j < |ms| && kept(r, j)
      ensures kept(Upsert(e, r, cl, at, ms[j]), j + 1)
    {
      SafeUpsert(e, specs, w0, r, cl, at, ms, j);
      UpsertPresent(e, r, cl, at, ms, j);
    }
    SubmitInduction(e, s, cl, at, ms, n, kept);
  }

  lemma SubmitsNext(e: Env, cl: Cluster, at: nat, w: World, ms: seq<Manifest>, j: nat)
    requires at < |cl.tiers| && ms == e.desired(cl, at)
    requires j < |ms| && Present(w, ms, j)
    ensures SubmitsInOrder(e, cl, at, w, ms[j].key, Settle(w.objects, ms[j]))
  {
  }

  lemma UpsertPresent(e: Env, s: Session, cl: Cluster, at: nat, ms: seq<Manifest>, j: nat)
    requires j < |ms| && (s.ok ==> Present(s.world, ms, j))
    ensures Upsert(e, s, cl, at, ms[j]).ok ==> Present(Upsert(e, s, cl, at, ms[j]).world, ms, j + 1)
  {
  }

  lemma SafeUpsert(
      e: Env, specs: seq<Cluster>, w0: World, s: Session, cl: Cluster, at: nat, ms: seq<Manifest>, j: nat)
    requires Valid(e) && KeysBuilt(e) && Safe(e, cl.id, specs, w0, s) && cl in specs && at < |cl.tiers|
    requires ms == e.desired(cl, at) && j < |ms|
    requires s.ok ==> Present(s.world, ms, j)
    ensures Safe(e, cl.id, specs, w0, Upsert(e, s, cl, at, ms[j]))
  {
    var r := Read(e, s);
    var k, o := ms[j].key, Settle(r.world.objects, ms[j]);
    if s.ok {
      SubmitsNext(e, cl, at, s.world, ms, j);
    }
    SafeDo(e, specs, w0, r, cl, at, if k in r.world.objects then PatchObject(k, o) else CreateObject(k, o));
  }

  lemma SafeIngress(e: Env, specs: seq<Cluster>, w0: World, s: Session, cl: Cluster, at: nat)
    requires Valid(e) && KeysBuilt(e) && Safe(e, cl.id, specs, w0, s) && cl in specs && at < |cl.tiers|
    requires WantsIngress(cl.tiers[at]) && (s.ok ==> InPlace(cl, at, s.world))
    ensures Safe(e, cl.id, specs, w0, Upsert(e, s, cl, at, IngressManifest(cl, at)))
  {
    var m := IngressManifest(cl, at);
    var r := Read(e, s);
    var o := Settle(r.world.objects, m);
    SafeDo(e, specs, w0, r, cl, at,
           if m.key in r.world.objects then PatchObject(m.key, o) else CreateObject(m.key, o));
  }

  /** If the label puts the object beyond the tier's replicas, so does its key. */
  ghost predicate BeyondOwn(cl: Cluster, at: nat, listed: map<Key, Object>, k: Key)
    requires at < |cl.tiers| && k in listed
  {
    BeyondReplicas(listed[k].labels, cl.tiers[at]) ==> BeyondTier(cl, at, k)
  }

  lemma DeleteKeepsSets(cl: Cluster, at: nat, w: World, k: Key)
    requires at < |cl.tiers| && AllSetsExist(cl, at, w) && BeyondTier(cl, at, k)
    ensures AllSetsExist(cl, at, w.(objects := w.objects - {k}))
  {
    var t := cl.tiers[at].name;
    var i: nat :| i > SetCount(cl.tiers[at]) && k == SetKey(cl.id, t, i);
    forall j: nat | 1 <= j <= SetCount(cl.tiers[at])
      ensures SetKey(cl.id, t, j) in (w.objects - {k})
    {
      if SetKey(cl.id, t, j) == k {
        SetNameInjective(cl.id, t, i, t, j);
      }
    }
  }

  /** What one delete keeps, the loop keeps. */
  lemma {:induction false} DeleteInduction(
      e: Env, s: Session, cl: Cluster, at: nat, listed: map<Key, Object>, keys: seq<Key>, kept: Session -> bool)
    requires at < |cl.tiers| && kept(s)
    requires forall r, k | k in keys && k in listed && BeyondReplicas(listed[k].labels, cl.tiers[at]) && kept(r) ::
               kept(Do(e, r, cl, at, DeleteObject(k)))
    ensures kept(DeleteLoop(e, s, cl, at, listed, keys))
  {
    if keys != [] {
      assert keys[|keys| - 1] in keys && forall x | x in keys[..|keys| - 1] :: x in keys;
      DeleteInduction(e, s, cl, at, listed, keys[..|keys| - 1], kept);
    }
  }

  ghost predicate SafeWithSets(e: Env, specs: seq<Cluster>, w0: World, s: Session, cl: Cluster, at: nat)
    requires at < |cl.tiers|
  {
    Safe(e, cl.id, specs, w0, s) && (s.ok ==> AllSetsExist(cl, at, s.world))
  }

  lemma SafeDelete(e: Env, specs: seq<Cluster>, w0: World, s: Session, cl: Cluster, at: nat, k: Key)
    requires Valid(e) && KeysBuilt(e) && cl in specs && at < |cl.tiers| && BeyondTier(cl, at, k)
    requires SafeWithSets(e, specs, w0, s, cl, at)
    ensures SafeWithSets(e, specs, w0, Do(e, s, cl, at, DeleteObject(k)), cl, at)
  {
    SafeDo(e, specs, w0, s, cl, at, DeleteObject(k));
    if s.ok {
      DeleteKeepsSets(cl, at, s.world, k);
    }
  }

  lemma SafeDeleteLoop(
      e: Env, specs: seq<Cluster>, w0: World, s: Session, cl: Cluster, at: nat,
      listed: map<Key, Object>, keys: seq<Key>)
    requires Valid(e) && KeysBuilt(e) && cl in specs && at < |cl.tiers|
    requires forall k | k in keys :: k in listed && BeyondOwn(cl, at, listed, k)
    requires SafeWithSets(e, specs, w0, s, cl, at)
    ensures SafeWithSets(e, specs, w0, DeleteLoop(e, s, cl, at, listed, keys), cl, at)
  {
    var kept := (r: Session) => SafeWithSets(e, specs, w0, r, cl, at);
    forall r, k | k in keys && k in listed && BeyondReplicas(listed[k].labels, cl.tiers[at]) && kept(r)
      ensures kept(Do(e, r, cl, at, DeleteObject(k)))
    {
      assert BeyondOwn(cl, at, listed, k);
      SafeDelete(e, specs, w0, r, cl, at, k);
    }
    DeleteInduction(e, s, cl, at, listed, keys, kept);
  }

  /** What a tier's label selector finds are the tier's replicasets, under their own names. */
  lemma ListedAreOwn(id: Identity, w: World, tier: string, k: Key)
    requires Owned(id, w) && k in TierSets(w, id, tier)
    ensures exists i: nat :: IsReplicaset(id, k, w.objects[k], tier, i)
  {
    assert "app.kubernetes.io/instance" in TierLabels(id, tier);
    var owner, i: nat :| IsReplicaset(id, k, w.objects[k], owner, i);
    LabelsIdentifyTier(id, owner, tier, i);
    assert IsReplicaset(id, k, w.objects[k], tier, i);
  }

  lemma ListedBeyondOwn(cl: Cluster, at: nat, w: World, k: Key)
    requires at < |cl.tiers| && Owned(cl.id, w) && k in TierSets(w, cl.id, cl.tiers[at].name)
    ensures BeyondOwn(cl, at, w.objects, k)
  {
    ListedAreOwn(cl.id, w, cl.tiers[at].name, k);
    var i: nat :| IsReplicaset(cl.id, k, w.objects[k], cl.tiers[at].name, i);
    LabelRoundTrip(cl.id, cl.tiers[at].name, i);
  }

  lemma SafeDeleteExtraSets(e: Env, specs: seq<Cluster>, w0: World, s: Session, cl: Cluster, at: nat)
    requires Valid(e) && KeysBuilt(e) && Safe(e, cl.id, specs, w0, s) && cl in specs && at < |cl.tiers|
    requires s.ok ==> AllSetsExist(cl, at, s.world)
    ensures Safe(e, cl.id, specs, w0, DeleteExtraSets(e, s, cl, at))
    ensures DeleteExtraSets(e, s, cl, at).ok ==> AllSetsExist(cl, at, DeleteExtraSets(e, s, cl, at).world)
  {
    var r := Read(e, s);
    var sets := TierSets(r.world, cl.id, cl.tiers[at].name);
    var keys := e.keyOrder(s.calls, sets);
    assert Lists(keys, sets);
    forall k | k in keys
      ensures k in r.world.objects && BeyondOwn(cl, at, r.world.objects, k)
    {
      ListedBeyondOwn(cl, at, r.world, k);
    }
    SafeDeleteLoop(e, specs, w0, r, cl, at, r.world.objects, keys);
  }

  lemma PresentMeansSets(e: Env, cl: Cluster, at: nat, w: World)
    requires KeysBuilt(e) && at < |cl.tiers|
    requires Present(w, e.desired(cl, at), |e.desired(cl, at)|)
    ensures AllSetsExist(cl, at, w)
  {
    var ms := e.desired(cl, at);
    forall i: nat | 1 <= i <= SetCount(cl.tiers[at])
      ensures SetKey(cl.id, cl.tiers[at].name, i) in w.objects
    {
      assert ms[i + 2].key == ManifestKey(cl, at, i + 2);
      assert ms[i + 2].key in w.objects;
    }
  }

  lemma PresentMeansDependencies(e: Env, cl: Cluster, at: nat, w: World)
    requires KeysBuilt(e) && at < |cl.tiers|
    requires Present(w, e.desired(cl, at), |e.desired(cl, at)|)
    ensures DependenciesOf(cl.id, w, cl.tiers[at].name)
  {
    var ms := e.desired(cl, at);
    forall i: nat | i < 3
      ensures ManifestKey(cl, at, i) in w.objects
    {
      assert ms[i].key == ManifestKey(cl, at, i);
    }
    assert ManifestKey(cl, at, 0) in w.objects && ManifestKey(cl, at, 1) in w.objects
        && ManifestKey(cl, at, 2) in w.objects;
  }

  /** The delete pass takes only what is too many, and all of it. */
  lemma CutIsInPlace(e: Env, s: Session, cl: Cluster, at: nat)
    requires Valid(e) && at < |cl.tiers| && DeleteExtraSets(e, s, cl, at).ok
    requires s.ok ==> DependenciesOf(cl.id, s.world, cl.tiers[at].name)
    requires AllSetsExist(cl, at, DeleteExtraSets(e, s, cl, at).world)
    ensures InPlace(cl, at, DeleteExtraSets(e, s, cl, at).world)
  {
    DeleteExtraDone(e, s, cl, at);
    var t, w := cl.tiers[at].name, DeleteExtraSets(e, s, cl, at).world;
    assert ConfigMapKey(cl.id, t) in w.objects && InterconnectKey(cl.id, t) in w.objects
        && ClientKey(cl.id, t) in w.objects;
    forall k | k in TierSets(w, cl.id, t)
      ensures !BeyondReplicas(w.objects[k].labels, cl.tiers[at])
    {
      assert !Extra(cl, at, s.world.objects, k);
    }
  }

  lemma SafeReconcileTier(e: Env, specs: seq<Cluster>, w0: World, s: Session, cl: Cluster, at: nat)
    requires Valid(e) && KeysBuilt(e) && Safe(e, cl.id, specs, w0, s) && cl in specs && at < |cl.tiers|
    ensures Safe(e, cl.id, specs, w0, ReconcileTier(e, s, cl, at))
  {
    var ms := e.desired(cl, at);
    var r := UpsertAll(e, s, cl, at, ms);
    assert ms[..|ms|] == ms;
    SafeUpsertAll(e, specs, w0, s, cl, at, ms, |ms|);
    if r.ok {
      PresentMeansSets(e, cl, at, r.world);
      PresentMeansDependencies(e, cl, at, r.world);
    }
    SafeDeleteExtraSets(e, specs, w0, r, cl, at);
    if DeleteExtraSets(e, r, cl, at).ok {
      CutIsInPlace(e, r, cl, at);
    }
    if WantsIngress(cl.tiers[at]) {
      SafeIngress(e, specs, w0, DeleteExtraSets(e, r, cl, at), cl, at);
    }
  }
}
