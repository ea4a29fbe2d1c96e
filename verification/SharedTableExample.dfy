/** An input at which a pass that stops early removes a plugin version of a tier it never got to. */
module SharedTableExample {
  import opened Text
  import opened Types
  import opened Names
  import opened Builders
  import opened Machine
  import opened Protocol
  import opened Invariants
  import opened TierConvergence
  import opened RunTheorems
  import opened Readiness
  import opened CrossTier
  import opened Recovery
  import opened Passes
  import opened FailedPass
  import opened Stuck
  import opened PluginSafety

  // ---------------------------------------------------------------- the input

  function OneReplicaset(name: string, plugins: seq<Plugin>): Tier {
    Tier(name, 1, 1, true, plugins, [], None, false, None, "", "")
  }

  const FIRST := Plugin("first", "1", map[], [])
  const LATER := Plugin("later", "1", map[], [])

  /** Three tiers: the first wants one plugin, the third another. */
  function ThreeTiers(id: Identity): Cluster {
    Cluster(id, [OneReplicaset("a", [FIRST]), OneReplicaset("b", []), OneReplicaset("c", [LATER])],
            ServiceSpec("", 0, 0, 0), "")
  }

  /** Nothing is there but the third tier's plugin, not enabled yet. */
  function OnlyLater(status: Status): World {
    World(map[], map[Id(LATER) := Install(false, false, map[], map[])], status)
  }

  /** All pods are ready, no plugin brings services of its own, and from call 20 on every call is lost. */
  ghost predicate LostFrom20(e: Env) {
    && (forall k :: e.outcome(k) == if k < 20 then Done else Lost)
    && (forall k, key :: e.ready(k, key) == 1) && (forall x :: e.manifest(x) == [])
  }

  // ---------------------------------------------------------------- the first tier's objects

  lemma UpsertCall(e: Env, s: Session, cl: Cluster, at: nat, m: Manifest)
    requires LostFrom20(e) && s.ok && s.calls < 19
    ensures Upsert(e, s, cl, at, m).ok && Upsert(e, s, cl, at, m).calls == s.calls + 2
  {
  }

  lemma {:induction false} UpsertCalls(e: Env, s: Session, cl: Cluster, at: nat, ms: seq<Manifest>)
    requires LostFrom20(e) && s.ok && s.calls + 2 * |ms| <= 20
    ensures UpsertAll(e, s, cl, at, ms).ok && UpsertAll(e, s, cl, at, ms).calls == s.calls + 2 * |ms|
  {
    if ms != [] {
      UpsertCalls(e, s, cl, at, ms[..|ms| - 1]);
      UpsertCall(e, UpsertAll(e, s, cl, at, ms[..|ms| - 1]), cl, at, ms[|ms| - 1]);
    }
  }

  lemma {:induction false} DeleteNothing(
      e: Env, s: Session, cl: Cluster, at: nat, listed: map<Key, Object>, keys: seq<Key>)
    requires at < |cl.tiers| && forall k | k in keys && k in listed :: !BeyondReplicas(listed[k].labels, cl.tiers[at])
    ensures DeleteLoop(e, s, cl, at, listed, keys) == s
  {
    if keys != [] {
      assert keys[|keys| - 1] in keys && forall k | k in keys[..|keys| - 1] :: k in keys;
      DeleteNothing(e, s, cl, at, listed, keys[..|keys| - 1]);
    }
  }

  lemma NoExtraDeletesNothing(e: Env, s: Session, cl: Cluster, at: nat)
    requires Valid(e) && at < |cl.tiers| && forall k :: !Extra(cl, at, s.world.objects, k)
    ensures DeleteExtraSets(e, s, cl, at) == Read(e, s)
  {
    var sets := TierSets(s.world, cl.id, cl.tiers[at].name);
    var keys := e.keyOrder(s.calls, sets);
    assert Lists(keys, sets);
    forall k | k in keys
      ensures !BeyondReplicas(s.world.objects[k].labels, cl.tiers[at])
    {
      assert k in sets && !Extra(cl, at, s.world.objects, k);
    }
    DeleteNothing(e, Read(e, s), cl, at, s.world.objects, keys);
  }

  /** Submitting to an empty store leaves nothing to delete. */
  lemma NothingExtra(e: Env, s: Session, cl: Cluster, at: nat)
    requires KeysBuilt(e) && at < |cl.tiers| && s.world.objects == map[]
    requires UpsertAll(e, s, cl, at, e.desired(cl, at)).ok
    ensures forall k :: !Extra(cl, at, UpsertAll(e, s, cl, at, e.desired(cl, at)).world.objects, k)
  {
    var d := e.desired(cl, at);
    WantedDistinct(e, cl, at);
    assert forall i, j | 0 <= i < j < |d| :: Wanted(e, cl, at)[i] == d[i] && Wanted(e, cl, at)[j] == d[j];
    UpsertAllDone(e, s, cl, at, d);
    OwnSetsNotExtra(e, cl, at, s.world.objects, UpsertAll(e, s, cl, at, d).world.objects);
  }

  lemma TierCalls(e: Env, s: Session, cl: Cluster, at: nat)
    requires Valid(e) && KeysBuilt(e) && LostFrom20(e) && at < |cl.tiers|
    requires s.ok && s.calls == 1 && s.world.objects == map[]
    requires SetCount(cl.tiers[at]) == 1 && !WantsIngress(cl.tiers[at])
    ensures ReconcileTier(e, s, cl, at).ok && ReconcileTier(e, s, cl, at).calls == 10
  {
    UpsertCalls(e, s, cl, at, e.desired(cl, at));
    NothingExtra(e, s, cl, at);
    NoExtraDeletesNothing(e, UpsertAll(e, s, cl, at, e.desired(cl, at)), cl, at);
  }

  lemma OnePodReported(e: Env, call: nat, id: Identity, tier: string)
    requires LostFrom20(e)
    ensures ReportedPods(e, call, id, tier, 1) == 1
  {
    var f := SetReports(e, call, id, tier);
    assert SumTo(f, 1) == SumTo(f, 0) + f(1);
    assert f(1) == e.ready(call, SetKey(id, tier, 1)) == 1;
  }

  lemma SmallTierReady(e: Env, s: Session, cl: Cluster, at: nat)
    requires Valid(e) && KeysBuilt(e) && LostFrom20(e) && at < |cl.tiers| && Owned(cl.id, s.world)
    requires cl.tiers[at].replicas == 1 && cl.tiers[at].replicationFactor == 1 && ReconcileTier(e, s, cl, at).ok
    ensures IsReady(ObserveTier(e, ReconcileTier(e, s, cl, at), cl, at))
  {
    ObservedCount(e, s, cl, at);
    OnePodReported(e, ReconcileTier(e, s, cl, at).calls, cl.id, cl.tiers[at].name);
  }

  lemma FirstTierReady(e: Env, s: Session, id: Identity)
    requires Valid(e) && KeysBuilt(e) && LostFrom20(e) && Owned(id, s.world)
    requires ReconcileTier(e, s, ThreeTiers(id), 0).ok
    ensures IsReady(ObserveTier(e, ReconcileTier(e, s, ThreeTiers(id), 0), ThreeTiers(id), 0))
  {
    SmallTierReady(e, s, ThreeTiers(id), 0);
  }

  // ---------------------------------------------------------------- its plugins

  /** The plugin is in the table, enabled, and the rest is as it was. */
  predicate FirstAdded(a: World, b: World) {
    b.plugins == a.plugins[Id(FIRST) := Install(true, true, map[], map[])]
  }

  lemma FirstElements<T>(xs: seq<T>)
    ensures xs == [] || xs[0] in xs
    ensures |xs| >= 2 ==> xs[1] in xs
    ensures |xs| >= 3 ==> xs[2] in xs
  {
  }

  lemma FirstPrepared(e: Env, s: Session, cl: Cluster, tier: string)
    requires Valid(e) && LostFrom20(e) && s.ok && s.calls == 14 && Id(FIRST) !in s.world.plugins
    ensures var r := Prepare(e, s, cl, 0, FIRST, tier);
            r.ok && r.calls == 16
            && r.world.plugins == s.world.plugins[Id(FIRST) := Install(false, true, map[], map[])]
  {
    var keys := ContextKeys(e, s.calls, FIRST);
    assert Lists(e.contextOrder(s.calls, FIRST.migrationContext.Keys), FIRST.migrationContext.Keys);
    FirstElements(keys);
    var script := InstallScript(FIRST, tier, keys);
    assert script == [MigratePlugin(Id(FIRST))];
    var created := Do(e, s, cl, 0, CreatePlugin(Id(FIRST)));
    assert script[..0] == [];
    assert RunAll(e, created, cl, 0, script) == Do(e, created, cl, 0, MigratePlugin(Id(FIRST)));
  }

  lemma FirstInstalled(e: Env, s: Session, cl: Cluster, tier: string)
    requires Valid(e) && LostFrom20(e) && s.ok && s.calls == 13 && Id(FIRST) !in s.world.plugins
    ensures var r := PluginLoop(e, s, cl, 0, [FIRST], tier);
            r.ok && r.calls == 18 && FirstAdded(s.world, r.world)
  {
    var prepared := Prepare(e, Read(e, s), cl, 0, FIRST, tier);
    FirstPrepared(e, Read(e, s), cl, tier);
    var bound := BindDiscovered(e, prepared, cl, 0, Id(FIRST), tier);
    assert bound == Read(e, prepared);
    assert [FIRST][..0] == [];
    assert PluginLoop(e, s, cl, 0, [FIRST], tier) == ReconcilePlugin(e, s, cl, 0, FIRST, tier);
  }

  lemma TwoListed<T>(xs: seq<T>, a: T, b: T)
    requires a != b && (forall x :: x in xs <==> x == a || x == b)
    requires forall i, j | 0 <= i < j < |xs| :: xs[i] != xs[j]
    ensures xs == [a, b] || xs == [b, a]
  {
    assert a in xs && b in xs;
    FirstElements(xs);
  }

  lemma FirstIsDesired()
    ensures forall x :: IsDesired([FIRST], x) <==> x == Id(FIRST)
  {
    assert [FIRST][..0] == [];
    assert DesiredVersions([FIRST]) == map["first" := "1"];
  }

  /** Dropping what is obsolete then takes one statement. */
  lemma LaterDropped(e: Env, s: Session, id: Identity, before: World)
    requires Valid(e) && LostFrom20(e) && s.ok && s.calls == 18
    requires before.plugins == OnlyLater(before.status).plugins && FirstAdded(before, s.world)
    ensures var r := DropObsolete(e, s, ThreeTiers(id), 0); r.ok && r.calls == 20
  {
    var cl := ThreeTiers(id);
    var r := Read(e, s);
    var listed, ids := r.world.plugins, e.pluginOrder(s.calls, r.world.plugins.Keys);
    assert Lists(ids, listed.Keys);
    TwoListed(ids, Id(FIRST), Id(LATER));
    FirstIsDesired();
    assert ids[..0] == [] && ids[..2] == ids;
    DropOneMore(e, r, cl, 0, listed, ids, 0);
    DropOneMore(e, r, cl, 0, listed, ids, 1);
  }

  // ---------------------------------------------------------------- the pass

  lemma FirstTierServed(e: Env, s: Session, id: Identity)
    requires Valid(e) && KeysBuilt(e) && LostFrom20(e) && s.ok && s.calls == 1
    requires s.world == OnlyLater(s.world.status)
    ensures var cl := ThreeTiers(id);
            var h, seen := HandleTier(e, s, cl, 0), Read(e, ReconcileTier(e, s, cl, 0));
            && h.TierDone? && IsReady(h.status) && h.session.ok && h.session.calls == 20
            && DropReported(e, seen, cl, 0)
  {
    var cl := ThreeTiers(id);
    TierCalls(e, s, cl, 0);
    SuccessMeansTarget(e, s, cl, 0);
    FirstTierReady(e, s, id);
    var seen := Read(e, ReconcileTier(e, s, cl, 0));
    var start := Read(e, Read(e, seen));
    FirstInstalled(e, start, cl, "a");
    LaterDropped(e, PluginLoop(e, start, cl, 0, [FIRST], "a"), id, s.world);
  }

  lemma SecondTierFails(e: Env, s: Session, cl: Cluster, at: nat)
    requires LostFrom20(e) && s.ok && s.calls == 20 && at < |cl.tiers| && KeysBuilt(e)
    ensures HandleTier(e, s, cl, at).TierFailed?
  {
    var ms := e.desired(cl, at);
    assert ms[..1] == [ms[0]] && ms[..1][..0] == [];
    UpsertAllStuck(e, s, cl, at, ms, 1);
    DeleteExtraStuck(e, UpsertAll(e, s, cl, at, ms), cl, at);
  }

  lemma StopsAtSecond(e: Env, s: Session, id: Identity)
    requires Valid(e) && KeysBuilt(e) && LostFrom20(e) && s.ok && s.calls == 0
    requires s.world == OnlyLater(s.world.status)
    ensures var cl := ThreeTiers(id);
            var w := WholeWalk(e, s, cl);
            && w.stop == TierError && |w.done| == 1 && Served(cl, w.done, 0)
            && DropReported(e, Counted(e, s, cl, 0), cl, 0)
  {
    var cl, start := ThreeTiers(id), Read(e, s);
    FirstTierServed(e, start, id);
    var first := TierWalk(e, start, cl, 1);
    assert TierWalk(e, start, cl, 0) == Walk(start, [], NoStop);
    SecondTierFails(e, first.session, cl, 1);
    assert TierWalk(e, start, cl, 2) == WalkOn(e, first, cl, 1);
    WalkStuck(e, start, cl, 2, 3);
  }

  lemma OnlyThirdDeclares(id: Identity)
    ensures Declares(ThreeTiers(id).tiers[2], LATER, Id(LATER)) && !DeclaredUpTo(ThreeTiers(id), 1, Id(LATER))
  {
  }

  lemma InputIsLegal(e: Env, id: Identity, status: Status)
    requires Valid(e) && KeysBuilt(e)
    ensures Legal(e, id, OnlyLater(status), [ThreeTiers(id)])
    ensures BeforePass(e, OnlyLater(status), [ThreeTiers(id)], 0) == Session(OnlyLater(status), [], 0, true)
  {
    assert [ThreeTiers(id)][..0] == [];
  }

  lemma LaterGone(e: Env, id: Identity, status: Status)
    requires Valid(e) && KeysBuilt(e) && LostFrom20(e)
    ensures var s := Session(OnlyLater(status), [], 0, true);
            Id(LATER) !in Reconcile(e, s, ThreeTiers(id)).world.plugins
  {
    var cl, s := ThreeTiers(id), Session(OnlyLater(status), [], 0, true);
    InputIsLegal(e, id, status);
    StopsAtSecond(e, s, id);
    OnlyThirdDeclares(id);
    assert cl in [cl];
    RemovedForGood(e, [cl], OnlyLater(status), s, cl, 0, Id(LATER));
  }

  /** At this input the pass stops at the second tier, after the first one was served, and the plugin
      that only the third tier declares is gone. */
  lemma LaterPluginRemoved(id: Identity, status: Status) returns (e: Env)
    ensures Legal(e, id, OnlyLater(status), [ThreeTiers(id)])
    ensures Declares(ThreeTiers(id).tiers[2], LATER, Id(LATER)) && Id(LATER) in OnlyLater(status).plugins
    ensures var cl, s := ThreeTiers(id), BeforePass(e, OnlyLater(status), [ThreeTiers(id)], 0);
            var w := WholeWalk(e, s, cl);
            && w.stop == TierError && |w.done| == 1 && Served(cl, w.done, 0) && !DeclaredUpTo(cl, 1, Id(LATER))
            && Id(LATER) !in Reconcile(e, s, cl).world.plugins
  {
    e := SomeEnvironment(config => "", (k: nat) => if k < 20 then Done else Lost, (call, key) => 1);
    assert LostFrom20(e);
    InputIsLegal(e, id, status);
    StopsAtSecond(e, Session(OnlyLater(status), [], 0, true), id);
    OnlyThirdDeclares(id);
    LaterGone(e, id, status);
  }
}
