/** Safety of the plugin protocol under faults, and safety of whole passes and runs. */
module PluginSafety {
  import opened Types
  import opened Machine
  import opened Protocol
  import opened Invariants
  import opened Safety
  import opened PluginEffects

  // ---------------------------------------------------------------- scripts

  /** What each statement keeps when it follows those before it, the whole script keeps. */
  lemma {:induction false} ScriptInduction(
      e: Env, s: Session, cl: Cluster, at: nat, cs: seq<Command>, n: nat, kept: Session -> bool)
    requires n <= |cs| && kept(s)
    requires forall j: nat | j < |cs| && kept(RunAll(e, s, cl, at, cs[..j])) ::
               kept(Do(e, RunAll(e, s, cl, at, cs[..j]), cl, at, cs[j]))
    ensures kept(RunAll(e, s, cl, at, cs[..n]))
  {
    if n == 0 {
      assert cs[..0] == [];
    } else {
      ScriptInduction(e, s, cl, at, cs, n - 1, kept);
      assert cs[..n][..n - 1] == cs[..n - 1];
    }
  }

  /** A script is safe if each statement is justified whenever all before it were reported done. */
  lemma SafeRunAll(
      e: Env, specs: seq<Cluster>, w0: World, s: Session, cl: Cluster, at: nat, cs: seq<Command>)
    requires Valid(e) && KeysBuilt(e) && Safe(e, cl.id, specs, w0, s) && cl in specs && at < |cl.tiers|
    requires forall c | c in cs :: !c.EnablePlugin?
    requires forall j | 0 <= j < |cs| && RunAll(e, s, cl, at, cs[..j]).ok ::
               Justified(e, cl, at, RunAll(e, s, cl, at, cs[..j]).world, cs[j])
    ensures Safe(e, cl.id, specs, w0, RunAll(e, s, cl, at, cs))
  {
    var safe := (r: Session) => Safe(e, cl.id, specs, w0, r);
    forall j: nat | j < |cs| && safe(RunAll(e, s, cl, at, cs[..j]))
      ensures safe(Do(e, RunAll(e, s, cl, at, cs[..j]), cl, at, cs[j]))
    {
      assert cs[j] in cs;
      SafeDo(e, specs, w0, RunAll(e, s, cl, at, cs[..j]), cl, at, cs[j]);
    }
    ScriptInduction(e, s, cl, at, cs, |cs|, safe);
    assert cs[..|cs|] == cs;
  }

  lemma AddJustified(e: Env, cl: Cluster, at: nat, w: World, p: Plugin, i: nat)
    requires at < |cl.tiers| && p in cl.tiers[at].plugins && Stage(e, w, p, cl.tiers[at].name, 0) && i < |p.services|
    ensures Justified(e, cl, at, w, AddService(Id(p), p.services[i].name, cl.tiers[at].name))
  {
    assert Declares(cl.tiers[at], p, Id(p));
  }

  lemma SetJustified(e: Env, cl: Cluster, at: nat, w: World, p: Plugin, k: string)
    requires at < |cl.tiers| && p in cl.tiers[at].plugins && Stage(e, w, p, cl.tiers[at].name, 1)
    requires k in p.migrationContext
    ensures Justified(e, cl, at, w, SetContext(Id(p), k, p.migrationContext[k]))
  {
    assert Declares(cl.tiers[at], p, Id(p));
  }

  lemma MigrateJustified(e: Env, cl: Cluster, at: nat, w: World, p: Plugin)
    requires at < |cl.tiers| && p in cl.tiers[at].plugins && Stage(e, w, p, cl.tiers[at].name, 2)
    ensures Justified(e, cl, at, w, MigratePlugin(Id(p)))
  {
    assert Declares(cl.tiers[at], p, Id(p));
  }

  /** How far a successful prefix of the script has brought the version. */
  lemma PrefixStage(e: Env, s: Session, cl: Cluster, at: nat, p: Plugin, tier: string, keys: seq<string>, j: nat)
    requires Valid(e) && Lists(keys, p.migrationContext.Keys)
    requires Id(p) in s.world.plugins && !s.world.plugins[Id(p)].enabled
    requires var cs := InstallScript(p, tier, keys); j < |cs| && RunAll(e, s, cl, at, cs[..j]).ok
    ensures var w := RunAll(e, s, cl, at, InstallScript(p, tier, keys)[..j]).world;
            && Stage(e, w, p, tier, 0)
            && (j >= |p.services| ==> Stage(e, w, p, tier, 1))
            && (j >= |p.services| + |keys| ==> Stage(e, w, p, tier, 2))
  {
    var cs := InstallScript(p, tier, keys);
    InstallScriptInstalls(p, tier, keys);
    assert forall c | c in cs[..j] :: c in cs;
    RunAllGrows(e, s, cl, at, p, cs[..j]);
    ScriptStage(e, RunAll(e, s, cl, at, cs[..j]).world, p, tier, keys, j);
  }

  lemma InstallStepJustified(
      e: Env, s: Session, cl: Cluster, at: nat, p: Plugin, keys: seq<string>, j: nat)
    requires Valid(e) && at < |cl.tiers| && p in cl.tiers[at].plugins
    requires Lists(keys, p.migrationContext.Keys)
    requires Id(p) in s.world.plugins && !s.world.plugins[Id(p)].enabled
    requires var cs := InstallScript(p, cl.tiers[at].name, keys);
             j < |cs| && RunAll(e, s, cl, at, cs[..j]).ok
    ensures var cs := InstallScript(p, cl.tiers[at].name, keys);
            Justified(e, cl, at, RunAll(e, s, cl, at, cs[..j]).world, cs[j])
  {
    var tier := cl.tiers[at].name;
    var cs := InstallScript(p, tier, keys);
    var w := RunAll(e, s, cl, at, cs[..j]).world;
    PrefixStage(e, s, cl, at, p, tier, keys, j);
    if j < |p.services| {
      AddJustified(e, cl, at, w, p, j);
      assert cs[j] == AddService(Id(p), p.services[j].name, tier);
    } else if j < |p.services| + |keys| {
      var k := keys[j - |p.services|];
      assert k in keys;
      SetJustified(e, cl, at, w, p, k);
      assert cs[j] == SetContext(Id(p), k, p.migrationContext[k]);
    } else {
      MigrateJustified(e, cl, at, w, p);
      assert cs[j] == MigratePlugin(Id(p));
    }
  }

  lemma SafeInstallScript(
      e: Env, specs: seq<Cluster>, w0: World, s: Session, cl: Cluster, at: nat, p: Plugin, keys: seq<string>)
    requires Valid(e) && KeysBuilt(e) && Safe(e, cl.id, specs, w0, s) && cl in specs
    requires at < |cl.tiers| && p in cl.tiers[at].plugins
    requires Lists(keys, p.migrationContext.Keys)
    requires s.ok ==> Id(p) in s.world.plugins && !s.world.plugins[Id(p)].enabled
    ensures var r := RunAll(e, s, cl, at, InstallScript(p, cl.tiers[at].name, keys));
            && Safe(e, cl.id, specs, w0, r)
            && (r.ok ==> s.ok && Grown(e, p, s.world, r.world) && Stage(e, r.world, p, cl.tiers[at].name, 3))
  {
    var tier := cl.tiers[at].name;
    var cs := InstallScript(p, tier, keys);
    InstallScriptInstalls(p, tier, keys);
    forall j | 0 <= j < |cs| && RunAll(e, s, cl, at, cs[..j]).ok
      ensures Justified(e, cl, at, RunAll(e, s, cl, at, cs[..j]).world, cs[j])
    {
      RunAllOk(e, s, cl, at, cs[..j]);
      InstallStepJustified(e, s, cl, at, p, keys, j);
    }
    SafeRunAll(e, specs, w0, s, cl, at, cs);
    if RunAll(e, s, cl, at, cs).ok {
      InstallScriptDone(e, s, cl, at, p, tier, keys);
    }
  }

  lemma InstallScriptDone(
      e: Env, s: Session, cl: Cluster, at: nat, p: Plugin, tier: string, keys: seq<string>)
    requires Valid(e) && Lists(keys, p.migrationContext.Keys)
    requires s.ok ==> Id(p) in s.world.plugins && !s.world.plugins[Id(p)].enabled
    requires RunAll(e, s, cl, at, InstallScript(p, tier, keys)).ok
    ensures var r := RunAll(e, s, cl, at, InstallScript(p, tier, keys));
            s.ok && Grown(e, p, s.world, r.world) && Stage(e, r.world, p, tier, 3)
  {
    var cs := InstallScript(p, tier, keys);
    InstallScriptInstalls(p, tier, keys);
    RunAllOk(e, s, cl, at, cs);
    RunAllGrows(e, s, cl, at, p, cs);
    assert cs[..|cs|] == cs;
    ScriptStage(e, RunAll(e, s, cl, at, cs).world, p, tier, keys, |cs|);
  }

  // ---------------------------------------------------------------- binding discovered services

  lemma BindingJustified(e: Env, cl: Cluster, at: nat, w: World, p: Plugin, c: Command, row: Install)
    requires at < |cl.tiers| && p in cl.tiers[at].plugins
    requires Id(p) in w.plugins && (row.migrated ==> w.plugins[Id(p)].migrated)
    requires c.AddService? && c.id == Id(p) && c.tier == cl.tiers[at].name
    requires c.service in VisibleServices(e, Id(p), row)
    ensures Justified(e, cl, at, w, c)
  {
    assert Declares(cl.tiers[at], p, Id(p));
  }

  lemma SafeAddMissing(
      e: Env, specs: seq<Cluster>, w0: World, s: Session, cl: Cluster, at: nat, p: Plugin)
    requires Valid(e) && KeysBuilt(e) && Safe(e, cl.id, specs, w0, s) && cl in specs
    requires at < |cl.tiers| && p in cl.tiers[at].plugins
    requires Id(p) in s.world.plugins
    ensures var row := s.world.plugins[Id(p)];
            var cs := AddMissing(Id(p), row, VisibleServices(e, Id(p), row), cl.tiers[at].name);
            Safe(e, cl.id, specs, w0, RunAll(e, s, cl, at, cs))
  {
    var tier, row := cl.tiers[at].name, s.world.plugins[Id(p)];
    var services := VisibleServices(e, Id(p), row);
    var cs := AddMissing(Id(p), row, services, tier);
    AddMissingInstalls(p, row, services, tier);
    forall j | 0 <= j < |cs| && RunAll(e, s, cl, at, cs[..j]).ok
      ensures Justified(e, cl, at, RunAll(e, s, cl, at, cs[..j]).world, cs[j])
    {
      assert forall c | c in cs[..j] :: c in cs;
      RunAllGrows(e, s, cl, at, p, cs[..j]);
      assert cs[j] in cs;
      BindingJustified(e, cl, at, RunAll(e, s, cl, at, cs[..j]).world, p, cs[j], row);
    }
    SafeRunAll(e, specs, w0, s, cl, at, cs);
  }

  /** After the binding pass the version has grown and every visible service is bound to the tier. */
  ghost predicate BindingDone(e: Env, s: Session, r: Session, p: Plugin, tier: string) {
    Grown(e, p, s.world, r.world) && DiscoveredBound(e, Id(p), r.world.plugins[Id(p)], tier)
  }

  lemma AddMissingEffect(e: Env, s: Session, cl: Cluster, at: nat, p: Plugin, tier: string)
    requires Valid(e) && Id(p) in s.world.plugins
    requires var row := s.world.plugins[Id(p)];
             RunAll(e, s, cl, at, AddMissing(Id(p), row, VisibleServices(e, Id(p), row), tier)).ok
    ensures var row := s.world.plugins[Id(p)];
            var late := AddMissing(Id(p), row, VisibleServices(e, Id(p), row), tier);
            BindingDone(e, s, RunAll(e, s, cl, at, late), p, tier)
  {
    var row := s.world.plugins[Id(p)];
    var services := VisibleServices(e, Id(p), row);
    var cs := AddMissing(Id(p), row, services, tier);
    AddMissingInstalls(p, row, services, tier);
    assert !row.migrated ==> cs == [];
    RunAllGrows(e, s, cl, at, p, cs);
    var now := RunAll(e, s, cl, at, cs).world.plugins[Id(p)];
    forall svc | svc in VisibleServices(e, Id(p), now)
      ensures Bound(now, svc, tier)
    {
      if !Bound(row, svc, tier) {
        assert Effect(now, AddService(Id(p), svc, tier));
      }
    }
  }

  lemma SafeBindDiscovered(
      e: Env, specs: seq<Cluster>, w0: World, s: Session, cl: Cluster, at: nat, p: Plugin)
    requires Valid(e) && KeysBuilt(e) && Safe(e, cl.id, specs, w0, s) && cl in specs
    requires at < |cl.tiers| && p in cl.tiers[at].plugins
    requires s.ok ==> Id(p) in s.world.plugins
    ensures var r := BindDiscovered(e, s, cl, at, Id(p), cl.tiers[at].name);
            && Safe(e, cl.id, specs, w0, r)
            && (r.ok ==> s.ok && BindingDone(e, s, r, p, cl.tiers[at].name))
            && (r.ok ==> var row := s.world.plugins[Id(p)];
                         var late := AddMissing(Id(p), row, VisibleServices(e, Id(p), row), cl.tiers[at].name);
                         |r.log| == |s.log| + |late| && r.log[..|s.log|] == s.log && JustRan(e, r.log, cl, at, late))
  {
    var r := Read(e, s);
    if Id(p) in r.world.plugins {
      var row := r.world.plugins[Id(p)];
      var late := AddMissing(Id(p), row, VisibleServices(e, Id(p), row), cl.tiers[at].name);
      SafeAddMissing(e, specs, w0, r, cl, at, p);
      if RunAll(e, r, cl, at, late).ok {
        AddMissingEffect(e, r, cl, at, p, cl.tiers[at].name);
        RunAllOk(e, r, cl, at, late);
        RunAllLog(e, r, cl, at, late);
      }
    }
  }

  // ---------------------------------------------------------------- one plugin

  /** After a successful preparation the version exists; if it was not enabled, its whole install
      script has just run and it is migrated. */
  ghost predicate PreparationDone(e: Env, s: Session, r: Session, cl: Cluster, at: nat, p: Plugin, tier: string) {
    && s.ok && Id(p) in r.world.plugins
    && (EnabledIn(s.world, Id(p)) ==> r == s)
    && (!EnabledIn(s.world, Id(p)) ==>
          && Stage(e, r.world, p, tier, 3)
          && JustRan(e, r.log, cl, at, InstallScript(p, tier, ContextKeys(e, s.calls, p))))
  }

  /** The version after the CREATE step, if there is one. */
  function Created(e: Env, s: Session, cl: Cluster, at: nat, p: Plugin): Session {
    if Id(p) in s.world.plugins then s else Do(e, s, cl, at, CreatePlugin(Id(p)))
  }

  lemma PrepareDone(e: Env, s: Session, cl: Cluster, at: nat, p: Plugin, tier: string)
    requires Valid(e) && Prepare(e, s, cl, at, p, tier).ok
    ensures PreparationDone(e, s, Prepare(e, s, cl, at, p, tier), cl, at, p, tier)
    ensures OnlyRow(s.world, Prepare(e, s, cl, at, p, tier).world, Id(p))
  {
    if !EnabledIn(s.world, Id(p)) {
      var keys := ContextKeys(e, s.calls, p);
      var created := Created(e, s, cl, at, p);
      assert Prepare(e, s, cl, at, p, tier) == RunAll(e, created, cl, at, InstallScript(p, tier, keys));
      ContextKeysList(e, s.calls, p);
      RunAllOk(e, created, cl, at, InstallScript(p, tier, keys));
      assert OnlyRow(s.world, created.world, Id(p));
      InstallScriptDone(e, created, cl, at, p, tier, keys);
      RunAllLog(e, created, cl, at, InstallScript(p, tier, keys));
    }
  }

  lemma SafeCreated(e: Env, specs: seq<Cluster>, w0: World, s: Session, cl: Cluster, at: nat, p: Plugin)
    requires Valid(e) && KeysBuilt(e) && Safe(e, cl.id, specs, w0, s) && cl in specs
    requires at < |cl.tiers| && p in cl.tiers[at].plugins
    ensures Safe(e, cl.id, specs, w0, Created(e, s, cl, at, p))
  {
    if Id(p) !in s.world.plugins {
      assert Declares(cl.tiers[at], p, Id(p));
      SafeDo(e, specs, w0, s, cl, at, CreatePlugin(Id(p)));
    }
  }

  lemma PrepareRuns(e: Env, s: Session, cl: Cluster, at: nat, p: Plugin, tier: string)
    requires !EnabledIn(s.world, Id(p))
    ensures var created := Created(e, s, cl, at, p);
            && Prepare(e, s, cl, at, p, tier)
               == RunAll(e, created, cl, at, InstallScript(p, tier, ContextKeys(e, s.calls, p)))
            && (created.ok ==> Id(p) in created.world.plugins && !created.world.plugins[Id(p)].enabled)
  {
  }

  lemma SafePrepare(e: Env, specs: seq<Cluster>, w0: World, s: Session, cl: Cluster, at: nat, p: Plugin)
    requires Valid(e) && KeysBuilt(e) && Safe(e, cl.id, specs, w0, s) && cl in specs
    requires at < |cl.tiers| && p in cl.tiers[at].plugins
    ensures Safe(e, cl.id, specs, w0, Prepare(e, s, cl, at, p, cl.tiers[at].name))
  {
    if !EnabledIn(s.world, Id(p)) {
      ContextKeysList(e, s.calls, p);
      PrepareRuns(e, s, cl, at, p, cl.tiers[at].name);
      SafeCreated(e, specs, w0, s, cl, at, p);
      SafeInstallScript(e, specs, w0, Created(e, s, cl, at, p), cl, at, p, ContextKeys(e, s.calls, p));
    }
  }

  lemma EnableAllowed(e: Env, cl: Cluster, at: nat, w: World, p: Plugin)
    requires at < |cl.tiers| && p in cl.tiers[at].plugins && Stage(e, w, p, cl.tiers[at].name, 4)
    ensures Justified(e, cl, at, w, EnablePlugin(Id(p)))
  {
    assert Declares(cl.tiers[at], p, Id(p));
  }

  lemma BoundAfterPreparation(
      e: Env, s: Session, prepared: Session, bound: Session, cl: Cluster, at: nat, p: Plugin, tier: string)
    requires !EnabledIn(s.world, Id(p)) && PreparationDone(e, s, prepared, cl, at, p, tier)
    requires BindingDone(e, prepared, bound, p, tier)
    ensures Stage(e, bound.world, p, tier, 4)
  {
  }

  /** When the binding pass after a fresh preparation succeeds, ENABLE is due. */
  lemma ReadyToEnable(
      e: Env, w0: World, s: Session, prepared: Session, bound: Session, cl: Cluster, at: nat, p: Plugin)
    requires Valid(e) && at < |cl.tiers| && p in cl.tiers[at].plugins
    requires Chained(w0, prepared.log, prepared.world)
    requires !EnabledIn(s.world, Id(p)) && PreparationDone(e, s, prepared, cl, at, p, cl.tiers[at].name)
    requires BindingDone(e, prepared, bound, p, cl.tiers[at].name)
    requires var late := AddMissing(Id(p), prepared.world.plugins[Id(p)], e.manifest(Id(p)), cl.tiers[at].name);
             && |bound.log| == |prepared.log| + |late| && bound.log[..|prepared.log|] == prepared.log
             && JustRan(e, bound.log, cl, at, late)
    ensures Justified(e, cl, at, bound.world, EnablePlugin(Id(p)))
    ensures Prepared(e, bound.log, cl, at, Id(p))
  {
    BoundAfterPreparation(e, s, prepared, bound, cl, at, p, cl.tiers[at].name);
    EnableAllowed(e, cl, at, bound.world, p);
    ScriptJustRan(e, w0, s, prepared, bound, cl, at, p);
  }

  lemma ScriptJustRan(
      e: Env, w0: World, s: Session, prepared: Session, bound: Session, cl: Cluster, at: nat, p: Plugin)
    requires Valid(e) && at < |cl.tiers| && p in cl.tiers[at].plugins
    requires Chained(w0, prepared.log, prepared.world)
    requires !EnabledIn(s.world, Id(p)) && PreparationDone(e, s, prepared, cl, at, p, cl.tiers[at].name)
    requires var late := AddMissing(Id(p), prepared.world.plugins[Id(p)], e.manifest(Id(p)), cl.tiers[at].name);
             && |bound.log| == |prepared.log| + |late| && bound.log[..|prepared.log|] == prepared.log
             && JustRan(e, bound.log, cl, at, late)
    ensures Prepared(e, bound.log, cl, at, Id(p))
  {
    var tier := cl.tiers[at].name;
    var keys := ContextKeys(e, s.calls, p);
    var row := prepared.world.plugins[Id(p)];
    var late := AddMissing(Id(p), row, e.manifest(Id(p)), tier);
    ContextKeysList(e, s.calls, p);
    assert Declares(cl.tiers[at], p, Id(p));
    JustRanAppend(e, prepared.log, bound.log, cl, at, InstallScript(p, tier, keys), late);
    assert bound.log[|bound.log| - |late| - 1] == prepared.log[|prepared.log| - 1];
    assert PreparedBy(e, bound.log, cl, at, Id(p), p, keys, row);
  }

  /** The version is installed, enabled and serves the tier with every service it shows. */
  ghost predicate Healthy(e: Env, w: World, id: PluginId, tier: string) {
    EnabledIn(w, id) && DiscoveredBound(e, id, w.plugins[id], tier)
  }

  lemma SafeReconcilePlugin(e: Env, specs: seq<Cluster>, w0: World, s: Session, cl: Cluster, at: nat, p: Plugin)
    requires Valid(e) && KeysBuilt(e) && Safe(e, cl.id, specs, w0, s) && cl in specs
    requires at < |cl.tiers| && p in cl.tiers[at].plugins
    ensures Safe(e, cl.id, specs, w0, ReconcilePlugin(e, s, cl, at, p, cl.tiers[at].name))
  {
    var id, tier := Id(p), cl.tiers[at].name;
    var r := Read(e, s);
    var prepared := Prepare(e, r, cl, at, p, tier);
    var bound := BindDiscovered(e, prepared, cl, at, id, tier);
    SafePrepare(e, specs, w0, r, cl, at, p);
    if prepared.ok {
      PrepareDone(e, r, cl, at, p, tier);
    }
    SafeBindDiscovered(e, specs, w0, prepared, cl, at, p);
    if !EnabledIn(r.world, id) {
      if bound.ok {
        ReadyToEnable(e, w0, r, prepared, bound, cl, at, p);
      }
      SafeDo(e, specs, w0, bound, cl, at, EnablePlugin(id));
    }
  }

  lemma {:induction false} SafePluginLoop(
      e: Env, specs: seq<Cluster>, w0: World, s: Session, cl: Cluster, at: nat, plugins: seq<Plugin>)
    requires Valid(e) && KeysBuilt(e) && Safe(e, cl.id, specs, w0, s) && cl in specs
    requires at < |cl.tiers| && forall p | p in plugins :: p in cl.tiers[at].plugins
    ensures Safe(e, cl.id, specs, w0, PluginLoop(e, s, cl, at, plugins, cl.tiers[at].name))
  {
    if plugins != [] {
      var init, last := plugins[..|plugins| - 1], plugins[|plugins| - 1];
      assert last in plugins && forall p | p in init :: p in plugins;
      SafePluginLoop(e, specs, w0, s, cl, at, init);
      SafeReconcilePlugin(e, specs, w0, PluginLoop(e, s, cl, at, init, cl.tiers[at].name), cl, at, last);
    }
  }

  // ---------------------------------------------------------------- dropping

  lemma DropOneDone(e: Env, s: Session, cl: Cluster, at: nat, id: PluginId, enabled: bool)
    requires DropOne(e, s, cl, at, id, enabled).ok
    ensures s.ok && DropOne(e, s, cl, at, id, enabled).world == s.world.(plugins := s.world.plugins - {id})
  {
    if enabled {
      assert s.world.plugins[id := s.world.plugins[id].(enabled := false)] - {id} == s.world.plugins - {id};
    }
  }

  lemma SafeDropOne(
      e: Env, specs: seq<Cluster>, w0: World, s: Session, cl: Cluster, at: nat, id: PluginId, enabled: bool)
    requires Valid(e) && KeysBuilt(e) && Safe(e, cl.id, specs, w0, s) && cl in specs && at < |cl.tiers|
    requires !IsDesired(cl.tiers[at].plugins, id)
    requires s.ok ==> id in s.world.plugins && s.world.plugins[id].enabled == enabled
    ensures Safe(e, cl.id, specs, w0, DropOne(e, s, cl, at, id, enabled))
  {
    if enabled {
      SafeDo(e, specs, w0, s, cl, at, DisablePlugin(id));
    }
    var r := if enabled then Do(e, s, cl, at, DisablePlugin(id)) else s;
    SafeDo(e, specs, w0, r, cl, at, DropPlugin(id));
  }

  /** Of the visited versions exactly the desired ones are left, and nothing else has changed. */
  ghost predicate KeptDesired(plugins: seq<Plugin>, a: World, b: World, ids: seq<PluginId>) {
    && a.objects == b.objects && a.status == b.status
    && (forall x :: x in b.plugins <==> x in a.plugins && (x in ids ==> IsDesired(plugins, x)))
    && (forall x | x in b.plugins :: b.plugins[x] == a.plugins[x])
  }

  lemma DropOneMore(
      e: Env, s: Session, cl: Cluster, at: nat, listed: map<PluginId, Install>, ids: seq<PluginId>, n: nat)
    requires n < |ids| && ids[n] in listed && at < |cl.tiers|
    ensures DropLoop(e, s, cl, at, listed, ids[..n + 1])
         == var r := DropLoop(e, s, cl, at, listed, ids[..n]);
            if IsDesired(cl.tiers[at].plugins, ids[n]) then r
            else DropOne(e, r, cl, at, ids[n], listed[ids[n]].enabled)
  {
    assert ids[..n + 1][..n] == ids[..n];
  }

  lemma {:induction false} DropLoopDone(
      e: Env, s: Session, cl: Cluster, at: nat, listed: map<PluginId, Install>, ids: seq<PluginId>, n: nat)
    requires n <= |ids| && at < |cl.tiers| && forall id | id in ids :: id in listed
    requires DropLoop(e, s, cl, at, listed, ids[..n]).ok
    ensures s.ok && KeptDesired(cl.tiers[at].plugins, s.world, DropLoop(e, s, cl, at, listed, ids[..n]).world, ids[..n])
  {
    if n > 0 {
      var id := ids[n - 1];
      DropOneMore(e, s, cl, at, listed, ids, n - 1);
      var r := DropLoop(e, s, cl, at, listed, ids[..n - 1]);
      if !IsDesired(cl.tiers[at].plugins, id) {
        DropOneDone(e, r, cl, at, id, listed[id].enabled);
      }
      DropLoopDone(e, s, cl, at, listed, ids, n - 1);
      assert ids[..n] == ids[..n - 1] + [id];
    }
  }

  lemma {:induction false} SafeDropLoop(
      e: Env, specs: seq<Cluster>, w0: World, s: Session, cl: Cluster, at: nat,
      listed: map<PluginId, Install>, ids: seq<PluginId>, n: nat)
    requires Valid(e) && KeysBuilt(e) && Safe(e, cl.id, specs, w0, s) && cl in specs && at < |cl.tiers|
    requires n <= |ids| && forall i, j | 0 <= i < j < |ids| :: ids[i] != ids[j]
    requires listed == s.world.plugins && forall id | id in ids :: id in listed
    ensures Safe(e, cl.id, specs, w0, DropLoop(e, s, cl, at, listed, ids[..n]))
  {
    if n > 0 {
      var id := ids[n - 1];
      DropOneMore(e, s, cl, at, listed, ids, n - 1);
      SafeDropLoop(e, specs, w0, s, cl, at, listed, ids, n - 1);
      var r := DropLoop(e, s, cl, at, listed, ids[..n - 1]);
      if r.ok {
        DropLoopDone(e, s, cl, at, listed, ids, n - 1);
        assert id !in ids[..n - 1];
      }
      if !IsDesired(cl.tiers[at].plugins, id) {
        SafeDropOne(e, specs, w0, r, cl, at, id, listed[id].enabled);
      }
    }
  }

  lemma SafeDropObsolete(e: Env, specs: seq<Cluster>, w0: World, s: Session, cl: Cluster, at: nat)
    requires Valid(e) && KeysBuilt(e) && Safe(e, cl.id, specs, w0, s) && cl in specs && at < |cl.tiers|
    ensures Safe(e, cl.id, specs, w0, DropObsolete(e, s, cl, at))
  {
    var r := Read(e, s);
    var ids := e.pluginOrder(s.calls, r.world.plugins.Keys);
    assert Lists(ids, r.world.plugins.Keys);
    SafeDropLoop(e, specs, w0, r, cl, at, r.world.plugins, ids, |ids|);
    assert ids[..|ids|] == ids;
  }

  lemma SafeTierPlugins(e: Env, specs: seq<Cluster>, w0: World, s: Session, cl: Cluster, at: nat)
    requires Valid(e) && KeysBuilt(e) && Safe(e, cl.id, specs, w0, s) && cl in specs && at < |cl.tiers|
    ensures Safe(e, cl.id, specs, w0, ReconcileTierPlugins(e, s, cl, at))
  {
    var r := Read(e, Read(e, s));
    SafePluginLoop(e, specs, w0, r, cl, at, cl.tiers[at].plugins);
    SafeDropObsolete(e, specs, w0, PluginLoop(e, r, cl, at, cl.tiers[at].plugins, cl.tiers[at].name), cl, at);
  }
}
