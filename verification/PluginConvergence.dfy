/** What a successful plugin pass of one tier leaves behind, from any plugin table. */
module PluginConvergence {
  import opened Types
  import opened Machine
  import opened Protocol
  import opened Invariants
  import opened PluginEffects
  import opened PluginSafety

  // ---------------------------------------------------------------- binding alone

  lemma {:induction false} BindingOnlyBinds(e: Env, s: Session, cl: Cluster, at: nat, id: PluginId, cs: seq<Command>)
    requires id in s.world.plugins && forall c | c in cs :: c.AddService? && c.id == id
    requires RunAll(e, s, cl, at, cs).ok
    ensures id in RunAll(e, s, cl, at, cs).world.plugins
    ensures var row, now := s.world.plugins[id], RunAll(e, s, cl, at, cs).world.plugins[id];
            now == row.(bound := now.bound)
  {
    if cs != [] {
      assert cs[|cs| - 1] in cs && forall c | c in cs[..|cs| - 1] :: c in cs;
      DoOk(e, RunAll(e, s, cl, at, cs[..|cs| - 1]), cl, at, cs[|cs| - 1]);
      BindingOnlyBinds(e, s, cl, at, id, cs[..|cs| - 1]);
    }
  }

  /** What the binding pass keeps of a version: all but its bindings, and those only grow. */
  ghost predicate BoundMore(a: World, b: World, id: PluginId) {
    && OnlyRow(a, b, id) && id in a.plugins && id in b.plugins
    && b.plugins[id] == a.plugins[id].(bound := b.plugins[id].bound)
    && (forall svc, tier | Bound(a.plugins[id], svc, tier) :: Bound(b.plugins[id], svc, tier))
  }

  lemma BindDiscoveredDone(e: Env, s: Session, cl: Cluster, at: nat, p: Plugin, tier: string)
    requires Valid(e) && Id(p) in s.world.plugins
    requires BindDiscovered(e, s, cl, at, Id(p), tier).ok
    ensures var r := BindDiscovered(e, s, cl, at, Id(p), tier);
            && s.ok && BoundMore(s.world, r.world, Id(p)) && BindingDone(e, s, r, p, tier)
            && (DiscoveredBound(e, Id(p), s.world.plugins[Id(p)], tier) ==> r.log == s.log && r.world == s.world)
  {
    var r := Read(e, s);
    var row := r.world.plugins[Id(p)];
    var late := AddMissing(Id(p), row, VisibleServices(e, Id(p), row), tier);
    RunAllOk(e, r, cl, at, late);
    AddMissingInstalls(p, row, VisibleServices(e, Id(p), row), tier);
    AddMissingEffect(e, r, cl, at, p, tier);
    BindingOnlyBinds(e, r, cl, at, Id(p), late);
    assert Grows(e, p, row, RunAll(e, r, cl, at, late).world.plugins[Id(p)]);
  }

  // ---------------------------------------------------------------- one plugin

  /** A plugin pass that succeeds: its version ends up healthy for the tier, no other version is
      touched, and a version that was enabled already only gains bindings. */
  lemma PluginDone(e: Env, s: Session, cl: Cluster, at: nat, p: Plugin, tier: string)
    requires Valid(e) && ReconcilePlugin(e, s, cl, at, p, tier).ok
    ensures var r := ReconcilePlugin(e, s, cl, at, p, tier);
            && s.ok && Healthy(e, r.world, Id(p), tier) && OnlyRow(s.world, r.world, Id(p))
            && (EnabledIn(s.world, Id(p)) ==> BoundMore(s.world, r.world, Id(p)))
            && (Healthy(e, s.world, Id(p), tier) ==> r.log == s.log && r.world == s.world)
  {
    var id := Id(p);
    var r0 := Read(e, s);
    var prepared := Prepare(e, r0, cl, at, p, tier);
    var bound := BindDiscovered(e, prepared, cl, at, id, tier);
    assert bound.ok;
    BindNeedsOk(e, prepared, cl, at, id, tier);
    PrepareDone(e, r0, cl, at, p, tier);
    BindDiscoveredDone(e, prepared, cl, at, p, tier);
    if !EnabledIn(r0.world, id) {
      DoOk(e, bound, cl, at, EnablePlugin(id));
      EnableKeepsBindings(e, id, bound.world.plugins[id], tier);
    }
  }

  lemma BindNeedsOk(e: Env, s: Session, cl: Cluster, at: nat, id: PluginId, tier: string)
    requires BindDiscovered(e, s, cl, at, id, tier).ok
    ensures s.ok
  {
    var r := Read(e, s);
    if id in r.world.plugins {
      var row := r.world.plugins[id];
      RunAllOk(e, r, cl, at, AddMissing(id, row, VisibleServices(e, id, row), tier));
    }
  }

  lemma EnableKeepsBindings(e: Env, id: PluginId, row: Install, tier: string)
    requires DiscoveredBound(e, id, row, tier)
    ensures DiscoveredBound(e, id, row.(enabled := true), tier)
  {
    var now := row.(enabled := true);
    assert VisibleServices(e, id, now) == VisibleServices(e, id, row);
    assert forall svc :: Tiers(now, svc) == Tiers(row, svc);
    assert forall svc :: Bound(now, svc, tier) == Bound(row, svc, tier);
  }

  // ---------------------------------------------------------------- the plugins of a tier

  ghost predicate DeclaredId(plugins: seq<Plugin>, x: PluginId) {
    exists i :: 0 <= i < |plugins| && Id(plugins[i]) == x
  }

  /** Every declared version is healthy, versions that served a tier still do, the table has only
      grown by declared versions, and all else is as it was. */
  ghost predicate LoopDone(e: Env, a: World, b: World, plugins: seq<Plugin>, tier: string) {
    && a.objects == b.objects && a.status == b.status
    && (forall x | DeclaredId(plugins, x) :: Healthy(e, b, x, tier))
    && (forall x, t | Healthy(e, a, x, t) :: Healthy(e, b, x, t))
    && (forall x :: x in b.plugins <==> x in a.plugins || DeclaredId(plugins, x))
    && (forall x | x in b.plugins && !DeclaredId(plugins, x) :: b.plugins[x] == a.plugins[x])
    && (forall x | EnabledIn(a, x) :: EnabledIn(b, x) && b.plugins[x] == a.plugins[x].(bound := b.plugins[x].bound))
  }

  lemma DeclaredOneMore(plugins: seq<Plugin>, x: PluginId)
    requires plugins != []
    ensures DeclaredId(plugins, x) <==>
              DeclaredId(plugins[..|plugins| - 1], x) || x == Id(plugins[|plugins| - 1])
  {
    var init, last := plugins[..|plugins| - 1], plugins[|plugins| - 1];
    if DeclaredId(plugins, x) && x != Id(last) {
      var i :| 0 <= i < |plugins| && Id(plugins[i]) == x;
      assert init[i] == plugins[i];
    }
    if DeclaredId(init, x) {
      var i :| 0 <= i < |init| && Id(init[i]) == x;
      assert plugins[i] == init[i];
    }
    if x == Id(last) {
      assert Id(plugins[|plugins| - 1]) == x;
    }
  }

  lemma {:induction false} PluginLoopDone(
      e: Env, s: Session, cl: Cluster, at: nat, plugins: seq<Plugin>, tier: string)
    requires Valid(e) && PluginLoop(e, s, cl, at, plugins, tier).ok
    ensures s.ok && LoopDone(e, s.world, PluginLoop(e, s, cl, at, plugins, tier).world, plugins, tier)
    ensures (forall x | DeclaredId(plugins, x) :: Healthy(e, s.world, x, tier)) ==>
              PluginLoop(e, s, cl, at, plugins, tier).log == s.log
              && PluginLoop(e, s, cl, at, plugins, tier).world == s.world
  {
    if plugins != [] {
      var init, p := plugins[..|plugins| - 1], plugins[|plugins| - 1];
      var mid := PluginLoop(e, s, cl, at, init, tier);
      PluginDone(e, mid, cl, at, p, tier);
      PluginLoopDone(e, s, cl, at, init, tier);
      forall x {
        DeclaredOneMore(plugins, x);
      }
      var r := ReconcilePlugin(e, mid, cl, at, p, tier);
      LoopOneMore(e, s.world, mid.world, r.world, plugins, tier);
    }
  }

  lemma LoopOneMore(e: Env, a: World, m: World, b: World, plugins: seq<Plugin>, tier: string)
    requires plugins != [] && LoopDone(e, a, m, plugins[..|plugins| - 1], tier)
    requires var id := Id(plugins[|plugins| - 1]);
             && Healthy(e, b, id, tier) && OnlyRow(m, b, id) && (EnabledIn(m, id) ==> BoundMore(m, b, id))
    ensures LoopDone(e, a, b, plugins, tier)
  {
    var id := Id(plugins[|plugins| - 1]);
    forall x {
      DeclaredOneMore(plugins, x);
    }
    forall x, t | Healthy(e, m, x, t)
      ensures Healthy(e, b, x, t)
    {
      if x == id {
        assert BoundMore(m, b, id);
      }
    }
  }

  // ---------------------------------------------------------------- desired versions

  lemma {:induction false} DesiredDeclared(plugins: seq<Plugin>, x: PluginId)
    ensures IsDesired(plugins, x) ==> DeclaredId(plugins, x)
    ensures DeclaredId(plugins, x) ==> x.name in DesiredVersions(plugins)
  {
    if plugins != [] {
      DeclaredOneMore(plugins, x);
      DesiredDeclared(plugins[..|plugins| - 1], x);
    }
  }

  /** No name is declared with two versions. */
  predicate Consistent(plugins: seq<Plugin>) {
    forall i, j | 0 <= i < |plugins| && 0 <= j < |plugins| ::
      plugins[i].name == plugins[j].name ==> plugins[i].version == plugins[j].version
  }

  /** Declared and desired are the same exactly when the declarations are consistent. */
  lemma DesiredIffConsistent(plugins: seq<Plugin>)
    ensures (forall x :: IsDesired(plugins, x) <==> DeclaredId(plugins, x)) <==> Consistent(plugins)
  {
    forall x {
      DesiredDeclared(plugins, x);
    }
    if Consistent(plugins) {
      forall x | DeclaredId(plugins, x)
        ensures IsDesired(plugins, x)
      {
        var y := PluginId(x.name, DesiredVersions(plugins)[x.name]);
        assert IsDesired(plugins, y);
        assert DeclaredId(plugins, y);
      }
    }
    if forall x :: IsDesired(plugins, x) <==> DeclaredId(plugins, x) {
      forall i, j | 0 <= i < |plugins| && 0 <= j < |plugins| && plugins[i].name == plugins[j].name
        ensures plugins[i].version == plugins[j].version
      {
        assert DeclaredId(plugins, Id(plugins[i])) && DeclaredId(plugins, Id(plugins[j]));
        assert IsDesired(plugins, Id(plugins[i])) && IsDesired(plugins, Id(plugins[j]));
      }
    }
  }

  // ---------------------------------------------------------------- the tier's plugin pass

  /** The table holds exactly the desired versions, all healthy for the tier. */
  ghost predicate TableFor(e: Env, w: World, t: Tier) {
    && (forall x :: x in w.plugins <==> IsDesired(t.plugins, x))
    && (forall x | x in w.plugins :: Healthy(e, w, x, t.name))
  }

  lemma DropDone(e: Env, s: Session, cl: Cluster, at: nat)
    requires Valid(e) && at < |cl.tiers| && DropObsolete(e, s, cl, at).ok
    ensures s.ok && KeptDesired(cl.tiers[at].plugins, s.world, DropObsolete(e, s, cl, at).world,
                                e.pluginOrder(s.calls, s.world.plugins.Keys))
    ensures (forall x | x in s.world.plugins :: IsDesired(cl.tiers[at].plugins, x)) ==>
              DropObsolete(e, s, cl, at).log == s.log && DropObsolete(e, s, cl, at).world == s.world
  {
    var r := Read(e, s);
    var ids := e.pluginOrder(s.calls, r.world.plugins.Keys);
    assert Lists(ids, r.world.plugins.Keys);
    assert ids[..|ids|] == ids;
    DropLoopDone(e, r, cl, at, r.world.plugins, ids, |ids|);
    if forall x | x in s.world.plugins :: IsDesired(cl.tiers[at].plugins, x) {
      DropNothing(e, r, cl, at, r.world.plugins, ids);
    }
  }

  lemma {:induction false} DropNothing(
      e: Env, s: Session, cl: Cluster, at: nat, listed: map<PluginId, Install>, ids: seq<PluginId>)
    requires at < |cl.tiers| && forall x | x in ids :: IsDesired(cl.tiers[at].plugins, x)
    ensures DropLoop(e, s, cl, at, listed, ids) == s
  {
    if ids != [] {
      assert ids[|ids| - 1] in ids && forall x | x in ids[..|ids| - 1] :: x in ids;
      DropNothing(e, s, cl, at, listed, ids[..|ids| - 1]);
    }
  }

  /** From any table: if every call is reported done, the table ends up with exactly the desired
      versions, all enabled and serving the tier; versions that stay keep serving the tiers they
      served, and a version enabled before keeps its context. */
  lemma TierPluginsConverge(e: Env, s: Session, cl: Cluster, at: nat)
    requires Valid(e) && FaultFree(e) && s.ok && at < |cl.tiers| && cl.tiers[at].plugins != []
    ensures var r := ReconcileTierPlugins(e, s, cl, at);
            && r.ok && TableFor(e, r.world, cl.tiers[at])
            && r.world.objects == s.world.objects && r.world.status == s.world.status
            && (forall x, t | x in r.world.plugins && Healthy(e, s.world, x, t) :: Healthy(e, r.world, x, t))
            && (forall x | x in r.world.plugins && EnabledIn(s.world, x) ::
                  r.world.plugins[x].context == s.world.plugins[x].context)
            && (TableFor(e, s.world, cl.tiers[at]) && Consistent(cl.tiers[at].plugins) ==>
                  r.log == s.log && r.world == s.world)
  {
    var t := cl.tiers[at];
    var r0 := Read(e, Read(e, s));
    var looped := PluginLoop(e, r0, cl, at, t.plugins, t.name);
    PluginLoopSucceeds(e, r0, cl, at, t.plugins, t.name);
    PluginLoopDone(e, r0, cl, at, t.plugins, t.name);
    DropSucceeds(e, looped, cl, at);
    DropDone(e, looped, cl, at);
    var ids := e.pluginOrder(looped.calls, looped.world.plugins.Keys);
    assert Lists(ids, looped.world.plugins.Keys);
    LoopThenDrop(e, s.world, looped.world, DropObsolete(e, looped, cl, at).world, ids, t);
    if TableFor(e, s.world, t) && Consistent(t.plugins) {
      TableDeclared(e, s.world, t);
    }
  }

  lemma LoopThenDrop(e: Env, a: World, m: World, b: World, ids: seq<PluginId>, t: Tier)
    requires LoopDone(e, a, m, t.plugins, t.name)
    requires KeptDesired(t.plugins, m, b, ids) && forall x :: x in ids <==> x in m.plugins
    ensures TableFor(e, b, t) && b.objects == a.objects && b.status == a.status
    ensures forall x, u | x in b.plugins && Healthy(e, a, x, u) :: Healthy(e, b, x, u)
    ensures forall x | x in b.plugins && EnabledIn(a, x) :: b.plugins[x].context == a.plugins[x].context
  {
    forall x
      ensures x in b.plugins <==> IsDesired(t.plugins, x)
      ensures x in b.plugins ==> Healthy(e, b, x, t.name)
    {
      DesiredDeclared(t.plugins, x);
    }
    forall x, u | x in b.plugins && Healthy(e, a, x, u)
      ensures Healthy(e, b, x, u)
    {
      assert Healthy(e, m, x, u);
    }
  }

  lemma TableDeclared(e: Env, w: World, t: Tier)
    requires TableFor(e, w, t) && Consistent(t.plugins)
    ensures forall x | DeclaredId(t.plugins, x) :: Healthy(e, w, x, t.name)
    ensures forall x | x in w.plugins :: IsDesired(t.plugins, x)
  {
    DesiredIffConsistent(t.plugins);
  }

  // ---------------------------------------------------------------- without faults it succeeds

  lemma {:induction false} RunAllSucceeds(e: Env, s: Session, cl: Cluster, at: nat, p: Plugin, cs: seq<Command>)
    requires Valid(e) && FaultFree(e) && s.ok && Id(p) in s.world.plugins
    requires forall c | c in cs :: Installing(p, c)
    ensures RunAll(e, s, cl, at, cs).ok
  {
    if cs != [] {
      assert cs[|cs| - 1] in cs && forall c | c in cs[..|cs| - 1] :: c in cs;
      RunAllSucceeds(e, s, cl, at, p, cs[..|cs| - 1]);
      RunAllGrows(e, s, cl, at, p, cs[..|cs| - 1]);
    }
  }

  lemma PrepareSucceeds(e: Env, s: Session, cl: Cluster, at: nat, p: Plugin, tier: string)
    requires Valid(e) && FaultFree(e) && s.ok
    ensures Prepare(e, s, cl, at, p, tier).ok
  {
    if !EnabledIn(s.world, Id(p)) {
      var keys := ContextKeys(e, s.calls, p);
      InstallScriptInstalls(p, tier, keys);
      RunAllSucceeds(e, Created(e, s, cl, at, p), cl, at, p, InstallScript(p, tier, keys));
    }
  }

  lemma BindSucceeds(e: Env, s: Session, cl: Cluster, at: nat, p: Plugin, tier: string)
    requires Valid(e) && FaultFree(e) && s.ok && Id(p) in s.world.plugins
    ensures BindDiscovered(e, s, cl, at, Id(p), tier).ok
  {
    var r := Read(e, s);
    var row := r.world.plugins[Id(p)];
    AddMissingInstalls(p, row, VisibleServices(e, Id(p), row), tier);
    RunAllSucceeds(e, r, cl, at, p, AddMissing(Id(p), row, VisibleServices(e, Id(p), row), tier));
  }

  lemma PluginSucceeds(e: Env, s: Session, cl: Cluster, at: nat, p: Plugin, tier: string)
    requires Valid(e) && FaultFree(e) && s.ok
    ensures ReconcilePlugin(e, s, cl, at, p, tier).ok
  {
    var r := Read(e, s);
    var prepared := Prepare(e, r, cl, at, p, tier);
    PrepareSucceeds(e, r, cl, at, p, tier);
    PrepareDone(e, r, cl, at, p, tier);
    BindSucceeds(e, prepared, cl, at, p, tier);
    BindDiscoveredDone(e, prepared, cl, at, p, tier);
  }

  lemma {:induction false} PluginLoopSucceeds(
      e: Env, s: Session, cl: Cluster, at: nat, plugins: seq<Plugin>, tier: string)
    requires Valid(e) && FaultFree(e) && s.ok
    ensures PluginLoop(e, s, cl, at, plugins, tier).ok
  {
    if plugins != [] {
      PluginLoopSucceeds(e, s, cl, at, plugins[..|plugins| - 1], tier);
      PluginSucceeds(e, PluginLoop(e, s, cl, at, plugins[..|plugins| - 1], tier), cl, at, plugins[|plugins| - 1], tier);
    }
  }

  lemma DropSucceeds(e: Env, s: Session, cl: Cluster, at: nat)
    requires Valid(e) && FaultFree(e) && s.ok && at < |cl.tiers|
    ensures DropObsolete(e, s, cl, at).ok
  {
    var r := Read(e, s);
    var ids := e.pluginOrder(s.calls, r.world.plugins.Keys);
    assert Lists(ids, r.world.plugins.Keys);
    DropLoopSucceeds(e, r, cl, at, ids, |ids|);
    assert ids[..|ids|] == ids;
  }

  lemma {:induction false} DropLoopSucceeds(e: Env, s: Session, cl: Cluster, at: nat, ids: seq<PluginId>, n: nat)
    requires FaultFree(e) && s.ok && at < |cl.tiers| && n <= |ids|
    requires Lists(ids, s.world.plugins.Keys)
    ensures DropLoop(e, s, cl, at, s.world.plugins, ids[..n]).ok
  {
    if n > 0 {
      var listed, id := s.world.plugins, ids[n - 1];
      assert id in ids;
      DropOneMore(e, s, cl, at, listed, ids, n - 1);
      DropLoopSucceeds(e, s, cl, at, ids, n - 1);
      DropLoopDone(e, s, cl, at, listed, ids, n - 1);
      assert id !in ids[..n - 1];
      DropOneSucceeds(e, DropLoop(e, s, cl, at, listed, ids[..n - 1]), cl, at, id);
    }
  }

  lemma DropOneSucceeds(e: Env, s: Session, cl: Cluster, at: nat, id: PluginId)
    requires FaultFree(e) && s.ok && id in s.world.plugins
    ensures DropOne(e, s, cl, at, id, s.world.plugins[id].enabled).ok
  {
  }
}
