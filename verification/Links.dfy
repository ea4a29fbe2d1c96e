/** How a piece of a pass continues the history: it appends a gapless chain of steps, all of them
    on behalf of the tiers it works on and of the kind it may issue. */
module Links {
  import opened Types
  import opened Builders
  import opened Machine
  import opened Protocol
  import opened Safety

  /** Which steps a piece may append: its cluster, a range of tier numbers, SQL or API commands. */
  datatype Scope = Scope(cluster: Cluster, low: nat, high: nat, sql: bool, api: bool)

  predicate InScope(sc: Scope, cl: Cluster, at: nat, c: Command) {
    && cl == sc.cluster && sc.low <= at <= sc.high && !c.PatchStatus?
    && (if IsSql(c) then sc.sql else sc.api)
  }

  predicate Within(a: Scope, b: Scope) {
    && a.cluster == b.cluster && b.low <= a.low && a.high <= b.high
    && (a.sql ==> b.sql) && (a.api ==> b.api)
  }

  ghost predicate StepIn(e: Env, sc: Scope, st: Step) {
    InScope(sc, st.cluster, st.at, st.command) && (st.after == st.before || Took(e, st))
  }

  /** b is reached from a by making calls and appending steps in scope. */
  ghost predicate Link(e: Env, sc: Scope, a: Session, b: Session) {
    && a.calls <= b.calls
    && |a.log| <= |b.log| && b.log[..|a.log|] == a.log
    && Chained(a.world, b.log[|a.log|..], b.world)
    && forall i | |a.log| <= i < |b.log| :: StepIn(e, sc, b.log[i])
  }

  lemma LinkSame(e: Env, sc: Scope, a: Session, b: Session)
    requires a.log == b.log && a.world == b.world && a.calls <= b.calls
    ensures Link(e, sc, a, b)
  {
  }

  lemma WorldAtAppend(w0: World, x: seq<Step>, w1: World, y: seq<Step>, i: nat)
    requires w1 == WorldAt(w0, x, |x|) && i <= |x| + |y|
    ensures WorldAt(w0, x + y, i) == if i <= |x| then WorldAt(w0, x, i) else WorldAt(w1, y, i - |x|)
  {
  }

  lemma ChainedAppend(w0: World, x: seq<Step>, w1: World, y: seq<Step>, w2: World)
    requires Chained(w0, x, w1) && Chained(w1, y, w2)
    ensures Chained(w0, x + y, w2)
  {
    var z := x + y;
    forall i | 0 <= i < |z|
      ensures z[i].before == WorldAt(w0, z, i)
    {
      WorldAtAppend(w0, x, w1, y, i);
    }
    WorldAtAppend(w0, x, w1, y, |z|);
  }

  lemma LinkTrans(e: Env, sc: Scope, a: Session, b: Session, c: Session)
    requires Link(e, sc, a, b) && Link(e, sc, b, c)
    ensures Link(e, sc, a, c)
  {
    PrefixTrans(a.log, b.log, c.log);
    ChainedAppend(a.world, b.log[|a.log|..], b.world, c.log[|b.log|..], c.world);
    forall i | |a.log| <= i < |c.log|
      ensures StepIn(e, sc, c.log[i])
    {
      if i < |b.log| {
        assert c.log[i] == b.log[i];
      }
    }
  }

  lemma PrefixTrans(x: seq<Step>, y: seq<Step>, z: seq<Step>)
    requires |x| <= |y| <= |z| && y[..|x|] == x && z[..|y|] == y
    ensures z[..|x|] == x && z[|x|..] == y[|x|..] + z[|y|..]
    ensures forall i | 0 <= i < |y| :: z[i] == y[i]
  {
    assert forall i | 0 <= i < |y| :: z[i] == z[..|y|][i];
  }

  lemma LinkWiden(e: Env, small: Scope, large: Scope, a: Session, b: Session)
    requires Link(e, small, a, b) && Within(small, large)
    ensures Link(e, large, a, b)
  {
    forall i | |a.log| <= i < |b.log|
      ensures StepIn(e, large, b.log[i])
    {
      assert StepIn(e, small, b.log[i]);
    }
  }

  lemma LinkDo(e: Env, sc: Scope, s: Session, cl: Cluster, at: nat, c: Command)
    requires InScope(sc, cl, at, c)
    ensures Link(e, sc, s, Do(e, s, cl, at, c))
  {
    var r := Do(e, s, cl, at, c);
    if s.ok {
      var added := r.log[|s.log|..];
      assert added == [Step(cl, at, s.calls, c, s.world, r.world)];
      assert WorldAt(s.world, added, 0) == s.world && WorldAt(s.world, added, 1) == r.world;
    }
  }

  lemma LinkThenDo(e: Env, sc: Scope, a: Session, s: Session, cl: Cluster, at: nat, c: Command)
    requires Link(e, sc, a, s) && InScope(sc, cl, at, c)
    ensures Link(e, sc, a, Do(e, s, cl, at, c))
  {
    LinkDo(e, sc, s, cl, at, c);
    LinkTrans(e, sc, a, s, Do(e, s, cl, at, c));
  }

  // ---------------------------------------------------------------- objects

  lemma LinkUpsert(e: Env, sc: Scope, s: Session, cl: Cluster, at: nat, m: Manifest)
    requires sc.cluster == cl && sc.low <= at <= sc.high && sc.api
    ensures Link(e, sc, s, Upsert(e, s, cl, at, m))
  {
    var r := Read(e, s);
    LinkSame(e, sc, s, r);
    var o := Settle(r.world.objects, m);
    LinkThenDo(e, sc, s, r, cl, at, if m.key in r.world.objects then PatchObject(m.key, o) else CreateObject(m.key, o));
  }

  lemma {:induction false} LinkUpsertAll(e: Env, sc: Scope, s: Session, cl: Cluster, at: nat, ms: seq<Manifest>)
    requires sc.cluster == cl && sc.low <= at <= sc.high && sc.api
    ensures Link(e, sc, s, UpsertAll(e, s, cl, at, ms))
  {
    if ms == [] {
      LinkSame(e, sc, s, s);
    } else {
      var mid := UpsertAll(e, s, cl, at, ms[..|ms| - 1]);
      LinkUpsertAll(e, sc, s, cl, at, ms[..|ms| - 1]);
      LinkUpsert(e, sc, mid, cl, at, ms[|ms| - 1]);
      LinkTrans(e, sc, s, mid, UpsertAll(e, s, cl, at, ms));
    }
  }

  lemma {:induction false} LinkDeleteLoop(
      e: Env, sc: Scope, s: Session, cl: Cluster, at: nat, listed: map<Key, Object>, keys: seq<Key>)
    requires sc.cluster == cl && sc.low <= at <= sc.high && sc.api && at < |cl.tiers|
    ensures Link(e, sc, s, DeleteLoop(e, s, cl, at, listed, keys))
  {
    if keys == [] {
      LinkSame(e, sc, s, s);
    } else {
      LinkDeleteLoop(e, sc, s, cl, at, listed, keys[..|keys| - 1]);
      var mid := DeleteLoop(e, s, cl, at, listed, keys[..|keys| - 1]);
      LinkThenDo(e, sc, s, mid, cl, at, DeleteObject(keys[|keys| - 1]));
    }
  }

  lemma LinkTier(e: Env, sc: Scope, s: Session, cl: Cluster, at: nat)
    requires sc.cluster == cl && sc.low <= at <= sc.high && sc.api && at < |cl.tiers|
    ensures Link(e, sc, s, ReconcileTier(e, s, cl, at))
  {
    var made := UpsertAll(e, s, cl, at, e.desired(cl, at));
    LinkUpsertAll(e, sc, s, cl, at, e.desired(cl, at));
    var r := Read(e, made);
    LinkSame(e, sc, made, r);
    LinkTrans(e, sc, s, made, r);
    var keys := e.keyOrder(made.calls, TierSets(r.world, cl.id, cl.tiers[at].name));
    var cut := DeleteLoop(e, r, cl, at, r.world.objects, keys);
    LinkDeleteLoop(e, sc, r, cl, at, r.world.objects, keys);
    LinkTrans(e, sc, s, r, cut);
    if WantsIngress(cl.tiers[at]) {
      LinkUpsert(e, sc, cut, cl, at, IngressManifest(cl, at));
      LinkTrans(e, sc, s, cut, ReconcileTier(e, s, cl, at));
    }
  }

  // ---------------------------------------------------------------- plugins

  predicate SqlScope(sc: Scope, cl: Cluster, at: nat) {
    sc.cluster == cl && sc.low <= at <= sc.high && sc.sql
  }

  lemma {:induction false} LinkRunAll(e: Env, sc: Scope, s: Session, cl: Cluster, at: nat, cs: seq<Command>)
    requires SqlScope(sc, cl, at) && forall c | c in cs :: IsSql(c)
    ensures Link(e, sc, s, RunAll(e, s, cl, at, cs))
  {
    if cs == [] {
      LinkSame(e, sc, s, s);
    } else {
      assert cs[|cs| - 1] in cs && forall c | c in cs[..|cs| - 1] :: c in cs;
      LinkRunAll(e, sc, s, cl, at, cs[..|cs| - 1]);
      LinkThenDo(e, sc, s, RunAll(e, s, cl, at, cs[..|cs| - 1]), cl, at, cs[|cs| - 1]);
    }
  }

  lemma {:induction false} AddMissingIsSql(id: PluginId, row: Install, services: seq<string>, tier: string)
    ensures forall c | c in AddMissing(id, row, services, tier) :: IsSql(c)
  {
    if services != [] {
      AddMissingIsSql(id, row, services[..|services| - 1], tier);
    }
  }

  lemma LinkPrepare(e: Env, sc: Scope, s: Session, cl: Cluster, at: nat, p: Plugin, tier: string)
    requires SqlScope(sc, cl, at)
    ensures Link(e, sc, s, Prepare(e, s, cl, at, p, tier))
  {
    var id := Id(p);
    LinkSame(e, sc, s, s);
    if !EnabledIn(s.world, id) {
      var created := if id in s.world.plugins then s else Do(e, s, cl, at, CreatePlugin(id));
      if id !in s.world.plugins {
        LinkDo(e, sc, s, cl, at, CreatePlugin(id));
      }
      LinkRunAll(e, sc, created, cl, at, InstallScript(p, tier, ContextKeys(e, s.calls, p)));
      LinkTrans(e, sc, s, created, Prepare(e, s, cl, at, p, tier));
    }
  }

  lemma LinkBind(e: Env, sc: Scope, s: Session, cl: Cluster, at: nat, id: PluginId, tier: string)
    requires SqlScope(sc, cl, at)
    ensures Link(e, sc, s, BindDiscovered(e, s, cl, at, id, tier))
  {
    var r := Read(e, s);
    LinkSame(e, sc, s, r);
    if id in r.world.plugins {
      var row := r.world.plugins[id];
      AddMissingIsSql(id, row, VisibleServices(e, id, row), tier);
      LinkRunAll(e, sc, r, cl, at, AddMissing(id, row, VisibleServices(e, id, row), tier));
    }
  }

  lemma LinkPlugin(e: Env, sc: Scope, s: Session, cl: Cluster, at: nat, p: Plugin, tier: string)
    requires SqlScope(sc, cl, at)
    ensures Link(e, sc, s, ReconcilePlugin(e, s, cl, at, p, tier))
  {
    var r := Read(e, s);
    var prepared := Prepare(e, r, cl, at, p, tier);
    var bound := BindDiscovered(e, prepared, cl, at, Id(p), tier);
    LinkSame(e, sc, s, r);
    LinkPrepare(e, sc, r, cl, at, p, tier);
    LinkTrans(e, sc, s, r, prepared);
    LinkBind(e, sc, prepared, cl, at, Id(p), tier);
    LinkTrans(e, sc, s, prepared, bound);
    LinkThenDo(e, sc, s, bound, cl, at, EnablePlugin(Id(p)));
  }

  lemma {:induction false} LinkPluginLoop(
      e: Env, sc: Scope, s: Session, cl: Cluster, at: nat, plugins: seq<Plugin>, tier: string)
    requires SqlScope(sc, cl, at)
    ensures Link(e, sc, s, PluginLoop(e, s, cl, at, plugins, tier))
  {
    if plugins == [] {
      LinkSame(e, sc, s, s);
    } else {
      var mid := PluginLoop(e, s, cl, at, plugins[..|plugins| - 1], tier);
      LinkPluginLoop(e, sc, s, cl, at, plugins[..|plugins| - 1], tier);
      LinkPlugin(e, sc, mid, cl, at, plugins[|plugins| - 1], tier);
      LinkTrans(e, sc, s, mid, PluginLoop(e, s, cl, at, plugins, tier));
    }
  }

  lemma {:induction false} LinkDropLoop(
      e: Env, sc: Scope, s: Session, cl: Cluster, at: nat, listed: map<PluginId, Install>, ids: seq<PluginId>)
    requires SqlScope(sc, cl, at) && at < |cl.tiers|
    ensures Link(e, sc, s, DropLoop(e, s, cl, at, listed, ids))
  {
    LinkSame(e, sc, s, s);
    if ids != [] {
      var mid, id := DropLoop(e, s, cl, at, listed, ids[..|ids| - 1]), ids[|ids| - 1];
      LinkDropLoop(e, sc, s, cl, at, listed, ids[..|ids| - 1]);
      LinkThenDo(e, sc, s, mid, cl, at, DisablePlugin(id));
      LinkThenDo(e, sc, s, mid, cl, at, DropPlugin(id));
      LinkThenDo(e, sc, s, Do(e, mid, cl, at, DisablePlugin(id)), cl, at, DropPlugin(id));
    }
  }

  lemma LinkTierPlugins(e: Env, sc: Scope, s: Session, cl: Cluster, at: nat)
    requires SqlScope(sc, cl, at) && at < |cl.tiers|
    ensures Link(e, sc, s, ReconcileTierPlugins(e, s, cl, at))
  {
    var t := cl.tiers[at];
    var r0 := Read(e, Read(e, s));
    var looped := PluginLoop(e, r0, cl, at, t.plugins, t.name);
    LinkSame(e, sc, s, r0);
    LinkPluginLoop(e, sc, r0, cl, at, t.plugins, t.name);
    LinkTrans(e, sc, s, r0, looped);
    var r := Read(e, looped);
    LinkSame(e, sc, looped, r);
    LinkTrans(e, sc, s, looped, r);
    var ids := e.pluginOrder(looped.calls, r.world.plugins.Keys);
    LinkDropLoop(e, sc, r, cl, at, r.world.plugins, ids);
    LinkTrans(e, sc, s, r, DropLoop(e, r, cl, at, r.world.plugins, ids));
  }
}
