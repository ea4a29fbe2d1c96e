/** What the statements of an installation do to the plugin table when they are all reported done. */
module PluginEffects {
  import opened Types
  import opened Machine
  import opened Protocol
  import opened Invariants
  import opened Safety

  // ---------------------------------------------------------------- one failed call ends it all

  lemma DoOk(e: Env, s: Session, cl: Cluster, at: nat, c: Command)
    requires Do(e, s, cl, at, c).ok
    ensures s.ok && Accepts(s.world, c) && Do(e, s, cl, at, c).world == Apply(e, s.world, c)
    ensures var r := Do(e, s, cl, at, c);
            r.log == s.log + [Step(cl, at, s.calls, c, s.world, r.world)] && Took(e, r.log[|s.log|])
  {
  }

  lemma {:induction false} RunAllOk(e: Env, s: Session, cl: Cluster, at: nat, cs: seq<Command>)
    requires RunAll(e, s, cl, at, cs).ok
    ensures s.ok
    ensures forall j | 0 <= j <= |cs| :: RunAll(e, s, cl, at, cs[..j]).ok
  {
    if cs == [] {
      assert cs[..0] == cs;
    } else {
      var init := cs[..|cs| - 1];
      RunAllOk(e, s, cl, at, init);
      forall j | 0 <= j <= |cs|
        ensures RunAll(e, s, cl, at, cs[..j]).ok
      {
        if j == |cs| {
          assert cs[..j] == cs;
        } else {
          assert cs[..j] == init[..j];
        }
      }
    }
  }

  // ---------------------------------------------------------------- a script on one version

  predicate Installing(p: Plugin, c: Command) {
    match c
    case AddService(id, _, _) => id == Id(p)
    case SetContext(id, k, v) => id == Id(p) && k in p.migrationContext && v == p.migrationContext[k]
    case MigratePlugin(id) => id == Id(p)
    case _ => false
  }

  /** What a statement leaves in the row of its version. */
  predicate Effect(row: Install, c: Command) {
    match c
    case AddService(_, svc, tier) => Bound(row, svc, tier)
    case SetContext(_, k, v) => k in row.context && row.context[k] == v
    case MigratePlugin(_) => row.migrated
    case _ => true
  }

  ghost predicate OnlyRow(a: World, b: World, id: PluginId) {
    && a.objects == b.objects && a.status == b.status
    && (forall x | x != id :: x in a.plugins <==> x in b.plugins)
    && (forall x | x != id && x in a.plugins :: b.plugins[x] == a.plugins[x])
  }

  lemma GrowsTransitive(e: Env, p: Plugin, a: Install, b: Install, c: Install)
    requires Grows(e, p, a, b) && Grows(e, p, b, c)
    ensures Grows(e, p, a, c)
  {
  }

  lemma EffectKept(e: Env, p: Plugin, a: Install, b: Install, c: Command)
    requires Installing(p, c) && Grows(e, p, a, b) && Effect(a, c)
    ensures Effect(b, c)
  {
  }

  lemma OneGrows(e: Env, w: World, p: Plugin, c: Command)
    requires Valid(e) && Installing(p, c) && Accepts(w, c)
    ensures Id(p) in w.plugins && Id(p) in Apply(e, w, c).plugins
    ensures Grows(e, p, w.plugins[Id(p)], Apply(e, w, c).plugins[Id(p)])
    ensures Effect(Apply(e, w, c).plugins[Id(p)], c)
    ensures OnlyRow(w, Apply(e, w, c), Id(p))
  {
    var row, now := w.plugins[Id(p)], Apply(e, w, c).plugins[Id(p)];
    match c {
      case AddService(_, svc, tier) => BindingGrows(e, p, row, svc, tier);
      case SetContext(_, k, v) => assert forall svc :: Tiers(now, svc) == Tiers(row, svc);
      case MigratePlugin(_) => assert forall svc :: Tiers(now, svc) == Tiers(row, svc);
      case _ =>
    }
  }

  ghost predicate Grown(e: Env, p: Plugin, a: World, b: World) {
    && Id(p) in a.plugins && Id(p) in b.plugins
    && Grows(e, p, a.plugins[Id(p)], b.plugins[Id(p)])
    && OnlyRow(a, b, Id(p))
  }

  /** All of a successful script is in force at its end, and nothing else has changed. */
  lemma {:induction false} RunAllGrows(e: Env, s: Session, cl: Cluster, at: nat, p: Plugin, cs: seq<Command>)
    requires Valid(e) && Id(p) in s.world.plugins
    requires forall c | c in cs :: Installing(p, c)
    requires RunAll(e, s, cl, at, cs).ok
    ensures Grown(e, p, s.world, RunAll(e, s, cl, at, cs).world)
    ensures forall c | c in cs :: Effect(RunAll(e, s, cl, at, cs).world.plugins[Id(p)], c)
  {
    if cs != [] {
      var init, last := cs[..|cs| - 1], cs[|cs| - 1];
      assert cs == init + [last];
      assert last in cs && forall c | c in init :: c in cs;
      var r := RunAll(e, s, cl, at, init);
      DoOk(e, r, cl, at, last);
      RunAllGrows(e, s, cl, at, p, init);
      OneGrows(e, r.world, p, last);
      var a, b, c := s.world.plugins[Id(p)], r.world.plugins[Id(p)], Apply(e, r.world, last).plugins[Id(p)];
      GrowsTransitive(e, p, a, b, c);
      forall x | x in init
        ensures Effect(c, x)
      {
        EffectKept(e, p, b, c, x);
      }
    }
  }

  /** The log of a successful script is the script. */
  lemma {:induction false} RunAllLog(e: Env, s: Session, cl: Cluster, at: nat, cs: seq<Command>)
    requires RunAll(e, s, cl, at, cs).ok
    ensures var r := RunAll(e, s, cl, at, cs);
            |r.log| == |s.log| + |cs| && r.log[..|s.log|] == s.log && JustRan(e, r.log, cl, at, cs)
  {
    if cs != [] {
      var init := cs[..|cs| - 1];
      var r := RunAll(e, s, cl, at, init);
      DoOk(e, r, cl, at, cs[|cs| - 1]);
      RunAllLog(e, s, cl, at, init);
      JustRanOneMore(e, r.log, cl, at, cs, RunAll(e, s, cl, at, cs).log[|r.log|]);
    } else {
      assert s.log[..|s.log|] == s.log;
    }
  }

  lemma JustRanOneMore(e: Env, log: seq<Step>, cl: Cluster, at: nat, cs: seq<Command>, st: Step)
    requires cs != [] && JustRan(e, log, cl, at, cs[..|cs| - 1])
    requires st.command == cs[|cs| - 1] && st.cluster == cl && st.at == at && Took(e, st)
    ensures JustRan(e, log + [st], cl, at, cs)
  {
    var now, init := log + [st], cs[..|cs| - 1];
    forall k | 0 <= k < |cs|
      ensures var x := now[|now| - |cs| + k];
              x.command == cs[k] && x.cluster == cl && x.at == at && Took(e, x)
    {
      if k < |init| {
        assert now[|now| - |cs| + k] == log[|log| - |init| + k];
      }
    }
  }

  lemma JustRanAppend(
      e: Env, a: seq<Step>, b: seq<Step>, cl: Cluster, at: nat, cs: seq<Command>, ds: seq<Command>)
    requires |b| == |a| + |ds| && b[..|a|] == a
    requires JustRan(e, a, cl, at, cs) && JustRan(e, b, cl, at, ds)
    ensures JustRan(e, b, cl, at, cs + ds)
  {
    var all, start := cs + ds, |b| - |cs + ds|;
    assert start == |a| - |cs| && forall i | 0 <= i < |a| :: b[i] == a[i];
    forall k | 0 <= k < |all|
      ensures var x := b[|b| - |all| + k];
              x.command == all[k] && x.cluster == cl && x.at == at && Took(e, x)
    {
      if k < |cs| {
        assert b[start + k] == a[|a| - |cs| + k] && all[k] == cs[k];
      } else {
        assert b[start + k] == b[|b| - |ds| + (k - |cs|)] && all[k] == ds[k - |cs|];
      }
    }
  }

  // ---------------------------------------------------------------- the two scripts

  lemma InstallScriptInstalls(p: Plugin, tier: string, keys: seq<string>)
    requires forall k | k in keys :: k in p.migrationContext
    ensures forall c | c in InstallScript(p, tier, keys) :: Installing(p, c)
  {
  }

  lemma {:induction false} AddMissingInstalls(p: Plugin, row: Install, services: seq<string>, tier: string)
    ensures forall c | c in AddMissing(Id(p), row, services, tier) ::
              Installing(p, c) && c.AddService? && c.tier == tier && c.service in services
    ensures forall svc | svc in services && !Bound(row, svc, tier) ::
              AddService(Id(p), svc, tier) in AddMissing(Id(p), row, services, tier)
    ensures (forall svc | svc in services :: Bound(row, svc, tier)) ==> AddMissing(Id(p), row, services, tier) == []
  {
    if services != [] {
      assert services == services[..|services| - 1] + [services[|services| - 1]];
      AddMissingInstalls(p, row, services[..|services| - 1], tier);
    }
  }

  lemma ContextKeysList(e: Env, call: nat, p: Plugin)
    requires Valid(e)
    ensures Lists(ContextKeys(e, call, p), p.migrationContext.Keys)
  {
    assert Lists(e.contextOrder(call, p.migrationContext.Keys), p.migrationContext.Keys);
  }

  /** A prefix of the script brings the version to the stage the next statement needs. */
  lemma ScriptStage(e: Env, w: World, p: Plugin, tier: string, keys: seq<string>, j: nat)
    requires Lists(keys, p.migrationContext.Keys) && j <= |InstallScript(p, tier, keys)|
    requires Id(p) in w.plugins && !w.plugins[Id(p)].enabled
    requires forall c | c in InstallScript(p, tier, keys)[..j] :: Effect(w.plugins[Id(p)], c)
    ensures Stage(e, w, p, tier, 0)
    ensures j >= |p.services| ==> Stage(e, w, p, tier, 1)
    ensures j >= |p.services| + |keys| ==> Stage(e, w, p, tier, 2)
    ensures j == |InstallScript(p, tier, keys)| ==> Stage(e, w, p, tier, 3)
  {
    var script := InstallScript(p, tier, keys);
    var row := w.plugins[Id(p)];
    if j >= |p.services| {
      forall i | 0 <= i < |p.services|
        ensures Bound(row, p.services[i].name, tier)
      {
        assert script[..j][i] == AddService(Id(p), p.services[i].name, tier);
        assert script[..j][i] in script[..j];
      }
    }
    if j >= |p.services| + |keys| {
      forall k | k in p.migrationContext
        ensures k in row.context && row.context[k] == p.migrationContext[k]
      {
        assert k in keys;
        var i :| 0 <= i < |keys| && keys[i] == k;
        assert script[..j][|p.services| + i] == SetContext(Id(p), k, p.migrationContext[k]);
        assert script[..j][|p.services| + i] in script[..j];
      }
    }
    if j == |script| {
      assert script[..j][j - 1] == MigratePlugin(Id(p));
      assert script[..j][j - 1] in script[..j];
    }
  }
}
