/** Unrolling a loop function by one iteration, and: once a call has failed, nothing more happens. */
module Stuck {
  import opened Types
  import opened Builders
  import opened Machine
  import opened Protocol
  import Safety

  // ---------------------------------------------------------------- scripts

  lemma RunAllOneMore(e: Env, s: Session, cl: Cluster, at: nat, cs: seq<Command>, i: nat)
    requires i < |cs|
    ensures RunAll(e, s, cl, at, cs[..i + 1]) == Do(e, RunAll(e, s, cl, at, cs[..i]), cl, at, cs[i])
  {
    assert cs[..i + 1][..i] == cs[..i];
  }

  lemma {:induction false} RunAllStuck(e: Env, s: Session, cl: Cluster, at: nat, cs: seq<Command>, i: nat)
    requires i <= |cs| && !RunAll(e, s, cl, at, cs[..i]).ok
    ensures RunAll(e, s, cl, at, cs) == RunAll(e, s, cl, at, cs[..i])
  {
    if i == |cs| {
      assert cs[..i] == cs;
    } else {
      assert cs[..|cs| - 1][..i] == cs[..i];
      RunAllStuck(e, s, cl, at, cs[..|cs| - 1], i);
    }
  }

  lemma BindStuck(e: Env, s: Session, cl: Cluster, at: nat, id: PluginId, tier: string)
    requires !s.ok
    ensures BindDiscovered(e, s, cl, at, id, tier) == s
  {
    if id in s.world.plugins {
      var cs := AddMissing(id, s.world.plugins[id], VisibleServices(e, id, s.world.plugins[id]), tier);
      assert cs[..0] == [];
      RunAllStuck(e, s, cl, at, cs, 0);
    }
  }

  /** The sessions between the statements of a script. */
  ghost predicate Steps(e: Env, cl: Cluster, at: nat, script: seq<Command>, steps: nat -> Session) {
    && (forall i: nat | i < |script| :: steps(i + 1) == Do(e, steps(i), cl, at, script[i]))
    && (forall i: nat | i <= |script| && !steps(i).ok :: steps(|script|) == steps(i))
  }

  lemma StepsOf(e: Env, s: Session, cl: Cluster, at: nat, script: seq<Command>) returns (steps: nat -> Session)
    ensures Steps(e, cl, at, script, steps)
    ensures steps(0) == s && steps(|script|) == RunAll(e, s, cl, at, script)
  {
    steps := (i: nat) => RunAll(e, s, cl, at, if i <= |script| then script[..i] else script);
    assert script[..0] == [] && script[..|script|] == script;
    forall i: nat | i < |script|
      ensures steps(i + 1) == Do(e, steps(i), cl, at, script[i])
    {
      RunAllOneMore(e, s, cl, at, script, i);
    }
    forall i: nat | i <= |script| && !steps(i).ok
      ensures steps(|script|) == steps(i)
    {
      RunAllStuck(e, s, cl, at, script, i);
    }
  }

  /** The script begins with ADD SERVICE for the declared services. */
  predicate AddsDeclared(script: seq<Command>, p: Plugin, tier: string) {
    && |p.services| <= |script|
    && forall i | 0 <= i < |p.services| :: script[i] == AddService(Id(p), p.services[i].name, tier)
  }

  /** From statement number n on the script sets the context keys. */
  predicate SetsContext(script: seq<Command>, n: nat, p: Plugin, keys: seq<string>) {
    && n + |keys| <= |script|
    && forall i | 0 <= i < |keys| ::
         keys[i] in p.migrationContext && script[n + i] == SetContext(Id(p), keys[i], p.migrationContext[keys[i]])
  }

  lemma InstallScriptParts(p: Plugin, tier: string, keys: seq<string>)
    requires forall k | k in keys :: k in p.migrationContext
    ensures var script := InstallScript(p, tier, keys);
            && |script| == |p.services| + |keys| + 1 && script[|p.services| + |keys|] == MigratePlugin(Id(p))
            && AddsDeclared(script, p, tier) && SetsContext(script, |p.services|, p, keys)
  {
  }

  /** The install script, statement by statement, and the sessions in between. */
  lemma InstallSteps(e: Env, s: Session, cl: Cluster, at: nat, p: Plugin, tier: string, keys: seq<string>)
      returns (script: seq<Command>, steps: nat -> Session)
    requires forall k | k in keys :: k in p.migrationContext
    ensures |script| == |p.services| + |keys| + 1 && script[|p.services| + |keys|] == MigratePlugin(Id(p))
    ensures AddsDeclared(script, p, tier) && SetsContext(script, |p.services|, p, keys)
    ensures Steps(e, cl, at, script, steps)
    ensures steps(0) == s && steps(|script|) == RunAll(e, s, cl, at, InstallScript(p, tier, keys))
  {
    script := InstallScript(p, tier, keys);
    InstallScriptParts(p, tier, keys);
    steps := StepsOf(e, s, cl, at, script);
  }

  /** The next listed service contributes its command, if any, at the next place of the script. */
  lemma MissingNext(id: PluginId, row: Install, names: seq<string>, i: nat, tier: string)
    requires i < |names|
    ensures var script, n := AddMissing(id, row, names, tier), |AddMissing(id, row, names[..i], tier)|;
            && |AddMissing(id, row, names[..i + 1], tier)|
               == (if Bound(row, names[i], tier) then n else n + 1) <= |script|
            && (!Bound(row, names[i], tier) ==> script[n] == AddService(id, names[i], tier))
  {
    MissingOneMore(id, row, names, i, tier);
    MissingPrefix(id, row, names, i + 1, tier);
    var part, script := AddMissing(id, row, names[..i + 1], tier), AddMissing(id, row, names, tier);
    assert forall k | 0 <= k < |part| :: script[k] == part[k];
  }

  lemma MissingOneMore(id: PluginId, row: Install, names: seq<string>, i: nat, tier: string)
    requires i < |names|
    ensures AddMissing(id, row, names[..i + 1], tier)
         == AddMissing(id, row, names[..i], tier)
            + (if Bound(row, names[i], tier) then [] else [AddService(id, names[i], tier)])
  {
    assert names[..i + 1][..i] == names[..i];
  }

  lemma {:induction false} MissingPrefix(id: PluginId, row: Install, names: seq<string>, i: nat, tier: string)
    requires i <= |names|
    ensures var part, all := AddMissing(id, row, names[..i], tier), AddMissing(id, row, names, tier);
            |part| <= |all| && all[..|part|] == part
  {
    if i == |names| {
      assert names[..i] == names;
    } else {
      var init := names[..|names| - 1];
      MissingPrefix(id, row, init, i, tier);
      assert init[..i] == names[..i];
    }
  }

  // ---------------------------------------------------------------- one plugin

  lemma PrepareStuck(e: Env, s: Session, cl: Cluster, at: nat, p: Plugin, tier: string)
    requires !s.ok
    ensures Prepare(e, s, cl, at, p, tier) == s
  {
    ScriptStuck(e, s, cl, at, p, tier, ContextKeys(e, s.calls, p));
  }

  lemma ScriptStuck(e: Env, s: Session, cl: Cluster, at: nat, p: Plugin, tier: string, keys: seq<string>)
    requires !s.ok && forall k | k in keys :: k in p.migrationContext
    ensures RunAll(e, s, cl, at, InstallScript(p, tier, keys)) == s
  {
    var cs := InstallScript(p, tier, keys);
    assert cs[..0] == [];
    RunAllStuck(e, s, cl, at, cs, 0);
  }

  /** After a failed preparation the plugin is left as it is. */
  lemma RestStuck(e: Env, s: Session, cl: Cluster, at: nat, p: Plugin, tier: string)
    requires !Prepare(e, Read(e, s), cl, at, p, tier).ok
    ensures ReconcilePlugin(e, s, cl, at, p, tier) == Prepare(e, Read(e, s), cl, at, p, tier)
  {
    BindStuck(e, Prepare(e, Read(e, s), cl, at, p, tier), cl, at, Id(p), tier);
  }

  lemma PluginStuck(e: Env, s: Session, cl: Cluster, at: nat, p: Plugin, tier: string)
    requires !Read(e, s).ok
    ensures ReconcilePlugin(e, s, cl, at, p, tier) == Read(e, s)
  {
    PrepareStuck(e, Read(e, s), cl, at, p, tier);
    RestStuck(e, s, cl, at, p, tier);
  }

  lemma PluginLoopOneMore(e: Env, s: Session, cl: Cluster, at: nat, plugins: seq<Plugin>, tier: string, i: nat)
    requires i < |plugins|
    ensures PluginLoop(e, s, cl, at, plugins[..i + 1], tier)
         == ReconcilePlugin(e, PluginLoop(e, s, cl, at, plugins[..i], tier), cl, at, plugins[i], tier)
  {
    assert plugins[..i + 1][..i] == plugins[..i];
  }

  lemma {:induction false} PluginLoopStuck(
      e: Env, s: Session, cl: Cluster, at: nat, plugins: seq<Plugin>, tier: string, i: nat)
    requires i <= |plugins| && !PluginLoop(e, s, cl, at, plugins[..i], tier).ok
    ensures PluginLoop(e, s, cl, at, plugins, tier) == PluginLoop(e, s, cl, at, plugins[..i], tier)
  {
    if i == |plugins| {
      assert plugins[..i] == plugins;
    } else {
      var init := plugins[..|plugins| - 1];
      assert init[..i] == plugins[..i];
      PluginLoopStuck(e, s, cl, at, init, tier, i);
      PluginStuck(e, PluginLoop(e, s, cl, at, init, tier), cl, at, plugins[|plugins| - 1], tier);
    }
  }

  lemma ReportsOneMore(plugins: seq<Plugin>, i: nat)
    requires i < |plugins|
    ensures PluginReports(plugins[..i + 1])
         == PluginReports(plugins[..i]) + [PluginStatus(plugins[i].name, plugins[i].version, true)]
  {
  }

  // ---------------------------------------------------------------- dropping and deleting

  lemma DropLoopOneMore(
      e: Env, s: Session, cl: Cluster, at: nat, listed: map<PluginId, Install>, ids: seq<PluginId>, i: nat)
    requires i < |ids| && at < |cl.tiers|
    ensures DropLoop(e, s, cl, at, listed, ids[..i + 1])
         == var r := DropLoop(e, s, cl, at, listed, ids[..i]);
            if ids[i] !in listed || IsDesired(cl.tiers[at].plugins, ids[i]) then r
            else DropOne(e, r, cl, at, ids[i], listed[ids[i]].enabled)
  {
    assert ids[..i + 1][..i] == ids[..i];
  }

  lemma {:induction false} DropLoopStuck(
      e: Env, s: Session, cl: Cluster, at: nat, listed: map<PluginId, Install>, ids: seq<PluginId>, i: nat)
    requires i <= |ids| && at < |cl.tiers| && !DropLoop(e, s, cl, at, listed, ids[..i]).ok
    ensures DropLoop(e, s, cl, at, listed, ids) == DropLoop(e, s, cl, at, listed, ids[..i])
  {
    if i == |ids| {
      assert ids[..i] == ids;
    } else {
      assert ids[..|ids| - 1][..i] == ids[..i];
      DropLoopStuck(e, s, cl, at, listed, ids[..|ids| - 1], i);
    }
  }

  lemma DeleteLoopOneMore(
      e: Env, s: Session, cl: Cluster, at: nat, listed: map<Key, Object>, keys: seq<Key>, i: nat)
    requires i < |keys| && at < |cl.tiers|
    ensures DeleteLoop(e, s, cl, at, listed, keys[..i + 1])
         == var r := DeleteLoop(e, s, cl, at, listed, keys[..i]);
            if keys[i] in listed && BeyondReplicas(listed[keys[i]].labels, cl.tiers[at])
            then Do(e, r, cl, at, DeleteObject(keys[i])) else r
  {
    assert keys[..i + 1][..i] == keys[..i];
  }

  lemma {:induction false} DeleteLoopStuck(
      e: Env, s: Session, cl: Cluster, at: nat, listed: map<Key, Object>, keys: seq<Key>, i: nat)
    requires i <= |keys| && at < |cl.tiers| && !DeleteLoop(e, s, cl, at, listed, keys[..i]).ok
    ensures DeleteLoop(e, s, cl, at, listed, keys) == DeleteLoop(e, s, cl, at, listed, keys[..i])
  {
    if i == |keys| {
      assert keys[..i] == keys;
    } else {
      assert keys[..|keys| - 1][..i] == keys[..i];
      DeleteLoopStuck(e, s, cl, at, listed, keys[..|keys| - 1], i);
    }
  }

  // ---------------------------------------------------------------- objects

  lemma {:induction false} UpsertAllStuck(e: Env, s: Session, cl: Cluster, at: nat, ms: seq<Manifest>, i: nat)
    requires i <= |ms| && !UpsertAll(e, s, cl, at, ms[..i]).ok
    ensures UpsertAll(e, s, cl, at, ms) == UpsertAll(e, s, cl, at, ms[..i])
  {
    if i == |ms| {
      assert ms[..i] == ms;
    } else {
      assert ms[..|ms| - 1][..i] == ms[..i];
      UpsertAllStuck(e, s, cl, at, ms[..|ms| - 1], i);
    }
  }

  lemma DeleteExtraStuck(e: Env, s: Session, cl: Cluster, at: nat)
    requires at < |cl.tiers| && !s.ok
    ensures DeleteExtraSets(e, s, cl, at) == s
  {
    var keys := e.keyOrder(s.calls, TierSets(s.world, cl.id, cl.tiers[at].name));
    assert keys[..0] == [];
    DeleteLoopStuck(e, s, cl, at, s.world.objects, keys, 0);
  }

  /** The list that is submitted begins with three base objects; the replicasets follow. */
  ghost predicate SubmissionOrder(base: seq<Manifest>, make: nat -> Manifest, n: nat, ms: seq<Manifest>) {
    && |ms| == 3 + n && ms[..3] == base
    && forall i: nat | 3 <= i < |ms| :: ms[i] == make(i - 2)
  }

  lemma PlanOrder(base: seq<Manifest>, make: nat -> Manifest, n: nat)
    requires |base| == 3
    ensures SubmissionOrder(base, make, n, Plan(base, make, n))
  {
  }

  lemma TierManifests(e: Env, cl: Cluster, at: nat)
    requires at < |cl.tiers| && Built(e)
    ensures SubmissionOrder(BaseManifests(cl, at), SetMaker(e.hash, cl, at), SetCount(cl.tiers[at]), e.desired(cl, at))
  {
    PlanOrder(BaseManifests(cl, at), SetMaker(e.hash, cl, at), SetCount(cl.tiers[at]));
  }

  /** Once the loop over the tiers has stopped it stays where it is. */
  lemma {:induction false} WalkStuck(e: Env, s: Session, cl: Cluster, i: nat, n: nat)
    requires i <= n <= |cl.tiers| && TierWalk(e, s, cl, i).stop != NoStop
    ensures TierWalk(e, s, cl, n) == TierWalk(e, s, cl, i)
    decreases n
  {
    if i < n {
      WalkStuck(e, s, cl, i, n - 1);
    }
  }

  lemma PluginSteps(e: Env, s: Session, cl: Cluster, at: nat, plugins: seq<Plugin>, tier: string)
      returns (steps: nat -> Session)
    ensures steps(0) == s && steps(|plugins|) == PluginLoop(e, s, cl, at, plugins, tier)
    ensures forall i: nat | i < |plugins| :: steps(i + 1) == ReconcilePlugin(e, steps(i), cl, at, plugins[i], tier)
    ensures forall i: nat | i <= |plugins| && !steps(i).ok :: steps(|plugins|) == steps(i)
  {
    steps := (i: nat) => PluginLoop(e, s, cl, at, if i <= |plugins| then plugins[..i] else plugins, tier);
    assert plugins[..0] == [] && plugins[..|plugins|] == plugins;
    forall i: nat | i < |plugins|
      ensures steps(i + 1) == ReconcilePlugin(e, steps(i), cl, at, plugins[i], tier)
    {
      PluginLoopOneMore(e, s, cl, at, plugins, tier, i);
    }
    forall i: nat | i <= |plugins| && !steps(i).ok
      ensures steps(|plugins|) == steps(i)
    {
      PluginLoopStuck(e, s, cl, at, plugins, tier, i);
    }
  }

  /** The sessions between the submissions of a list of objects. */
  ghost predicate Submissions(e: Env, cl: Cluster, at: nat, ms: seq<Manifest>, steps: nat -> Session) {
    && (forall i: nat | i < |ms| :: steps(i + 1) == Upsert(e, steps(i), cl, at, ms[i]))
    && (forall i: nat | i <= |ms| && !steps(i).ok :: steps(|ms|) == steps(i))
  }

  lemma UpsertSteps(e: Env, s: Session, cl: Cluster, at: nat, ms: seq<Manifest>) returns (steps: nat -> Session)
    ensures Submissions(e, cl, at, ms, steps)
    ensures steps(0) == s && steps(|ms|) == UpsertAll(e, s, cl, at, ms)
  {
    steps := (i: nat) => UpsertAll(e, s, cl, at, if i <= |ms| then ms[..i] else ms);
    assert ms[..0] == [] && ms[..|ms|] == ms;
    forall i: nat | i < |ms|
      ensures steps(i + 1) == Upsert(e, steps(i), cl, at, ms[i])
    {
      Safety.UpsertOneMore(e, s, cl, at, ms, i);
    }
    forall i: nat | i <= |ms| && !steps(i).ok
      ensures steps(|ms|) == steps(i)
    {
      UpsertAllStuck(e, s, cl, at, ms, i);
    }
  }

  lemma DeleteSteps(e: Env, s: Session, cl: Cluster, at: nat, listed: map<Key, Object>, keys: seq<Key>)
      returns (steps: nat -> Session)
    requires at < |cl.tiers|
    ensures steps(0) == s && steps(|keys|) == DeleteLoop(e, s, cl, at, listed, keys)
    ensures forall i: nat | i < |keys| ::
              steps(i + 1) == (if keys[i] in listed && BeyondReplicas(listed[keys[i]].labels, cl.tiers[at])
                               then Do(e, steps(i), cl, at, DeleteObject(keys[i])) else steps(i))
    ensures forall i: nat | i <= |keys| && !steps(i).ok :: steps(|keys|) == steps(i)
  {
    steps := (i: nat) => DeleteLoop(e, s, cl, at, listed, if i <= |keys| then keys[..i] else keys);
    assert keys[..0] == [] && keys[..|keys|] == keys;
    forall i: nat | i < |keys|
      ensures steps(i + 1) == (if keys[i] in listed && BeyondReplicas(listed[keys[i]].labels, cl.tiers[at])
                               then Do(e, steps(i), cl, at, DeleteObject(keys[i])) else steps(i))
    {
      DeleteLoopOneMore(e, s, cl, at, listed, keys, i);
    }
    forall i: nat | i <= |keys| && !steps(i).ok
      ensures steps(|keys|) == steps(i)
    {
      DeleteLoopStuck(e, s, cl, at, listed, keys, i);
    }
  }

  // ---------------------------------------------------------------- a pass

  /** The loop over the tiers, one tier after the other. */
  ghost predicate Walks(e: Env, cl: Cluster, walk: nat -> Walk) {
    && (forall i: nat | i < |cl.tiers| :: walk(i + 1) == WalkOn(e, walk(i), cl, i))
    && (forall i: nat | i <= |cl.tiers| && walk(i).stop != NoStop :: walk(|cl.tiers|) == walk(i))
  }

  lemma WalkSteps(e: Env, s: Session, cl: Cluster) returns (walk: nat -> Walk)
    ensures Walks(e, cl, walk)
    ensures walk(0) == Walk(s, [], NoStop) && walk(|cl.tiers|) == TierWalk(e, s, cl, |cl.tiers|)
  {
    walk := (i: nat) => TierWalk(e, s, cl, if i <= |cl.tiers| then i else |cl.tiers|);
    assert walk(0) == TierWalk(e, s, cl, 0) == Walk(s, [], NoStop);
    forall i: nat | i < |cl.tiers|
      ensures walk(i + 1) == WalkOn(e, walk(i), cl, i)
    {
      assert walk(i + 1) == TierWalk(e, s, cl, i + 1) && walk(i) == TierWalk(e, s, cl, i);
    }
    forall i: nat | i <= |cl.tiers| && walk(i).stop != NoStop
      ensures walk(|cl.tiers|) == walk(i)
    {
      WalkStuck(e, s, cl, i, |cl.tiers|);
    }
  }

  lemma AllReadyNext(done: seq<TierStatus>, ts: TierStatus)
    ensures AllReady(done + [ts]) <==> AllReady(done) && IsReady(ts)
  {
    var now := done + [ts];
    assert now[|done|] == ts;
    assert forall i | 0 <= i < |done| :: now[i] == done[i];
  }
}
