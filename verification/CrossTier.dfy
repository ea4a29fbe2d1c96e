/** Fault-free passes over several tiers that share one plugin table: what the pass leaves behind,
    and exactly when a pass has no statement left to issue. */
module CrossTier {
  import opened Types
  import opened Machine
  import opened Protocol
  import opened PluginSafety
  import opened Runs
  import opened TierConvergence
  import opened PluginConvergence

  // ---------------------------------------------------------------- what a success is worth

  lemma {:induction false} DropLoopKeepsDesired(
      e: Env, s: Session, cl: Cluster, at: nat, listed: map<PluginId, Install>, ids: seq<PluginId>, x: PluginId)
    requires at < |cl.tiers| && IsDesired(cl.tiers[at].plugins, x) && x in s.world.plugins
    ensures var r := DropLoop(e, s, cl, at, listed, ids);
            x in r.world.plugins && r.world.plugins[x] == s.world.plugins[x]
  {
    if ids != [] {
      DropLoopKeepsDesired(e, s, cl, at, listed, ids[..|ids| - 1], x);
    }
  }

  /** Under any faults: a plugin pass that reports success has every desired version installed,
      enabled and serving the tier, even when dropping the obsolete ones failed. */
  lemma SuccessMeansServed(e: Env, s: Session, cl: Cluster, at: nat, x: PluginId)
    requires Valid(e) && at < |cl.tiers| && ReconcileTierPlugins(e, s, cl, at).ok
    requires IsDesired(cl.tiers[at].plugins, x)
    ensures Healthy(e, ReconcileTierPlugins(e, s, cl, at).world, x, cl.tiers[at].name)
  {
    var t := cl.tiers[at];
    var looped := PluginLoop(e, Read(e, Read(e, s)), cl, at, t.plugins, t.name);
    PluginLoopDone(e, Read(e, Read(e, s)), cl, at, t.plugins, t.name);
    DesiredDeclared(t.plugins, x);
    assert Healthy(e, looped.world, x, t.name);
    var r := Read(e, looped);
    DropLoopKeepsDesired(e, r, cl, at, r.world.plugins, e.pluginOrder(looped.calls, r.world.plugins.Keys), x);
  }

  /** From any table, one fault-free plugin pass of a tier leaves exactly the declared versions
      installed if and only if no name is declared with two versions. */
  lemma DeclaredTableIffConsistent(e: Env, s: Session, cl: Cluster, at: nat)
    requires Valid(e) && FaultFree(e) && s.ok && at < |cl.tiers| && cl.tiers[at].plugins != []
    ensures var w, ps := ReconcileTierPlugins(e, s, cl, at).world, cl.tiers[at].plugins;
            (forall x :: x in w.plugins <==> DeclaredId(ps, x)) <==> Consistent(ps)
  {
    TierPluginsConverge(e, s, cl, at);
    DesiredIffConsistent(cl.tiers[at].plugins);
    var w, ps := ReconcileTierPlugins(e, s, cl, at).world, cl.tiers[at].plugins;
    assert forall x :: x in w.plugins <==> IsDesired(ps, x);
  }

  /** Each reported status says of its version what the table says. */
  ghost predicate ReportTrue(w: World, reports: seq<PluginStatus>) {
    forall i | 0 <= i < |reports| :: EnabledIn(w, PluginId(reports[i].name, reports[i].version)) == reports[i].enabled
  }

  /** All declared versions are reported as enabled; after a fault-free pass that is the truth
      exactly when no name is declared with two versions. */
  lemma ReportIsTrueIffConsistent(e: Env, s: Session, cl: Cluster, at: nat)
    requires Valid(e) && FaultFree(e) && s.ok && at < |cl.tiers| && cl.tiers[at].plugins != []
    ensures ReportTrue(ReconcileTierPlugins(e, s, cl, at).world, PluginReports(cl.tiers[at].plugins))
       <==> Consistent(cl.tiers[at].plugins)
  {
    TierPluginsConverge(e, s, cl, at);
    ReportOfTable(e, ReconcileTierPlugins(e, s, cl, at).world, cl.tiers[at]);
  }

  lemma ReportOfTable(e: Env, w: World, t: Tier)
    requires TableFor(e, w, t)
    ensures ReportTrue(w, PluginReports(t.plugins)) <==> Consistent(t.plugins)
  {
    var ps, rs := t.plugins, PluginReports(t.plugins);
    DesiredIffConsistent(ps);
    forall x
      ensures EnabledIn(w, x) <==> IsDesired(ps, x)
      ensures IsDesired(ps, x) ==> DeclaredId(ps, x)
    {
      DesiredDeclared(ps, x);
    }
    assert forall i | 0 <= i < |ps| :: PluginId(rs[i].name, rs[i].version) == Id(ps[i]) && rs[i].enabled;
    assert forall i | 0 <= i < |ps| :: DeclaredId(ps, Id(ps[i]));
  }

  // ---------------------------------------------------------------- one tier of a fault-free pass

  /** What the plugin pass of one tier does to the table. */
  ghost predicate ServedDone(e: Env, a: World, b: World, t: Tier) {
    && TableFor(e, b, t)
    && (forall x, u | x in b.plugins && Healthy(e, a, x, u) :: Healthy(e, b, x, u))
  }

  ghost predicate Handled(e: Env, cl: Cluster, at: nat, a: World, b: World, ts: TierStatus)
    requires at < |cl.tiers|
  {
    && IsTarget(e, cl, at, a.objects, b.objects) && b.status == a.status
    && (if IsReady(ts) && cl.tiers[at].plugins != [] then ServedDone(e, a, b, cl.tiers[at])
        else b.plugins == a.plugins)
  }

  lemma HandledWithoutFaults(e: Env, s: Session, cl: Cluster, at: nat)
    requires Valid(e) && KeysBuilt(e) && FaultFree(e) && s.ok && at < |cl.tiers|
    ensures var h := HandleTier(e, s, cl, at);
            h.TierDone? && h.session.ok && Handled(e, cl, at, s.world, h.session.world, h.status)
  {
    TierSucceeds(e, s, cl, at);
    SuccessMeansTarget(e, s, cl, at);
    var made := ReconcileTier(e, s, cl, at);
    var seen := Read(e, made);
    var ts := ObserveTier(e, made, cl, at);
    if IsReady(ts) && cl.tiers[at].plugins != [] {
      TierPluginsConverge(e, seen, cl, at);
      SamePluginsSameHealth(e, s.world, made.world);
    }
  }

  lemma SamePluginsSameHealth(e: Env, a: World, b: World)
    requires a.plugins == b.plugins
    ensures forall x, u :: Healthy(e, a, x, u) == Healthy(e, b, x, u)
  {
  }

  // ---------------------------------------------------------------- the shared table

  /** Tier number `at` is ready and has plugins, so its plugin pass runs. */
  predicate Served(cl: Cluster, done: seq<TierStatus>, at: nat) {
    at < |done| && at < |cl.tiers| && IsReady(done[at]) && cl.tiers[at].plugins != []
  }

  predicate LastServed(cl: Cluster, done: seq<TierStatus>, at: nat) {
    Served(cl, done, at) && forall i: nat | at < i < |done| :: !Served(cl, done, i)
  }

  ghost predicate SameVersions(s: Tier, t: Tier) {
    forall x :: IsDesired(s.plugins, x) <==> IsDesired(t.plugins, x)
  }

  /** All tiers whose plugin pass runs want the same name-to-version map. */
  ghost predicate Uniform(cl: Cluster, done: seq<TierStatus>) {
    forall i: nat, j: nat | Served(cl, done, i) && Served(cl, done, j) :: SameVersions(cl.tiers[i], cl.tiers[j])
  }

  /** The table after the first n tiers. */
  ghost predicate TableAfter(e: Env, cl: Cluster, before: World, w: Walk, n: nat) {
    && w.stop == NoStop && w.session.ok && |w.done| == n <= |cl.tiers| && w.session.world.status == before.status
    && ((forall i: nat :: !Served(cl, w.done, i)) ==> w.session.world.plugins == before.plugins)
    && (forall i: nat | LastServed(cl, w.done, i) :: TableFor(e, w.session.world, cl.tiers[i]))
    && (Uniform(cl, w.done) ==> forall i: nat | Served(cl, w.done, i) :: TableFor(e, w.session.world, cl.tiers[i]))
  }

  lemma ServedOneMore(cl: Cluster, done: seq<TierStatus>, ts: TierStatus)
    ensures forall i: nat | i < |done| :: Served(cl, done + [ts], i) <==> Served(cl, done, i)
    ensures Served(cl, done + [ts], |done|) <==>
              |done| < |cl.tiers| && IsReady(ts) && cl.tiers[|done|].plugins != []
  {
    var now := done + [ts];
    assert now[|done|] == ts && forall i | 0 <= i < |done| :: now[i] == done[i];
  }

  lemma LastServedOneMore(cl: Cluster, done: seq<TierStatus>, ts: TierStatus, i: nat)
    requires LastServed(cl, done + [ts], i)
    ensures if Served(cl, done + [ts], |done|) then i == |done| else LastServed(cl, done, i)
  {
    ServedOneMore(cl, done, ts);
  }

  lemma UniformOneMore(cl: Cluster, done: seq<TierStatus>, ts: TierStatus)
    requires Uniform(cl, done + [ts])
    ensures Uniform(cl, done)
    ensures Served(cl, done + [ts], |done|) ==>
              forall i: nat | Served(cl, done, i) :: SameVersions(cl.tiers[i], cl.tiers[|done|])
  {
    ServedOneMore(cl, done, ts);
    forall i: nat, j: nat | Served(cl, done, i) && Served(cl, done, j)
      ensures SameVersions(cl.tiers[i], cl.tiers[j])
    {
      assert Served(cl, done + [ts], i) && Served(cl, done + [ts], j);
    }
    forall i: nat | Served(cl, done, i) && Served(cl, done + [ts], |done|)
      ensures SameVersions(cl.tiers[i], cl.tiers[|done|])
    {
      assert Served(cl, done + [ts], i);
    }
  }

  /** A table that served a tier with the same versions goes on serving it. */
  lemma TableShared(e: Env, a: World, b: World, s: Tier, t: Tier)
    requires ServedDone(e, a, b, t) && TableFor(e, a, s) && SameVersions(s, t)
    ensures TableFor(e, b, s)
  {
    forall x
      ensures x in b.plugins <==> IsDesired(s.plugins, x)
      ensures x in b.plugins ==> Healthy(e, b, x, s.name)
    {
      assert IsDesired(s.plugins, x) <==> IsDesired(t.plugins, x);
    }
  }

  lemma SameTable(e: Env, a: World, b: World, t: Tier)
    requires a.plugins == b.plugins && TableFor(e, a, t)
    ensures TableFor(e, b, t)
  {
    SamePluginsSameHealth(e, a, b);
  }

  lemma TableOneMore(e: Env, cl: Cluster, before: World, w: Walk, v: Walk, ts: TierStatus, at: nat)
    requires at < |cl.tiers| && TableAfter(e, cl, before, w, at)
    requires v.stop == NoStop && v.session.ok && v.done == w.done + [ts]
    requires Handled(e, cl, at, w.session.world, v.session.world, ts)
    ensures TableAfter(e, cl, before, v, at + 1)
  {
    var a, b := w.session.world, v.session.world;
    ServedOneMore(cl, w.done, ts);
    forall i: nat | LastServed(cl, v.done, i)
      ensures TableFor(e, b, cl.tiers[i])
    {
      LastServedOneMore(cl, w.done, ts, i);
      if i < at {
        SameTable(e, a, b, cl.tiers[i]);
      }
    }
    if Uniform(cl, v.done) {
      UniformOneMore(cl, w.done, ts);
      forall i: nat | Served(cl, v.done, i)
        ensures TableFor(e, b, cl.tiers[i])
      {
        if i < at {
          assert Served(cl, w.done, i);
          if Served(cl, v.done, at) {
            TableShared(e, a, b, cl.tiers[i], cl.tiers[at]);
          } else {
            SameTable(e, a, b, cl.tiers[i]);
          }
        }
      }
    }
    if forall i: nat :: !Served(cl, v.done, i) {
      assert forall i: nat | i < at :: !Served(cl, w.done, i);
    }
  }

  lemma TableWalkOn(e: Env, cl: Cluster, before: World, w: Walk, at: nat)
    requires Valid(e) && KeysBuilt(e) && FaultFree(e) && at < |cl.tiers| && TableAfter(e, cl, before, w, at)
    ensures TableAfter(e, cl, before, WalkOn(e, w, cl, at), at + 1)
  {
    HandledWithoutFaults(e, w.session, cl, at);
    var h := HandleTier(e, w.session, cl, at);
    TableOneMore(e, cl, before, w, WalkOn(e, w, cl, at), h.status, at);
  }

  /** After a fault-free loop over the tiers, from any world: the table is exactly what the last tier
      whose plugin pass ran wants, serving that tier; if all those tiers want the same versions, it
      serves every one of them with every service. */
  lemma SharedTableOutcome(e: Env, s: Session, cl: Cluster, n: nat)
    requires Valid(e) && KeysBuilt(e) && FaultFree(e) && s.ok && n <= |cl.tiers|
    ensures TableAfter(e, cl, s.world, TierWalk(e, s, cl, n), n)
  {
    var kept := (w: Walk, at: nat) => TableAfter(e, cl, s.world, w, at);
    forall w: Walk, at: nat | at < |cl.tiers| && kept(w, at)
      ensures kept(WalkOn(e, w, cl, at), at + 1)
    {
      TableWalkOn(e, cl, s.world, w, at);
    }
    WalkInduction(e, s, cl, n, kept);
  }
}
