/** When a pass has nothing left to do: exactly which tables make it issue no SQL statement, which
    tiers may install at all, and why a second pass leaves every object as it is. */
module Quiescence {
  import opened Types
  import opened Machine
  import opened Protocol
  import opened Invariants
  import opened PluginEffects
  import opened Runs
  import opened TierConvergence
  import opened TierTheorems
  import opened PluginConvergence
  import opened Links
  import opened Passes
  import opened CrossTier

  // ---------------------------------------------------------------- no SQL statement

  ghost predicate Extends(a: Session, b: Session) {
    |a.log| <= |b.log| && b.log[..|a.log|] == a.log
  }

  /** Between a and b no SQL statement is issued. */
  ghost predicate Quiet(a: Session, b: Session) {
    forall i | |a.log| <= i < |b.log| :: !IsSql(b.log[i].command)
  }

  lemma QuietTrans(a: Session, b: Session, c: Session)
    requires Extends(a, b) && Extends(b, c)
    ensures Extends(a, c)
    ensures Quiet(a, c) <==> Quiet(a, b) && Quiet(b, c)
  {
    PrefixTrans(a.log, b.log, c.log);
  }

  lemma ApiIsQuiet(e: Env, sc: Scope, a: Session, b: Session)
    requires Link(e, sc, a, b) && !sc.sql
    ensures Extends(a, b) && Quiet(a, b)
  {
    forall i | |a.log| <= i < |b.log|
      ensures !IsSql(b.log[i].command)
    {
      assert StepIn(e, sc, b.log[i]);
    }
  }

  lemma SqlOnly(e: Env, sc: Scope, a: Session, b: Session)
    requires Link(e, sc, a, b) && !sc.api
    ensures forall i | |a.log| <= i < |b.log| :: IsSql(b.log[i].command)
  {
    forall i | |a.log| <= i < |b.log|
      ensures IsSql(b.log[i].command)
    {
      assert StepIn(e, sc, b.log[i]);
    }
  }

  /** A quiet piece that may only issue SQL has done nothing. */
  lemma QuietSqlIsNothing(e: Env, sc: Scope, a: Session, b: Session)
    requires Link(e, sc, a, b) && !sc.api && Quiet(a, b)
    ensures b.log == a.log && b.world == a.world
  {
    SqlOnly(e, sc, a, b);
    assert b.log[..|a.log|] == b.log;
  }

  /** A fault-free plugin pass issues no statement exactly when the table is already the tier's and
      no name is declared with two versions. */
  lemma QuietPlugins(e: Env, s: Session, cl: Cluster, at: nat)
    requires Valid(e) && FaultFree(e) && s.ok && at < |cl.tiers| && cl.tiers[at].plugins != []
    ensures Extends(s, ReconcileTierPlugins(e, s, cl, at))
    ensures Quiet(s, ReconcileTierPlugins(e, s, cl, at))
       <==> TableFor(e, s.world, cl.tiers[at]) && Consistent(cl.tiers[at].plugins)
  {
    var sc := Scope(cl, at, at, true, false);
    TierPluginsConverge(e, s, cl, at);
    LinkTierPlugins(e, sc, s, cl, at);
    if Quiet(s, ReconcileTierPlugins(e, s, cl, at)) {
      QuietSqlIsNothing(e, sc, s, ReconcileTierPlugins(e, s, cl, at));
      QuietMeansConsistent(e, s, cl, at);
    }
  }

  lemma QuietMeansConsistent(e: Env, s: Session, cl: Cluster, at: nat)
    requires Valid(e) && FaultFree(e) && s.ok && at < |cl.tiers| && cl.tiers[at].plugins != []
    requires ReconcileTierPlugins(e, s, cl, at).log == s.log && TableFor(e, s.world, cl.tiers[at])
    ensures Consistent(cl.tiers[at].plugins)
  {
    var t := cl.tiers[at];
    var r0 := Read(e, Read(e, s));
    var looped := PluginLoop(e, r0, cl, at, t.plugins, t.name);
    var sc := Scope(cl, at, at, true, false);
    PluginLoopSucceeds(e, r0, cl, at, t.plugins, t.name);
    PluginLoopDone(e, r0, cl, at, t.plugins, t.name);
    LinkPluginLoop(e, sc, r0, cl, at, t.plugins, t.name);
    LinkDropObsolete(e, sc, looped, cl, at);
    assert looped.log == s.log;
    QuietSqlIsNothing(e, sc, r0, looped);
    DesiredIffConsistent(t.plugins);
    forall x
      ensures IsDesired(t.plugins, x) <==> DeclaredId(t.plugins, x)
    {
      DesiredDeclared(t.plugins, x);
    }
  }

  lemma LinkDropObsolete(e: Env, sc: Scope, s: Session, cl: Cluster, at: nat)
    requires SqlScope(sc, cl, at) && at < |cl.tiers|
    ensures Link(e, sc, s, DropObsolete(e, s, cl, at))
  {
    var r := Read(e, s);
    LinkSame(e, sc, s, r);
    LinkDropLoop(e, sc, r, cl, at, r.world.plugins, e.pluginOrder(s.calls, r.world.plugins.Keys));
  }

  /** What a tier needs so that its plugin pass, if it runs, has nothing to do. */
  ghost predicate NothingToDo(e: Env, w: World, cl: Cluster, at: nat)
    requires at < |cl.tiers|
  {
    TableFor(e, w, cl.tiers[at]) && Consistent(cl.tiers[at].plugins)
  }

  lemma QuietTier(e: Env, s: Session, cl: Cluster, at: nat)
    requires Valid(e) && KeysBuilt(e) && FaultFree(e) && s.ok && at < |cl.tiers|
    ensures var h := HandleTier(e, s, cl, at);
            && h.TierDone? && h.session.ok && Extends(s, h.session)
            && (Quiet(s, h.session) <==>
                  (IsReady(h.status) && cl.tiers[at].plugins != [] ==> NothingToDo(e, s.world, cl, at)))
            && (Quiet(s, h.session) ==> h.session.world.plugins == s.world.plugins)
  {
    HandledWithoutFaults(e, s, cl, at);
    TierSucceeds(e, s, cl, at);
    SuccessMeansTarget(e, s, cl, at);
    var api := Scope(cl, at, at, false, true);
    var made := ReconcileTier(e, s, cl, at);
    var seen := Read(e, made);
    LinkTier(e, api, s, cl, at);
    ApiIsQuiet(e, api, s, made);
    if IsReady(HandleTier(e, s, cl, at).status) && cl.tiers[at].plugins != [] {
      QuietPlugins(e, seen, cl, at);
      QuietTrans(s, seen, ReconcileTierPlugins(e, seen, cl, at));
      TableIsPlugins(e, s.world, made.world, cl.tiers[at]);
      if Quiet(s, ReconcileTierPlugins(e, seen, cl, at)) {
        var sql := Scope(cl, at, at, true, false);
        LinkTierPlugins(e, sql, seen, cl, at);
        QuietSqlIsNothing(e, sql, seen, ReconcileTierPlugins(e, seen, cl, at));
      }
    }
  }

  lemma TableIsPlugins(e: Env, a: World, b: World, t: Tier)
    requires a.plugins == b.plugins
    ensures TableFor(e, a, t) <==> TableFor(e, b, t)
  {
    SamePluginsSameHealth(e, a, b);
  }

  ghost predicate AllIdle(e: Env, w: World, cl: Cluster, done: seq<TierStatus>) {
    forall i: nat | Served(cl, done, i) :: NothingToDo(e, w, cl, i)
  }

  ghost predicate QuietSoFar(e: Env, cl: Cluster, s: Session, w: Walk, n: nat) {
    && w.stop == NoStop && w.session.ok && |w.done| == n && Extends(s, w.session)
    && (Quiet(s, w.session) <==> AllIdle(e, s.world, cl, w.done))
    && (Quiet(s, w.session) ==> w.session.world.plugins == s.world.plugins)
  }

  lemma AllIdleOneMore(e: Env, w: World, cl: Cluster, done: seq<TierStatus>, ts: TierStatus)
    requires |done| < |cl.tiers|
    ensures AllIdle(e, w, cl, done + [ts]) <==>
              AllIdle(e, w, cl, done)
              && (IsReady(ts) && cl.tiers[|done|].plugins != [] ==> NothingToDo(e, w, cl, |done|))
  {
    ServedOneMore(cl, done, ts);
    if AllIdle(e, w, cl, done + [ts]) {
      forall i: nat | Served(cl, done, i)
        ensures NothingToDo(e, w, cl, i)
      {
        assert Served(cl, done + [ts], i);
      }
      if IsReady(ts) && cl.tiers[|done|].plugins != [] {
        assert Served(cl, done + [ts], |done|);
      }
    }
  }

  lemma QuietWalkOn(e: Env, cl: Cluster, s: Session, w: Walk, at: nat)
    requires Valid(e) && KeysBuilt(e) && FaultFree(e) && at < |cl.tiers| && QuietSoFar(e, cl, s, w, at)
    ensures QuietSoFar(e, cl, s, WalkOn(e, w, cl, at), at + 1)
  {
    var h := HandleTier(e, w.session, cl, at);
    QuietTier(e, w.session, cl, at);
    QuietTrans(s, w.session, h.session);
    AllIdleOneMore(e, s.world, cl, w.done, h.status);
    if Quiet(s, w.session) {
      TableIsPlugins(e, s.world, w.session.world, cl.tiers[at]);
    }
  }

  lemma QuietWalk(e: Env, s: Session, cl: Cluster, n: nat)
    requires Valid(e) && KeysBuilt(e) && FaultFree(e) && s.ok && n <= |cl.tiers|
    ensures QuietSoFar(e, cl, s, TierWalk(e, s, cl, n), n)
  {
    var kept := (w: Walk, at: nat) => QuietSoFar(e, cl, s, w, at);
    assert forall i: nat :: !Served(cl, [], i);
    forall w: Walk, at: nat | at < |cl.tiers| && kept(w, at)
      ensures kept(WalkOn(e, w, cl, at), at + 1)
    {
      QuietWalkOn(e, cl, s, w, at);
    }
    WalkInduction(e, s, cl, n, kept);
  }

  /** A fault-free pass, from any world, issues no SQL statement exactly when every tier whose plugin
      pass runs finds the table to be exactly its own and declares no name twice with two versions. */
  lemma QuietPassIff(e: Env, s: Session, cl: Cluster)
    requires Valid(e) && KeysBuilt(e) && FaultFree(e) && s.ok
    ensures Reconcile(e, s, cl).ok && Extends(s, Reconcile(e, s, cl))
    ensures Quiet(s, Reconcile(e, s, cl)) <==> AllIdle(e, s.world, cl, WholeWalk(e, s, cl).done)
    ensures Quiet(s, Reconcile(e, s, cl)) ==> Reconcile(e, s, cl).world.plugins == s.world.plugins
    ensures Reconcile(e, s, cl).world.plugins == WholeWalk(e, s, cl).session.world.plugins
    ensures Reconcile(e, s, cl).world.objects == WholeWalk(e, s, cl).session.world.objects
  {
    var start := Read(e, s);
    var w, r := WholeWalk(e, s, cl), Reconcile(e, s, cl);
    QuietWalk(e, start, cl, |cl.tiers|);
    QuietTrans(start, w.session, r);
  }

  /** After a fault-free pass from any world, the table is exactly the one the last tier served wants,
      enabled and serving that tier. */
  lemma LastServedRules(e: Env, s: Session, cl: Cluster, i: nat)
    requires Valid(e) && KeysBuilt(e) && FaultFree(e) && s.ok
    requires LastServed(cl, WholeWalk(e, s, cl).done, i)
    ensures TableFor(e, Reconcile(e, s, cl).world, cl.tiers[i])
  {
    QuietPassIff(e, s, cl);
    SharedTableOutcome(e, Read(e, s), cl, |cl.tiers|);
    TableIsPlugins(e, WholeWalk(e, s, cl).session.world, Reconcile(e, s, cl).world, cl.tiers[i]);
  }

  /** If the tiers served want the same versions, it serves every one of them with every service. */
  lemma AllServedAlike(e: Env, s: Session, cl: Cluster, i: nat)
    requires Valid(e) && KeysBuilt(e) && FaultFree(e) && s.ok
    requires Served(cl, WholeWalk(e, s, cl).done, i) && Uniform(cl, WholeWalk(e, s, cl).done)
    ensures TableFor(e, Reconcile(e, s, cl).world, cl.tiers[i])
  {
    QuietPassIff(e, s, cl);
    SharedTableOutcome(e, Read(e, s), cl, |cl.tiers|);
    TableIsPlugins(e, WholeWalk(e, s, cl).session.world, Reconcile(e, s, cl).world, cl.tiers[i]);
  }

  ghost predicate AllConsistent(cl: Cluster, done: seq<TierStatus>) {
    forall i: nat | Served(cl, done, i) :: Consistent(cl.tiers[i].plugins)
  }

  lemma IdleMeansUniform(e: Env, w: World, cl: Cluster, done: seq<TierStatus>)
    requires AllIdle(e, w, cl, done)
    ensures Uniform(cl, done) && AllConsistent(cl, done)
  {
    forall i: nat, j: nat | Served(cl, done, i) && Served(cl, done, j)
      ensures SameVersions(cl.tiers[i], cl.tiers[j])
    {
      assert NothingToDo(e, w, cl, i) && NothingToDo(e, w, cl, j);
      forall x
        ensures IsDesired(cl.tiers[i].plugins, x) <==> IsDesired(cl.tiers[j].plugins, x)
      {
        assert x in w.plugins <==> IsDesired(cl.tiers[i].plugins, x);
        assert x in w.plugins <==> IsDesired(cl.tiers[j].plugins, x);
      }
    }
    forall i: nat | Served(cl, done, i)
      ensures Consistent(cl.tiers[i].plugins)
    {
      assert NothingToDo(e, w, cl, i);
    }
  }

  /** If the maps of two tiers differ, no fault-free pass that serves both is ever free of SQL. */
  lemma DifferentMapsNeverQuiet(e: Env, s: Session, cl: Cluster, i: nat, j: nat)
    requires Valid(e) && KeysBuilt(e) && FaultFree(e) && s.ok
    requires Served(cl, WholeWalk(e, s, cl).done, i) && Served(cl, WholeWalk(e, s, cl).done, j)
    requires !SameVersions(cl.tiers[i], cl.tiers[j])
    ensures !Quiet(s, Reconcile(e, s, cl))
  {
    QuietPassIff(e, s, cl);
    if AllIdle(e, s.world, cl, WholeWalk(e, s, cl).done) {
      IdleMeansUniform(e, s.world, cl, WholeWalk(e, s, cl).done);
    }
  }

  /** After one fault-free pass from any world, a second one over the same spec and the same ready
      tiers issues no SQL statement exactly when those tiers agree on the versions they want and
      none declares a name with two versions. */
  lemma SecondPassQuietIff(e: Env, s: Session, cl: Cluster)
    requires Valid(e) && KeysBuilt(e) && FaultFree(e) && s.ok
    requires var first := Reconcile(e, s, cl);
             forall i: nat :: Served(cl, WholeWalk(e, s, cl).done, i) <==> Served(cl, WholeWalk(e, first, cl).done, i)
    ensures var first, done := Reconcile(e, s, cl), WholeWalk(e, s, cl).done;
            Quiet(first, Reconcile(e, first, cl)) <==> Uniform(cl, done) && AllConsistent(cl, done)
  {
    var first := Reconcile(e, s, cl);
    var done, again := WholeWalk(e, s, cl).done, WholeWalk(e, first, cl).done;
    QuietPassIff(e, s, cl);
    QuietPassIff(e, first, cl);
    SharedTableOutcome(e, Read(e, s), cl, |cl.tiers|);
    SecondIdleIff(e, WholeWalk(e, s, cl), first.world, cl, s.world, again);
  }

  lemma SecondIdleIff(e: Env, w: Walk, world: World, cl: Cluster, before: World, again: seq<TierStatus>)
    requires TableAfter(e, cl, before, w, |cl.tiers|) && world.plugins == w.session.world.plugins
    requires forall i: nat :: Served(cl, w.done, i) <==> Served(cl, again, i)
    ensures AllIdle(e, world, cl, again) <==> Uniform(cl, w.done) && AllConsistent(cl, w.done)
  {
    if AllIdle(e, world, cl, again) {
      assert AllIdle(e, world, cl, w.done);
      IdleMeansUniform(e, world, cl, w.done);
    }
    if Uniform(cl, w.done) && AllConsistent(cl, w.done) {
      forall i: nat | Served(cl, again, i)
        ensures NothingToDo(e, world, cl, i)
      {
        assert Served(cl, w.done, i);
        TableIsPlugins(e, w.session.world, world, cl.tiers[i]);
      }
    }
  }

  // ---------------------------------------------------------------- who installs

  /** Between a and b only ADD SERVICE statements are issued; versions and their enabled flags stay. */
  ghost predicate OnlyBinds(a: Session, b: Session) {
    && Extends(a, b)
    && (forall i | |a.log| <= i < |b.log| :: b.log[i].command.AddService?)
    && (forall x :: x in a.world.plugins <==> x in b.world.plugins)
    && (forall x :: EnabledIn(a.world, x) <==> EnabledIn(b.world, x))
  }

  lemma OnlyBindsTrans(a: Session, b: Session, c: Session)
    requires OnlyBinds(a, b) && OnlyBinds(b, c)
    ensures OnlyBinds(a, c)
  {
    PrefixTrans(a.log, b.log, c.log);
  }

  lemma OnlyBindsDo(e: Env, s: Session, cl: Cluster, at: nat, c: Command)
    requires c.AddService?
    ensures OnlyBinds(s, Do(e, s, cl, at, c))
  {
  }

  lemma {:induction false} OnlyBindsRunAll(e: Env, s: Session, cl: Cluster, at: nat, cs: seq<Command>)
    requires forall c | c in cs :: c.AddService?
    ensures OnlyBinds(s, RunAll(e, s, cl, at, cs))
  {
    if cs != [] {
      assert cs[|cs| - 1] in cs && forall c | c in cs[..|cs| - 1] :: c in cs;
      OnlyBindsRunAll(e, s, cl, at, cs[..|cs| - 1]);
      OnlyBindsDo(e, RunAll(e, s, cl, at, cs[..|cs| - 1]), cl, at, cs[|cs| - 1]);
      OnlyBindsTrans(s, RunAll(e, s, cl, at, cs[..|cs| - 1]), RunAll(e, s, cl, at, cs));
    }
  }

  lemma OnlyBindsPlugin(e: Env, s: Session, cl: Cluster, at: nat, p: Plugin, tier: string)
    requires EnabledIn(s.world, Id(p))
    ensures OnlyBinds(s, ReconcilePlugin(e, s, cl, at, p, tier))
  {
    var r := Read(e, Read(e, s));
    var row := r.world.plugins[Id(p)];
    AddMissingInstalls(p, row, VisibleServices(e, Id(p), row), tier);
    OnlyBindsRunAll(e, r, cl, at, AddMissing(Id(p), row, VisibleServices(e, Id(p), row), tier));
  }

  lemma {:induction false} OnlyBindsLoop(e: Env, s: Session, cl: Cluster, at: nat, plugins: seq<Plugin>, tier: string)
    requires forall p | p in plugins :: EnabledIn(s.world, Id(p))
    ensures OnlyBinds(s, PluginLoop(e, s, cl, at, plugins, tier))
  {
    if plugins != [] {
      var init, last := plugins[..|plugins| - 1], plugins[|plugins| - 1];
      assert last in plugins && forall p | p in init :: p in plugins;
      OnlyBindsLoop(e, s, cl, at, init, tier);
      OnlyBindsPlugin(e, PluginLoop(e, s, cl, at, init, tier), cl, at, last, tier);
      OnlyBindsTrans(s, PluginLoop(e, s, cl, at, init, tier), PluginLoop(e, s, cl, at, plugins, tier));
    }
  }

  /** A tier that finds exactly its own versions installed and enabled issues ADD SERVICE only. */
  lemma LaterTierOnlyBinds(e: Env, s: Session, cl: Cluster, at: nat)
    requires Valid(e) && at < |cl.tiers| && Consistent(cl.tiers[at].plugins)
    requires forall x :: x in s.world.plugins <==> IsDesired(cl.tiers[at].plugins, x)
    requires forall x | x in s.world.plugins :: EnabledIn(s.world, x)
    ensures OnlyBinds(s, ReconcileTierPlugins(e, s, cl, at))
  {
    var t := cl.tiers[at];
    var r0 := Read(e, Read(e, s));
    DesiredIffConsistent(t.plugins);
    forall p | p in t.plugins
      ensures EnabledIn(s.world, Id(p))
    {
      var i :| 0 <= i < |t.plugins| && t.plugins[i] == p;
      assert DeclaredId(t.plugins, Id(t.plugins[i]));
    }
    OnlyBindsLoop(e, r0, cl, at, t.plugins, t.name);
    var looped := PluginLoop(e, r0, cl, at, t.plugins, t.name);
    var r := Read(e, looped);
    var ids := e.pluginOrder(looped.calls, r.world.plugins.Keys);
    assert Lists(ids, r.world.plugins.Keys);
    DropNothing(e, r, cl, at, r.world.plugins, ids);
  }

  /** Tier number `at` is the first whose plugin pass runs. */
  predicate FirstServed(cl: Cluster, done: seq<TierStatus>, at: nat) {
    Served(cl, done, at) && forall j: nat | j < at :: !Served(cl, done, j)
  }

  /** Every statement belongs to a tier served; if it is not ADD SERVICE, to the first one. */
  ghost predicate FirstInstalls(cl: Cluster, s: Session, r: Session, done: seq<TierStatus>) {
    forall i | |s.log| <= i < |r.log| && IsSql(r.log[i].command) ::
      && Served(cl, done, r.log[i].at)
      && (!r.log[i].command.AddService? ==> FirstServed(cl, done, r.log[i].at))
  }

  ghost predicate InstallsSoFar(e: Env, cl: Cluster, s: Session, w: Walk, n: nat) {
    && TableAfter(e, cl, s.world, w, n) && WalkLinked(e, s, cl, w, n)
    && (forall i | |s.log| <= i < |w.session.log| :: w.session.log[i].at < n)
    && (Uniform(cl, w.done) && AllConsistent(cl, w.done) ==> FirstInstalls(cl, s, w.session, w.done))
  }

  lemma TierStepsOfTier(e: Env, s: Session, cl: Cluster, at: nat)
    requires at < |cl.tiers|
    ensures var r := HandleTier(e, s, cl, at).session;
            Extends(s, r) && forall i | |s.log| <= i < |r.log| :: r.log[i].at == at
  {
    HandledLink(e, s, cl, at);
    var r := HandleTier(e, s, cl, at).session;
    forall i | |s.log| <= i < |r.log|
      ensures r.log[i].at == at
    {
      assert StepIn(e, Scope(cl, at, at, true, true), r.log[i]);
    }
  }

  /** Between a and b no SQL statement but ADD SERVICE is issued. */
  ghost predicate NoInstall(a: Session, b: Session) {
    forall i | |a.log| <= i < |b.log| :: IsSql(b.log[i].command) ==> b.log[i].command.AddService?
  }

  lemma LaterTierInstallsNothing(e: Env, s: Session, cl: Cluster, at: nat, other: Tier)
    requires Valid(e) && KeysBuilt(e) && FaultFree(e) && s.ok && at < |cl.tiers|
    requires TableFor(e, s.world, other) && SameVersions(other, cl.tiers[at]) && Consistent(cl.tiers[at].plugins)
    ensures NoInstall(s, HandleTier(e, s, cl, at).session)
  {
    TierSucceeds(e, s, cl, at);
    SuccessMeansTarget(e, s, cl, at);
    var api := Scope(cl, at, at, false, true);
    var made := ReconcileTier(e, s, cl, at);
    var seen := Read(e, made);
    LinkTier(e, api, s, cl, at);
    ApiIsQuiet(e, api, s, made);
    forall x
      ensures x in seen.world.plugins <==> IsDesired(cl.tiers[at].plugins, x)
      ensures x in seen.world.plugins ==> EnabledIn(seen.world, x)
    {
      assert IsDesired(other.plugins, x) <==> IsDesired(cl.tiers[at].plugins, x);
    }
    LaterTierOnlyBinds(e, seen, cl, at);
    var served := ReconcileTierPlugins(e, seen, cl, at);
    assert forall i | 0 <= i < |made.log| :: served.log[i] == served.log[..|made.log|][i];
  }

  lemma FirstInstallsOneMore(cl: Cluster, s: Session, a: Session, b: Session, done: seq<TierStatus>, ts: TierStatus)
    requires Extends(s, a) && Extends(a, b) && |done| < |cl.tiers| && FirstInstalls(cl, s, a, done)
    requires forall i | |s.log| <= i < |a.log| :: a.log[i].at < |done|
    requires forall i | |a.log| <= i < |b.log| :: b.log[i].at == |done|
    requires (exists j: nat :: Served(cl, done, j)) ==> NoInstall(a, b)
    requires !(IsReady(ts) && cl.tiers[|done|].plugins != []) ==> Quiet(a, b)
    ensures FirstInstalls(cl, s, b, done + [ts])
  {
    PrefixTrans(s.log, a.log, b.log);
    ServedOneMore(cl, done, ts);
    forall i | |s.log| <= i < |b.log| && IsSql(b.log[i].command)
      ensures Served(cl, done + [ts], b.log[i].at)
      ensures !b.log[i].command.AddService? ==> FirstServed(cl, done + [ts], b.log[i].at)
    {
      if i < |a.log| {
        assert b.log[i] == a.log[i];
      }
    }
  }

  lemma StepsBefore(s: Session, a: Session, b: Session, at: nat)
    requires Extends(s, a) && Extends(a, b)
    requires forall i | |s.log| <= i < |a.log| :: a.log[i].at < at
    requires forall i | |a.log| <= i < |b.log| :: b.log[i].at == at
    ensures forall i | |s.log| <= i < |b.log| :: b.log[i].at < at + 1
  {
    PrefixTrans(s.log, a.log, b.log);
  }

  lemma InstallsWalkOn(e: Env, cl: Cluster, s: Session, w: Walk, at: nat)
    requires Valid(e) && KeysBuilt(e) && FaultFree(e) && at < |cl.tiers| && InstallsSoFar(e, cl, s, w, at)
    ensures InstallsSoFar(e, cl, s, WalkOn(e, w, cl, at), at + 1)
  {
    var v := WalkOn(e, w, cl, at);
    var h := HandleTier(e, w.session, cl, at);
    TableWalkOn(e, cl, s.world, w, at);
    WalkOnLink(e, s, w, cl, at);
    QuietTier(e, w.session, cl, at);
    TierStepsOfTier(e, w.session, cl, at);
    StepsBefore(s, w.session, v.session, at);
    if Uniform(cl, v.done) && AllConsistent(cl, v.done) {
      InstallsUnlessServed(e, cl, s, w, at);
      FirstInstallsOneMore(cl, s, w.session, v.session, w.done, h.status);
    }
  }

  lemma InstallsUnlessServed(e: Env, cl: Cluster, s: Session, w: Walk, at: nat)
    requires Valid(e) && KeysBuilt(e) && FaultFree(e) && at < |cl.tiers| && InstallsSoFar(e, cl, s, w, at)
    requires var v := WalkOn(e, w, cl, at);
             v.stop == NoStop && v.done == w.done + [HandleTier(e, w.session, cl, at).status]
             && Uniform(cl, v.done) && AllConsistent(cl, v.done)
    ensures FirstInstalls(cl, s, w.session, w.done)
    ensures (exists j: nat :: Served(cl, w.done, j)) ==> NoInstall(w.session, HandleTier(e, w.session, cl, at).session)
  {
    var h := HandleTier(e, w.session, cl, at);
    ServedOneMore(cl, w.done, h.status);
    UniformOneMore(cl, w.done, h.status);
    forall i: nat | Served(cl, w.done, i)
      ensures Consistent(cl.tiers[i].plugins)
    {
      assert Served(cl, w.done + [h.status], i);
    }
    if j: nat :| Served(cl, w.done, j) {
      if Served(cl, w.done + [h.status], at) {
        LaterTierInstallsNothing(e, w.session, cl, at, cl.tiers[j]);
      } else {
        QuietTier(e, w.session, cl, at);
      }
    }
  }

  /** In a fault-free pass over tiers that agree on their versions, every statement belongs to a tier
      served, and only the first of them can issue anything but ADD SERVICE: one tier installs, the
      others are added to it. */
  lemma OneTierInstalls(e: Env, s: Session, cl: Cluster)
    requires Valid(e) && KeysBuilt(e) && FaultFree(e) && s.ok
    requires var done := WholeWalk(e, s, cl).done; Uniform(cl, done) && AllConsistent(cl, done)
    ensures FirstInstalls(cl, s, Reconcile(e, s, cl), WholeWalk(e, s, cl).done)
  {
    var start := Read(e, s);
    var kept := (w: Walk, at: nat) => InstallsSoFar(e, cl, start, w, at);
    LinkSame(e, Scope(cl, 0, 0, true, true), start, start);
    assert forall i: nat :: !Served(cl, [], i);
    forall w: Walk, at: nat | at < |cl.tiers| && kept(w, at)
      ensures kept(WalkOn(e, w, cl, at), at + 1)
    {
      InstallsWalkOn(e, cl, start, w, at);
    }
    WalkInduction(e, start, cl, |cl.tiers|, kept);
  }

  // ---------------------------------------------------------------- objects

  lemma TargetKeepsOwned(e: Env, cl: Cluster, at: nat, a: World, b: World)
    requires KeysBuilt(e) && at < |cl.tiers| && Owned(cl.id, a) && IsTarget(e, cl, at, a.objects, b.objects)
    ensures Owned(cl.id, b)
  {
    forall k | k in b.objects && k.kind == StatefulSetKind && Ours(cl.id, b.objects[k])
      ensures exists tier, i :: IsReplicaset(cl.id, k, b.objects[k], tier, i)
    {
      if OwnKey(e, cl, at, k) {
        OwnKeyIsTierKey(e, cl, at, k);
        var i: nat :| IsOwnSet(cl, at, k, i);
        OwnSetIsOwnKey(e, cl, at, k, i);
        assert IsReplicaset(cl.id, k, b.objects[k], cl.tiers[at].name, i);
      } else {
        var tier, i :| IsReplicaset(cl.id, k, a.objects[k], tier, i);
        assert IsReplicaset(cl.id, k, b.objects[k], tier, i);
      }
    }
  }

  ghost predicate RestSoFar(e: Env, cl: Cluster, w: Walk, n: nat) {
    && w.stop == NoStop && w.session.ok && n <= |cl.tiers|
    && forall i: nat | i < n :: AtRest(e, cl, i, w.session.world.objects)
  }

  lemma RestWalkOn(e: Env, cl: Cluster, w: Walk, at: nat)
    requires Valid(e) && KeysBuilt(e) && FaultFree(e) && AllCompatible(e, cl)
    requires at < |cl.tiers| && RestSoFar(e, cl, w, at)
    ensures RestSoFar(e, cl, WalkOn(e, w, cl, at), at + 1)
  {
    HandledWithoutFaults(e, w.session, cl, at);
    var a, b := w.session.world, WalkOn(e, w, cl, at).session.world;
    TargetIsAtRest(e, cl, at, a.objects, b.objects);
    forall i: nat | i < at
      ensures AtRest(e, cl, i, b.objects)
    {
      RestSurvivesOtherTier(e, cl, at, i, a.objects, b.objects);
    }
  }

  /** A fault-free loop over tiers that get along leaves every tier at rest: its objects as desired,
      and no replicaset too many. */
  lemma AllTiersAtRest(e: Env, s: Session, cl: Cluster)
    requires Valid(e) && KeysBuilt(e) && FaultFree(e) && s.ok && AllCompatible(e, cl)
    ensures RestSoFar(e, cl, TierWalk(e, s, cl, |cl.tiers|), |cl.tiers|)
  {
    var kept := (w: Walk, at: nat) => RestSoFar(e, cl, w, at);
    forall w: Walk, at: nat | at < |cl.tiers| && kept(w, at)
      ensures kept(WalkOn(e, w, cl, at), at + 1)
    {
      RestWalkOn(e, cl, w, at);
    }
    WalkInduction(e, s, cl, |cl.tiers|, kept);
  }

  lemma OwnedWalk(e: Env, s: Session, cl: Cluster, n: nat)
    requires Valid(e) && KeysBuilt(e) && FaultFree(e) && s.ok && Owned(cl.id, s.world) && n <= |cl.tiers|
    ensures Owned(cl.id, TierWalk(e, s, cl, n).session.world)
  {
    var kept := (w: Walk, at: nat) => w.stop == NoStop && w.session.ok && Owned(cl.id, w.session.world);
    forall w: Walk, at: nat | at < |cl.tiers| && kept(w, at)
      ensures kept(WalkOn(e, w, cl, at), at + 1)
    {
      HandledWithoutFaults(e, w.session, cl, at);
      TargetKeepsOwned(e, cl, at, w.session.world, WalkOn(e, w, cl, at).session.world);
    }
    WalkInduction(e, s, cl, n, kept);
  }

  ghost predicate AllAtRest(e: Env, cl: Cluster, objects: map<Key, Object>) {
    forall i: nat | i < |cl.tiers| :: AtRest(e, cl, i, objects)
  }

  lemma RestMeansCompatible(e: Env, cl: Cluster, objects: map<Key, Object>)
    requires AllAtRest(e, cl, objects)
    ensures AllCompatible(e, cl)
  {
    forall i: nat, j: nat | i < |cl.tiers| && j < |cl.tiers| && i != j
      ensures Compatible(e, cl, i, j)
    {
      RestTogether(e, cl, i, j, objects);
    }
  }

  /** A fault-free pass from any world leaves every tier at rest exactly if the tiers get along. */
  lemma PassRestsIff(e: Env, s: Session, cl: Cluster)
    requires Valid(e) && KeysBuilt(e) && FaultFree(e) && s.ok
    ensures AllAtRest(e, cl, Reconcile(e, s, cl).world.objects) <==> AllCompatible(e, cl)
  {
    QuietPassIff(e, s, cl);
    if AllCompatible(e, cl) {
      AllTiersAtRest(e, Read(e, s), cl);
    }
    if AllAtRest(e, cl, Reconcile(e, s, cl).world.objects) {
      RestMeansCompatible(e, cl, Reconcile(e, s, cl).world.objects);
    }
  }

  /** The first n tiers of a pass leave the store as the pass finds it. */
  ghost predicate StoreKept(e: Env, s: Session, cl: Cluster, n: nat)
    requires n <= |cl.tiers|
  {
    TierWalk(e, Read(e, s), cl, n).session.world.objects == s.world.objects
  }

  lemma RestingWalk(e: Env, s: Session, cl: Cluster, n: nat)
    requires Valid(e) && KeysBuilt(e) && FaultFree(e) && s.ok && AllAtRest(e, cl, s.world.objects) && n <= |cl.tiers|
    ensures StoreKept(e, s, cl, n)
  {
    var kept := (w: Walk, at: nat) => w.stop == NoStop && w.session.ok && w.session.world.objects == s.world.objects;
    forall w: Walk, at: nat | at < |cl.tiers| && kept(w, at)
      ensures kept(WalkOn(e, w, cl, at), at + 1)
    {
      HandledWithoutFaults(e, w.session, cl, at);
      RestIsFixed(e, cl, at, s.world.objects, WalkOn(e, w, cl, at).session.world.objects);
    }
    WalkInduction(e, Read(e, s), cl, n, kept);
  }

  /** If no tier of a pass changes the store, every tier was at rest. */
  lemma KeptMeansRest(e: Env, s: Session, cl: Cluster, i: nat)
    requires Valid(e) && KeysBuilt(e) && FaultFree(e) && s.ok && i < |cl.tiers|
    requires StoreKept(e, s, cl, i) && StoreKept(e, s, cl, i + 1)
    ensures AtRest(e, cl, i, s.world.objects)
  {
    var w := TierWalk(e, Read(e, s), cl, i);
    SharedTableOutcome(e, Read(e, s), cl, i);
    HandledWithoutFaults(e, w.session, cl, i);
    assert TierWalk(e, Read(e, s), cl, i + 1) == WalkOn(e, w, cl, i);
    TargetIsAtRest(e, cl, i, s.world.objects, s.world.objects);
  }

  /** After a fault-free pass from any world, no tier of the next one over the same spec changes any
      object, whatever the pods report in between, exactly if the tiers get along. */
  lemma SecondPassChangesNoObject(e: Env, s: Session, cl: Cluster)
    requires Valid(e) && KeysBuilt(e) && FaultFree(e) && s.ok
    ensures (forall n: nat | n <= |cl.tiers| :: StoreKept(e, Reconcile(e, s, cl), cl, n)) <==> AllCompatible(e, cl)
    ensures AllCompatible(e, cl) ==>
              Reconcile(e, Reconcile(e, s, cl), cl).world.objects == Reconcile(e, s, cl).world.objects
  {
    var first := Reconcile(e, s, cl);
    PassRestsIff(e, s, cl);
    QuietPassIff(e, s, cl);
    QuietPassIff(e, first, cl);
    if AllCompatible(e, cl) {
      forall n: nat | n <= |cl.tiers|
        ensures StoreKept(e, first, cl, n)
      {
        RestingWalk(e, first, cl, n);
      }
      assert StoreKept(e, first, cl, |cl.tiers|);
    }
    if forall n: nat | n <= |cl.tiers| :: StoreKept(e, first, cl, n) {
      forall i: nat | i < |cl.tiers|
        ensures AtRest(e, cl, i, first.world.objects)
      {
        KeptMeansRest(e, first, cl, i);
      }
      RestMeansCompatible(e, cl, first.world.objects);
    }
  }
}
