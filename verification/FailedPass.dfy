/** What a pass that stops at some tier, for whatever fault, leaves of the later tiers: their objects
    as they were, and of their plugins all but what earlier tiers remove. */
module FailedPass {
  import opened Text
  import opened Types
  import opened Names
  import opened Builders
  import opened Machine
  import opened Protocol
  import opened Invariants
  import opened Safety
  import opened PluginEffects
  import opened PluginSafety
  import opened Runs
  import opened RunTheorems
  import opened TierTheorems
  import opened PluginConvergence
  import opened Links
  import opened Passes
  import opened CrossTier
  import opened Quiescence
  import opened Recovery

  // ---------------------------------------------------------------- the steps of one pass

  /** Every step a pass appends is for a tier up to number k, or writes the status. */
  ghost predicate StepUpTo(cl: Cluster, k: nat, st: Step) {
    st.cluster == cl && (st.at <= k || st.command.PatchStatus?)
  }

  /** r continues s by safe steps for tiers up to k. */
  ghost predicate PassUpTo(e: Env, specs: seq<Cluster>, w0: World, s: Session, r: Session, cl: Cluster, k: nat) {
    && Extends(s, r) && Chained(w0, s.log, s.world) && Chained(w0, r.log, r.world)
    && forall i | |s.log| <= i < |r.log| :: StepUpTo(cl, k, r.log[i]) && StepSafe(e, cl.id, specs, r.log[i])
  }

  lemma FinishAppends(e: Env, w: Walk, cl: Cluster)
    ensures var r := FinishPass(e, w, cl);
            && Extends(w.session, r)
            && forall i | |w.session.log| <= i < |r.log| :: r.log[i].cluster == cl && r.log[i].command.PatchStatus?
  {
  }

  lemma WalkStepsUpTo(e: Env, s: Session, cl: Cluster)
    requires Read(e, s).ok
    ensures var w, r := WholeWalk(e, s, cl), Reconcile(e, s, cl);
            Extends(s, r) && forall i | |s.log| <= i < |r.log| :: StepUpTo(cl, |w.done|, r.log[i])
  {
    var w, r := WholeWalk(e, s, cl), Reconcile(e, s, cl);
    WalkLink(e, Read(e, s), cl, |cl.tiers|);
    FinishAppends(e, w, cl);
    PrefixTrans(s.log, w.session.log, r.log);
    forall i | |s.log| <= i < |r.log|
      ensures StepUpTo(cl, |w.done|, r.log[i])
    {
      if i < |w.session.log| {
        assert r.log[i] == w.session.log[i];
        assert StepIn(e, Scope(cl, 0, |w.done|, true, true), w.session.log[i]);
      }
    }
  }

  lemma PassIsUpTo(e: Env, specs: seq<Cluster>, w0: World, s: Session, cl: Cluster)
    requires Valid(e) && KeysBuilt(e) && Safe(e, cl.id, specs, w0, s) && cl in specs && Read(e, s).ok
    ensures PassUpTo(e, specs, w0, s, Reconcile(e, s, cl), cl, |WholeWalk(e, s, cl).done|)
  {
    WalkStepsUpTo(e, s, cl);
    SafeReconcile(e, specs, w0, s, cl);
  }

  lemma StartsAt(w0: World, s: Session, r: Session)
    requires Extends(s, r) && Chained(w0, s.log, s.world)
    ensures WorldAt(w0, r.log, |s.log|) == s.world
  {
    assert |s.log| > 0 ==> r.log[|s.log| - 1] == s.log[|s.log| - 1];
  }

  /** What each step for a tier up to k keeps, holds at the end if it held at the beginning. */
  lemma PassKeeps(
      e: Env, specs: seq<Cluster>, w0: World, s: Session, r: Session, cl: Cluster, k: nat, kept: World -> bool)
    requires PassUpTo(e, specs, w0, s, r, cl, k) && kept(s.world)
    requires forall st | StepSafe(e, cl.id, specs, st) && StepUpTo(cl, k, st) && kept(st.before) :: kept(st.after)
    ensures kept(r.world)
  {
    StartsAt(w0, s, r);
    forall m | |s.log| <= m < |r.log| && kept(WorldAt(w0, r.log, m))
      ensures kept(WorldAt(w0, r.log, m + 1))
    {
      assert r.log[m].before == WorldAt(w0, r.log, m);
      assert StepSafe(e, cl.id, specs, r.log[m]) && StepUpTo(cl, k, r.log[m]);
    }
    KeptAlong(w0, r.log, |s.log|, |r.log|, kept);
  }

  // ---------------------------------------------------------------- objects

  ghost predicate SameObject(a: World, b: World, key: Key) {
    (key in b.objects <==> key in a.objects) && (key in b.objects ==> b.objects[key] == a.objects[key])
  }

  /** A step changes objects of its own tier only. */
  lemma StepTouchesOwn(e: Env, id: Identity, specs: seq<Cluster>, st: Step, key: Key)
    requires KeysBuilt(e) && StepSafe(e, id, specs, st) && !SameObject(st.before, st.after, key)
    ensures st.at < |st.cluster.tiers| && TierKey(id, st.cluster.tiers[st.at].name, key)
  {
    var c := st.command;
    if c.CreateObject? || c.PatchObject? {
      SubmittedKeyIsTierKey(e, st.cluster, st.at, st.before, c.key, c.content);
    } else if c.DeleteObject? {
      var i: nat :| i > SetCount(st.cluster.tiers[st.at]) && c.key == SetKey(id, st.cluster.tiers[st.at].name, i);
    }
  }

  /** No tier up to number k could have the object. */
  ghost predicate NotUpTo(cl: Cluster, k: nat, key: Key) {
    forall i: nat | i <= k && i < |cl.tiers| :: !TierKey(cl.id, cl.tiers[i].name, key)
  }

  lemma LaterObjectKept(e: Env, specs: seq<Cluster>, cl: Cluster, k: nat, st: Step, key: Key)
    requires KeysBuilt(e) && NotUpTo(cl, k, key)
    requires StepSafe(e, cl.id, specs, st) && StepUpTo(cl, k, st)
    ensures SameObject(st.before, st.after, key)
  {
    if !SameObject(st.before, st.after, key) {
      StepTouchesOwn(e, cl.id, specs, st, key);
    }
  }

  lemma LaterObjectsKept(e: Env, specs: seq<Cluster>, w0: World, s: Session, r: Session, cl: Cluster, k: nat, key: Key)
    requires KeysBuilt(e) && NotUpTo(cl, k, key) && PassUpTo(e, specs, w0, s, r, cl, k)
    ensures SameObject(s.world, r.world, key)
  {
    var kept := (w: World) => SameObject(s.world, w, key);
    forall st | StepSafe(e, cl.id, specs, st) && StepUpTo(cl, k, st) && kept(st.before)
      ensures kept(st.after)
    {
      LaterObjectKept(e, specs, cl, k, st, key);
    }
    PassKeeps(e, specs, w0, s, r, cl, k, kept);
  }

  /** Under any faults: when a pass of a run stops at tier k, every object that no tier up to k could
      have is there after the pass exactly if it was before, and is the same. */
  lemma LaterTiersUntouched(e: Env, id: Identity, w0: World, specs: seq<Cluster>, n: nat, key: Key)
    requires Legal(e, id, w0, specs) && n < |specs| && Read(e, BeforePass(e, w0, specs, n)).ok
    requires NotUpTo(specs[n], |WholeWalk(e, BeforePass(e, w0, specs, n), specs[n]).done|, key)
    ensures SameObject(BeforePass(e, w0, specs, n).world,
                       Reconcile(e, BeforePass(e, w0, specs, n), specs[n]).world, key)
  {
    var s, cl := BeforePass(e, w0, specs, n), specs[n];
    assert cl in specs;
    RunIsSafe(e, id, w0, specs, n);
    PassIsUpTo(e, specs, w0, s, cl);
    LaterObjectsKept(e, specs, w0, s, Reconcile(e, s, cl), cl, |WholeWalk(e, s, cl).done|, key);
  }

  /** That covers all possible objects of tier j exactly if no tier up to k has its name or a clashing
      Service name. */
  lemma LaterTierApartIff(cl: Cluster, k: nat, j: nat)
    requires j < |cl.tiers|
    ensures (forall key | TierKey(cl.id, cl.tiers[j].name, key) :: NotUpTo(cl, k, key))
       <==> (forall i: nat | i <= k && i < |cl.tiers| ::
               && cl.tiers[i].name != cl.tiers[j].name
               && !ServicesClash(cl.id, cl.tiers[i].name, cl.tiers[j].name)
               && !ServicesClash(cl.id, cl.tiers[j].name, cl.tiers[i].name))
  {
    forall i: nat | i <= k && i < |cl.tiers|
      ensures (forall key :: !(TierKey(cl.id, cl.tiers[i].name, key) && TierKey(cl.id, cl.tiers[j].name, key)))
         <==> cl.tiers[i].name != cl.tiers[j].name
              && !ServicesClash(cl.id, cl.tiers[i].name, cl.tiers[j].name)
              && !ServicesClash(cl.id, cl.tiers[j].name, cl.tiers[i].name)
    {
      NoSharedKeyIff(cl.id, cl.tiers[i].name, cl.tiers[j].name);
    }
    if forall key | TierKey(cl.id, cl.tiers[j].name, key) :: NotUpTo(cl, k, key) {
      forall i: nat, key | i <= k && i < |cl.tiers|
        ensures !(TierKey(cl.id, cl.tiers[i].name, key) && TierKey(cl.id, cl.tiers[j].name, key))
      {
        assert TierKey(cl.id, cl.tiers[j].name, key) ==> NotUpTo(cl, k, key);
      }
    }
  }

  // ---------------------------------------------------------------- plugins

  /** Some tier up to number k declares the version. */
  ghost predicate DeclaredUpTo(cl: Cluster, k: nat, x: PluginId) {
    exists at: nat, p :: at <= k && at < |cl.tiers| && Declares(cl.tiers[at], p, x)
  }

  /** b has the version only if a has, as it was or disabled. */
  ghost predicate OnlyRemoved(a: World, b: World, x: PluginId) {
    x in b.plugins ==>
      && x in a.plugins
      && (b.plugins[x] == a.plugins[x] || b.plugins[x] == a.plugins[x].(enabled := false))
  }

  lemma UndeclaredKept(
      e: Env, specs: seq<Cluster>, cl: Cluster, k: nat, st: Step, before: World, x: PluginId)
    requires StepSafe(e, cl.id, specs, st) && StepUpTo(cl, k, st) && !DeclaredUpTo(cl, k, x)
    requires OnlyRemoved(before, st.before, x)
    ensures OnlyRemoved(before, st.after, x)
  {
    var c := st.command;
    if c.CreatePlugin? || c.AddService? || c.SetContext? || c.MigratePlugin? || c.EnablePlugin? {
      var p :| Declares(cl.tiers[st.at], p, c.id);
      assert DeclaredUpTo(cl, k, c.id);
    }
  }

  /** The service is bound to the tier only if it was. */
  ghost predicate NotNewlyBound(a: World, b: World, x: PluginId, svc: string, tier: string) {
    x in b.plugins && Bound(b.plugins[x], svc, tier) ==> x in a.plugins && Bound(a.plugins[x], svc, tier)
  }

  /** A new binding is to the tier it was made for, in some letter case. */
  lemma BindingIsOwn(e: Env, row: Install, service: string, tier: string, svc: string, other: string)
    requires EqualFold(e.spelling(tier), tier) && !EqualFold(tier, other)
    requires Bound(WithBinding(e, row, service, tier), svc, other)
    ensures Bound(row, svc, other)
  {
    var xs, ys := Tiers(row, svc), Tiers(WithBinding(e, row, service, tier), svc);
    var i :| 0 <= i < |ys| && EqualFold(ys[i], other);
    assert i < |xs| && EqualFold(xs[i], other);
  }

  lemma LaterBindingKept(
      e: Env, specs: seq<Cluster>, cl: Cluster, k: nat, st: Step, before: World, x: PluginId, svc: string, tier: string)
    requires Valid(e) && StepSafe(e, cl.id, specs, st) && StepUpTo(cl, k, st)
    requires forall at: nat | at <= k && at < |cl.tiers| :: !EqualFold(cl.tiers[at].name, tier)
    requires NotNewlyBound(before, st.before, x, svc, tier)
    ensures NotNewlyBound(before, st.after, x, svc, tier)
  {
    if st.after != st.before && st.command.AddService? && st.command.id == x {
      assert st.command.tier == cl.tiers[st.at].name;
      if Bound(st.after.plugins[x], svc, tier) {
        BindingIsOwn(e, st.before.plugins[x], st.command.service, st.command.tier, svc, tier);
      }
    } else {
      OtherStepsBindNothing(e, st, x, svc, tier);
    }
  }

  lemma OtherStepsBindNothing(e: Env, st: Step, x: PluginId, svc: string, tier: string)
    requires st.after == st.before || Took(e, st)
    requires st.after == st.before || !st.command.AddService? || st.command.id != x
    ensures NotNewlyBound(st.before, st.after, x, svc, tier)
  {
    if x in st.before.plugins && x in st.after.plugins && !st.command.CreatePlugin? {
      assert st.after.plugins[x].bound == st.before.plugins[x].bound;
      assert Tiers(st.after.plugins[x], svc) == Tiers(st.before.plugins[x], svc);
    }
  }

  /** Under any faults: when a pass of a run stops at tier k, a version that no tier up to k declares is
      afterwards as it was, disabled, or gone, and no service gets bound to a tier whose name is not,
      in some letter case, that of a tier up to k. */
  lemma LaterPluginsOnlyRemoved(e: Env, id: Identity, w0: World, specs: seq<Cluster>, n: nat, x: PluginId)
    requires Legal(e, id, w0, specs) && n < |specs| && Read(e, BeforePass(e, w0, specs, n)).ok
    ensures var s, cl := BeforePass(e, w0, specs, n), specs[n];
            var k, r := |WholeWalk(e, s, cl).done|, Reconcile(e, s, cl);
            && (!DeclaredUpTo(cl, k, x) ==> OnlyRemoved(s.world, r.world, x))
            && forall svc, tier |
                 (forall at: nat | at <= k && at < |cl.tiers| :: !EqualFold(cl.tiers[at].name, tier)) ::
                 NotNewlyBound(s.world, r.world, x, svc, tier)
  {
    var s, cl := BeforePass(e, w0, specs, n), specs[n];
    var k, r := |WholeWalk(e, s, cl).done|, Reconcile(e, s, cl);
    assert cl in specs;
    RunIsSafe(e, id, w0, specs, n);
    PassIsUpTo(e, specs, w0, s, cl);
    if !DeclaredUpTo(cl, k, x) {
      UndeclaredRowsKept(e, specs, w0, s, r, cl, k, x);
    }
    forall svc, tier | forall at: nat | at <= k && at < |cl.tiers| :: !EqualFold(cl.tiers[at].name, tier)
      ensures NotNewlyBound(s.world, r.world, x, svc, tier)
    {
      LaterBindingsKept(e, specs, w0, s, r, cl, k, x, svc, tier);
    }
  }

  lemma UndeclaredRowsKept(
      e: Env, specs: seq<Cluster>, w0: World, s: Session, r: Session, cl: Cluster, k: nat, x: PluginId)
    requires PassUpTo(e, specs, w0, s, r, cl, k) && !DeclaredUpTo(cl, k, x)
    ensures OnlyRemoved(s.world, r.world, x)
  {
    var kept := (w: World) => OnlyRemoved(s.world, w, x);
    forall st | StepSafe(e, cl.id, specs, st) && StepUpTo(cl, k, st) && kept(st.before)
      ensures kept(st.after)
    {
      UndeclaredKept(e, specs, cl, k, st, s.world, x);
    }
    PassKeeps(e, specs, w0, s, r, cl, k, kept);
  }

  lemma LaterBindingsKept(
      e: Env, specs: seq<Cluster>, w0: World, s: Session, r: Session, cl: Cluster, k: nat,
      x: PluginId, svc: string, tier: string)
    requires Valid(e) && PassUpTo(e, specs, w0, s, r, cl, k)
    requires forall at: nat | at <= k && at < |cl.tiers| :: !EqualFold(cl.tiers[at].name, tier)
    ensures NotNewlyBound(s.world, r.world, x, svc, tier)
  {
    var kept := (w: World) => NotNewlyBound(s.world, w, x, svc, tier);
    forall st | StepSafe(e, cl.id, specs, st) && StepUpTo(cl, k, st) && kept(st.before)
      ensures kept(st.after)
    {
      LaterBindingKept(e, specs, cl, k, st, s.world, x, svc, tier);
    }
    PassKeeps(e, specs, w0, s, r, cl, k, kept);
  }

  // ---------------------------------------------------------------- when nothing is removed

  predicate Removes(c: Command) {
    c.DisablePlugin? || c.DropPlugin?
  }

  /** Between a and b no version is disabled or dropped. */
  ghost predicate NoRemoval(a: Session, b: Session) {
    Extends(a, b) && forall i | |a.log| <= i < |b.log| :: !Removes(b.log[i].command)
  }

  lemma NoRemovalTrans(a: Session, b: Session, c: Session)
    requires NoRemoval(a, b) && NoRemoval(b, c)
    ensures NoRemoval(a, c)
  {
    PrefixTrans(a.log, b.log, c.log);
  }

  lemma NoRemovalDo(e: Env, a: Session, s: Session, cl: Cluster, at: nat, c: Command)
    requires NoRemoval(a, s) && !Removes(c)
    ensures NoRemoval(a, Do(e, s, cl, at, c))
  {
  }

  lemma {:induction false} NoRemovalRunAll(e: Env, s: Session, cl: Cluster, at: nat, cs: seq<Command>)
    requires forall c | c in cs :: !Removes(c)
    ensures NoRemoval(s, RunAll(e, s, cl, at, cs))
  {
    if cs != [] {
      assert cs[|cs| - 1] in cs && forall c | c in cs[..|cs| - 1] :: c in cs;
      NoRemovalRunAll(e, s, cl, at, cs[..|cs| - 1]);
      NoRemovalDo(e, s, RunAll(e, s, cl, at, cs[..|cs| - 1]), cl, at, cs[|cs| - 1]);
    }
  }

  lemma NoRemovalPrepare(e: Env, s: Session, cl: Cluster, at: nat, p: Plugin, tier: string)
    ensures NoRemoval(s, Prepare(e, s, cl, at, p, tier))
  {
    if !EnabledIn(s.world, Id(p)) {
      var keys := ContextKeys(e, s.calls, p);
      var created := Created(e, s, cl, at, p);
      InstallScriptInstalls(p, tier, keys);
      NoRemovalDo(e, s, s, cl, at, CreatePlugin(Id(p)));
      NoRemovalRunAll(e, created, cl, at, InstallScript(p, tier, keys));
      NoRemovalTrans(s, created, RunAll(e, created, cl, at, InstallScript(p, tier, keys)));
    }
  }

  lemma NoRemovalPlugin(e: Env, s: Session, cl: Cluster, at: nat, p: Plugin, tier: string)
    ensures NoRemoval(s, ReconcilePlugin(e, s, cl, at, p, tier))
  {
    var r := Read(e, s);
    var prepared := Prepare(e, r, cl, at, p, tier);
    var bound := BindDiscovered(e, prepared, cl, at, Id(p), tier);
    NoRemovalPrepare(e, r, cl, at, p, tier);
    if Id(p) in prepared.world.plugins {
      var row := prepared.world.plugins[Id(p)];
      AddMissingInstalls(p, row, VisibleServices(e, Id(p), row), tier);
      NoRemovalRunAll(e, Read(e, prepared), cl, at, AddMissing(Id(p), row, VisibleServices(e, Id(p), row), tier));
    }
    NoRemovalTrans(s, prepared, bound);
    NoRemovalDo(e, s, bound, cl, at, EnablePlugin(Id(p)));
  }

  lemma {:induction false} NoRemovalLoop(e: Env, s: Session, cl: Cluster, at: nat, plugins: seq<Plugin>, tier: string)
    ensures NoRemoval(s, PluginLoop(e, s, cl, at, plugins, tier))
  {
    if plugins != [] {
      var mid := PluginLoop(e, s, cl, at, plugins[..|plugins| - 1], tier);
      NoRemovalLoop(e, s, cl, at, plugins[..|plugins| - 1], tier);
      NoRemovalPlugin(e, mid, cl, at, plugins[|plugins| - 1], tier);
      NoRemovalTrans(s, mid, PluginLoop(e, s, cl, at, plugins, tier));
    }
  }

  /** A plugin pass that fails has not begun to drop anything. */
  lemma FailedPluginsRemoveNothing(e: Env, s: Session, cl: Cluster, at: nat)
    requires at < |cl.tiers| && !ReconcileTierPlugins(e, s, cl, at).ok
    ensures NoRemoval(s, ReconcileTierPlugins(e, s, cl, at))
  {
    var t := cl.tiers[at];
    NoRemovalLoop(e, Read(e, Read(e, s)), cl, at, t.plugins, t.name);
  }

  lemma QuietRemovesNothing(a: Session, b: Session)
    requires Extends(a, b) && Quiet(a, b)
    ensures NoRemoval(a, b)
  {
  }

  /** Only a tier that is ready, has plugins and gets through its plugin pass can remove versions. */
  lemma UnservedRemovesNothing(e: Env, s: Session, cl: Cluster, at: nat)
    requires at < |cl.tiers|
    requires var h := HandleTier(e, s, cl, at);
             h.TierDone? ==> !(IsReady(h.status) && cl.tiers[at].plugins != [])
    ensures NoRemoval(s, HandleTier(e, s, cl, at).session)
  {
    var api := Scope(cl, at, at, false, true);
    var made := ReconcileTier(e, s, cl, at);
    var seen := Read(e, made);
    LinkTier(e, api, s, cl, at);
    ApiIsQuiet(e, api, s, made);
    QuietRemovesNothing(s, seen);
    if HandleTier(e, s, cl, at).TierPluginsFailed? {
      FailedPluginsRemoveNothing(e, seen, cl, at);
      NoRemovalTrans(s, seen, ReconcileTierPlugins(e, seen, cl, at));
    }
  }

  ghost predicate NoneRemoved(cl: Cluster, s: Session, w: Walk) {
    (forall i: nat :: !Served(cl, w.done, i)) ==> NoRemoval(s, w.session)
  }

  lemma NoneRemovedOn(e: Env, s: Session, w: Walk, cl: Cluster, at: nat)
    requires at < |cl.tiers| && NoneRemoved(cl, s, w) && (w.stop == NoStop ==> |w.done| == at)
    ensures NoneRemoved(cl, s, WalkOn(e, w, cl, at))
  {
    var v, h := WalkOn(e, w, cl, at), HandleTier(e, w.session, cl, at);
    WalkOnCases(e, w, cl, at);
    if w.stop == NoStop && (forall i: nat :: !Served(cl, v.done, i)) {
      if h.TierDone? {
        ServedOneMore(cl, w.done, h.status);
        assert forall i: nat | i < at :: !Served(cl, w.done, i);
      }
      UnservedRemovesNothing(e, w.session, cl, at);
      NoRemovalTrans(s, w.session, v.session);
    }
  }

  lemma NoneRemovedWalk(e: Env, s: Session, cl: Cluster, n: nat)
    requires n <= |cl.tiers|
    ensures NoneRemoved(cl, s, TierWalk(e, s, cl, n))
  {
    var kept := (w: Walk, at: nat) => NoneRemoved(cl, s, w) && (w.stop == NoStop ==> |w.done| == at);
    forall w: Walk, at: nat | at < |cl.tiers| && kept(w, at)
      ensures kept(WalkOn(e, w, cl, at), at + 1)
    {
      NoneRemovedOn(e, s, w, cl, at);
      WalkOnCases(e, w, cl, at);
    }
    WalkInduction(e, s, cl, n, kept);
  }

  ghost predicate SameRow(a: World, b: World, x: PluginId) {
    (x in b.plugins <==> x in a.plugins) && (x in b.plugins ==> b.plugins[x] == a.plugins[x])
  }

  lemma UndeclaredSame(e: Env, specs: seq<Cluster>, cl: Cluster, k: nat, st: Step, x: PluginId)
    requires StepSafe(e, cl.id, specs, st) && StepUpTo(cl, k, st) && !DeclaredUpTo(cl, k, x)
    requires !Removes(st.command)
    ensures SameRow(st.before, st.after, x)
  {
    var c := st.command;
    if c.CreatePlugin? || c.AddService? || c.SetContext? || c.MigratePlugin? || c.EnablePlugin? {
      var p :| Declares(cl.tiers[st.at], p, c.id);
      assert DeclaredUpTo(cl, k, c.id);
    }
  }

  lemma PassRemovesNothing(e: Env, s: Session, cl: Cluster)
    requires Read(e, s).ok && forall i: nat :: !Served(cl, WholeWalk(e, s, cl).done, i)
    ensures NoRemoval(s, Reconcile(e, s, cl))
  {
    var w := WholeWalk(e, s, cl);
    NoneRemovedWalk(e, Read(e, s), cl, |cl.tiers|);
    FinishAppends(e, w, cl);
    NoRemovalTrans(s, w.session, Reconcile(e, s, cl));
  }

  /** Under any faults: if no plugin pass got through before the pass stopped at tier k, a version that no
      tier up to k declares is not touched at all. */
  lemma LaterPluginsUntouched(e: Env, id: Identity, w0: World, specs: seq<Cluster>, n: nat, x: PluginId)
    requires Legal(e, id, w0, specs) && n < |specs| && Read(e, BeforePass(e, w0, specs, n)).ok
    requires var done := WholeWalk(e, BeforePass(e, w0, specs, n), specs[n]).done;
             (forall i: nat :: !Served(specs[n], done, i)) && !DeclaredUpTo(specs[n], |done|, x)
    ensures SameRow(BeforePass(e, w0, specs, n).world,
                    Reconcile(e, BeforePass(e, w0, specs, n), specs[n]).world, x)
  {
    var s, cl := BeforePass(e, w0, specs, n), specs[n];
    assert cl in specs;
    RunIsSafe(e, id, w0, specs, n);
    PassIsUpTo(e, specs, w0, s, cl);
    PassRemovesNothing(e, s, cl);
    SameRowsKept(e, specs, w0, s, Reconcile(e, s, cl), cl, |WholeWalk(e, s, cl).done|, x);
  }

  lemma SameRowsKept(
      e: Env, specs: seq<Cluster>, w0: World, s: Session, r: Session, cl: Cluster, k: nat, x: PluginId)
    requires PassUpTo(e, specs, w0, s, r, cl, k) && !DeclaredUpTo(cl, k, x) && NoRemoval(s, r)
    ensures SameRow(s.world, r.world, x)
  {
    var same := (w: World) => SameRow(s.world, w, x);
    StartsAt(w0, s, r);
    forall m | |s.log| <= m < |r.log| && same(WorldAt(w0, r.log, m))
      ensures same(WorldAt(w0, r.log, m + 1))
    {
      assert r.log[m].before == WorldAt(w0, r.log, m);
      UndeclaredSame(e, specs, cl, k, r.log[m], x);
    }
    KeptAlong(w0, r.log, |s.log|, |r.log|, same);
  }

  // ---------------------------------------------------------------- when something is removed

  /** If its drop pass is reported done too, a plugin pass removes every version its tier does not want,
      whoever else declares it. */
  lemma ServedTierRemovesOthers(e: Env, s: Session, cl: Cluster, at: nat, x: PluginId)
    requires Valid(e) && at < |cl.tiers| && cl.tiers[at].plugins != [] && !IsDesired(cl.tiers[at].plugins, x)
    requires DropReported(e, s, cl, at)
    ensures x !in ReconcileTierPlugins(e, s, cl, at).world.plugins
  {
    var t := cl.tiers[at];
    var looped := PluginLoop(e, Read(e, Read(e, s)), cl, at, t.plugins, t.name);
    var ids := e.pluginOrder(looped.calls, looped.world.plugins.Keys);
    assert Lists(ids, looped.world.plugins.Keys);
    DropDone(e, looped, cl, at);
  }

  /** The plugin pass that starts in s gets through, and so does its drop pass. */
  predicate DropReported(e: Env, s: Session, cl: Cluster, at: nat)
    requires at < |cl.tiers|
  {
    var t := cl.tiers[at];
    DropObsolete(e, PluginLoop(e, Read(e, Read(e, s)), cl, at, t.plugins, t.name), cl, at).ok
  }

  /** Every drop pass that the pass reaches is reported done. */
  ghost predicate DropsReported(e: Env, s: Session, cl: Cluster) {
    forall i: nat | Served(cl, WholeWalk(e, s, cl).done, i) :: DropReported(e, Counted(e, s, cl, i), cl, i)
  }

  lemma ExtendsTrans(a: Session, b: Session, c: Session)
    requires Extends(a, b) && Extends(b, c)
    ensures Extends(a, c)
  {
    PrefixTrans(a.log, b.log, c.log);
  }

  lemma WalkOnExtends(e: Env, a: Session, w: Walk, cl: Cluster, at: nat)
    requires at < |cl.tiers| && Extends(a, w.session)
    ensures Extends(a, WalkOn(e, w, cl, at).session)
  {
    WalkOnCases(e, w, cl, at);
    HandledLink(e, w.session, cl, at);
    if w.stop == NoStop {
      ExtendsTrans(a, w.session, HandleTier(e, w.session, cl, at).session);
    }
  }

  lemma WalkExtends(e: Env, s: Session, cl: Cluster, i: nat, n: nat)
    requires i <= n <= |cl.tiers|
    ensures Extends(TierWalk(e, s, cl, i).session, TierWalk(e, s, cl, n).session)
  {
    var a := TierWalk(e, s, cl, i).session;
    var kept := (w: Walk, at: nat) => Extends(a, w.session);
    forall w: Walk, at: nat | at < |cl.tiers| && kept(w, at)
      ensures kept(WalkOn(e, w, cl, at), at + 1)
    {
      WalkOnExtends(e, a, w, cl, at);
    }
    WalkInductionFrom(e, s, cl, i, n, kept);
  }

  /** After a tier served with its drop pass reported done, versions it does not want are gone. */
  lemma ServedTierRemoves(e: Env, s: Session, cl: Cluster, i: nat, x: PluginId)
    requires Valid(e) && s.ok && Read(e, s).ok && Served(cl, WholeWalk(e, s, cl).done, i)
    requires DropReported(e, Counted(e, s, cl, i), cl, i) && !IsDesired(cl.tiers[i].plugins, x)
    ensures x !in TierWalk(e, Read(e, s), cl, i + 1).session.world.plugins
  {
    DoneAt(e, Read(e, s), cl, i, |cl.tiers|);
    NextSession(e, Read(e, s), cl, i, |cl.tiers|);
    ServedTierRemovesOthers(e, Counted(e, s, cl, i), cl, i, x);
    ServedSession(e, TierWalk(e, Read(e, s), cl, i).session, cl, i);
  }

  lemma ServedSession(e: Env, s: Session, cl: Cluster, at: nat)
    requires at < |cl.tiers| && HandleTier(e, s, cl, at).TierDone?
    requires IsReady(HandleTier(e, s, cl, at).status) && cl.tiers[at].plugins != []
    ensures HandleTier(e, s, cl, at).session == ReconcileTierPlugins(e, Read(e, ReconcileTier(e, s, cl, at)), cl, at)
  {
  }

  lemma UndeclaredNotDesired(cl: Cluster, k: nat, at: nat, x: PluginId)
    requires at <= k && at < |cl.tiers| && !DeclaredUpTo(cl, k, x)
    ensures !IsDesired(cl.tiers[at].plugins, x)
  {
    DesiredDeclared(cl.tiers[at].plugins, x);
    if DeclaredId(cl.tiers[at].plugins, x) {
      var i :| 0 <= i < |cl.tiers[at].plugins| && Id(cl.tiers[at].plugins[i]) == x;
      assert Declares(cl.tiers[at], cl.tiers[at].plugins[i], x);
    }
  }

  /** What is left of a pass after its first tiers is again safe steps for tiers up to k. */
  lemma RestOfPass(e: Env, specs: seq<Cluster>, w0: World, s: Session, cl: Cluster, i: nat)
    requires Valid(e) && KeysBuilt(e) && Safe(e, cl.id, specs, w0, s) && cl in specs && Read(e, s).ok && i <= |cl.tiers|
    ensures PassUpTo(e, specs, w0, TierWalk(e, Read(e, s), cl, i).session, Reconcile(e, s, cl), cl,
                     |WholeWalk(e, s, cl).done|)
  {
    var mid, w, r := TierWalk(e, Read(e, s), cl, i).session, WholeWalk(e, s, cl), Reconcile(e, s, cl);
    PassIsUpTo(e, specs, w0, s, cl);
    SafeTierWalk(e, specs, w0, Read(e, s), cl, i);
    WalkExtends(e, Read(e, s), cl, 0, i);
    WalkExtends(e, Read(e, s), cl, i, |cl.tiers|);
    FinishAppends(e, w, cl);
    ExtendsTrans(mid, w.session, r);
  }

  /** Under any faults in which the drop passes that are reached are reported done: when a pass of a run
      stops at tier k, a version that is in the table and that no tier up to k declares is left as it
      was exactly if no plugin pass got through before. */
  lemma LaterPluginsUntouchedIff(e: Env, id: Identity, w0: World, specs: seq<Cluster>, n: nat, x: PluginId)
    requires Legal(e, id, w0, specs) && n < |specs| && Read(e, BeforePass(e, w0, specs, n)).ok
    requires DropsReported(e, BeforePass(e, w0, specs, n), specs[n])
    requires x in BeforePass(e, w0, specs, n).world.plugins
    requires !DeclaredUpTo(specs[n], |WholeWalk(e, BeforePass(e, w0, specs, n), specs[n]).done|, x)
    ensures SameRow(BeforePass(e, w0, specs, n).world,
                    Reconcile(e, BeforePass(e, w0, specs, n), specs[n]).world, x)
       <==> forall i: nat :: !Served(specs[n], WholeWalk(e, BeforePass(e, w0, specs, n), specs[n]).done, i)
  {
    var s, cl := BeforePass(e, w0, specs, n), specs[n];
    var done := WholeWalk(e, s, cl).done;
    if forall i: nat :: !Served(cl, done, i) {
      LaterPluginsUntouched(e, id, w0, specs, n, x);
    } else {
      var i: nat :| Served(cl, done, i);
      assert cl in specs;
      RunIsSafe(e, id, w0, specs, n);
      RemovedForGood(e, specs, w0, s, cl, i, x);
    }
  }

  lemma RemovedByTier(e: Env, s: Session, cl: Cluster, i: nat, x: PluginId)
    requires Valid(e) && s.ok && Read(e, s).ok
    requires Served(cl, WholeWalk(e, s, cl).done, i) && DropReported(e, Counted(e, s, cl, i), cl, i)
    requires !DeclaredUpTo(cl, |WholeWalk(e, s, cl).done|, x)
    ensures x !in TierWalk(e, Read(e, s), cl, i + 1).session.world.plugins
  {
    UndeclaredNotDesired(cl, |WholeWalk(e, s, cl).done|, i, x);
    ServedTierRemoves(e, s, cl, i, x);
  }

  lemma RestBringsNothingBack(e: Env, specs: seq<Cluster>, w0: World, s: Session, cl: Cluster, i: nat, x: PluginId)
    requires Valid(e) && KeysBuilt(e) && Safe(e, cl.id, specs, w0, s) && cl in specs && Read(e, s).ok
    requires i <= |cl.tiers| && x !in TierWalk(e, Read(e, s), cl, i).session.world.plugins
    requires !DeclaredUpTo(cl, |WholeWalk(e, s, cl).done|, x)
    ensures x !in Reconcile(e, s, cl).world.plugins
  {
    RestOfPass(e, specs, w0, s, cl, i);
    StaysGone(e, specs, w0, TierWalk(e, Read(e, s), cl, i).session, Reconcile(e, s, cl), cl,
              |WholeWalk(e, s, cl).done|, x);
  }

  /** Once removed, such a version does not come back in the same pass. */
  lemma RemovedForGood(e: Env, specs: seq<Cluster>, w0: World, s: Session, cl: Cluster, i: nat, x: PluginId)
    requires Valid(e) && KeysBuilt(e) && Safe(e, cl.id, specs, w0, s) && cl in specs && s.ok && Read(e, s).ok
    requires Served(cl, WholeWalk(e, s, cl).done, i) && DropReported(e, Counted(e, s, cl, i), cl, i)
    requires !DeclaredUpTo(cl, |WholeWalk(e, s, cl).done|, x)
    ensures x !in Reconcile(e, s, cl).world.plugins
  {
    RemovedByTier(e, s, cl, i, x);
    RestBringsNothingBack(e, specs, w0, s, cl, i + 1, x);
  }

  lemma StaysGone(
      e: Env, specs: seq<Cluster>, w0: World, s: Session, r: Session, cl: Cluster, k: nat, x: PluginId)
    requires PassUpTo(e, specs, w0, s, r, cl, k) && !DeclaredUpTo(cl, k, x) && x !in s.world.plugins
    ensures x !in r.world.plugins
  {
    UndeclaredRowsKept(e, specs, w0, s, r, cl, k, x);
  }
}
