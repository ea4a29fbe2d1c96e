/** Which migration context a version ends up with when several tiers, or several declarations of one
    tier, give it different ones: SET is only ever run on a version that is not enabled yet. */
module Contexts {
  import opened Text
  import opened Types
  import opened Machine
  import opened Protocol
  import opened Invariants
  import opened PluginEffects
  import opened PluginSafety
  import opened Runs
  import opened PluginConvergence
  import opened CrossTier
  import opened Quiescence
  import opened TierConvergence

  /** A version as the plugin table shows it, without its bindings. */
  datatype Version = Absent | Present(enabled: bool, context: map<string, string>)

  function VersionIn(w: World, x: PluginId): Version {
    if x in w.plugins then Present(w.plugins[x].enabled, w.plugins[x].context) else Absent
  }

  function ContextOf(v: Version): map<string, string> {
    if v.Present? then v.context else map[]
  }

  function FirstDeclared(plugins: seq<Plugin>, x: PluginId): Option<Plugin> {
    if plugins == [] then None
    else
      var earlier, last := FirstDeclared(plugins[..|plugins| - 1], x), plugins[|plugins| - 1];
      if earlier.Some? || Id(last) != x then earlier else Some(last)
  }

  // ---------------------------------------------------------------- one version

  /** What a script does to the context of its version: declared keys only. */
  ghost predicate OnlyDeclaredKeys(p: Plugin, a: map<string, string>, b: map<string, string>) {
    forall k | k !in p.migrationContext :: (k in b <==> k in a) && (k in b ==> b[k] == a[k])
  }

  lemma {:induction false} ScriptSetsDeclared(e: Env, s: Session, cl: Cluster, at: nat, p: Plugin, cs: seq<Command>)
    requires Id(p) in s.world.plugins && (forall c | c in cs :: Installing(p, c)) && RunAll(e, s, cl, at, cs).ok
    ensures Id(p) in RunAll(e, s, cl, at, cs).world.plugins
    ensures OnlyDeclaredKeys(p, s.world.plugins[Id(p)].context, RunAll(e, s, cl, at, cs).world.plugins[Id(p)].context)
  {
    if cs != [] {
      assert cs[|cs| - 1] in cs && forall c | c in cs[..|cs| - 1] :: c in cs;
      DoOk(e, RunAll(e, s, cl, at, cs[..|cs| - 1]), cl, at, cs[|cs| - 1]);
      ScriptSetsDeclared(e, s, cl, at, p, cs[..|cs| - 1]);
    }
  }

  lemma ExactContext(p: Plugin, a: map<string, string>, row: Install)
    requires OnlyDeclaredKeys(p, a, row.context) && ContextGiven(row, p)
    ensures row.context == a + p.migrationContext
  {
  }

  /** A preparation that succeeds leaves an enabled version's context as it is, and otherwise sets the
      declared keys on top of what was there. */
  lemma PreparedContext(e: Env, s: Session, cl: Cluster, at: nat, p: Plugin, tier: string)
    requires Valid(e) && Prepare(e, s, cl, at, p, tier).ok
    ensures var r, x := Prepare(e, s, cl, at, p, tier), Id(p);
            && x in r.world.plugins
            && r.world.plugins[x].context == (if EnabledIn(s.world, x) then s.world.plugins[x].context
                                              else ContextOf(VersionIn(s.world, x)) + p.migrationContext)
  {
    PrepareDone(e, s, cl, at, p, tier);
    if !EnabledIn(s.world, Id(p)) {
      var created := Created(e, s, cl, at, p);
      var script := InstallScript(p, tier, ContextKeys(e, s.calls, p));
      InstallScriptInstalls(p, tier, ContextKeys(e, s.calls, p));
      RunAllOk(e, created, cl, at, script);
      ScriptSetsDeclared(e, created, cl, at, p, script);
      ExactContext(p, ContextOf(VersionIn(s.world, Id(p))), Prepare(e, s, cl, at, p, tier).world.plugins[Id(p)]);
    }
  }

  /** What a successful plugin pass makes of its version: nothing if it was enabled. */
  function Enabled(v: Version, p: Plugin): Version {
    if v.Present? && v.enabled then v else Present(true, ContextOf(v) + p.migrationContext)
  }

  lemma PluginContext(e: Env, s: Session, cl: Cluster, at: nat, p: Plugin, tier: string)
    requires Valid(e) && ReconcilePlugin(e, s, cl, at, p, tier).ok
    ensures var r := ReconcilePlugin(e, s, cl, at, p, tier);
            && VersionIn(r.world, Id(p)) == Enabled(VersionIn(s.world, Id(p)), p)
            && forall x | x != Id(p) :: VersionIn(r.world, x) == VersionIn(s.world, x)
  {
    var prepared := Prepare(e, Read(e, s), cl, at, p, tier);
    var bound := BindDiscovered(e, prepared, cl, at, Id(p), tier);
    PluginDone(e, s, cl, at, p, tier);
    assert bound.ok;
    BindNeedsOk(e, prepared, cl, at, Id(p), tier);
    PreparedContext(e, Read(e, s), cl, at, p, tier);
    BindDiscoveredDone(e, prepared, cl, at, p, tier);
  }

  // ---------------------------------------------------------------- the plugins of a tier

  /** Of several declarations of a version only the first can set anything. */
  function Installed(v: Version, plugins: seq<Plugin>, x: PluginId): Version {
    var first := FirstDeclared(plugins, x);
    if first.None? then v else Enabled(v, first.value)
  }

  lemma InstalledOneMore(v: Version, plugins: seq<Plugin>, x: PluginId)
    requires plugins != []
    ensures var init, last := plugins[..|plugins| - 1], plugins[|plugins| - 1];
            var earlier := Installed(v, init, x);
            Installed(v, plugins, x) == (if Id(last) == x then Enabled(earlier, last) else earlier)
  {
  }

  lemma {:induction false} LoopContexts(
      e: Env, s: Session, cl: Cluster, at: nat, plugins: seq<Plugin>, tier: string, x: PluginId)
    requires Valid(e) && PluginLoop(e, s, cl, at, plugins, tier).ok
    ensures VersionIn(PluginLoop(e, s, cl, at, plugins, tier).world, x)
         == Installed(VersionIn(s.world, x), plugins, x)
  {
    if plugins != [] {
      var mid := PluginLoop(e, s, cl, at, plugins[..|plugins| - 1], tier);
      var last := plugins[|plugins| - 1];
      PluginContext(e, mid, cl, at, last, tier);
      PluginDone(e, mid, cl, at, last, tier);
      LoopContexts(e, s, cl, at, plugins[..|plugins| - 1], tier, x);
      InstalledOneMore(VersionIn(s.world, x), plugins, x);
    }
  }

  /** What the plugin pass of a tier makes of a version. */
  function ServedVersion(v: Version, plugins: seq<Plugin>, x: PluginId): Version {
    if IsDesired(plugins, x) then Installed(v, plugins, x) else Absent
  }

  lemma TierContexts(e: Env, s: Session, cl: Cluster, at: nat, x: PluginId)
    requires Valid(e) && FaultFree(e) && s.ok && at < |cl.tiers| && cl.tiers[at].plugins != []
    ensures VersionIn(ReconcileTierPlugins(e, s, cl, at).world, x)
         == ServedVersion(VersionIn(s.world, x), cl.tiers[at].plugins, x)
  {
    var t := cl.tiers[at];
    var r0 := Read(e, Read(e, s));
    var looped := PluginLoop(e, r0, cl, at, t.plugins, t.name);
    TierPluginsConverge(e, s, cl, at);
    PluginLoopSucceeds(e, r0, cl, at, t.plugins, t.name);
    LoopContexts(e, r0, cl, at, t.plugins, t.name, x);
    DropSucceeds(e, looped, cl, at);
    DropDone(e, looped, cl, at);
  }

  // ---------------------------------------------------------------- a whole pass

  /** What the first n tiers of a pass make of a version. */
  function VersionAfter(cl: Cluster, done: seq<TierStatus>, n: nat, v: Version, x: PluginId): Version {
    if n == 0 then v
    else
      var u := VersionAfter(cl, done, n - 1, v, x);
      if Served(cl, done, n - 1) then ServedVersion(u, cl.tiers[n - 1].plugins, x) else u
  }

  lemma {:induction false} SameAfter(
      cl: Cluster, done: seq<TierStatus>, ts: TierStatus, n: nat, v: Version, x: PluginId)
    requires n <= |done|
    ensures VersionAfter(cl, done + [ts], n, v, x) == VersionAfter(cl, done, n, v, x)
  {
    if n > 0 {
      SameAfter(cl, done, ts, n - 1, v, x);
      ServedOneMore(cl, done, ts);
    }
  }

  ghost predicate VersionsSoFar(cl: Cluster, before: World, w: Walk, n: nat) {
    && w.stop == NoStop && w.session.ok && |w.done| == n
    && forall x :: VersionIn(w.session.world, x) == VersionAfter(cl, w.done, n, VersionIn(before, x), x)
  }

  lemma HandledVersion(e: Env, s: Session, cl: Cluster, at: nat, x: PluginId)
    requires Valid(e) && KeysBuilt(e) && FaultFree(e) && s.ok && at < |cl.tiers|
    ensures var h := HandleTier(e, s, cl, at);
            && h.TierDone? && h.session.ok
            && VersionIn(h.session.world, x) == (if IsReady(h.status) && cl.tiers[at].plugins != []
                                                 then ServedVersion(VersionIn(s.world, x), cl.tiers[at].plugins, x)
                                                 else VersionIn(s.world, x))
  {
    HandledWithoutFaults(e, s, cl, at);
    TierSucceeds(e, s, cl, at);
    SuccessMeansTarget(e, s, cl, at);
    var seen := Read(e, ReconcileTier(e, s, cl, at));
    if IsReady(HandleTier(e, s, cl, at).status) && cl.tiers[at].plugins != [] {
      TierContexts(e, seen, cl, at, x);
    }
  }

  lemma VersionsWalkOn(e: Env, cl: Cluster, before: World, w: Walk, at: nat)
    requires Valid(e) && KeysBuilt(e) && FaultFree(e) && at < |cl.tiers| && VersionsSoFar(cl, before, w, at)
    ensures VersionsSoFar(cl, before, WalkOn(e, w, cl, at), at + 1)
  {
    var h, v := HandleTier(e, w.session, cl, at), WalkOn(e, w, cl, at);
    HandledWithoutFaults(e, w.session, cl, at);
    ServedOneMore(cl, w.done, h.status);
    forall x
      ensures VersionIn(v.session.world, x) == VersionAfter(cl, v.done, at + 1, VersionIn(before, x), x)
    {
      HandledVersion(e, w.session, cl, at, x);
      SameAfter(cl, w.done, h.status, at, VersionIn(before, x), x);
    }
  }

  /** A fault-free pass from any world takes each version through the tiers it serves, in order: dropped
      where it is not wanted, left as it is where it is enabled, otherwise enabled with the context of
      its first declaration there on top of the context it had. */
  lemma ContextsOfPass(e: Env, s: Session, cl: Cluster, x: PluginId)
    requires Valid(e) && KeysBuilt(e) && FaultFree(e) && s.ok
    ensures VersionIn(Reconcile(e, s, cl).world, x)
         == VersionAfter(cl, WholeWalk(e, s, cl).done, |cl.tiers|, VersionIn(s.world, x), x)
  {
    var kept := (w: Walk, at: nat) => VersionsSoFar(cl, s.world, w, at);
    forall w: Walk, at: nat | at < |cl.tiers| && kept(w, at)
      ensures kept(WalkOn(e, w, cl, at), at + 1)
    {
      VersionsWalkOn(e, cl, s.world, w, at);
    }
    WalkInduction(e, Read(e, s), cl, |cl.tiers|, kept);
    QuietPassIff(e, s, cl);
  }

  // ---------------------------------------------------------------- whose context is in force

  lemma DeclaredFirst(plugins: seq<Plugin>, x: PluginId)
    ensures FirstDeclared(plugins, x).Some? <==> DeclaredId(plugins, x)
    ensures FirstDeclared(plugins, x).Some? ==> Id(FirstDeclared(plugins, x).value) == x
  {
    if plugins != [] {
      DeclaredOneMore(plugins, x);
      DeclaredFirst(plugins[..|plugins| - 1], x);
    }
  }

  /** A version that all served tiers want is settled by the first of them. */
  lemma {:induction false} SettledByFirst(cl: Cluster, done: seq<TierStatus>, i: nat, n: nat, v: Version, x: PluginId)
    requires FirstServed(cl, done, i)
    requires forall j: nat | Served(cl, done, j) :: IsDesired(cl.tiers[j].plugins, x)
    ensures VersionAfter(cl, done, n, v, x) == if n <= i then v else ServedVersion(v, cl.tiers[i].plugins, x)
  {
    if n > 0 {
      SettledByFirst(cl, done, i, n - 1, v, x);
      DesiredDeclared(cl.tiers[i].plugins, x);
      DeclaredFirst(cl.tiers[i].plugins, x);
    }
  }

  /** Before the pass, in the declaration that settles the version or in the table: does the key have
      this value? */
  predicate WillHave(v: Version, p: Plugin, key: string, value: string) {
    if (v.Present? && v.enabled) || key !in p.migrationContext then key in ContextOf(v) && ContextOf(v)[key] == value
    else p.migrationContext[key] == value
  }

  lemma InForce(v: Version, p: Plugin, row: Install, q: Plugin)
    requires row.context == ContextOf(Enabled(v, p))
    ensures ContextGiven(row, q) <==>
              forall k | k in q.migrationContext :: WillHave(v, p, k, q.migrationContext[k])
  {
    forall k | k in q.migrationContext
      ensures WillHave(v, p, k, q.migrationContext[k]) <==> k in row.context && row.context[k] == q.migrationContext[k]
    {
    }
  }

  /** After a fault-free pass over tiers that agree on their versions, what a tier served gives as context
      is in force exactly if, key by key, it is the value the version will have: that of the first
      declaration of the first tier served if the version was not enabled before and this declaration
      has the key, and else that of the table before the pass. */
  lemma ContextInForceIff(e: Env, s: Session, cl: Cluster, i: nat, j: nat, q: Plugin)
    requires Valid(e) && KeysBuilt(e) && FaultFree(e) && s.ok
    requires var done := WholeWalk(e, s, cl).done; Uniform(cl, done) && FirstServed(cl, done, i) && Served(cl, done, j)
    requires q in cl.tiers[j].plugins && IsDesired(cl.tiers[j].plugins, Id(q))
    ensures var x, r := Id(q), Reconcile(e, s, cl);
            var first := FirstDeclared(cl.tiers[i].plugins, x);
            && x in r.world.plugins && first.Some?
            && (ContextGiven(r.world.plugins[x], q) <==>
                  forall k | k in q.migrationContext ::
                    WillHave(VersionIn(s.world, x), first.value, k, q.migrationContext[k]))
  {
    var x, done := Id(q), WholeWalk(e, s, cl).done;
    assert SameVersions(cl.tiers[i], cl.tiers[j]);
    DesiredDeclared(cl.tiers[i].plugins, x);
    DeclaredFirst(cl.tiers[i].plugins, x);
    AllWant(cl, done, i, x);
    ContextsOfPass(e, s, cl, x);
    SettledByFirst(cl, done, i, |cl.tiers|, VersionIn(s.world, x), x);
    InForce(VersionIn(s.world, x), FirstDeclared(cl.tiers[i].plugins, x).value,
            Reconcile(e, s, cl).world.plugins[x], q);
  }

  lemma AllWant(cl: Cluster, done: seq<TierStatus>, i: nat, x: PluginId)
    requires Uniform(cl, done) && Served(cl, done, i) && IsDesired(cl.tiers[i].plugins, x)
    ensures forall j: nat | Served(cl, done, j) :: IsDesired(cl.tiers[j].plugins, x)
  {
    forall j: nat | Served(cl, done, j)
      ensures IsDesired(cl.tiers[j].plugins, x)
    {
      assert SameVersions(cl.tiers[i], cl.tiers[j]);
    }
  }
}
