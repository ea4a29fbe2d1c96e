/** The reconciler in the form it is written in: methods that change the world step by step, return
    early on errors and build their results in loops, each proved against its protocol function. */
module Reconciler {
  import opened Text
  import opened Types
  import opened Names
  import opened Builders
  import opened Machine
  import opened Invariants
  import opened Safety
  import opened RunTheorems
  import opened Stuck

  /** strings.EqualFold over a list. */
  method ContainsString(xs: seq<string>, s: string) returns (found: bool)
    ensures found <==> exists i :: 0 <= i < |xs| && EqualFold(xs[i], s)
  {
    for i := 0 to |xs|
      invariant forall j | 0 <= j < i :: !EqualFold(xs[j], s)
    {
      if EqualFold(xs[i], s) {
        return true;
      }
    }
    return false;
  }

  datatype ServiceRow = ServiceRow(name: string, tiers: seq<string>)

  /** The rows of the service table for a version. */
  function ServiceRows(e: Env, w: World, id: PluginId): seq<ServiceRow> {
    if id !in w.plugins then []
    else
      var names := VisibleServices(e, id, w.plugins[id]);
      seq(|names|, i requires 0 <= i < |names| => ServiceRow(names[i], Tiers(w.plugins[id], names[i])))
  }

  class PicoclusterDBReconciler {
    const e: Env
    var world: World
    var log: seq<Step>
    var calls: nat

    constructor (e: Env, world: World)
      ensures this.e == e && State(true) == Session(world, [], 0, true)
    {
      this.e := e;
      this.world := world;
      this.log := [];
      this.calls := 0;
    }

    /** The run so far; `ok` says whether the calling code is still on its success path. */
    function State(ok: bool): Session
      reads this
    {
      Session(world, log, calls, ok)
    }

    /** A call that only reads. */
    method Call() returns (ok: bool)
      modifies this
      ensures State(ok) == Read(e, old(State(true)))
    {
      ok := e.outcome(calls) == Done;
      calls := calls + 1;
    }

    /** A command sent to the API server or the database. */
    method Exec(cl: Cluster, at: nat, c: Command) returns (ok: bool)
      modifies this
      ensures State(ok) == Do(e, old(State(true)), cl, at, c)
    {
      var outcome, before := e.outcome(calls), world;
      ok := outcome == Done && Accepts(before, c);
      if outcome != Lost && Accepts(before, c) {
        world := Apply(e, before, c);
      }
      log := log + [Step(cl, at, calls, c, before, world)];
      calls := calls + 1;
    }

    // -------------------------------------------------------------- plugins

    method QueryPluginState(id: PluginId) returns (ok: bool, found: bool, enabled: bool)
      modifies this
      ensures State(ok) == Read(e, old(State(true)))
      ensures found == (id in world.plugins) && enabled == Protocol.EnabledIn(world, id)
    {
      ok := Call();
      found := id in world.plugins;
      enabled := found && world.plugins[id].enabled;
    }

    method QueryPluginServices(id: PluginId) returns (ok: bool, rows: seq<ServiceRow>)
      modifies this
      ensures State(ok) == Read(e, old(State(true)))
      ensures rows == ServiceRows(e, world, id)
    {
      ok := Call();
      rows := [];
      if id in world.plugins {
        var row := world.plugins[id];
        var names := VisibleServices(e, id, row);
        for i := 0 to |names|
          invariant |rows| == i && forall j | 0 <= j < i :: rows[j] == ServiceRow(names[j], Tiers(row, names[j]))
        {
          rows := rows + [ServiceRow(names[i], Tiers(row, names[i]))];
        }
      }
    }

    /** Statement number i of a script. If it fails, the rest of the script is not run. */
    method Issue(
        cl: Cluster, at: nat, ghost script: seq<Command>, ghost steps: nat -> Session, ghost i: nat, c: Command)
        returns (ok: bool)
      requires i < |script| && c == script[i] && State(true) == steps(i)
      requires Steps(e, cl, at, script, steps)
      modifies this
      ensures State(ok) == steps(i + 1)
      ensures !ok ==> State(false) == steps(|script|)
    {
      ok := Exec(cl, at, c);
    }

    /** ADD SERVICE for each declared service. */
    method AddDeclaredServices(
        cl: Cluster, at: nat, plugin: Plugin, tierName: string, ghost script: seq<Command>, ghost steps: nat -> Session)
        returns (ok: bool)
      requires Steps(e, cl, at, script, steps) && State(true) == steps(0) && AddsDeclared(script, plugin, tierName)
      modifies this
      ensures State(ok) == steps(if ok then |plugin.services| else |script|)
    {
      for i := 0 to |plugin.services|
        invariant State(true) == steps(i)
      {
        ok := Issue(cl, at, script, steps, i, AddService(Protocol.Id(plugin), plugin.services[i].name, tierName));
        if !ok {
          return;
        }
      }
      ok := true;
    }

    /** SET for each key of the migration context, in the order the map iteration yields them. */
    method SetMigrationContext(
        cl: Cluster, at: nat, plugin: Plugin, keys: seq<string>, ghost script: seq<Command>,
        ghost steps: nat -> Session, ghost n: nat)
        returns (ok: bool)
      requires Steps(e, cl, at, script, steps) && State(true) == steps(n) && SetsContext(script, n, plugin, keys)
      modifies this
      ensures State(ok) == steps(if ok then n + |keys| else |script|)
    {
      for i := 0 to |keys|
        invariant State(true) == steps(n + i)
      {
        var k := keys[i];
        ok := Issue(cl, at, script, steps, n + i, SetContext(Protocol.Id(plugin), k, plugin.migrationContext[k]));
        if !ok {
          return;
        }
      }
      ok := true;
    }

    /** The statements on a version that is not enabled yet, up to its migration. */
    method Install(cl: Cluster, at: nat, plugin: Plugin, tierName: string, keys: seq<string>) returns (ok: bool)
      requires forall k | k in keys :: k in plugin.migrationContext
      modifies this
      ensures State(ok) == Protocol.RunAll(e, old(State(true)), cl, at, Protocol.InstallScript(plugin, tierName, keys))
    {
      ghost var script, steps := InstallSteps(e, State(true), cl, at, plugin, tierName, keys);
      ok := AddDeclaredServices(cl, at, plugin, tierName, script, steps);
      if !ok {
        return;
      }
      ok := SetMigrationContext(cl, at, plugin, keys, script, steps, |plugin.services|);
      if !ok {
        return;
      }
      ok := Issue(cl, at, script, steps, |plugin.services| + |keys|, MigratePlugin(Protocol.Id(plugin)));
    }

    /** The binding pass over the discovered services. */
    method BindDiscovered(cl: Cluster, at: nat, id: PluginId, tierName: string) returns (ok: bool)
      modifies this
      ensures State(ok) == Protocol.BindDiscovered(e, old(State(true)), cl, at, id, tierName)
    {
      var services;
      ok, services := QueryPluginServices(id);
      if !ok {
        BindStuck(e, State(false), cl, at, id, tierName);
        return;
      }
      if id !in world.plugins {
        return;
      }
      ghost var row := world.plugins[id];
      ghost var names := VisibleServices(e, id, row);
      ghost var missing := Protocol.AddMissing(id, row, names, tierName);
      ghost var steps := StepsOf(e, State(true), cl, at, missing);
      ghost var n := 0;
      for i := 0 to |services|
        invariant n == |Protocol.AddMissing(id, row, names[..i], tierName)| <= |missing| && State(true) == steps(n)
      {
        var svc := services[i];
        var bound := ContainsString(svc.tiers, tierName);
        MissingNext(id, row, names, i, tierName);
        if !bound {
          ok := Issue(cl, at, missing, steps, n, AddService(id, svc.name, tierName));
          if !ok {
            return;
          }
          n := n + 1;
        }
      }
      assert names[..|services|] == names;
      ok := true;
    }

    /** reconcilePlugin: None is an error. */
    method ReconcilePlugin(cl: Cluster, at: nat, plugin: Plugin, tierName: string)
        returns (status: Option<PluginStatus>)
      modifies this
      ensures State(status.Some?) == Protocol.ReconcilePlugin(e, old(State(true)), cl, at, plugin, tierName)
      ensures status.Some? ==> status.value == PluginStatus(plugin.name, plugin.version, true)
    {
      ghost var start := State(true);
      var id := Protocol.Id(plugin);
      var ok, found, enabled := QueryPluginState(id);
      if !ok {
        PluginStuck(e, start, cl, at, plugin, tierName);
        return None;
      }
      ghost var queried := State(true);
      var keys := Protocol.ContextKeys(e, calls, plugin);
      if !found {
        ok := Exec(cl, at, CreatePlugin(id));
        if !ok {
          ScriptStuck(e, State(false), cl, at, plugin, tierName, keys);
          RestStuck(e, start, cl, at, plugin, tierName);
          return None;
        }
      }
      if !enabled {
        ok := Install(cl, at, plugin, tierName, keys);
        if !ok {
          RestStuck(e, start, cl, at, plugin, tierName);
          return None;
        }
      }
      assert State(true) == Protocol.Prepare(e, queried, cl, at, plugin, tierName);
      ok := BindDiscovered(cl, at, id, tierName);
      if !ok {
        return None;
      }
      if !enabled {
        ok := Exec(cl, at, EnablePlugin(id));
        if !ok {
          return None;
        }
        enabled := true;
      }
      return Some(PluginStatus(plugin.name, plugin.version, enabled));
    }

    /** dropObsoletePlugins. */
    method DropObsoletePlugins(cl: Cluster, at: nat) returns (ok: bool)
      requires at < |cl.tiers|
      modifies this
      ensures State(ok) == Protocol.DropObsolete(e, old(State(true)), cl, at)
    {
      var plugins := cl.tiers[at].plugins;
      var desired: map<string, string> := map[];
      for i := 0 to |plugins|
        invariant desired == Protocol.DesiredVersions(plugins[..i])
      {
        assert plugins[..i + 1][..i] == plugins[..i];
        desired := desired[plugins[i].name := plugins[i].version];
      }
      assert plugins[..|plugins|] == plugins;
      var listing := e.pluginOrder(calls, world.plugins.Keys);
      ok := Call();
      ghost var start := State(true);
      var listed := world.plugins;
      if !ok {
        assert listing[..0] == [];
        DropLoopStuck(e, State(false), cl, at, listed, listing, 0);
        return;
      }
      for i := 0 to |listing|
        invariant State(true) == Protocol.DropLoop(e, start, cl, at, listed, listing[..i])
      {
        DropLoopOneMore(e, start, cl, at, listed, listing, i);
        var id := listing[i];
        if id !in listed || (id.name in desired && desired[id.name] == id.version) {
          continue;
        }
        if listed[id].enabled {
          ok := Exec(cl, at, DisablePlugin(id));
          if !ok {
            DropLoopStuck(e, start, cl, at, listed, listing, i + 1);
            return;
          }
        }
        ok := Exec(cl, at, DropPlugin(id));
        if !ok {
          DropLoopStuck(e, start, cl, at, listed, listing, i + 1);
          return;
        }
      }
      assert listing[..|listing|] == listing;
      ok := true;
    }

    /** The declared plugins one after the other: None is an error. */
    method ReconcilePlugins(cl: Cluster, at: nat, plugins: seq<Plugin>, tierName: string)
        returns (statuses: Option<seq<PluginStatus>>)
      modifies this
      ensures State(statuses.Some?) == Protocol.PluginLoop(e, old(State(true)), cl, at, plugins, tierName)
      ensures statuses.Some? ==> statuses.value == Protocol.PluginReports(plugins)
    {
      ghost var steps := PluginSteps(e, State(true), cl, at, plugins, tierName);
      var done := [];
      for i := 0 to |plugins|
        invariant State(true) == steps(i)
        invariant done == Protocol.PluginReports(plugins[..i])
      {
        ReportsOneMore(plugins, i);
        var status := ReconcilePlugin(cl, at, plugins[i], tierName);
        assert State(status.Some?) == steps(i + 1);
        if status.None? {
          return None;
        }
        done := done + [status.value];
      }
      assert plugins[..|plugins|] == plugins;
      return Some(done);
    }

    /** reconcileTierPlugins: None is an error; a failure while dropping is not one. */
    method ReconcileTierPlugins(cl: Cluster, at: nat) returns (statuses: Option<seq<PluginStatus>>)
      requires at < |cl.tiers|
      modifies this
      ensures State(statuses.Some?) == Protocol.ReconcileTierPlugins(e, old(State(true)), cl, at)
      ensures statuses.Some? ==> statuses.value == Protocol.PluginReports(cl.tiers[at].plugins)
    {
      var tier := cl.tiers[at];
      if |tier.plugins| == 0 {
        return Some([]);
      }
      assert tier.plugins[..0] == [];
      var ok := Call();
      if ok {
        ok := Call();
      }
      if !ok {
        PluginLoopStuck(e, State(false), cl, at, tier.plugins, tier.name, 0);
        return None;
      }
      statuses := ReconcilePlugins(cl, at, tier.plugins, tier.name);
      if statuses.Some? {
        var dropped := DropObsoletePlugins(cl, at);
      }
    }

    // -------------------------------------------------------------- objects

    /** reconcileConfigMap, reconcileService, reconcileStatefulSet and reconcileIngress: create what is
        not there, otherwise patch labels and live fields only. */
    method ReconcileObject(cl: Cluster, at: nat, desired: Manifest) returns (ok: bool)
      modifies this
      ensures State(ok) == Protocol.Upsert(e, old(State(true)), cl, at, desired)
    {
      ok := Call();
      if !ok {
        return;
      }
      if desired.key !in world.objects {
        ok := Exec(cl, at, CreateObject(desired.key, desired.content));
      } else {
        var existing := world.objects[desired.key];
        existing := existing.(live := desired.content.live);
        existing := existing.(labels := desired.content.labels);
        ok := Exec(cl, at, PatchObject(desired.key, existing));
      }
    }

    /** Object number i of a tier. If it fails, those after it are not submitted. */
    method Submit(cl: Cluster, at: nat, ghost ms: seq<Manifest>, ghost steps: nat -> Session, ghost i: nat, m: Manifest)
        returns (ok: bool)
      requires i < |ms| && m == ms[i] && State(true) == steps(i)
      requires Submissions(e, cl, at, ms, steps)
      modifies this
      ensures State(ok) == steps(i + 1)
      ensures !ok ==> State(false) == steps(|ms|)
    {
      ok := ReconcileObject(cl, at, m);
    }

    /** ConfigMap, interconnect Service and client Service. */
    method SubmitBase(cl: Cluster, at: nat, ghost ms: seq<Manifest>, ghost steps: nat -> Session) returns (ok: bool)
      requires at < |cl.tiers|
      requires |ms| >= 3 && ms[..3] == BaseManifests(cl, at)
      requires Submissions(e, cl, at, ms, steps) && State(true) == steps(0)
      modifies this
      ensures State(ok) == steps(if ok then 3 else |ms|)
    {
      assert ms[0] == ms[..3][0] && ms[1] == ms[..3][1] && ms[2] == ms[..3][2];
      ok := Submit(cl, at, ms, steps, 0, ConfigMapManifest(cl, at));
      if ok {
        ok := Submit(cl, at, ms, steps, 1, InterconnectManifest(cl, at));
      }
      if ok {
        ok := Submit(cl, at, ms, steps, 2, ClientManifest(cl, at));
      }
    }

    /** The loop over the replicasets. */
    method SubmitReplicasets(cl: Cluster, at: nat, ghost ms: seq<Manifest>, ghost steps: nat -> Session)
        returns (ok: bool)
      requires at < |cl.tiers|
      requires |ms| == 3 + SetCount(cl.tiers[at])
      requires forall i: nat | 3 <= i < |ms| :: ms[i] == SetMaker(e.hash, cl, at)(i - 2)
      requires Submissions(e, cl, at, ms, steps) && State(true) == steps(3)
      modifies this
      ensures State(ok) == steps(|ms|)
    {
      var rsIndex := 1;
      while rsIndex <= cl.tiers[at].replicas
        invariant 1 <= rsIndex <= SetCount(cl.tiers[at]) + 1
        invariant State(true) == steps(rsIndex + 2)
      {
        ok := Submit(cl, at, ms, steps, rsIndex + 2, SetManifest(e.hash, cl, at, rsIndex));
        if !ok {
          return;
        }
        rsIndex := rsIndex + 1;
      }
      ok := true;
    }

    /** The objects of a tier that come before its Ingress, in order. */
    method SubmitTier(cl: Cluster, at: nat) returns (ok: bool)
      requires at < |cl.tiers| && Protocol.Built(e)
      modifies this
      ensures State(ok) == Protocol.UpsertAll(e, old(State(true)), cl, at, e.desired(cl, at))
    {
      ghost var ms := e.desired(cl, at);
      ghost var steps := UpsertSteps(e, State(true), cl, at, ms);
      TierManifests(e, cl, at);
      ok := SubmitBase(cl, at, ms, steps);
      if ok {
        ok := SubmitReplicasets(cl, at, ms, steps);
      }
    }

    /** deleteExtraStatefulSets. */
    method DeleteExtraStatefulSets(cl: Cluster, at: nat) returns (ok: bool)
      requires at < |cl.tiers|
      modifies this
      ensures State(ok) == Protocol.DeleteExtraSets(e, old(State(true)), cl, at)
    {
      var tier := cl.tiers[at];
      var keys := e.keyOrder(calls, Protocol.TierSets(world, cl.id, tier.name));
      var listed := world.objects;
      ok := Call();
      ghost var steps := DeleteSteps(e, State(ok), cl, at, listed, keys);
      if !ok {
        return;
      }
      for i := 0 to |keys|
        invariant State(true) == steps(i)
      {
        if keys[i] !in listed || REPLICASET_LABEL !in listed[keys[i]].labels {
          continue;
        }
        var rsIndex := ParseInt32(listed[keys[i]].labels[REPLICASET_LABEL]);
        if rsIndex.None? {
          continue;
        }
        if rsIndex.value > tier.replicas {
          ok := Exec(cl, at, DeleteObject(keys[i]));
          assert State(ok) == steps(i + 1);
          if !ok {
            return;
          }
        }
      }
      ok := true;
    }

    /** reconcileTier. */
    method ReconcileTier(cl: Cluster, at: nat) returns (ok: bool)
      requires at < |cl.tiers| && Protocol.Built(e)
      modifies this
      ensures State(ok) == Protocol.ReconcileTier(e, old(State(true)), cl, at)
    {
      ok := SubmitTier(cl, at);
      if !ok {
        DeleteExtraStuck(e, State(false), cl, at);
        return;
      }
      ok := DeleteExtraStatefulSets(cl, at);
      if !ok {
        return;
      }
      var tier := cl.tiers[at];
      if tier.ingress.Some? && tier.ingress.value.enabled {
        ok := ReconcileObject(cl, at, IngressManifest(cl, at));
      }
    }

    // -------------------------------------------------------------- status

    /** tierStatus: None is an error. */
    method ObserveTier(cl: Cluster, at: nat) returns (status: Option<TierStatus>, ready: bool)
      requires at < |cl.tiers|
      modifies this
      ensures State(status.Some?) == Read(e, old(State(true)))
      ensures status.Some? ==> status.value == Protocol.ObserveTier(e, old(State(true)), cl, at)
      ensures status.Some? ==> ready == Protocol.IsReady(status.value)
    {
      var tier := cl.tiers[at];
      var call := calls;
      var keys := e.keyOrder(call, Protocol.TierSets(world, cl.id, tier.name));
      var ok := Call();
      if !ok {
        return None, false;
      }
      var desiredPods := Wrap32(tier.replicas * tier.replicationFactor);
      var readyPods: Int32 := 0;
      for i := 0 to |keys|
        invariant readyPods == Protocol.ReadySum(e, call, keys[..i])
      {
        assert keys[..i + 1][..i] == keys[..i];
        readyPods := Wrap32(readyPods + e.ready(call, keys[i]));
      }
      assert keys[..|keys|] == keys;
      return Some(TierStatus(tier.name, readyPods, desiredPods, [])), readyPods >= desiredPods;
    }

    /** updateStatus. */
    method UpdateStatus(cl: Cluster, tiers: seq<TierStatus>, allReady: bool) returns (ok: bool)
      modifies this
      ensures State(ok) == Protocol.UpdateStatus(e, old(State(true)), cl, tiers, allReady)
    {
      var now := e.clock(calls);
      var phase := Initializing;
      var ready := Protocol.ConditionFor(false, |tiers|, now);
      if allReady {
        phase := Phase.Ready;
        ready := Protocol.ConditionFor(true, |tiers|, now);
      }
      var conditions := world.status.conditions;
      ghost var kept := Protocol.KeptTime(conditions, ready.status);
      var i := 0;
      while i < |conditions|
        invariant 0 <= i <= |conditions| && kept == Protocol.KeptTime(conditions[i..], ready.status)
        invariant ready == Protocol.ConditionFor(allReady, |tiers|, now)
      {
        if conditions[i].kind == Protocol.READY_CONDITION && conditions[i].status == ready.status {
          break;
        }
        i := i + 1;
      }
      if i < |conditions| {
        ready := ready.(lastTransitionTime := conditions[i].lastTransitionTime);
      }
      ok := Exec(cl, |cl.tiers|, PatchStatus(Status(phase, tiers, [ready])));
    }

    // -------------------------------------------------------------- a whole pass

    /** One tier of a pass. */
    method HandleTier(cl: Cluster, at: nat) returns (result: TierOutcome)
      requires at < |cl.tiers| && Protocol.Built(e)
      modifies this
      ensures Protocol.HandleTier(e, old(State(true)), cl, at) == ResultOf(result, this)
    {
      var ok := ReconcileTier(cl, at);
      if !ok {
        return Broken;
      }
      var status, ready := ObserveTier(cl, at);
      if status.None? {
        return Broken;
      }
      var ts := status.value;
      if ready && |cl.tiers[at].plugins| > 0 {
        var statuses := ReconcileTierPlugins(cl, at);
        if statuses.None? {
          return PluginsBroken;
        }
        ts := ts.(plugins := statuses.value);
      }
      return Fine(ts);
    }

    /** The next tier of a pass. */
    method NextTier(cl: Cluster, i: nat, tierStatuses: seq<TierStatus>, ghost walk: nat -> Protocol.Walk)
        returns (result: TierOutcome)
      requires i < |cl.tiers| && Protocol.Built(e) && Walks(e, cl, walk)
      requires walk(i) == Protocol.Walk(State(true), tierStatuses, Protocol.NoStop)
      modifies this
      ensures match result
              case Broken => walk(|cl.tiers|) == Protocol.Walk(State(false), tierStatuses, Protocol.TierError)
              case PluginsBroken => walk(|cl.tiers|) == Protocol.Walk(State(false), tierStatuses, Protocol.PluginError)
              case Fine(ts) => walk(i + 1) == Protocol.Walk(State(true), tierStatuses + [ts], Protocol.NoStop)
    {
      result := HandleTier(cl, i);
      assert walk(i + 1) == Protocol.WalkOn(e, walk(i), cl, i);
    }

    /** The loop over the tiers of a pass. */
    method WalkTiers(cl: Cluster) returns (tierStatuses: seq<TierStatus>, allReady: bool, stop: Protocol.Stop)
      requires Protocol.Built(e)
      modifies this
      ensures Protocol.TierWalk(e, old(State(true)), cl, |cl.tiers|)
           == Protocol.Walk(State(stop == Protocol.NoStop), tierStatuses, stop)
      ensures allReady == Protocol.AllReady(tierStatuses)
    {
      ghost var walk := WalkSteps(e, State(true), cl);
      tierStatuses, allReady := [], true;
      for i := 0 to |cl.tiers|
        invariant walk(i) == Protocol.Walk(State(true), tierStatuses, Protocol.NoStop)
        invariant allReady == Protocol.AllReady(tierStatuses)
      {
        var result := NextTier(cl, i, tierStatuses, walk);
        match result {
          case Broken =>
            return tierStatuses, allReady, Protocol.TierError;
          case PluginsBroken =>
            return tierStatuses, allReady, Protocol.PluginError;
          case Fine(ts) =>
            AllReadyNext(tierStatuses, ts);
            tierStatuses := tierStatuses + [ts];
            if !Protocol.IsReady(ts) {
              allReady := false;
            }
        }
      }
      stop := Protocol.NoStop;
    }

    /** Reconcile: an error ends the pass early; so does a failed plugin pass, after the status has been
        written, and it is not an error. */
    method Reconcile(cl: Cluster) returns (ok: bool)
      requires Protocol.Built(e)
      modifies this
      ensures State(ok) == Protocol.Reconcile(e, old(State(true)), cl)
    {
      ok := Call();
      if !ok {
        return;
      }
      var tierStatuses, allReady, stop := WalkTiers(cl);
      match stop {
        case TierError => return false;
        case PluginError =>
          var written := UpdateStatus(cl, tierStatuses, false);
          return true;
        case NoStop =>
          ok := UpdateStatus(cl, tierStatuses, allReady);
      }
    }

    /** Pass after pass: each starts afresh, whatever became of the one before. */
    method Run(specs: seq<Cluster>)
      requires Protocol.Built(e)
      modifies this
      ensures exists ok :: State(ok) == Protocol.Run(e, old(State(true)), specs)
    {
      ghost var start := State(true);
      var ok := true;
      for i := 0 to |specs|
        invariant State(ok) == Protocol.Run(e, start, specs[..i])
      {
        assert specs[..i + 1][..i] == specs[..i];
        ok := Reconcile(specs[i]);
      }
      assert specs[..|specs|] == specs;
    }
  }

  datatype TierOutcome = Broken | PluginsBroken | Fine(status: TierStatus)

  function ResultOf(o: TierOutcome, r: PicoclusterDBReconciler): Protocol.TierResult
    reads r
  {
    match o
    case Broken => Protocol.TierFailed(r.State(false))
    case PluginsBroken => Protocol.TierPluginsFailed(r.State(false))
    case Fine(ts) => Protocol.TierDone(r.State(true), ts)
  }

  /** A fresh reconciler taken through any passes: its log is the history that the run theorems speak
      about, so what they say of histories holds of it. */
  method RunFresh(e: Env, world: World, specs: seq<Cluster>, ghost id: Identity) returns (r: PicoclusterDBReconciler)
    requires Protocol.Built(e)
    ensures fresh(r) && r.e == e
    ensures exists ok :: r.State(ok) == History(e, world, specs)
    ensures Valid(e) && (forall c | c in specs :: c.id == id) && Inv(e, id, specs, world) ==>
              exists ok :: Safe(e, id, specs, world, r.State(ok))
  {
    r := new PicoclusterDBReconciler(e, world);
    r.Run(specs);
    if Valid(e) && (forall c | c in specs :: c.id == id) && Inv(e, id, specs, world) {
      Protocol.BuiltKeys(e);
      HistoryIsSafe(e, id, world, specs);
    }
  }
}
