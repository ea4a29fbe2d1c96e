/** One reconcile pass as a function of the session it starts from. Every function leaves a
    session that is no longer ok as it is: that is the code's early return. */
module Protocol {
  import opened Text
  import opened Types
  import opened Names
  import opened Builders
  import opened Machine

  // ---------------------------------------------------------------- objects of a tier

  /** The desired objects are those the builders make. */
  ghost predicate Built(e: Env) {
    forall cl: Cluster, at: nat | at < |cl.tiers| :: e.desired(cl, at) == Manifests(e.hash, cl, at)
  }

  /** All that the protocol itself relies on: which keys come in which order, and the labels. */
  ghost predicate KeysBuilt(e: Env) {
    && (forall cl: Cluster, at: nat | at < |cl.tiers| :: |e.desired(cl, at)| == 3 + SetCount(cl.tiers[at]))
    && (forall cl: Cluster, at: nat, i: nat | at < |cl.tiers| && i < |e.desired(cl, at)| ::
          e.desired(cl, at)[i].key == ManifestKey(cl, at, i))
    && (forall cl: Cluster, at: nat, i: nat | at < |cl.tiers| && 3 <= i < |e.desired(cl, at)| ::
          e.desired(cl, at)[i].content.labels == ReplicasetLabels(cl.id, cl.tiers[at].name, i - 2))
  }

  lemma BuiltKeys(e: Env)
    requires Built(e)
    ensures KeysBuilt(e)
  {
    forall cl: Cluster, at: nat | at < |cl.tiers|
      ensures |e.desired(cl, at)| == 3 + SetCount(cl.tiers[at])
      ensures forall i: nat | i < |e.desired(cl, at)| :: e.desired(cl, at)[i].key == ManifestKey(cl, at, i)
      ensures forall i: nat | 3 <= i < |e.desired(cl, at)| ::
                e.desired(cl, at)[i].content.labels == ReplicasetLabels(cl.id, cl.tiers[at].name, i - 2)
    {
      ManifestKeys(e.hash, cl, at);
    }
  }

  /** Get, then Create or Patch. */
  function Upsert(e: Env, s: Session, cl: Cluster, at: nat, m: Manifest): Session {
    var r := Read(e, s);
    var o := Settle(r.world.objects, m);
    if m.key in r.world.objects then Do(e, r, cl, at, PatchObject(m.key, o))
    else Do(e, r, cl, at, CreateObject(m.key, o))
  }

  function UpsertAll(e: Env, s: Session, cl: Cluster, at: nat, ms: seq<Manifest>): Session {
    if ms == [] then s
    else Upsert(e, UpsertAll(e, s, cl, at, ms[..|ms| - 1]), cl, at, ms[|ms| - 1])
  }

  /** The StatefulSets that carry the tier's labels. */
  function TierSets(w: World, id: Identity, tier: string): set<Key> {
    set k | k in w.objects && k.kind == StatefulSetKind && Matches(w.objects[k].labels, TierLabels(id, tier))
  }

  predicate BeyondReplicas(labels: Labels, t: Tier) {
    LabelledIndex(labels).Some? && LabelledIndex(labels).value > t.replicas
  }

  /** `listed` holds the objects as they were when the list was read. */
  function DeleteLoop(
      e: Env, s: Session, cl: Cluster, at: nat, listed: map<Key, Object>, keys: seq<Key>): Session
    requires at < |cl.tiers|
  {
    if keys == [] then s
    else
      var r := DeleteLoop(e, s, cl, at, listed, keys[..|keys| - 1]);
      var k := keys[|keys| - 1];
      if k in listed && BeyondReplicas(listed[k].labels, cl.tiers[at]) then Do(e, r, cl, at, DeleteObject(k)) else r
  }

  function DeleteExtraSets(e: Env, s: Session, cl: Cluster, at: nat): Session
    requires at < |cl.tiers|
  {
    var r := Read(e, s);
    var keys := e.keyOrder(s.calls, TierSets(r.world, cl.id, cl.tiers[at].name));
    DeleteLoop(e, r, cl, at, r.world.objects, keys)
  }

  function ReconcileTier(e: Env, s: Session, cl: Cluster, at: nat): Session
    requires at < |cl.tiers|
  {
    var r := DeleteExtraSets(e, UpsertAll(e, s, cl, at, e.desired(cl, at)), cl, at);
    if WantsIngress(cl.tiers[at]) then Upsert(e, r, cl, at, IngressManifest(cl, at)) else r
  }

  // ---------------------------------------------------------------- tier status

  /** The int32 sum of what the listed StatefulSets report. */
  function ReadySum(e: Env, call: nat, keys: seq<Key>): Int32 {
    if keys == [] then 0
    else Wrap32(ReadySum(e, call, keys[..|keys| - 1]) + e.ready(call, keys[|keys| - 1]))
  }

  function DesiredPods(t: Tier): Int32 {
    Wrap32(t.replicas * t.replicationFactor)
  }

  function ObserveTier(e: Env, s: Session, cl: Cluster, at: nat): TierStatus
    requires at < |cl.tiers|
  {
    var t := cl.tiers[at];
    var keys := e.keyOrder(s.calls, TierSets(s.world, cl.id, t.name));
    TierStatus(t.name, ReadySum(e, s.calls, keys), DesiredPods(t), [])
  }

  predicate IsReady(ts: TierStatus) {
    ts.readyReplicas >= ts.desiredReplicas
  }

  // ---------------------------------------------------------------- plugins

  function Id(p: Plugin): PluginId {
    PluginId(p.name, p.version)
  }

  function RunAll(e: Env, s: Session, cl: Cluster, at: nat, cs: seq<Command>): Session {
    if cs == [] then s
    else Do(e, RunAll(e, s, cl, at, cs[..|cs| - 1]), cl, at, cs[|cs| - 1])
  }

  function AddDeclared(p: Plugin, tier: string): seq<Command> {
    seq(|p.services|, i requires 0 <= i < |p.services| => AddService(Id(p), p.services[i].name, tier))
  }

  function SetKeys(p: Plugin, keys: seq<string>): seq<Command>
    requires forall k | k in keys :: k in p.migrationContext
  {
    seq(|keys|, i requires 0 <= i < |keys| => SetContext(Id(p), keys[i], p.migrationContext[keys[i]]))
  }

  /** What is run on a version that is not enabled yet, up to its migration. */
  function InstallScript(p: Plugin, tier: string, keys: seq<string>): seq<Command>
    requires forall k | k in keys :: k in p.migrationContext
  {
    AddDeclared(p, tier) + SetKeys(p, keys) + [MigratePlugin(Id(p))]
  }

  /** Context keys in the order in which the map iteration happens to yield them. */
  function ContextKeys(e: Env, call: nat, p: Plugin): seq<string> {
    var keys := e.contextOrder(call, p.migrationContext.Keys);
    if forall k | k in keys :: k in p.migrationContext then keys else []
  }

  /** The binding pass: one command per listed service the tier is not in yet. */
  function AddMissing(id: PluginId, row: Install, services: seq<string>, tier: string): seq<Command> {
    if services == [] then []
    else
      var last := services[|services| - 1];
      AddMissing(id, row, services[..|services| - 1], tier)
      + (if Bound(row, last, tier) then [] else [AddService(id, last, tier)])
  }

  function BindDiscovered(e: Env, s: Session, cl: Cluster, at: nat, id: PluginId, tier: string): Session {
    var r := Read(e, s);
    if id in r.world.plugins then
      var row := r.world.plugins[id];
      RunAll(e, r, cl, at, AddMissing(id, row, VisibleServices(e, id, row), tier))
    else r
  }

  /** CREATE if the version is not in the table; then, unless it is enabled, ADD SERVICE for the
      declared services, SET for each context key, MIGRATE. */
  function Prepare(e: Env, s: Session, cl: Cluster, at: nat, p: Plugin, tier: string): Session {
    var id := Id(p);
    var known := id in s.world.plugins;
    var created := if known then s else Do(e, s, cl, at, CreatePlugin(id));
    if known && s.world.plugins[id].enabled then s
    else RunAll(e, created, cl, at, InstallScript(p, tier, ContextKeys(e, s.calls, p)))
  }

  predicate EnabledIn(w: World, id: PluginId) {
    id in w.plugins && w.plugins[id].enabled
  }

  function ReconcilePlugin(e: Env, s: Session, cl: Cluster, at: nat, p: Plugin, tier: string): Session {
    var r := Read(e, s);
    var bound := BindDiscovered(e, Prepare(e, r, cl, at, p, tier), cl, at, Id(p), tier);
    if EnabledIn(r.world, Id(p)) then bound else Do(e, bound, cl, at, EnablePlugin(Id(p)))
  }

  function PluginLoop(e: Env, s: Session, cl: Cluster, at: nat, plugins: seq<Plugin>, tier: string): Session {
    if plugins == [] then s
    else
      ReconcilePlugin(e, PluginLoop(e, s, cl, at, plugins[..|plugins| - 1], tier), cl, at, plugins[|plugins| - 1], tier)
  }

  /** The desired version of each name; a later declaration of a name replaces an earlier one. */
  function DesiredVersions(plugins: seq<Plugin>): map<string, string> {
    if plugins == [] then map[]
    else
      var last := plugins[|plugins| - 1];
      DesiredVersions(plugins[..|plugins| - 1])[last.name := last.version]
  }

  predicate IsDesired(plugins: seq<Plugin>, id: PluginId) {
    id.name in DesiredVersions(plugins) && DesiredVersions(plugins)[id.name] == id.version
  }

  function DropOne(e: Env, s: Session, cl: Cluster, at: nat, id: PluginId, enabled: bool): Session {
    var r := if enabled then Do(e, s, cl, at, DisablePlugin(id)) else s;
    Do(e, r, cl, at, DropPlugin(id))
  }

  /** `listed` is the plugin table as it was when it was read. */
  function DropLoop(
      e: Env, s: Session, cl: Cluster, at: nat, listed: map<PluginId, Install>, ids: seq<PluginId>): Session
    requires at < |cl.tiers|
  {
    if ids == [] then s
    else
      var r := DropLoop(e, s, cl, at, listed, ids[..|ids| - 1]);
      var id := ids[|ids| - 1];
      if id !in listed || IsDesired(cl.tiers[at].plugins, id) then r
      else DropOne(e, r, cl, at, id, listed[id].enabled)
  }

  function DropObsolete(e: Env, s: Session, cl: Cluster, at: nat): Session
    requires at < |cl.tiers|
  {
    var r := Read(e, s);
    DropLoop(e, r, cl, at, r.world.plugins, e.pluginOrder(s.calls, r.world.plugins.Keys))
  }

  /** Reading the password and connecting are two calls that may fail. A failure while dropping
      obsolete versions is not reported. */
  function ReconcileTierPlugins(e: Env, s: Session, cl: Cluster, at: nat): Session
    requires at < |cl.tiers|
  {
    var t := cl.tiers[at];
    if t.plugins == [] then s
    else
      var r := PluginLoop(e, Read(e, Read(e, s)), cl, at, t.plugins, t.name);
      if !r.ok then r else DropObsolete(e, r, cl, at).(ok := true)
  }

  function PluginReports(plugins: seq<Plugin>): seq<PluginStatus> {
    seq(|plugins|, i requires 0 <= i < |plugins| => PluginStatus(plugins[i].name, plugins[i].version, true))
  }

  // ---------------------------------------------------------------- cluster status

  const READY_CONDITION := "Ready"

  function ConditionFor(allReady: bool, tiers: nat, time: int): Condition {
    if allReady then
      Condition(READY_CONDITION, ConditionTrue, "AllTiersReady",
                "All " + Decimal(tiers) + " tier(s) are ready", time)
    else
      Condition(READY_CONDITION, ConditionFalse, "TiersNotReady",
                "One or more tiers are not yet ready", time)
  }

  /** The transition time of the first Ready condition with the given status. */
  function KeptTime(conditions: seq<Condition>, status: ConditionStatus): Option<int> {
    if conditions == [] then None
    else if conditions[0].kind == READY_CONDITION && conditions[0].status == status
    then Some(conditions[0].lastTransitionTime)
    else KeptTime(conditions[1..], status)
  }

  function NextStatus(previous: Status, tiers: seq<TierStatus>, allReady: bool, now: int): Status {
    var next := ConditionFor(allReady, |tiers|, now);
    var kept := KeptTime(previous.conditions, next.status);
    Status(if allReady then Phase.Ready else Initializing, tiers,
           [next.(lastTransitionTime := if kept.Some? then kept.value else now)])
  }

  function UpdateStatus(e: Env, s: Session, cl: Cluster, tiers: seq<TierStatus>, allReady: bool): Session {
    Do(e, s, cl, |cl.tiers|, PatchStatus(NextStatus(s.world.status, tiers, allReady, e.clock(s.calls))))
  }

  // ---------------------------------------------------------------- a whole pass

  datatype TierResult =
    | TierFailed(session: Session)
    | TierPluginsFailed(session: Session)
    | TierDone(session: Session, status: TierStatus)

  /** Objects, then status, then plugins if all pods are ready. */
  function HandleTier(e: Env, s: Session, cl: Cluster, at: nat): TierResult
    requires at < |cl.tiers|
  {
    var made := ReconcileTier(e, s, cl, at);
    var seen := Read(e, made);
    if !seen.ok then TierFailed(seen)
    else
      var ts := ObserveTier(e, made, cl, at);
      if IsReady(ts) && cl.tiers[at].plugins != [] then
        var served := ReconcileTierPlugins(e, seen, cl, at);
        if !served.ok then TierPluginsFailed(served)
        else TierDone(served, ts.(plugins := PluginReports(cl.tiers[at].plugins)))
      else TierDone(seen, ts)
  }

  /** Why the loop over the tiers was left early. */
  datatype Stop = NoStop | TierError | PluginError

  /** `done` are the statuses collected so far. */
  datatype Walk = Walk(session: Session, done: seq<TierStatus>, stop: Stop)

  function WalkOn(e: Env, w: Walk, cl: Cluster, at: nat): Walk
    requires at < |cl.tiers|
  {
    if w.stop != NoStop then w
    else
      match HandleTier(e, w.session, cl, at)
      case TierFailed(r) => Walk(r, w.done, TierError)
      case TierPluginsFailed(r) => Walk(r, w.done, PluginError)
      case TierDone(r, ts) => Walk(r, w.done + [ts], NoStop)
  }

  /** The loop over the first n tiers. */
  function TierWalk(e: Env, s: Session, cl: Cluster, n: nat): Walk
    requires n <= |cl.tiers|
  {
    if n == 0 then Walk(s, [], NoStop) else WalkOn(e, TierWalk(e, s, cl, n - 1), cl, n - 1)
  }

  predicate AllReady(done: seq<TierStatus>) {
    forall i | 0 <= i < |done| :: IsReady(done[i])
  }

  /** After a plugin failure the statuses collected before are written with Ready false, and the
      pass ends without an error even if that write fails. */
  function FinishPass(e: Env, w: Walk, cl: Cluster): Session {
    match w.stop
    case TierError => w.session
    case PluginError => UpdateStatus(e, w.session.(ok := true), cl, w.done, false).(ok := true)
    case NoStop => UpdateStatus(e, w.session, cl, w.done, AllReady(w.done))
  }

  function WholeWalk(e: Env, s: Session, cl: Cluster): Walk {
    TierWalk(e, Read(e, s), cl, |cl.tiers|)
  }

  /** Reading the resource may fail; a resource that is gone is not part of a run. */
  function Reconcile(e: Env, s: Session, cl: Cluster): Session {
    if !Read(e, s).ok then Read(e, s) else FinishPass(e, WholeWalk(e, s, cl), cl)
  }

  /** Passes one after the other, each under its own spec and whatever the last one left. */
  function Run(e: Env, s: Session, specs: seq<Cluster>): Session {
    if specs == [] then s
    else Reconcile(e, Run(e, s, specs[..|specs| - 1]).(ok := true), specs[|specs| - 1])
  }
}
