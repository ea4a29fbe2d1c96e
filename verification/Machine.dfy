/** The world the operator acts on, one command at a time, and everything about a run that the
    operator does not choose: which calls fail, in which order lists come back, what pods report. */
module Machine {
  import opened Text
  import opened Types

  // ---------------------------------------------------------------- the plugin database

  datatype PluginId = PluginId(name: string, version: string)

  /** One installed plugin version. `bound` maps a service to the tiers it is bound to. */
  datatype Install = Install(
    enabled: bool,
    migrated: bool,
    context: map<string, string>,
    bound: map<string, seq<string>>)

  datatype World = World(
    objects: map<Key, Object>,
    plugins: map<PluginId, Install>,
    status: Status)

  // ---------------------------------------------------------------- commands

  datatype Command =
    | CreateObject(key: Key, content: Object)
    | PatchObject(key: Key, content: Object)
    | DeleteObject(key: Key)
    | PatchStatus(status: Status)
    | CreatePlugin(id: PluginId)
    | AddService(id: PluginId, service: string, tier: string)
    | SetContext(id: PluginId, parameter: string, value: string)
    | MigratePlugin(id: PluginId)
    | EnablePlugin(id: PluginId)
    | DisablePlugin(id: PluginId)
    | DropPlugin(id: PluginId)

  predicate IsSql(c: Command) {
    !c.CreateObject? && !c.PatchObject? && !c.DeleteObject? && !c.PatchStatus?
  }

  /** How a call to the API server or the database can end. */
  datatype Outcome = Done | Lost | DoneButReportedFailed

  /** `outcome`, `ready`, `clock` and the orders are what a run happens to meet, `manifest` and
      `spelling` belong to the database, `hash` is the config checksum, and `desired` is what the
      builders make of tier number `at` of a spec (see Builders.Manifests). */
  datatype Env = Env(
    outcome: nat -> Outcome,
    ready: (nat, Key) -> Int32,
    clock: nat -> int,
    keyOrder: (nat, set<Key>) -> seq<Key>,
    pluginOrder: (nat, set<PluginId>) -> seq<PluginId>,
    contextOrder: (nat, set<string>) -> seq<string>,
    manifest: PluginId -> seq<string>,
    spelling: string -> string,
    hash: Config -> string,
    desired: (Cluster, nat) -> seq<Manifest>)

  ghost predicate Lists<T(!new)>(xs: seq<T>, s: set<T>) {
    && (forall x :: x in xs <==> x in s)
    && (forall i, j | 0 <= i < j < |xs| :: xs[i] != xs[j])
  }

  /** Lists are complete and without repetition, in any order; the database may store a tier under
      another letter case, but no other name. */
  ghost predicate Valid(e: Env) {
    && (forall k, s :: Lists(e.keyOrder(k, s), s))
    && (forall k, s :: Lists(e.pluginOrder(k, s), s))
    && (forall k, s :: Lists(e.contextOrder(k, s), s))
    && (forall t :: EqualFold(e.spelling(t), t))
  }

  ghost predicate FaultFree(e: Env) {
    forall k :: e.outcome(k) == Done
  }

  // ---------------------------------------------------------------- effects

  function Tiers(row: Install, service: string): seq<string> {
    if service in row.bound then row.bound[service] else []
  }

  predicate ContainsFold(xs: seq<string>, s: string) {
    exists i | 0 <= i < |xs| :: EqualFold(xs[i], s)
  }

  predicate Bound(row: Install, service: string, tier: string) {
    ContainsFold(Tiers(row, service), tier)
  }

  /** The service table shows a version's services only once it has been migrated. */
  function VisibleServices(e: Env, id: PluginId, row: Install): seq<string> {
    if row.migrated then e.manifest(id) else []
  }

  function WithBinding(e: Env, row: Install, service: string, tier: string): Install {
    var stored := e.spelling(tier);
    if stored in Tiers(row, service) then row
    else row.(bound := row.bound[service := Tiers(row, service) + [stored]])
  }

  /** Statements the database refuses: on versions that are not there (or already there), enabling
      before migrating, dropping while enabled. */
  predicate Accepts(w: World, c: Command) {
    match c
    case CreateObject(k, _) => k !in w.objects
    case PatchObject(k, _) => k in w.objects
    case DeleteObject(_) => true
    case PatchStatus(_) => true
    case CreatePlugin(id) => id !in w.plugins
    case AddService(id, _, _) => id in w.plugins
    case SetContext(id, _, _) => id in w.plugins
    case MigratePlugin(id) => id in w.plugins
    case EnablePlugin(id) => id in w.plugins && w.plugins[id].migrated
    case DisablePlugin(id) => id in w.plugins
    case DropPlugin(id) => id in w.plugins && !w.plugins[id].enabled
  }

  function Apply(e: Env, w: World, c: Command): World
    requires Accepts(w, c)
  {
    match c
    case CreateObject(k, o) => w.(objects := w.objects[k := o])
    case PatchObject(k, o) => w.(objects := w.objects[k := o])
    case DeleteObject(k) => w.(objects := w.objects - {k})
    case PatchStatus(s) => w.(status := s)
    case CreatePlugin(id) => w.(plugins := w.plugins[id := Install(false, false, map[], map[])])
    case AddService(id, s, t) => w.(plugins := w.plugins[id := WithBinding(e, w.plugins[id], s, t)])
    case SetContext(id, k, v) =>
      w.(plugins := w.plugins[id := w.plugins[id].(context := w.plugins[id].context[k := v])])
    case MigratePlugin(id) => w.(plugins := w.plugins[id := w.plugins[id].(migrated := true)])
    case EnablePlugin(id) => w.(plugins := w.plugins[id := w.plugins[id].(enabled := true)])
    case DisablePlugin(id) => w.(plugins := w.plugins[id := w.plugins[id].(enabled := false)])
    case DropPlugin(id) => w.(plugins := w.plugins - {id})
  }

  // ---------------------------------------------------------------- sessions

  /** A command issued on behalf of tier number `at` of a cluster spec, as call number `call` of the
      run; `at` is the number of tiers for a command on the cluster's status. */
  datatype Step = Step(cluster: Cluster, at: nat, call: nat, command: Command, before: World, after: World)

  /** A run so far: the world, every command issued, calls made, and whether the code is still
      on its success path. */
  datatype Session = Session(world: World, log: seq<Step>, calls: nat, ok: bool)

  /** A call that only reads. */
  function Read(e: Env, s: Session): Session {
    if !s.ok then s else s.(calls := s.calls + 1, ok := e.outcome(s.calls) == Done)
  }

  function After(e: Env, w: World, o: Outcome, c: Command): World {
    if o != Lost && Accepts(w, c) then Apply(e, w, c) else w
  }

  function Do(e: Env, s: Session, cl: Cluster, at: nat, c: Command): Session {
    if !s.ok then s
    else
      var o := e.outcome(s.calls);
      var w := After(e, s.world, o, c);
      Session(w, s.log + [Step(cl, at, s.calls, c, s.world, w)], s.calls + 1, o == Done && Accepts(s.world, c))
  }

  /** The patched fields and labels come from the desired object, the rest stays as created. */
  function Settle(objects: map<Key, Object>, m: Manifest): Object {
    if m.key in objects then Object(m.content.labels, m.content.live, objects[m.key].fixed) else m.content
  }
}
