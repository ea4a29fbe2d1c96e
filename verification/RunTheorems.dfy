/** What the safety of runs means for installations, scaling and objects. All statements are about
    any number of passes, under any specs of one cluster, with calls failing anywhere. */
module RunTheorems {
  import opened Text
  import opened Types
  import opened Names
  import opened Builders
  import opened Machine
  import opened Protocol
  import opened Invariants
  import opened Safety
  import opened Runs
  import opened TierTheorems

  function History(e: Env, w0: World, specs: seq<Cluster>): Session {
    Run(e, Session(w0, [], 0, true), specs)
  }

  ghost predicate Legal(e: Env, id: Identity, w0: World, specs: seq<Cluster>) {
    Valid(e) && KeysBuilt(e) && (forall c | c in specs :: c.id == id) && Inv(e, id, specs, w0)
  }

  lemma EmptyWorldIsLegal(e: Env, id: Identity, specs: seq<Cluster>, status: Status)
    requires Valid(e) && KeysBuilt(e) && forall c | c in specs :: c.id == id
    ensures Legal(e, id, World(map[], map[], status), specs)
  {
  }

  /** The elements of a finite set in some order. */
  ghost function Listed<T(!new)>(s: set<T>): (xs: seq<T>)
    ensures Lists(xs, s)
    decreases |s|
  {
    if s == {} then []
    else
      var x :| x in s;
      var rest := Listed(s - {x});
      assert |s - {x}| < |s|;
      assert forall i | 0 <= i < |rest| :: rest[i] in rest;
      assert forall y :: y in [x] + rest <==> y == x || y in rest;
      [x] + rest
  }

  /** There are environments of every kind the theorems speak about: with any checksum function, any
      plan of faults, and so also without faults, and any reports of the pods. */
  lemma SomeEnvironment(hash: Config -> string, outcome: nat -> Outcome, ready: (nat, Key) -> Int32)
      returns (e: Env)
    ensures Valid(e) && Built(e) && KeysBuilt(e) && e.hash == hash && e.outcome == outcome && e.ready == ready
    ensures e.manifest == (id => [])
  {
    var desired := (cl: Cluster, at: nat) => if at < |cl.tiers| then Manifests(hash, cl, at) else [];
    e := Env(outcome, ready, call => 0, (call, s: set<Key>) => Listed(s), (call, s: set<PluginId>) => Listed(s),
             (call, s: set<string>) => Listed(s), id => [], t => t, hash, desired);
    BuiltKeys(e);
  }

  /** So the run theorems are about something: from nothing, for any specs of a cluster and any plan of
      faults, there is a run they apply to. */
  lemma SomeRun(id: Identity, specs: seq<Cluster>, status: Status, hash: Config -> string, outcome: nat -> Outcome)
    requires forall c | c in specs :: c.id == id
    ensures exists e: Env :: e.outcome == outcome && e.hash == hash && Legal(e, id, World(map[], map[], status), specs)
  {
    var e := SomeEnvironment(hash, outcome, (call, k) => 0);
    EmptyWorldIsLegal(e, id, specs, status);
  }

  lemma HistoryIsSafe(e: Env, id: Identity, w0: World, specs: seq<Cluster>)
    requires Legal(e, id, w0, specs)
    ensures Safe(e, id, specs, w0, History(e, w0, specs))
  {
    RunIsSafe(e, id, w0, specs, |specs|);
    assert specs[..|specs|] == specs;
  }

  /** Worlds reached in between, each with its step. */
  lemma SafeWorld(e: Env, id: Identity, specs: seq<Cluster>, w0: World, s: Session, i: nat)
    requires Safe(e, id, specs, w0, s) && i <= |s.log|
    ensures Inv(e, id, specs, WorldAt(w0, s.log, i))
    ensures i < |s.log| ==> s.log[i].before == WorldAt(w0, s.log, i) && s.log[i].after == WorldAt(w0, s.log, i + 1)
    ensures i < |s.log| ==> StepSafe(e, id, specs, s.log[i])
  {
    if i < |s.log| {
      assert StepSafe(e, id, specs, s.log[i]);
    } else if i > 0 {
      assert StepSafe(e, id, specs, s.log[i - 1]);
    }
  }

  /** What every step from number i on keeps holds in all later worlds. */
  lemma {:induction false} KeptAlong(w0: World, log: seq<Step>, i: nat, j: nat, kept: World -> bool)
    requires i <= j <= |log| && kept(WorldAt(w0, log, i))
    requires forall m | i <= m < j && kept(WorldAt(w0, log, m)) :: kept(WorldAt(w0, log, m + 1))
    ensures kept(WorldAt(w0, log, j))
    decreases j
  {
    if i < j {
      KeptAlong(w0, log, i, j - 1, kept);
    }
  }

  // ---------------------------------------------------------------- statements

  lemma JustifiedAccepted(e: Env, cl: Cluster, at: nat, w: World, c: Command)
    requires at <= |cl.tiers| && Justified(e, cl, at, w, c)
    ensures Accepts(w, c)
  {
  }

  /** No run ever issues a command that the API server or the database has to refuse: nothing is
      created twice, changed or dropped when absent, enabled unmigrated, or dropped while enabled. */
  lemma NothingRefused(e: Env, id: Identity, w0: World, specs: seq<Cluster>, i: nat)
    requires Legal(e, id, w0, specs) && i < |History(e, w0, specs).log|
    ensures var st := History(e, w0, specs).log[i]; Accepts(st.before, st.command)
  {
    HistoryIsSafe(e, id, w0, specs);
    var st := History(e, w0, specs).log[i];
    assert StepSafe(e, id, specs, st);
    JustifiedAccepted(e, st.cluster, st.at, st.before, st.command);
  }

  lemma OnlyCreateAdds(e: Env, id: Identity, specs: seq<Cluster>, st: Step, x: PluginId)
    requires StepSafe(e, id, specs, st) && x !in st.before.plugins && x in st.after.plugins
    ensures st.command == CreatePlugin(x) && Took(e, st)
  {
  }

  predicate CreatedBefore(log: seq<Step>, i: nat, x: PluginId) {
    exists j :: 0 <= j < i && j < |log| && log[j].command == CreatePlugin(x) && x in log[j].after.plugins
  }

  /** A version that is in the table but was not at the beginning has been created on the way. */
  lemma CreatedOnTheWay(e: Env, id: Identity, specs: seq<Cluster>, w0: World, s: Session, i: nat, x: PluginId)
    requires Safe(e, id, specs, w0, s) && i <= |s.log|
    requires x in WorldAt(w0, s.log, i).plugins && x !in w0.plugins
    ensures CreatedBefore(s.log, i, x)
  {
    if !CreatedBefore(s.log, i, x) {
      var absent := (w: World) => x !in w.plugins;
      forall m | 0 <= m < i && absent(WorldAt(w0, s.log, m))
        ensures absent(WorldAt(w0, s.log, m + 1))
      {
        SafeWorld(e, id, specs, w0, s, m);
        if x in s.log[m].after.plugins {
          OnlyCreateAdds(e, id, specs, s.log[m], x);
        }
      }
      KeptAlong(w0, s.log, 0, i, absent);
    }
  }

  /** Whenever ENABLE is issued: the version has been created unless it was there from the start;
      directly before, its services of the spec were bound to the enabling tier, then every context
      key was set to that tier's value, then it was migrated, then every service it shows was
      bound; and all of that is in force when ENABLE is issued. */
  lemma InstallSafety(e: Env, id: Identity, w0: World, specs: seq<Cluster>, i: nat)
    requires Legal(e, id, w0, specs) && i < |History(e, w0, specs).log|
    requires History(e, w0, specs).log[i].command.EnablePlugin?
    ensures var log := History(e, w0, specs).log;
            && log[i].cluster in specs && log[i].at < |log[i].cluster.tiers|
            && InstalledWhenEnabled(e, log[i])
            && Prepared(e, log[..i], log[i].cluster, log[i].at, log[i].command.id)
            && (log[i].command.id in w0.plugins || CreatedBefore(log, i, log[i].command.id))
  {
    HistoryIsSafe(e, id, w0, specs);
    var s := History(e, w0, specs);
    assert EnabledInOrder(e, s.log);
    EnableIsDue(e, id, w0, specs, s, i);
    var x := s.log[i].command.id;
    assert x in WorldAt(w0, s.log, i).plugins;
    if x !in w0.plugins {
      CreatedOnTheWay(e, id, specs, w0, s, i, x);
    }
  }

  ghost predicate InstalledWhenEnabled(e: Env, st: Step)
    requires st.at < |st.cluster.tiers| && st.command.EnablePlugin?
  {
    exists p :: Declares(st.cluster.tiers[st.at], p, st.command.id)
             && Stage(e, st.before, p, st.cluster.tiers[st.at].name, 4)
  }

  lemma EnableJustified(e: Env, cl: Cluster, at: nat, w: World, x: PluginId)
    requires at <= |cl.tiers| && Justified(e, cl, at, w, EnablePlugin(x))
    ensures at < |cl.tiers| && x in w.plugins
    ensures exists p :: Declares(cl.tiers[at], p, x) && Stage(e, w, p, cl.tiers[at].name, 4)
  {
  }

  lemma EnableIsDue(e: Env, id: Identity, w0: World, specs: seq<Cluster>, s: Session, i: nat)
    requires Safe(e, id, specs, w0, s) && i < |s.log| && s.log[i].command.EnablePlugin?
    ensures s.log[i].cluster in specs && s.log[i].at < |s.log[i].cluster.tiers| && InstalledWhenEnabled(e, s.log[i])
    ensures s.log[i].command.id in WorldAt(w0, s.log, i).plugins
  {
    SafeWorld(e, id, specs, w0, s, i);
    EnableJustified(e, s.log[i].cluster, s.log[i].at, s.log[i].before, s.log[i].command.id);
  }

  /** In every world of every run, each enabled version is migrated and has, for some tier of some
      spec, all its declared services bound, its whole context given and every shown service bound. */
  lemma EnabledIsInstalled(e: Env, id: Identity, w0: World, specs: seq<Cluster>, i: nat, x: PluginId)
    requires Legal(e, id, w0, specs) && i <= |History(e, w0, specs).log|
    requires EnabledIn(WorldAt(w0, History(e, w0, specs).log, i), x)
    ensures var w := WorldAt(w0, History(e, w0, specs).log, i);
            exists cl, at: nat, p :: InstalledFor(e, specs, x, w.plugins[x], cl, at, p)
  {
    HistoryIsSafe(e, id, w0, specs);
    SafeWorld(e, id, specs, w0, History(e, w0, specs), i);
  }

  // ---------------------------------------------------------------- objects

  /** In every world of every run, a StatefulSet of a tier comes with the tier's ConfigMap,
      interconnect Service and client Service. */
  lemma DependenciesFirst(e: Env, id: Identity, w0: World, specs: seq<Cluster>, i: nat, tier: string, index: nat)
    requires Legal(e, id, w0, specs) && i <= |History(e, w0, specs).log|
    requires SetKey(id, tier, index) in WorldAt(w0, History(e, w0, specs).log, i).objects
    ensures DependenciesOf(id, WorldAt(w0, History(e, w0, specs).log, i), tier)
  {
    HistoryIsSafe(e, id, w0, specs);
    SafeWorld(e, id, specs, w0, History(e, w0, specs), i);
  }

  /** A delete only ever hits a replicaset beyond the size of its tier, at a moment when all
      replicasets up to that size exist. */
  lemma DeletesAreSafe(e: Env, id: Identity, w0: World, specs: seq<Cluster>, i: nat)
    requires Legal(e, id, w0, specs) && i < |History(e, w0, specs).log|
    requires History(e, w0, specs).log[i].command.DeleteObject?
    ensures var st := History(e, w0, specs).log[i];
            && st.cluster in specs && st.at < |st.cluster.tiers|
            && AllSetsExist(st.cluster, st.at, st.before) && BeyondTier(st.cluster, st.at, st.command.key)
  {
    HistoryIsSafe(e, id, w0, specs);
    assert StepSafe(e, id, specs, History(e, w0, specs).log[i]);
  }

  /** Whenever an Ingress is created or patched, everything else of its tier is there, all of 1..Replicas,
      and no replicaset too many. */
  lemma IngressComesLast(e: Env, id: Identity, w0: World, specs: seq<Cluster>, i: nat)
    requires Legal(e, id, w0, specs) && i < |History(e, w0, specs).log|
    requires var c := History(e, w0, specs).log[i].command;
             (c.CreateObject? || c.PatchObject?) && c.key.kind == IngressKind
    ensures var st := History(e, w0, specs).log[i];
            st.cluster in specs && st.at < |st.cluster.tiers| && InPlace(st.cluster, st.at, st.before)
  {
    HistoryIsSafe(e, id, w0, specs);
    var st := History(e, w0, specs).log[i];
    assert StepSafe(e, id, specs, st);
    IngressSubmitted(e, st.cluster, st.at, st.before, st.command.key, st.command.content);
  }

  lemma IngressSubmitted(e: Env, cl: Cluster, at: nat, w: World, k: Key, o: Object)
    requires KeysBuilt(e) && at < |cl.tiers| && k.kind == IngressKind
    requires SubmitsInOrder(e, cl, at, w, k, o) || SubmitsIngress(cl, at, w, k, o)
    ensures InPlace(cl, at, w)
  {
    var ms := e.desired(cl, at);
    forall j | 0 <= j < |ms|
      ensures ms[j].key != k
    {
      assert ms[j].key == ManifestKey(cl, at, j);
    }
  }

  /** Every spec of the run that has a tier of this name gives it at least `index` replicasets. */
  predicate AlwaysWithin(specs: seq<Cluster>, tier: string, index: nat) {
    forall c, at: nat | c in specs && at < |c.tiers| && c.tiers[at].name == tier :: index <= SetCount(c.tiers[at])
  }

  lemma StepKeepsReplicaset(e: Env, id: Identity, specs: seq<Cluster>, st: Step, tier: string, index: nat)
    requires StepSafe(e, id, specs, st) && AlwaysWithin(specs, tier, index)
    requires SetKey(id, tier, index) in st.before.objects
    ensures SetKey(id, tier, index) in st.after.objects
  {
    if st.command.DeleteObject? {
      var i: nat :| i > SetCount(st.cluster.tiers[st.at])
                    && st.command.key == SetKey(id, st.cluster.tiers[st.at].name, i);
      if st.command.key == SetKey(id, tier, index) {
        SetNameInjective(id, tier, index, st.cluster.tiers[st.at].name, i);
      }
    }
  }

  /** A replicaset whose index is in range under every spec, once it exists, exists in every later
      world: scaling up and down never takes it away, not even for a moment. */
  lemma ReplicasetStays(
      e: Env, id: Identity, w0: World, specs: seq<Cluster>, i: nat, j: nat, tier: string, index: nat)
    requires Legal(e, id, w0, specs) && i <= j <= |History(e, w0, specs).log|
    requires AlwaysWithin(specs, tier, index)
    requires SetKey(id, tier, index) in WorldAt(w0, History(e, w0, specs).log, i).objects
    ensures SetKey(id, tier, index) in WorldAt(w0, History(e, w0, specs).log, j).objects
  {
    HistoryIsSafe(e, id, w0, specs);
    var s := History(e, w0, specs);
    var k := SetKey(id, tier, index);
    var present := (w: World) => k in w.objects;
    forall m | i <= m < j && present(WorldAt(w0, s.log, m))
      ensures present(WorldAt(w0, s.log, m + 1))
    {
      SafeWorld(e, id, specs, w0, s, m);
      StepKeepsReplicaset(e, id, specs, s.log[m], tier, index);
    }
    KeptAlong(w0, s.log, i, j, present);
  }

  lemma StepKeepsFixed(e: Env, id: Identity, specs: seq<Cluster>, st: Step, k: Key)
    requires StepSafe(e, id, specs, st) && k in st.before.objects && k in st.after.objects
    ensures st.after.objects[k].fixed == st.before.objects[k].fixed
  {
  }

  /** Creation-only fields (selector, service name, volume claims, Service type) never change as
      long as the object exists. */
  lemma FixedForLife(e: Env, id: Identity, w0: World, specs: seq<Cluster>, i: nat, j: nat, k: Key)
    requires Legal(e, id, w0, specs) && i <= j <= |History(e, w0, specs).log|
    requires forall m: nat | i <= m <= j :: k in WorldAt(w0, History(e, w0, specs).log, m).objects
    ensures WorldAt(w0, History(e, w0, specs).log, j).objects[k].fixed
         == WorldAt(w0, History(e, w0, specs).log, i).objects[k].fixed
  {
    HistoryIsSafe(e, id, w0, specs);
    var s := History(e, w0, specs);
    var fixed := WorldAt(w0, s.log, i).objects[k].fixed;
    var same := (w: World) => k in w.objects && w.objects[k].fixed == fixed;
    forall m: nat | i <= m < j && same(WorldAt(w0, s.log, m))
      ensures same(WorldAt(w0, s.log, m + 1))
    {
      SafeWorld(e, id, specs, w0, s, m);
      assert k in WorldAt(w0, s.log, m + 1).objects;
      StepKeepsFixed(e, id, specs, s.log[m], k);
    }
    KeptAlong(w0, s.log, i, j, same);
  }

  /** No tier of any spec of the run could have an object under this key. */
  ghost predicate Foreign(id: Identity, specs: seq<Cluster>, k: Key) {
    forall c, at: nat | c in specs && at < |c.tiers| :: !TierKey(id, c.tiers[at].name, k)
  }

  lemma SubmittedKeyIsTierKey(e: Env, cl: Cluster, at: nat, w: World, k: Key, o: Object)
    requires KeysBuilt(e) && at < |cl.tiers|
    requires SubmitsInOrder(e, cl, at, w, k, o) || SubmitsIngress(cl, at, w, k, o)
    ensures TierKey(cl.id, cl.tiers[at].name, k)
  {
    if SubmitsInOrder(e, cl, at, w, k, o) {
      var ms := e.desired(cl, at);
      var j :| 0 <= j < |ms| && ms[j].key == k;
      assert ms[j].key == ManifestKey(cl, at, j);
    }
  }

  lemma StepKeepsForeign(e: Env, id: Identity, specs: seq<Cluster>, st: Step, k: Key)
    requires KeysBuilt(e) && StepSafe(e, id, specs, st) && Foreign(id, specs, k)
    ensures k in st.after.objects <==> k in st.before.objects
    ensures k in st.after.objects ==> st.after.objects[k] == st.before.objects[k]
  {
    var c := st.command;
    if c.CreateObject? || c.PatchObject? {
      SubmittedKeyIsTierKey(e, st.cluster, st.at, st.before, c.key, c.content);
    } else if c.DeleteObject? {
      var i: nat :| i > SetCount(st.cluster.tiers[st.at]) && c.key == SetKey(id, st.cluster.tiers[st.at].name, i);
      assert TierKey(id, st.cluster.tiers[st.at].name, c.key);
    }
  }

  /** An object that no tier of any spec could have (another cluster's, or the user's own) is never
      created, changed or deleted, whatever fails. */
  lemma ForeignObjectsUntouched(e: Env, id: Identity, w0: World, specs: seq<Cluster>, i: nat, k: Key)
    requires Legal(e, id, w0, specs) && i <= |History(e, w0, specs).log| && Foreign(id, specs, k)
    ensures var w := WorldAt(w0, History(e, w0, specs).log, i);
            (k in w.objects <==> k in w0.objects) && (k in w.objects ==> w.objects[k] == w0.objects[k])
  {
    HistoryIsSafe(e, id, w0, specs);
    var s := History(e, w0, specs);
    var same := (w: World) =>
      (k in w.objects <==> k in w0.objects) && (k in w.objects ==> w.objects[k] == w0.objects[k]);
    forall m | 0 <= m < i && same(WorldAt(w0, s.log, m))
      ensures same(WorldAt(w0, s.log, m + 1))
    {
      SafeWorld(e, id, specs, w0, s, m);
      StepKeepsForeign(e, id, specs, s.log[m], k);
    }
    KeptAlong(w0, s.log, 0, i, same);
  }
}
