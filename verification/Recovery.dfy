/** Whole passes on top of any history: what phase Ready means, and how one pass without faults
    repairs whatever failed and interrupted passes under earlier specs have left. */
module Recovery {
  import opened Types
  import opened Names
  import opened Builders
  import opened Machine
  import opened Protocol
  import opened Invariants
  import opened Safety
  import opened Runs
  import opened RunTheorems
  import opened TierConvergence
  import opened TierTheorems
  import opened Links
  import opened Passes
  import opened CrossTier
  import opened Quiescence
  import opened Readiness

  // ---------------------------------------------------------------- Ready is true

  /** Every tier has pods, and its pod count fits an int32. */
  predicate Sane(cl: Cluster) {
    forall at | 0 <= at < |cl.tiers| ::
      cl.tiers[at].replicas >= 1 && cl.tiers[at].replicationFactor >= 1 && ProductFits(cl.tiers[at])
  }

  /** The call by which a pass counts the pods of a tier. */
  function CountingCall(e: Env, s: Session, cl: Cluster, at: nat): nat
    requires at < |cl.tiers|
  {
    Made(e, s, cl, at).calls
  }

  /** At each call by which the pass counts pods, no StatefulSet of the store reports more than it asks for. */
  ghost predicate HonestCounts(e: Env, s: Session, cl: Cluster) {
    forall at: nat | at < |cl.tiers| && at < |WholeWalk(e, s, cl).done| ::
      HonestReports(e, Made(e, s, cl, at).world, CountingCall(e, s, cl, at))
  }

  /** When the pass counts the pods of the tier, every replicaset reports all the pods it asks for. */
  ghost predicate FullWhenCounted(e: Env, s: Session, cl: Cluster, at: nat)
    requires at < |cl.tiers|
  {
    FullAt(e, cl, at, Made(e, s, cl, at).world, CountingCall(e, s, cl, at))
  }

  lemma SafeIsOwned(e: Env, id: Identity, specs: seq<Cluster>, w0: World, s: Session)
    requires Safe(e, id, specs, w0, s)
    ensures Owned(id, s.world)
  {
  }

  lemma HandledObserved(e: Env, s: Session, cl: Cluster, at: nat)
    requires at < |cl.tiers| && HandleTier(e, s, cl, at).TierDone?
    ensures var made, ts := ReconcileTier(e, s, cl, at), HandleTier(e, s, cl, at).status;
            && made.ok && ts == ObserveTier(e, made, cl, at).(plugins := ts.plugins)
  {
  }

  /** The status of a tier is what was observed when its pods were counted. */
  lemma CountedStatus(e: Env, s: Session, cl: Cluster, at: nat)
    requires Read(e, s).ok && at < |cl.tiers| && at < |WholeWalk(e, s, cl).done|
    ensures var made, ts := Made(e, s, cl, at), WholeWalk(e, s, cl).done[at];
            made.ok && ts == ObserveTier(e, made, cl, at).(plugins := ts.plugins)
  {
    HandledAt(e, Read(e, s), cl, at, |cl.tiers|);
    HandledObserved(e, TierWalk(e, Read(e, s), cl, at).session, cl, at);
  }

  /** A tier of a pass is found ready exactly if it is full when it is counted. */
  lemma CountedFullIff(e: Env, s: Session, cl: Cluster, at: nat)
    requires Valid(e) && Built(e) && Read(e, s).ok && at < |cl.tiers| && at < |WholeWalk(e, s, cl).done|
    requires Owned(cl.id, TierWalk(e, Read(e, s), cl, at).session.world)
    requires Sane(cl) && HonestCounts(e, s, cl)
    ensures IsReady(WholeWalk(e, s, cl).done[at]) <==> FullWhenCounted(e, s, cl, at)
  {
    CountedStatus(e, s, cl, at);
    ReadyTierIsFull(e, TierWalk(e, Read(e, s), cl, at).session, cl, at);
  }

  lemma CallsGrow(e: Env, s: Session, cl: Cluster, i: nat, n: nat)
    requires i <= n <= |cl.tiers|
    ensures TierWalk(e, s, cl, i).session.calls <= TierWalk(e, s, cl, n).session.calls
  {
    var calls := TierWalk(e, s, cl, i).session.calls;
    var kept := (w: Walk, at: nat) => calls <= w.session.calls;
    forall w: Walk, at: nat | at < |cl.tiers| && kept(w, at)
      ensures kept(WalkOn(e, w, cl, at), at + 1)
    {
      WalkOnCases(e, w, cl, at);
      HandledLink(e, w.session, cl, at);
    }
    WalkInductionFrom(e, s, cl, i, n, kept);
  }

  /** The pods of a tier are counted by a call of its own, after the objects are reconciled. */
  lemma HandledCalls(e: Env, s: Session, cl: Cluster, at: nat)
    requires at < |cl.tiers|
    ensures s.calls <= ReconcileTier(e, s, cl, at).calls
    ensures HandleTier(e, s, cl, at).TierDone? ==>
              ReconcileTier(e, s, cl, at).calls < HandleTier(e, s, cl, at).session.calls
  {
    var made := ReconcileTier(e, s, cl, at);
    LinkTier(e, Scope(cl, at, at, true, true), s, cl, at);
    LinkTierPlugins(e, Scope(cl, at, at, true, true), Read(e, made), cl, at);
  }

  lemma PassCalls(e: Env, s: Session, cl: Cluster)
    ensures s.calls <= Read(e, s).calls
    ensures s.ok ==> s.calls < Read(e, s).calls
    ensures Read(e, s).ok ==> WholeWalk(e, s, cl).session.calls <= Reconcile(e, s, cl).calls
  {
  }

  lemma CountingInWalk(e: Env, s: Session, cl: Cluster, at: nat)
    requires s.ok && at < |cl.tiers| && at < |TierWalk(e, s, cl, |cl.tiers|).done|
    ensures s.calls <= ReconcileTier(e, TierWalk(e, s, cl, at).session, cl, at).calls
                    < TierWalk(e, s, cl, |cl.tiers|).session.calls
  {
    var before := TierWalk(e, s, cl, at).session;
    assert TierWalk(e, s, cl, 0).session == s;
    HandledAt(e, s, cl, at, |cl.tiers|);
    HandledCalls(e, before, cl, at);
    CallsGrow(e, s, cl, 0, at);
    CallsGrow(e, s, cl, at + 1, |cl.tiers|);
  }

  /** The counting call is one of the pass. */
  lemma CountingIsInside(e: Env, s: Session, cl: Cluster, at: nat)
    requires Read(e, s).ok && s.ok && at < |cl.tiers| && at < |WholeWalk(e, s, cl).done|
    ensures s.calls < CountingCall(e, s, cl, at) < Reconcile(e, s, cl).calls
  {
    CountingInWalk(e, Read(e, s), cl, at);
    PassCalls(e, s, cl);
  }

  /** The session in which pass number n of a run begins. */
  function BeforePass(e: Env, w0: World, specs: seq<Cluster>, n: nat): Session
    requires n <= |specs|
  {
    History(e, w0, specs[..n]).(ok := true)
  }

  /** A pass that cannot read its resource issues nothing. */
  lemma SilentWithoutRead(e: Env, s: Session, cl: Cluster)
    ensures !Read(e, s).ok ==> Reconcile(e, s, cl).log == s.log
  {
  }

  lemma ReadyPassIsFull(e: Env, specs: seq<Cluster>, w0: World, s: Session, cl: Cluster, i: nat, at: nat)
    requires Valid(e) && Built(e) && KeysBuilt(e) && Safe(e, cl.id, specs, w0, s) && cl in specs && s.ok
    requires Sane(cl) && HonestCounts(e, s, cl) && at < |cl.tiers| && |s.log| <= i < |Reconcile(e, s, cl).log|
    requires var c := Reconcile(e, s, cl).log[i].command; c.PatchStatus? && c.status.phase == Phase.Ready
    ensures FullWhenCounted(e, s, cl, at) && s.calls < CountingCall(e, s, cl, at) < Reconcile(e, s, cl).calls
  {
    ReadyMeansAllTiersReady(e, s, cl, i);
    SilentWithoutRead(e, s, cl);
    assert IsReady(WholeWalk(e, s, cl).done[at]);
    SafeTierWalk(e, specs, w0, Read(e, s), cl, at);
    SafeIsOwned(e, cl.id, specs, w0, TierWalk(e, Read(e, s), cl, at).session);
    CountedFullIff(e, s, cl, at);
    CountingIsInside(e, s, cl, at);
  }

  /** If pass number n of any run issues phase Ready, then for each tier every single replicaset reported all
      the pods it asks for, at the call of that very pass that counts the tier's pods. */
  lemma ReadyIsTrue(e: Env, id: Identity, w0: World, specs: seq<Cluster>, n: nat, i: nat, at: nat)
    requires Legal(e, id, w0, specs) && Built(e) && n < |specs| && Sane(specs[n]) && at < |specs[n].tiers|
    requires HonestCounts(e, BeforePass(e, w0, specs, n), specs[n])
    requires var s := BeforePass(e, w0, specs, n); |s.log| <= i < |Reconcile(e, s, specs[n]).log|
    requires var c := Reconcile(e, BeforePass(e, w0, specs, n), specs[n]).log[i].command;
             c.PatchStatus? && c.status.phase == Phase.Ready
    ensures var s := BeforePass(e, w0, specs, n);
            && FullWhenCounted(e, s, specs[n], at)
            && s.calls < CountingCall(e, s, specs[n], at) < Reconcile(e, s, specs[n]).calls
  {
    var s, cl := BeforePass(e, w0, specs, n), specs[n];
    assert cl in specs;
    RunIsSafe(e, id, w0, specs, n);
    ReadyPassIsFull(e, specs, w0, s, cl, i, at);
  }

  lemma FinishedPhase(e: Env, w: Walk, cl: Cluster)
    requires FaultFree(e) && w.stop == NoStop && w.session.ok
    ensures FinishPass(e, w, cl).world.status.phase == if AllReady(w.done) then Phase.Ready else Initializing
  {
  }

  /** The phase a fault-free pass ends with is that of the statuses it collected. */
  lemma PhaseWritten(e: Env, s: Session, cl: Cluster)
    requires Valid(e) && KeysBuilt(e) && FaultFree(e) && s.ok
    ensures var done := WholeWalk(e, s, cl).done;
            && |done| == |cl.tiers|
            && Reconcile(e, s, cl).world.status.phase == if AllReady(done) then Phase.Ready else Initializing
  {
    SharedTableOutcome(e, Read(e, s), cl, |cl.tiers|);
    FinishedPhase(e, WholeWalk(e, s, cl), cl);
  }

  lemma AllCounted(e: Env, s: Session, cl: Cluster)
    requires Valid(e) && Built(e) && FaultFree(e) && Owned(cl.id, s.world) && s.ok
    requires Sane(cl) && HonestCounts(e, s, cl) && |WholeWalk(e, s, cl).done| == |cl.tiers|
    ensures forall at: nat | at < |cl.tiers| ::
              IsReady(WholeWalk(e, s, cl).done[at]) <==> FullWhenCounted(e, s, cl, at)
  {
    BuiltKeys(e);
    forall at: nat | at < |cl.tiers|
      ensures IsReady(WholeWalk(e, s, cl).done[at]) <==> FullWhenCounted(e, s, cl, at)
    {
      OwnedWalk(e, Read(e, s), cl, at);
      CountedFullIff(e, s, cl, at);
    }
  }

  ghost predicate EveryTierFull(e: Env, s: Session, cl: Cluster) {
    forall at: nat | at < |cl.tiers| :: FullWhenCounted(e, s, cl, at)
  }

  lemma WalkReadyIff(e: Env, s: Session, cl: Cluster)
    requires Valid(e) && Built(e) && FaultFree(e) && Owned(cl.id, s.world) && s.ok
    requires Sane(cl) && HonestCounts(e, s, cl) && |WholeWalk(e, s, cl).done| == |cl.tiers|
    ensures AllReady(WholeWalk(e, s, cl).done) <==> EveryTierFull(e, s, cl)
  {
    AllCounted(e, s, cl);
  }

  /** A fault-free pass ends with phase Ready exactly if every tier is full when it is counted. */
  lemma PassReadyIff(e: Env, s: Session, cl: Cluster)
    requires Valid(e) && Built(e) && KeysBuilt(e) && FaultFree(e) && Owned(cl.id, s.world) && s.ok
    requires Sane(cl) && HonestCounts(e, s, cl)
    ensures Reconcile(e, s, cl).world.status.phase == Phase.Ready <==> EveryTierFull(e, s, cl)
  {
    PhaseWritten(e, s, cl);
    WalkReadyIff(e, s, cl);
  }

  /** After any run with any faults, a pass without faults ends with phase Ready exactly if every tier
      is full at the call by which the pass counts its pods. (`e` is what the run met, `f` what the last
      pass meets.) */
  lemma ReadyIff(e: Env, f: Env, w0: World, specs: seq<Cluster>, cl: Cluster)
    requires Legal(e, cl.id, w0, specs)
    requires Valid(f) && Built(f) && FaultFree(f) && Sane(cl)
    requires HonestCounts(f, Session(History(e, w0, specs).world, [], 0, true), cl)
    ensures var s := Session(History(e, w0, specs).world, [], 0, true);
            Reconcile(f, s, cl).world.status.phase == Phase.Ready <==> EveryTierFull(f, s, cl)
  {
    BuiltKeys(f);
    HistoryIsSafe(e, cl.id, w0, specs);
    SafeIsOwned(e, cl.id, specs, w0, History(e, w0, specs));
    PassReadyIff(f, Session(History(e, w0, specs).world, [], 0, true), cl);
  }

  // ---------------------------------------------------------------- repair

  lemma RestMeansExactSets(e: Env, cl: Cluster, at: nat, w: World, k: Key)
    requires KeysBuilt(e) && at < |cl.tiers| && Owned(cl.id, w) && AtRest(e, cl, at, w.objects)
    ensures k in TierSets(w, cl.id, cl.tiers[at].name) <==> exists i: nat :: IsOwnSet(cl, at, k, i)
  {
    if i: nat :| IsOwnSet(cl, at, k, i) {
      OwnSetIsOwnKey(e, cl, at, k, i);
      LabelsIdentifyTier(cl.id, cl.tiers[at].name, cl.tiers[at].name, i);
      assert w.objects[k].labels == Wanted(e, cl, at)[i + 2].content.labels;
    }
    if k in TierSets(w, cl.id, cl.tiers[at].name) {
      ExtraIsBeyond(cl, at, w, k);
      var i: nat :| 1 <= i && k == SetKey(cl.id, cl.tiers[at].name, i)
                    && (Extra(cl, at, w.objects, k) <==> i > SetCount(cl.tiers[at]));
      assert IsOwnSet(cl, at, k, i);
    }
  }

  /** The tier's label selector finds exactly replicasets 1..Replicas, and every object of the tier
      has its desired labels and live fields. */
  ghost predicate TierRepaired(e: Env, cl: Cluster, at: nat, w: World)
    requires at < |cl.tiers|
  {
    && AtRest(e, cl, at, w.objects)
    && forall k :: k in TierSets(w, cl.id, cl.tiers[at].name) <==> exists i: nat :: IsOwnSet(cl, at, k, i)
  }

  ghost predicate AllRepaired(e: Env, cl: Cluster, w: World) {
    forall at: nat | at < |cl.tiers| :: TierRepaired(e, cl, at, w)
  }

  /** Take any run, with calls failing anywhere, over any specs of the cluster. One pass without
      faults after it ends with every tier repaired exactly if the tiers get along; the plugin table is
      that of the last tier served and, if the served tiers agree, serves them all. (`e` is what the run
      met, `f` what the last pass meets.) */
  lemma OnePassRepairs(e: Env, f: Env, w0: World, specs: seq<Cluster>, cl: Cluster)
    requires Legal(e, cl.id, w0, specs)
    requires Valid(f) && KeysBuilt(f) && FaultFree(f)
    ensures var s := Session(History(e, w0, specs).world, [], 0, true);
            var r, w := Reconcile(f, s, cl), WholeWalk(f, s, cl);
            && r.ok
            && (AllRepaired(f, cl, r.world) <==> AllCompatible(f, cl))
            && TableAfter(f, cl, s.world, w, |cl.tiers|) && r.world.plugins == w.session.world.plugins
  {
    HistoryIsSafe(e, cl.id, w0, specs);
    SafeIsOwned(e, cl.id, specs, w0, History(e, w0, specs));
    var s := Session(History(e, w0, specs).world, [], 0, true);
    PassRepairsIff(f, s, cl);
    QuietPassIff(f, s, cl);
    SharedTableOutcome(f, Read(f, s), cl, |cl.tiers|);
  }

  lemma PassRepairsIff(f: Env, s: Session, cl: Cluster)
    requires Valid(f) && KeysBuilt(f) && FaultFree(f) && s.ok && Owned(cl.id, s.world)
    ensures AllRepaired(f, cl, Reconcile(f, s, cl).world) <==> AllCompatible(f, cl)
  {
    PassRestsIff(f, s, cl);
    QuietPassIff(f, s, cl);
    OwnedWalk(f, Read(f, s), cl, |cl.tiers|);
    RepairedIff(f, cl, WholeWalk(f, s, cl).session.world, Reconcile(f, s, cl).world);
  }

  lemma RepairedIff(f: Env, cl: Cluster, a: World, b: World)
    requires KeysBuilt(f) && a.objects == b.objects && Owned(cl.id, a)
    ensures AllRepaired(f, cl, b) <==> AllAtRest(f, cl, b.objects)
  {
    assert Owned(cl.id, b);
    forall at: nat, k | at < |cl.tiers| && AtRest(f, cl, at, b.objects)
      ensures k in TierSets(b, cl.id, cl.tiers[at].name) <==> exists i: nat :: IsOwnSet(cl, at, k, i)
    {
      RestMeansExactSets(f, cl, at, b, k);
    }
    if AllRepaired(f, cl, b) {
      forall at: nat | at < |cl.tiers|
        ensures AtRest(f, cl, at, b.objects)
      {
        assert TierRepaired(f, cl, at, b);
      }
    }
  }

  /** For tiers with pairwise distinct names: exactly if no two of their Service names clash. */
  lemma DistinctTiersRepairedIff(f: Env, s: Session, cl: Cluster)
    requires Valid(f) && Built(f) && FaultFree(f) && s.ok && Owned(cl.id, s.world) && DistinctNames(cl)
    ensures AllRepaired(f, cl, Reconcile(f, s, cl).world) <==> NoServicesClash(cl)
  {
    BuiltKeys(f);
    PassRepairsIff(f, s, cl);
    DistinctNamesCompatibleIff(f, cl);
  }
}
