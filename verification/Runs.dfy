/** Whole passes and whole runs, under any faults. */
module Runs {
  import opened Types
  import opened Machine
  import opened Protocol
  import opened Invariants
  import opened Safety
  import opened PluginSafety

  lemma SafeUpdateStatus(
      e: Env, specs: seq<Cluster>, w0: World, s: Session, cl: Cluster, tiers: seq<TierStatus>, allReady: bool)
    requires Valid(e) && KeysBuilt(e) && Safe(e, cl.id, specs, w0, s) && cl in specs
    ensures Safe(e, cl.id, specs, w0, UpdateStatus(e, s, cl, tiers, allReady))
  {
    var next := NextStatus(s.world.status, tiers, allReady, e.clock(s.calls));
    assert Justified(e, cl, |cl.tiers|, s.world, PatchStatus(next));
    SafeDo(e, specs, w0, s, cl, |cl.tiers|, PatchStatus(next));
  }

  lemma SafeRead(e: Env, specs: seq<Cluster>, id: Identity, w0: World, s: Session)
    requires Safe(e, id, specs, w0, s)
    ensures Safe(e, id, specs, w0, Read(e, s))
  {
  }

  lemma HandledSession(e: Env, s: Session, cl: Cluster, at: nat)
    requires at < |cl.tiers|
    ensures var seen, r := Read(e, ReconcileTier(e, s, cl, at)), HandleTier(e, s, cl, at).session;
            r == seen || r == ReconcileTierPlugins(e, seen, cl, at)
  {
  }

  lemma SafeHandleTier(e: Env, specs: seq<Cluster>, w0: World, s: Session, cl: Cluster, at: nat)
    requires Valid(e) && KeysBuilt(e) && Safe(e, cl.id, specs, w0, s) && cl in specs && at < |cl.tiers|
    ensures Safe(e, cl.id, specs, w0, HandleTier(e, s, cl, at).session)
  {
    var seen := Read(e, ReconcileTier(e, s, cl, at));
    SafeReconcileTier(e, specs, w0, s, cl, at);
    SafeRead(e, specs, cl.id, w0, ReconcileTier(e, s, cl, at));
    SafeTierPlugins(e, specs, w0, seen, cl, at);
    HandledSession(e, s, cl, at);
  }

  /** What one more tier keeps, the loop over the tiers keeps. */
  lemma {:induction false} WalkInductionFrom(
      e: Env, s: Session, cl: Cluster, i: nat, n: nat, kept: (Walk, nat) -> bool)
    requires i <= n <= |cl.tiers| && kept(TierWalk(e, s, cl, i), i)
    requires forall w: Walk, at: nat | at < |cl.tiers| && kept(w, at) :: kept(WalkOn(e, w, cl, at), at + 1)
    ensures kept(TierWalk(e, s, cl, n), n)
    decreases n
  {
    if i < n {
      WalkInductionFrom(e, s, cl, i, n - 1, kept);
    }
  }

  lemma WalkInduction(e: Env, s: Session, cl: Cluster, n: nat, kept: (Walk, nat) -> bool)
    requires n <= |cl.tiers| && kept(Walk(s, [], NoStop), 0)
    requires forall w: Walk, at: nat | at < |cl.tiers| && kept(w, at) :: kept(WalkOn(e, w, cl, at), at + 1)
    ensures kept(TierWalk(e, s, cl, n), n)
  {
    WalkInductionFrom(e, s, cl, 0, n, kept);
  }

  lemma SafeWalkOn(e: Env, specs: seq<Cluster>, w0: World, w: Walk, cl: Cluster, at: nat)
    requires Valid(e) && KeysBuilt(e) && Safe(e, cl.id, specs, w0, w.session) && cl in specs && at < |cl.tiers|
    ensures Safe(e, cl.id, specs, w0, WalkOn(e, w, cl, at).session)
  {
    SafeHandleTier(e, specs, w0, w.session, cl, at);
  }

  lemma SafeTierWalk(e: Env, specs: seq<Cluster>, w0: World, s: Session, cl: Cluster, n: nat)
    requires Valid(e) && KeysBuilt(e) && Safe(e, cl.id, specs, w0, s) && cl in specs && n <= |cl.tiers|
    ensures Safe(e, cl.id, specs, w0, TierWalk(e, s, cl, n).session)
  {
    var safe := (w: Walk, at: nat) => Safe(e, cl.id, specs, w0, w.session);
    forall w: Walk, at: nat | at < |cl.tiers| && safe(w, at)
      ensures safe(WalkOn(e, w, cl, at), at + 1)
    {
      SafeWalkOn(e, specs, w0, w, cl, at);
    }
    WalkInduction(e, s, cl, n, safe);
  }

  lemma SafeReconcile(e: Env, specs: seq<Cluster>, w0: World, s: Session, cl: Cluster)
    requires Valid(e) && KeysBuilt(e) && Safe(e, cl.id, specs, w0, s) && cl in specs
    ensures Safe(e, cl.id, specs, w0, Reconcile(e, s, cl))
  {
    var w := WholeWalk(e, s, cl);
    SafeTierWalk(e, specs, w0, Read(e, s), cl, |cl.tiers|);
    match w.stop {
      case TierError =>
      case PluginError => SafeUpdateStatus(e, specs, w0, w.session.(ok := true), cl, w.done, false);
      case NoStop => SafeUpdateStatus(e, specs, w0, w.session, cl, w.done, AllReady(w.done));
    }
  }

  /** Any number of passes, under specs of one cluster that may change between them, with calls
      failing anywhere: every command ever issued was justified where it was issued, every ENABLE
      came right after its full script, and every world on the way kept the invariants. */
  lemma {:induction false} RunIsSafe(e: Env, id: Identity, w0: World, specs: seq<Cluster>, n: nat)
    requires Valid(e) && KeysBuilt(e) && n <= |specs|
    requires forall c | c in specs :: c.id == id
    requires Inv(e, id, specs, w0)
    ensures Safe(e, id, specs, w0, Run(e, Session(w0, [], 0, true), specs[..n]))
  {
    var start := Session(w0, [], 0, true);
    if n == 0 {
      assert specs[..0] == [];
    } else {
      RunIsSafe(e, id, w0, specs, n - 1);
      assert specs[..n][..n - 1] == specs[..n - 1];
      var s := Run(e, start, specs[..n - 1]).(ok := true);
      assert specs[n - 1] in specs;
      SafeReconcile(e, specs, w0, s, specs[n - 1]);
    }
  }
}
