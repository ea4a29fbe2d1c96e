/** Which passes write a status, and what stands in it. */
module StatusWrites {
  import opened Text
  import opened Types
  import opened Machine
  import opened Protocol
  import opened Builders
  import opened Safety
  import opened Runs
  import opened RunTheorems
  import opened Readiness
  import opened Links
  import opened Passes
  import opened StatusHistory
  import opened Recovery

  // ---------------------------------------------------------------- when a status is written

  predicate IsNewStatus(s: Session, r: Session, i: nat) {
    |s.log| <= i < |r.log| && r.log[i].command.PatchStatus?
  }

  /** One more step, the status. */
  predicate AppendsStatus(a: Session, b: Session) {
    && |b.log| == |a.log| + 1 && b.log[..|a.log|] == a.log && b.log[|a.log|].command.PatchStatus?
  }

  lemma StopsOnFailure(e: Env, w: Walk, cl: Cluster, at: nat)
    requires at < |cl.tiers| && (w.stop != NoStop <==> !w.session.ok)
    ensures var v := WalkOn(e, w, cl, at); v.stop != NoStop <==> !v.session.ok
  {
    var s := w.session;
    HandledFails(e, s, cl, at);
    WalkOnCases(e, w, cl, at);
  }

  lemma HandledFails(e: Env, s: Session, cl: Cluster, at: nat)
    requires at < |cl.tiers|
    ensures HandleTier(e, s, cl, at).TierDone? <==> HandleTier(e, s, cl, at).session.ok
  {
  }

  lemma StoppedMeansFailed(e: Env, s: Session, cl: Cluster, n: nat)
    requires n <= |cl.tiers| && s.ok
    ensures TierWalk(e, s, cl, n).stop != NoStop <==> !TierWalk(e, s, cl, n).session.ok
  {
    var kept := (w: Walk, at: nat) => w.stop != NoStop <==> !w.session.ok;
    forall w: Walk, at: nat | at < |cl.tiers| && kept(w, at)
      ensures kept(WalkOn(e, w, cl, at), at + 1)
    {
      StopsOnFailure(e, w, cl, at);
    }
    WalkInduction(e, s, cl, n, kept);
  }

  /** The pass succeeds unless a tier reconciliation failed or the last status is not reported written. */
  predicate Succeeds(e: Env, stop: Stop, calls: nat) {
    match stop
    case TierError => false
    case PluginError => true
    case NoStop => calls > 0 && e.outcome(calls - 1) == Done
  }

  /** How a pass ends: after a tier error at once; else with a status. */
  lemma FinishCases(e: Env, w: Walk, cl: Cluster)
    requires w.stop != NoStop <==> !w.session.ok
    ensures var r := FinishPass(e, w, cl);
            && (if w.stop == TierError then r == w.session else AppendsStatus(w.session, r))
            && (r.ok <==> Succeeds(e, w.stop, r.calls))
  {
  }

  lemma NoStatusInWalk(e: Env, s: Session, cl: Cluster)
    requires Read(e, s).ok
    ensures var a, b := s, WholeWalk(e, s, cl).session;
            && |a.log| <= |b.log| && b.log[..|a.log|] == a.log
            && forall i: nat :: !IsNewStatus(a, b, i)
  {
    var w := WholeWalk(e, s, cl);
    WalkLink(e, Read(e, s), cl, |cl.tiers|);
    NoStatusInside(e, Scope(cl, 0, |w.done|, true, true), Read(e, s), w.session);
  }

  /** A pass writes a status if and only if it could read its resource and no tier reconciliation failed;
      then it writes exactly one, as its last command. */
  lemma StatusWrittenIff(e: Env, s: Session, cl: Cluster)
    requires s.ok
    ensures var r := Reconcile(e, s, cl);
            && ((exists i: nat :: IsNewStatus(s, r, i)) <==> Read(e, s).ok && WholeWalk(e, s, cl).stop != TierError)
            && forall i: nat | IsNewStatus(s, r, i) :: i == |r.log| - 1
  {
    var w, r := WholeWalk(e, s, cl), Reconcile(e, s, cl);
    if Read(e, s).ok {
      StoppedMeansFailed(e, Read(e, s), cl, |cl.tiers|);
      NoStatusInWalk(e, s, cl);
      FinishCases(e, w, cl);
      if w.stop != TierError {
        OnlyLast(s, w.session, r);
      }
    }
  }

  lemma OnlyLast(s: Session, a: Session, b: Session)
    requires |s.log| <= |a.log| && AppendsStatus(a, b) && forall i: nat :: !IsNewStatus(s, a, i)
    ensures IsNewStatus(s, b, |b.log| - 1)
    ensures forall i: nat | IsNewStatus(s, b, i) :: i == |b.log| - 1
  {
    forall i: nat | i < |a.log|
      ensures IsNewStatus(s, b, i) <==> IsNewStatus(s, a, i)
    {
      assert b.log[i] == b.log[..|a.log|][i];
    }
  }

  lemma LinkKeepsStatus(e: Env, sc: Scope, a: Session, b: Session)
    requires Link(e, sc, a, b)
    ensures b.world.status == a.world.status
  {
    var added := b.log[|a.log|..];
    var kept := (w: World) => w.status == a.world.status;
    forall m | 0 <= m < |added| && kept(WorldAt(a.world, added, m))
      ensures kept(WorldAt(a.world, added, m + 1))
    {
      assert added[m] == b.log[|a.log| + m];
      OtherStepsKeepStatus(e, sc, added[m]);
      assert added[m].before == WorldAt(a.world, added, m);
    }
    KeptAlong(a.world, added, 0, |added|, kept);
  }

  /** A pass whose tier reconciliation fails, or that cannot read its resource, leaves the status as it is
      and reports an error. */
  lemma FailedTierKeepsStatus(e: Env, s: Session, cl: Cluster)
    requires s.ok && (Read(e, s).ok ==> WholeWalk(e, s, cl).stop == TierError)
    ensures Reconcile(e, s, cl).world.status == s.world.status && !Reconcile(e, s, cl).ok
  {
    if Read(e, s).ok {
      var w := WholeWalk(e, s, cl);
      StoppedMeansFailed(e, Read(e, s), cl, |cl.tiers|);
      FinishCases(e, w, cl);
      WalkLink(e, Read(e, s), cl, |cl.tiers|);
      LinkKeepsStatus(e, Scope(cl, 0, |w.done|, true, true), Read(e, s), w.session);
    }
  }

  /** A pass reports an error if it could not read its resource, if a tier reconciliation failed, or if all
      tiers were handled and the status was not reported written; a plugin failure is not reported. */
  lemma PassSucceedsIff(e: Env, s: Session, cl: Cluster)
    requires s.ok
    ensures Reconcile(e, s, cl).ok
       <==> Read(e, s).ok && Succeeds(e, WholeWalk(e, s, cl).stop, Reconcile(e, s, cl).calls)
  {
    if Read(e, s).ok {
      StoppedMeansFailed(e, Read(e, s), cl, |cl.tiers|);
      FinishCases(e, WholeWalk(e, s, cl), cl);
    }
  }

  // ---------------------------------------------------------------- what is written

  /** The plugins of a ready tier, all of them, in spec order, as enabled. */
  predicate AllListed(plugins: seq<Plugin>, reports: seq<PluginStatus>) {
    && |reports| == |plugins|
    && forall i | 0 <= i < |plugins| ::
         reports[i].name == plugins[i].name && reports[i].version == plugins[i].version && reports[i].enabled
  }

  /** The status of a tier says, of the call that counts its pods in this pass, how many its replicasets
      reported together. */
  ghost predicate TierReported(e: Env, s: Session, cl: Cluster, at: nat, ts: TierStatus)
    requires at < |cl.tiers|
  {
    var t := cl.tiers[at];
    && ts.name == t.name && ts.desiredReplicas == Wrap32(t.replicas * t.replicationFactor)
    && ts.readyReplicas == Wrap32(ReportedPods(e, CountingCall(e, s, cl, at), cl.id, t.name, SetCount(t)))
    && (if ts.readyReplicas >= ts.desiredReplicas then AllListed(t.plugins, ts.plugins) else ts.plugins == [])
  }

  lemma ReportsListed(plugins: seq<Plugin>)
    ensures AllListed(plugins, PluginReports(plugins))
  {
  }

  lemma StatusCounts(e: Env, specs: seq<Cluster>, w0: World, s: Session, cl: Cluster, at: nat)
    requires Valid(e) && KeysBuilt(e) && Safe(e, cl.id, specs, w0, s) && cl in specs && Read(e, s).ok && s.ok
    requires at < |cl.tiers| && at < |WholeWalk(e, s, cl).done|
    ensures TierReported(e, s, cl, at, WholeWalk(e, s, cl).done[at])
  {
    var before := TierWalk(e, Read(e, s), cl, at).session;
    SafeTierWalk(e, specs, w0, Read(e, s), cl, at);
    SafeIsOwned(e, cl.id, specs, w0, before);
    CountedStatus(e, s, cl, at);
    ObservedCount(e, before, cl, at);
    WalkReports(e, Read(e, s), cl, |cl.tiers|);
    ReportsListed(cl.tiers[at].plugins);
  }

  /** One condition, which says of the tiers what the phase says. */
  predicate ConditionSays(st: Status, tiers: nat) {
    && |st.conditions| == 1 && st.conditions[0].kind == "Ready"
    && (st.phase == Phase.Ready ==>
          && st.conditions[0].status == ConditionTrue && st.conditions[0].reason == "AllTiersReady"
          && st.conditions[0].message == "All " + Decimal(tiers) + " tier(s) are ready")
    && (st.phase != Phase.Ready ==>
          && st.phase == Initializing
          && st.conditions[0].status == ConditionFalse && st.conditions[0].reason == "TiersNotReady"
          && st.conditions[0].message == "One or more tiers are not yet ready")
  }

  /** Every tier of the spec is listed, and each reached the number of pods waited for. */
  predicate AllReached(tiers: seq<TierStatus>, n: nat) {
    |tiers| == n && forall i | 0 <= i < n :: tiers[i].readyReplicas >= tiers[i].desiredReplicas
  }

  lemma FinishWrites(e: Env, w: Walk, cl: Cluster)
    requires w.stop != TierError && (w.stop == NoStop <==> |w.done| == |cl.tiers|)
    requires w.stop != NoStop <==> !w.session.ok
    ensures var r := FinishPass(e, w, cl);
            && r.log != [] && r.log[|r.log| - 1].command.PatchStatus?
            && var st := r.log[|r.log| - 1].command.status;
               && st.tiers == w.done && (st.phase == Phase.Ready <==> AllReached(w.done, |cl.tiers|))
               && ConditionSays(st, |cl.tiers|)
  {
  }

  /** What the status that a pass of a run writes says: of the tiers handled, in spec order, what was counted;
      phase Ready exactly if that is all tiers and each reached its number; and a condition to match. */
  lemma WrittenStatus(e: Env, id: Identity, w0: World, specs: seq<Cluster>, n: nat, i: nat)
    requires Legal(e, id, w0, specs) && n < |specs|
    requires IsNewStatus(BeforePass(e, w0, specs, n), Reconcile(e, BeforePass(e, w0, specs, n), specs[n]), i)
    ensures var s, cl := BeforePass(e, w0, specs, n), specs[n];
            var st := Reconcile(e, s, cl).log[i].command.status;
            && st.tiers == WholeWalk(e, s, cl).done && |st.tiers| <= |cl.tiers|
            && (forall at: nat | at < |st.tiers| :: TierReported(e, s, cl, at, st.tiers[at]))
            && (st.phase == Phase.Ready <==> AllReached(st.tiers, |cl.tiers|)) && ConditionSays(st, |cl.tiers|)
  {
    var s, cl := BeforePass(e, w0, specs, n), specs[n];
    assert cl in specs;
    RunIsSafe(e, id, w0, specs, n);
    PassWrites(e, specs, w0, s, cl, i);
  }

  lemma PassWrites(e: Env, specs: seq<Cluster>, w0: World, s: Session, cl: Cluster, i: nat)
    requires Valid(e) && KeysBuilt(e) && Safe(e, cl.id, specs, w0, s) && cl in specs && s.ok
    requires IsNewStatus(s, Reconcile(e, s, cl), i)
    ensures var st := Reconcile(e, s, cl).log[i].command.status;
            && st.tiers == WholeWalk(e, s, cl).done && |st.tiers| <= |cl.tiers|
            && (forall at: nat | at < |st.tiers| :: TierReported(e, s, cl, at, st.tiers[at]))
            && (st.phase == Phase.Ready <==> AllReached(st.tiers, |cl.tiers|)) && ConditionSays(st, |cl.tiers|)
  {
    var w := WholeWalk(e, s, cl);
    StatusWrittenIff(e, s, cl);
    StoppedMeansFailed(e, Read(e, s), cl, |cl.tiers|);
    WalkReports(e, Read(e, s), cl, |cl.tiers|);
    FinishWrites(e, w, cl);
    forall at: nat | at < |w.done|
      ensures TierReported(e, s, cl, at, w.done[at])
    {
      StatusCounts(e, specs, w0, s, cl, at);
    }
  }

  // ---------------------------------------------------------------- the kept transition time

  predicate IsReadyWith(c: Condition, status: ConditionStatus) {
    c.kind == "Ready" && c.status == status
  }

  /** Of several Ready conditions with the status, the first one dates the transition. */
  lemma {:induction false} KeptTimeIsFirst(conditions: seq<Condition>, status: ConditionStatus, i: nat)
    requires i < |conditions| && IsReadyWith(conditions[i], status)
    requires forall j | 0 <= j < i :: !IsReadyWith(conditions[j], status)
    ensures KeptTime(conditions, status) == Some(conditions[i].lastTransitionTime)
  {
    if i > 0 {
      assert !IsReadyWith(conditions[0], status);
      forall j | 0 <= j < i - 1
        ensures !IsReadyWith(conditions[1..][j], status)
      {
        assert conditions[1..][j] == conditions[j + 1];
      }
      KeptTimeIsFirst(conditions[1..], status, i - 1);
    }
  }
}
