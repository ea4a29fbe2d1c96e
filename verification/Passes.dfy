/** Whole passes: what is reported when, several tiers sharing one plugin table, and when a second
    pass has nothing left to do. */
module Passes {
  import opened Types
  import opened Machine
  import opened Protocol
  import opened Runs
  import opened Links
  import opened Stuck

  // ---------------------------------------------------------------- reports

  /** One status per tier from the first on, under the tier's name; a tier with plugins that is
      ready lists them all, in spec order, as enabled. */
  ghost predicate Reports(cl: Cluster, done: seq<TierStatus>) {
    && |done| <= |cl.tiers|
    && forall i | 0 <= i < |done| ::
         var t := cl.tiers[i];
         && done[i].name == t.name && done[i].desiredReplicas == DesiredPods(t)
         && done[i].plugins == if IsReady(done[i]) then PluginReports(t.plugins) else []
  }

  lemma HandledReport(e: Env, s: Session, cl: Cluster, at: nat, done: seq<TierStatus>)
    requires at < |cl.tiers| && Reports(cl, done) && |done| == at && HandleTier(e, s, cl, at).TierDone?
    ensures Reports(cl, done + [HandleTier(e, s, cl, at).status])
  {
    assert cl.tiers[at].plugins == [] ==> PluginReports(cl.tiers[at].plugins) == [];
  }

  lemma HandledLink(e: Env, s: Session, cl: Cluster, at: nat)
    requires at < |cl.tiers|
    ensures Link(e, Scope(cl, at, at, true, true), s, HandleTier(e, s, cl, at).session)
  {
    var sc := Scope(cl, at, at, true, true);
    var made := ReconcileTier(e, s, cl, at);
    var seen := Read(e, made);
    LinkTier(e, sc, s, cl, at);
    LinkSame(e, sc, made, seen);
    LinkTrans(e, sc, s, made, seen);
    LinkTierPlugins(e, sc, seen, cl, at);
    LinkTrans(e, sc, s, seen, ReconcileTierPlugins(e, seen, cl, at));
  }

  ghost predicate WalkReported(cl: Cluster, w: Walk, n: nat) {
    && Reports(cl, w.done) && |w.done| <= n && (w.stop == NoStop <==> |w.done| == n)
    && (w.stop == NoStop ==> w.session.ok)
  }

  lemma WalkOnReports(e: Env, w: Walk, cl: Cluster, at: nat)
    requires at < |cl.tiers| && WalkReported(cl, w, at)
    ensures WalkReported(cl, WalkOn(e, w, cl, at), at + 1)
  {
    if w.stop == NoStop && HandleTier(e, w.session, cl, at).TierDone? {
      HandledReport(e, w.session, cl, at, w.done);
    }
  }

  lemma WalkReports(e: Env, s: Session, cl: Cluster, n: nat)
    requires s.ok && n <= |cl.tiers|
    ensures WalkReported(cl, TierWalk(e, s, cl, n), n)
  {
    var reported := (w: Walk, at: nat) => WalkReported(cl, w, at);
    forall w: Walk, at: nat | at < |cl.tiers| && reported(w, at)
      ensures reported(WalkOn(e, w, cl, at), at + 1)
    {
      WalkOnReports(e, w, cl, at);
    }
    WalkInduction(e, s, cl, n, reported);
  }

  // ---------------------------------------------------------------- one tier of the loop

  /** What the loop makes of a tier: either it goes on with one more status, or it stops. */
  lemma WalkOnCases(e: Env, w: Walk, cl: Cluster, at: nat)
    requires at < |cl.tiers|
    ensures var v, h := WalkOn(e, w, cl, at), HandleTier(e, w.session, cl, at);
            && (w.stop != NoStop ==> v == w)
            && (w.stop == NoStop ==> v.session == h.session)
            && (w.stop == NoStop && h.TierDone? ==> v.done == w.done + [h.status] && v.stop == NoStop)
            && (w.stop == NoStop && !h.TierDone? ==> v.done == w.done && v.stop != NoStop)
  {
  }

  /** The session in which tier number `at` of a pass has its objects and its pods are counted next. */
  function Made(e: Env, s: Session, cl: Cluster, at: nat): Session
    requires at < |cl.tiers|
  {
    ReconcileTier(e, TierWalk(e, Read(e, s), cl, at).session, cl, at)
  }

  /** The session in which its pods have been counted and its plugin pass starts. */
  function Counted(e: Env, s: Session, cl: Cluster, at: nat): Session
    requires at < |cl.tiers|
  {
    Read(e, Made(e, s, cl, at))
  }

  /** After `at` tiers: if the loop has got past tier number i, then with this status. */
  predicate DoneWith(w: Walk, at: nat, i: nat, h: TierResult) {
    && i < at && (w.stop == NoStop ==> |w.done| == at)
    && (|w.done| > i ==> h.TierDone? && w.done[i] == h.status)
  }

  lemma DoneWithOn(e: Env, w: Walk, cl: Cluster, at: nat, i: nat, h: TierResult)
    requires at < |cl.tiers| && DoneWith(w, at, i, h)
    ensures DoneWith(WalkOn(e, w, cl, at), at + 1, i, h)
  {
    WalkOnCases(e, w, cl, at);
  }

  lemma DoneWithFirst(e: Env, s: Session, cl: Cluster, i: nat)
    requires s.ok && i < |cl.tiers|
    ensures DoneWith(TierWalk(e, s, cl, i + 1), i + 1, i, HandleTier(e, TierWalk(e, s, cl, i).session, cl, i))
  {
    WalkReports(e, s, cl, i);
    WalkOnCases(e, TierWalk(e, s, cl, i), cl, i);
  }

  lemma DoneWithFrom(e: Env, s: Session, cl: Cluster, i: nat, n: nat, h: TierResult)
    requires i < n <= |cl.tiers| && DoneWith(TierWalk(e, s, cl, i + 1), i + 1, i, h)
    ensures DoneWith(TierWalk(e, s, cl, n), n, i, h)
  {
    var kept := (w: Walk, at: nat) => DoneWith(w, at, i, h);
    forall w: Walk, at: nat | at < |cl.tiers| && kept(w, at)
      ensures kept(WalkOn(e, w, cl, at), at + 1)
    {
      DoneWithOn(e, w, cl, at, i, h);
    }
    WalkInductionFrom(e, s, cl, i + 1, n, kept);
  }

  /** The status of a tier is the one its own handling returned. */
  lemma DoneAt(e: Env, s: Session, cl: Cluster, i: nat, n: nat)
    requires s.ok && i < n <= |cl.tiers|
    ensures DoneWith(TierWalk(e, s, cl, n), n, i, HandleTier(e, TierWalk(e, s, cl, i).session, cl, i))
  {
    DoneWithFirst(e, s, cl, i);
    DoneWithFrom(e, s, cl, i, n, HandleTier(e, TierWalk(e, s, cl, i).session, cl, i));
  }

  /** While the loop goes on, it goes on from the session its last tier left. */
  lemma NextSession(e: Env, s: Session, cl: Cluster, i: nat, n: nat)
    requires s.ok && i < n <= |cl.tiers| && i < |TierWalk(e, s, cl, n).done|
    ensures TierWalk(e, s, cl, i + 1).session == HandleTier(e, TierWalk(e, s, cl, i).session, cl, i).session
  {
    if TierWalk(e, s, cl, i).stop != NoStop {
      WalkReports(e, s, cl, i);
      WalkStuck(e, s, cl, i, n);
    } else {
      WalkOnCases(e, TierWalk(e, s, cl, i), cl, i);
    }
  }

  /** A tier with a status has been handled to the end. */
  lemma HandledAt(e: Env, s: Session, cl: Cluster, i: nat, n: nat)
    requires s.ok && i < n <= |cl.tiers| && i < |TierWalk(e, s, cl, n).done|
    ensures var h := HandleTier(e, TierWalk(e, s, cl, i).session, cl, i);
            && h.TierDone? && TierWalk(e, s, cl, n).done[i] == h.status
            && TierWalk(e, s, cl, i + 1).session == h.session
  {
    DoneAt(e, s, cl, i, n);
    NextSession(e, s, cl, i, n);
  }

  // ---------------------------------------------------------------- who worked for whom

  /** While the loop goes on it has worked for the tiers before, and once it has stopped, for the
      tiers up to the one it stopped at. */
  ghost predicate WalkLinked(e: Env, s: Session, cl: Cluster, w: Walk, n: nat) {
    (w.stop == NoStop ==> |w.done| == n) && Link(e, Scope(cl, 0, |w.done|, true, true), s, w.session)
  }

  lemma WalkOnLink(e: Env, s: Session, w: Walk, cl: Cluster, at: nat)
    requires at < |cl.tiers| && WalkLinked(e, s, cl, w, at)
    ensures WalkLinked(e, s, cl, WalkOn(e, w, cl, at), at + 1)
  {
    if w.stop == NoStop {
      var v := WalkOn(e, w, cl, at);
      HandledLink(e, w.session, cl, at);
      assert v.session == HandleTier(e, w.session, cl, at).session;
      WidenBoth(e, s, w.session, v.session, cl, at, |v.done|);
    }
  }

  lemma WidenBoth(e: Env, a: Session, b: Session, c: Session, cl: Cluster, at: nat, high: nat)
    requires at <= high
    requires Link(e, Scope(cl, 0, at, true, true), a, b) && Link(e, Scope(cl, at, at, true, true), b, c)
    ensures Link(e, Scope(cl, 0, high, true, true), a, c)
  {
    LinkWiden(e, Scope(cl, at, at, true, true), Scope(cl, 0, high, true, true), b, c);
    LinkWiden(e, Scope(cl, 0, at, true, true), Scope(cl, 0, high, true, true), a, b);
    LinkTrans(e, Scope(cl, 0, high, true, true), a, b, c);
  }

  lemma WalkLink(e: Env, s: Session, cl: Cluster, n: nat)
    requires n <= |cl.tiers|
    ensures WalkLinked(e, s, cl, TierWalk(e, s, cl, n), n)
  {
    var linked := (w: Walk, at: nat) => WalkLinked(e, s, cl, w, at);
    LinkSame(e, Scope(cl, 0, 0, true, true), s, s);
    forall w: Walk, at: nat | at < |cl.tiers| && linked(w, at)
      ensures linked(WalkOn(e, w, cl, at), at + 1)
    {
      WalkOnLink(e, s, w, cl, at);
    }
    WalkInduction(e, s, cl, n, linked);
  }

  /** The status a pass writes, if it writes one. */
  ghost predicate LastCommandReports(r: Session, cl: Cluster, n: nat, ready: bool) {
    && r.log != []
    && var c := r.log[|r.log| - 1].command;
       && c.PatchStatus? && Reports(cl, c.status.tiers) && |c.status.tiers| == n
       && c.status.phase == (if ready then Phase.Ready else Initializing)
       && |c.status.conditions| == 1 && c.status.conditions[0].kind == READY_CONDITION
       && c.status.conditions[0].status == (if ready then ConditionTrue else ConditionFalse)
  }

  /** When the plugin pass of tier k is the first to fail, the last command of the pass writes the
      statuses of exactly the tiers before k, in spec order, with Ready false; every command before
      it worked for a tier up to k. */
  lemma StatusUnderPluginFailure(e: Env, s: Session, cl: Cluster)
    requires s.ok && Read(e, s).ok && WholeWalk(e, s, cl).stop == PluginError
    ensures var k, r := |WholeWalk(e, s, cl).done|, Reconcile(e, s, cl);
            && k < |cl.tiers| && |r.log| > |s.log| && r.log[..|s.log|] == s.log
            && LastCommandReports(r, cl, k, false)
            && forall i | |s.log| <= i < |r.log| - 1 :: r.log[i].at <= k
  {
    var w, r := WholeWalk(e, s, cl), Reconcile(e, s, cl);
    WalkReports(e, Read(e, s), cl, |cl.tiers|);
    WalkLink(e, Read(e, s), cl, |cl.tiers|);
    assert r.log == w.session.log + [r.log[|r.log| - 1]];
    assert r.log[..|s.log|] == w.session.log[..|s.log|] == s.log;
    forall i | |s.log| <= i < |r.log| - 1
      ensures r.log[i].at <= |w.done|
    {
      assert r.log[i] == w.session.log[i];
      assert StepIn(e, Scope(cl, 0, |w.done|, true, true), w.session.log[i]);
    }
  }

  /** If a pass issues a status with phase Ready, it is its last command, every tier's observed sum
      reached the desired number, and every declared plugin is listed in spec order as enabled. */
  lemma ReadyMeansAllTiersReady(e: Env, s: Session, cl: Cluster, i: nat)
    requires s.ok && |s.log| <= i < |Reconcile(e, s, cl).log|
    requires var c := Reconcile(e, s, cl).log[i].command; c.PatchStatus? && c.status.phase == Phase.Ready
    ensures var w, r := WholeWalk(e, s, cl), Reconcile(e, s, cl);
            && i == |r.log| - 1 && w.stop == NoStop
            && r.log[i].command.status.tiers == w.done
            && Reports(cl, w.done) && |w.done| == |cl.tiers| && AllReady(w.done)
  {
    var w, r := WholeWalk(e, s, cl), Reconcile(e, s, cl);
    WalkReports(e, Read(e, s), cl, |cl.tiers|);
    WalkLink(e, Read(e, s), cl, |cl.tiers|);
    NoStatusInside(e, Scope(cl, 0, |w.done|, true, true), Read(e, s), w.session);
    assert forall j | 0 <= j < |w.session.log| :: r.log[j] == w.session.log[j];
  }

  lemma NoStatusInside(e: Env, sc: Scope, a: Session, b: Session)
    requires Link(e, sc, a, b)
    ensures forall j | |a.log| <= j < |b.log| :: !b.log[j].command.PatchStatus?
  {
    forall j | |a.log| <= j < |b.log|
      ensures !b.log[j].command.PatchStatus?
    {
      assert StepIn(e, sc, b.log[j]);
    }
  }
}
