/** The Ready condition over whole histories of persisted status updates. */
module StatusHistory {
  import opened Text
  import opened Types
  import opened Machine
  import opened Protocol
  import opened Safety
  import opened Links
  import opened Passes
  import opened RunTheorems

  datatype Update = Update(tiers: seq<TierStatus>, allReady: bool, now: int)

  /** The status after a history of updates. */
  function StatusAfter(initial: Status, us: seq<Update>): Status {
    if us == [] then initial
    else
      var u := us[|us| - 1];
      NextStatus(StatusAfter(initial, us[..|us| - 1]), u.tiers, u.allReady, u.now)
  }

  function StatusOf(allReady: bool): ConditionStatus {
    if allReady then ConditionTrue else ConditionFalse
  }

  /** From update number `start` on all updates agree, and the one before, if any, does not. */
  predicate LastBlock(us: seq<Update>, start: nat) {
    && start < |us|
    && (forall i | start <= i < |us| :: us[i].allReady == us[|us| - 1].allReady)
    && (start > 0 ==> us[start - 1].allReady != us[|us| - 1].allReady)
  }

  /** When the last block began. If it reaches back to the first update, a Ready condition with the
      same status that was there before dates it further back. */
  function BlockTime(initial: Status, us: seq<Update>, start: nat): int
    requires LastBlock(us, start)
  {
    var kept := KeptTime(initial.conditions, StatusOf(us[start].allReady));
    if start == 0 && kept.Some? then kept.value else us[start].now
  }

  lemma LastBlockOneMore(us: seq<Update>, start: nat)
    requires |us| >= 2 && LastBlock(us, start)
    ensures us[|us| - 1].allReady == us[|us| - 2].allReady ==> LastBlock(us[..|us| - 1], start)
    ensures us[|us| - 1].allReady != us[|us| - 2].allReady ==> start == |us| - 1
  {
  }

  /** Exactly one condition, of type Ready, True exactly when the phase is Ready. */
  predicate OneCondition(st: Status) {
    && |st.conditions| == 1 && st.conditions[0].kind == READY_CONDITION
    && (st.conditions[0].status == ConditionTrue <==> st.phase == Phase.Ready)
    && (st.conditions[0].status == ConditionFalse <==> st.phase == Initializing)
  }

  lemma KeptTimeOfOne(c: Condition, status: ConditionStatus)
    requires c.kind == READY_CONDITION
    ensures KeptTime([c], status) == if c.status == status then Some(c.lastTransitionTime) else None
  {
    assert [c][1..] == [];
  }

  lemma UpdateShape(previous: Status, u: Update)
    ensures var st := NextStatus(previous, u.tiers, u.allReady, u.now);
            OneCondition(st) && st.tiers == u.tiers && st.conditions[0].status == StatusOf(u.allReady)
  {
  }

  /** After any history of updates, from any initial status: there is exactly one condition, it is
      True exactly when the phase is Ready, and its transition time is the time of the first update
      in the last block of updates with that status. */
  lemma {:induction false} TransitionTime(initial: Status, us: seq<Update>, start: nat)
    requires us != [] && LastBlock(us, start)
    ensures var st := StatusAfter(initial, us);
            && OneCondition(st) && st.tiers == us[|us| - 1].tiers
            && st.conditions[0].status == StatusOf(us[|us| - 1].allReady)
            && st.conditions[0].lastTransitionTime == BlockTime(initial, us, start)
  {
    var init, u := us[..|us| - 1], us[|us| - 1];
    var before := StatusAfter(initial, init);
    UpdateShape(before, u);
    if init != [] {
      LastBlockOneMore(us, start);
      if us[|us| - 2].allReady == u.allReady {
        TransitionTime(initial, init, start);
      } else {
        var older := StartOf(init);
        TransitionTime(initial, init, older);
      }
      KeptTimeOfOne(before.conditions[0], StatusOf(u.allReady));
      assert before.conditions == [before.conditions[0]];
      assert start < |init| ==> init[start] == us[start];
    } else {
      assert start == 0 && before == initial;
    }
  }

  /** Every non-empty history has a last block. */
  function StartOf(us: seq<Update>): (start: nat)
    requires us != []
    ensures LastBlock(us, start)
  {
    if |us| == 1 || us[|us| - 2].allReady != us[|us| - 1].allReady then |us| - 1
    else
      var init := us[..|us| - 1];
      assert init[|init| - 1] == us[|us| - 2];
      StartOf(init)
  }

  // ---------------------------------------------------------------- in runs

  /** The update a status command carries, with the clock reading of its call. */
  function UpdateOf(e: Env, st: Step): Update
    requires st.command.PatchStatus?
  {
    Update(st.command.status.tiers, st.command.status.phase == Phase.Ready, e.clock(st.call))
  }

  predicate IsPersisted(e: Env, st: Step) {
    st.command.PatchStatus? && e.outcome(st.call) != Lost
  }

  /** The updates that the API server took, in order. */
  function Persisted(e: Env, log: seq<Step>): seq<Update> {
    if log == [] then []
    else
      var st := log[|log| - 1];
      Persisted(e, log[..|log| - 1]) + (if IsPersisted(e, st) then [UpdateOf(e, st)] else [])
  }

  /** A status command writes what its update makes of the status before it, if it is not lost; no
      other command touches the status. */
  ghost predicate StatusStep(e: Env, st: Step) {
    if IsPersisted(e, st) then
      var u := UpdateOf(e, st);
      st.after.status == NextStatus(st.before.status, u.tiers, u.allReady, u.now)
    else st.after.status == st.before.status
  }

  ghost predicate StatusLogged(e: Env, w0: World, s: Session) {
    Chained(w0, s.log, s.world) && forall i | 0 <= i < |s.log| :: StatusStep(e, s.log[i])
  }

  lemma OtherStepsKeepStatus(e: Env, sc: Scope, st: Step)
    requires StepIn(e, sc, st)
    ensures StatusStep(e, st)
  {
  }

  lemma LoggedLink(e: Env, w0: World, sc: Scope, a: Session, b: Session)
    requires StatusLogged(e, w0, a) && Link(e, sc, a, b)
    ensures StatusLogged(e, w0, b)
  {
    var added := b.log[|a.log|..];
    ChainedAppend(w0, a.log, a.world, added, b.world);
    assert b.log == a.log + added;
    forall i | 0 <= i < |b.log|
      ensures StatusStep(e, b.log[i])
    {
      LoggedStep(e, sc, a, b, i);
    }
  }

  lemma LoggedStep(e: Env, sc: Scope, a: Session, b: Session, i: nat)
    requires (forall j | 0 <= j < |a.log| :: StatusStep(e, a.log[j])) && Link(e, sc, a, b) && i < |b.log|
    ensures StatusStep(e, b.log[i])
  {
    if i < |a.log| {
      assert b.log[i] == b.log[..|a.log|][i];
    } else {
      OtherStepsKeepStatus(e, sc, b.log[i]);
    }
  }

  lemma LoggedUpdate(e: Env, w0: World, s: Session, cl: Cluster, tiers: seq<TierStatus>, allReady: bool)
    requires StatusLogged(e, w0, s)
    ensures StatusLogged(e, w0, UpdateStatus(e, s, cl, tiers, allReady))
  {
    var r := UpdateStatus(e, s, cl, tiers, allReady);
    if s.ok {
      var st := r.log[|s.log|];
      UpdateWritten(e, s, cl, tiers, allReady);
      ChainedDo(w0, s.log, s.world, st);
      assert forall i | 0 <= i < |s.log| :: r.log[i] == s.log[i];
    }
  }

  lemma UpdateWritten(e: Env, s: Session, cl: Cluster, tiers: seq<TierStatus>, allReady: bool)
    requires s.ok
    ensures var r := UpdateStatus(e, s, cl, tiers, allReady);
            && |r.log| == |s.log| + 1 && r.log == s.log + [r.log[|s.log|]]
            && r.log[|s.log|].before == s.world && r.log[|s.log|].after == r.world && StatusStep(e, r.log[|s.log|])
  {
  }

  lemma LoggedPass(e: Env, w0: World, s: Session, cl: Cluster)
    requires StatusLogged(e, w0, s)
    ensures StatusLogged(e, w0, Reconcile(e, s, cl))
  {
    var start, w := Read(e, s), WholeWalk(e, s, cl);
    WalkLink(e, start, cl, |cl.tiers|);
    LoggedLink(e, w0, Scope(cl, 0, |w.done|, true, true), start, w.session);
    match w.stop {
      case TierError =>
      case PluginError => LoggedUpdate(e, w0, w.session.(ok := true), cl, w.done, false);
      case NoStop => LoggedUpdate(e, w0, w.session, cl, w.done, AllReady(w.done));
    }
  }

  lemma HistoryOneMore(e: Env, w0: World, specs: seq<Cluster>, n: nat)
    requires n < |specs|
    ensures History(e, w0, specs[..n + 1]) == Reconcile(e, History(e, w0, specs[..n]).(ok := true), specs[n])
  {
    assert specs[..n + 1][..n] == specs[..n];
  }

  lemma LoggedNext(e: Env, w0: World, s: Session, cl: Cluster)
    requires StatusLogged(e, w0, s)
    ensures StatusLogged(e, w0, Reconcile(e, s.(ok := true), cl))
  {
    LoggedPass(e, w0, s.(ok := true), cl);
  }

  /** What one more pass keeps, a run keeps. */
  lemma {:induction false} RunInduction(e: Env, w0: World, specs: seq<Cluster>, n: nat, kept: Session -> bool)
    requires n <= |specs| && kept(Session(w0, [], 0, true))
    requires forall s: Session, cl: Cluster | kept(s) :: kept(Reconcile(e, s.(ok := true), cl))
    ensures kept(History(e, w0, specs[..n]))
  {
    if n == 0 {
      assert specs[..0] == [];
    } else {
      RunInduction(e, w0, specs, n - 1, kept);
      HistoryOneMore(e, w0, specs, n - 1);
    }
  }

  lemma LoggedRun(e: Env, w0: World, specs: seq<Cluster>, n: nat)
    requires n <= |specs|
    ensures StatusLogged(e, w0, History(e, w0, specs[..n]))
  {
    var kept := (s: Session) => StatusLogged(e, w0, s);
    forall s: Session, cl: Cluster | kept(s)
      ensures kept(Reconcile(e, s.(ok := true), cl))
    {
      LoggedNext(e, w0, s, cl);
    }
    RunInduction(e, w0, specs, n, kept);
  }

  lemma PersistedOneMore(e: Env, log: seq<Step>, i: nat)
    requires i < |log|
    ensures Persisted(e, log[..i + 1])
         == Persisted(e, log[..i]) + (if IsPersisted(e, log[i]) then [UpdateOf(e, log[i])] else [])
  {
    assert log[..i + 1][..i] == log[..i];
  }

  lemma OneMoreUpdate(initial: Status, us: seq<Update>, u: Update)
    ensures StatusAfter(initial, us + [u]) == NextStatus(StatusAfter(initial, us), u.tiers, u.allReady, u.now)
  {
    assert (us + [u])[..|us|] == us;
  }

  lemma StatusStepFolds(e: Env, first: Status, log: seq<Step>, i: nat)
    requires i < |log| && StatusStep(e, log[i])
    requires log[i].before.status == StatusAfter(first, Persisted(e, log[..i]))
    ensures log[i].after.status == StatusAfter(first, Persisted(e, log[..i + 1]))
  {
    PersistedOneMore(e, log, i);
    if IsPersisted(e, log[i]) {
      OneMoreUpdate(first, Persisted(e, log[..i]), UpdateOf(e, log[i]));
    } else {
      assert Persisted(e, log[..i]) + [] == Persisted(e, log[..i]);
    }
  }

  /** The status once the first i commands have been issued is what the updates persisted by then make. */
  ghost predicate FoldedAt(e: Env, w0: World, log: seq<Step>, i: nat) {
    i <= |log| && WorldAt(w0, log, i).status == StatusAfter(w0.status, Persisted(e, log[..i]))
  }

  lemma FoldedNext(e: Env, w0: World, s: Session, i: nat)
    requires StatusLogged(e, w0, s) && i < |s.log| && FoldedAt(e, w0, s.log, i)
    ensures FoldedAt(e, w0, s.log, i + 1)
  {
    assert StatusStep(e, s.log[i]) && s.log[i].before == WorldAt(w0, s.log, i);
    StatusStepFolds(e, w0.status, s.log, i);
  }

  lemma FoldedFirst(e: Env, w0: World, log: seq<Step>)
    ensures FoldedAt(e, w0, log, 0)
  {
    assert log[..0] == [];
  }

  ghost predicate StepsFold(e: Env, w0: World, log: seq<Step>) {
    forall j: nat | j < |log| && FoldedAt(e, w0, log, j) :: FoldedAt(e, w0, log, j + 1)
  }

  lemma AllStepsFold(e: Env, w0: World, s: Session)
    requires StatusLogged(e, w0, s)
    ensures StepsFold(e, w0, s.log)
  {
    forall j: nat | j < |s.log| && FoldedAt(e, w0, s.log, j)
      ensures FoldedAt(e, w0, s.log, j + 1)
    {
      FoldedNext(e, w0, s, j);
    }
  }

  lemma {:induction false} FoldedUpTo(e: Env, w0: World, log: seq<Step>, i: nat)
    requires StepsFold(e, w0, log) && i <= |log|
    ensures FoldedAt(e, w0, log, i)
  {
    if i == 0 {
      FoldedFirst(e, w0, log);
    } else {
      FoldedUpTo(e, w0, log, i - 1);
    }
  }

  /** In every world of every run, whatever fails, the status is what the updates persisted so far, with
      the clock readings of their calls, make of the first one. */
  lemma StatusOfRuns(e: Env, w0: World, specs: seq<Cluster>, i: nat)
    requires i <= |History(e, w0, specs).log|
    ensures var log := History(e, w0, specs).log;
            WorldAt(w0, log, i).status == StatusAfter(w0.status, Persisted(e, log[..i]))
  {
    LoggedRun(e, w0, specs, |specs|);
    assert specs[..|specs|] == specs;
    AllStepsFold(e, w0, History(e, w0, specs));
    FoldedUpTo(e, w0, History(e, w0, specs).log, i);
  }

  /** So once a run has persisted an update: there is exactly one condition, True exactly when the phase
      is Ready, and its transition time is the clock reading of the first persisted update in the
      last block of equal ones. */
  lemma TransitionTimeOfRuns(e: Env, w0: World, specs: seq<Cluster>, i: nat, start: nat)
    requires i <= |History(e, w0, specs).log|
    requires var us := Persisted(e, History(e, w0, specs).log[..i]); us != [] && LastBlock(us, start)
    ensures var log := History(e, w0, specs).log;
            var us, st := Persisted(e, log[..i]), WorldAt(w0, log, i).status;
            && OneCondition(st) && st.tiers == us[|us| - 1].tiers
            && st.conditions[0].status == StatusOf(us[|us| - 1].allReady)
            && st.conditions[0].lastTransitionTime == BlockTime(w0.status, us, start)
  {
    StatusOfRuns(e, w0, specs, i);
    TransitionTime(w0.status, Persisted(e, History(e, w0, specs).log[..i]), start);
  }
}
