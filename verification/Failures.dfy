/** What a failing call stops: the rest of its tier or pass, and what it does not stop. */
module Failures {
  import opened Types
  import opened Builders
  import opened Machine
  import opened Protocol
  import opened Safety
  import opened Runs
  import opened RunTheorems
  import opened Links
  import opened Passes
  import opened Recovery
  import opened StatusWrites

  // ---------------------------------------------------------------- stopping at the first failure

  predicate IsApi(c: Command) {
    c.CreateObject? || c.PatchObject? || c.DeleteObject?
  }

  predicate IsDrop(c: Command) {
    c.DisablePlugin? || c.DropPlugin?
  }

  predicate IsInstall(c: Command) {
    IsSql(c) && !IsDrop(c)
  }

  predicate Refused(st: Step) {
    !Accepts(st.before, st.command)
  }

  predicate Failed(e: Env, st: Step) {
    e.outcome(st.call) != Done || Refused(st)
  }

  predicate CallsDone(e: Env, from: nat, to: nat) {
    forall c: nat | from <= c < to :: e.outcome(c) == Done
  }

  /** A session that is not ok is passed on; otherwise calls are made up to the first that fails. */
  ghost predicate Halts(e: Env, kind: Command -> bool, a: Session, b: Session) {
    && |a.log| <= |b.log| && b.log[..|a.log|] == a.log && a.calls <= b.calls
    && (forall i | |a.log| <= i < |b.log| :: kind(b.log[i].command))
    && (forall i | |a.log| <= i < |b.log| && Failed(e, b.log[i]) :: i == |b.log| - 1 && !b.ok)
    && (!a.ok ==> b == a)
    && (a.ok && b.ok ==> CallsDone(e, a.calls, b.calls))
    && (a.ok && !b.ok ==> LastFailed(e, a, b))
  }

  ghost predicate LastFailed(e: Env, a: Session, b: Session) {
    && a.calls < b.calls && CallsDone(e, a.calls, b.calls - 1)
    && (e.outcome(b.calls - 1) != Done || (|a.log| < |b.log| && Refused(b.log[|b.log| - 1])))
  }

  lemma HaltsSame(e: Env, kind: Command -> bool, a: Session)
    ensures Halts(e, kind, a, a)
  {
  }

  lemma HaltsRead(e: Env, kind: Command -> bool, a: Session)
    ensures Halts(e, kind, a, Read(e, a))
  {
  }

  lemma HaltsDo(e: Env, kind: Command -> bool, a: Session, cl: Cluster, at: nat, c: Command)
    requires kind(c)
    ensures Halts(e, kind, a, Do(e, a, cl, at, c))
  {
  }

  lemma HaltsTrans(e: Env, kind: Command -> bool, a: Session, b: Session, c: Session)
    requires Halts(e, kind, a, b) && Halts(e, kind, b, c)
    ensures Halts(e, kind, a, c)
  {
    if a.ok && b.ok {
      PrefixTrans(a.log, b.log, c.log);
      forall i | |a.log| <= i < |c.log|
        ensures kind(c.log[i].command) && (Failed(e, c.log[i]) ==> i == |c.log| - 1 && !c.ok)
      {
        if i < |b.log| {
          assert c.log[i] == b.log[i];
        }
      }
    }
  }

  lemma HaltsThenDo(e: Env, kind: Command -> bool, a: Session, s: Session, cl: Cluster, at: nat, c: Command)
    requires Halts(e, kind, a, s) && kind(c)
    ensures Halts(e, kind, a, Do(e, s, cl, at, c))
  {
    HaltsDo(e, kind, s, cl, at, c);
    HaltsTrans(e, kind, a, s, Do(e, s, cl, at, c));
  }

  lemma HaltsThenRead(e: Env, kind: Command -> bool, a: Session, s: Session)
    requires Halts(e, kind, a, s)
    ensures Halts(e, kind, a, Read(e, s))
  {
    HaltsRead(e, kind, s);
    HaltsTrans(e, kind, a, s, Read(e, s));
  }

  // ---------------------------------------------------------------- objects

  lemma HaltsUpsert(e: Env, a: Session, s: Session, cl: Cluster, at: nat, m: Manifest)
    requires Halts(e, IsApi, a, s)
    ensures Halts(e, IsApi, a, Upsert(e, s, cl, at, m))
  {
    var r := Read(e, s);
    var o := Settle(r.world.objects, m);
    HaltsThenRead(e, IsApi, a, s);
    HaltsThenDo(e, IsApi, a, r, cl, at,
                if m.key in r.world.objects then PatchObject(m.key, o) else CreateObject(m.key, o));
  }

  lemma {:induction false} HaltsUpsertAll(e: Env, s: Session, cl: Cluster, at: nat, ms: seq<Manifest>)
    ensures Halts(e, IsApi, s, UpsertAll(e, s, cl, at, ms))
  {
    HaltsSame(e, IsApi, s);
    if ms != [] {
      HaltsUpsertAll(e, s, cl, at, ms[..|ms| - 1]);
      HaltsUpsert(e, s, UpsertAll(e, s, cl, at, ms[..|ms| - 1]), cl, at, ms[|ms| - 1]);
    }
  }

  lemma HaltsDeleteLoop(
      e: Env, a: Session, s: Session, cl: Cluster, at: nat, listed: map<Key, Object>, keys: seq<Key>)
    requires Halts(e, IsApi, a, s) && at < |cl.tiers|
    ensures Halts(e, IsApi, a, DeleteLoop(e, s, cl, at, listed, keys))
  {
    var kept := (r: Session) => Halts(e, IsApi, a, r);
    forall r, k | kept(r)
      ensures kept(Do(e, r, cl, at, DeleteObject(k)))
    {
      HaltsThenDo(e, IsApi, a, r, cl, at, DeleteObject(k));
    }
    DeleteInduction(e, s, cl, at, listed, keys, kept);
  }

  /** Objects, up to the count of the pods. */
  lemma HaltsTier(e: Env, s: Session, cl: Cluster, at: nat)
    requires at < |cl.tiers|
    ensures Halts(e, IsApi, s, Read(e, ReconcileTier(e, s, cl, at)))
  {
    var made := UpsertAll(e, s, cl, at, e.desired(cl, at));
    HaltsUpsertAll(e, s, cl, at, e.desired(cl, at));
    var r := Read(e, made);
    HaltsThenRead(e, IsApi, s, made);
    var keys := e.keyOrder(made.calls, TierSets(r.world, cl.id, cl.tiers[at].name));
    HaltsDeleteLoop(e, s, r, cl, at, r.world.objects, keys);
    var cut := DeleteLoop(e, r, cl, at, r.world.objects, keys);
    if WantsIngress(cl.tiers[at]) {
      HaltsUpsert(e, s, cut, cl, at, IngressManifest(cl, at));
    }
    HaltsThenRead(e, IsApi, s, ReconcileTier(e, s, cl, at));
  }

  // ---------------------------------------------------------------- plugins

  lemma {:induction false} HaltsRunAll(e: Env, a: Session, s: Session, cl: Cluster, at: nat, cs: seq<Command>)
    requires Halts(e, IsInstall, a, s) && forall c | c in cs :: IsInstall(c)
    ensures Halts(e, IsInstall, a, RunAll(e, s, cl, at, cs))
  {
    if cs != [] {
      assert cs[|cs| - 1] in cs && forall c | c in cs[..|cs| - 1] :: c in cs;
      HaltsRunAll(e, a, s, cl, at, cs[..|cs| - 1]);
      HaltsThenDo(e, IsInstall, a, RunAll(e, s, cl, at, cs[..|cs| - 1]), cl, at, cs[|cs| - 1]);
    }
  }

  lemma {:induction false} AddMissingInstalls(id: PluginId, row: Install, services: seq<string>, tier: string)
    ensures forall c | c in AddMissing(id, row, services, tier) :: IsInstall(c)
  {
    if services != [] {
      AddMissingInstalls(id, row, services[..|services| - 1], tier);
    }
  }

  lemma HaltsPrepare(e: Env, a: Session, s: Session, cl: Cluster, at: nat, p: Plugin, tier: string)
    requires Halts(e, IsInstall, a, s)
    ensures Halts(e, IsInstall, a, Prepare(e, s, cl, at, p, tier))
  {
    HaltsThenDo(e, IsInstall, a, s, cl, at, CreatePlugin(Id(p)));
    var created := if Id(p) in s.world.plugins then s else Do(e, s, cl, at, CreatePlugin(Id(p)));
    HaltsRunAll(e, a, created, cl, at, InstallScript(p, tier, ContextKeys(e, s.calls, p)));
  }

  lemma HaltsBind(e: Env, a: Session, s: Session, cl: Cluster, at: nat, id: PluginId, tier: string)
    requires Halts(e, IsInstall, a, s)
    ensures Halts(e, IsInstall, a, BindDiscovered(e, s, cl, at, id, tier))
  {
    var r := Read(e, s);
    HaltsThenRead(e, IsInstall, a, s);
    if id in r.world.plugins {
      var row := r.world.plugins[id];
      AddMissingInstalls(id, row, VisibleServices(e, id, row), tier);
      HaltsRunAll(e, a, r, cl, at, AddMissing(id, row, VisibleServices(e, id, row), tier));
    }
  }

  lemma HaltsPlugin(e: Env, a: Session, s: Session, cl: Cluster, at: nat, p: Plugin, tier: string)
    requires Halts(e, IsInstall, a, s)
    ensures Halts(e, IsInstall, a, ReconcilePlugin(e, s, cl, at, p, tier))
  {
    var r := Read(e, s);
    HaltsThenRead(e, IsInstall, a, s);
    var prepared := Prepare(e, r, cl, at, p, tier);
    HaltsPrepare(e, a, r, cl, at, p, tier);
    var bound := BindDiscovered(e, prepared, cl, at, Id(p), tier);
    HaltsBind(e, a, prepared, cl, at, Id(p), tier);
    HaltsThenDo(e, IsInstall, a, bound, cl, at, EnablePlugin(Id(p)));
  }

  lemma {:induction false} HaltsPluginLoop(
      e: Env, a: Session, s: Session, cl: Cluster, at: nat, plugins: seq<Plugin>, tier: string)
    requires Halts(e, IsInstall, a, s)
    ensures Halts(e, IsInstall, a, PluginLoop(e, s, cl, at, plugins, tier))
  {
    if plugins != [] {
      HaltsPluginLoop(e, a, s, cl, at, plugins[..|plugins| - 1], tier);
      HaltsPlugin(e, a, PluginLoop(e, s, cl, at, plugins[..|plugins| - 1], tier), cl, at, plugins[|plugins| - 1], tier);
    }
  }

  /** The plugin pass up to where obsolete versions are looked for. */
  function Installed(e: Env, s: Session, cl: Cluster, at: nat): Session
    requires at < |cl.tiers|
  {
    PluginLoop(e, Read(e, Read(e, s)), cl, at, cl.tiers[at].plugins, cl.tiers[at].name)
  }

  lemma HaltsInstalled(e: Env, s: Session, cl: Cluster, at: nat)
    requires at < |cl.tiers|
    ensures Halts(e, IsInstall, s, Installed(e, s, cl, at))
  {
    HaltsRead(e, IsInstall, s);
    HaltsThenRead(e, IsInstall, s, Read(e, s));
    HaltsPluginLoop(e, s, Read(e, Read(e, s)), cl, at, cl.tiers[at].plugins, cl.tiers[at].name);
  }

  lemma {:induction false} HaltsDropLoop(
      e: Env, a: Session, s: Session, cl: Cluster, at: nat, listed: map<PluginId, Install>, ids: seq<PluginId>)
    requires Halts(e, IsDrop, a, s) && at < |cl.tiers|
    ensures Halts(e, IsDrop, a, DropLoop(e, s, cl, at, listed, ids))
  {
    if ids != [] {
      var mid, id := DropLoop(e, s, cl, at, listed, ids[..|ids| - 1]), ids[|ids| - 1];
      HaltsDropLoop(e, a, s, cl, at, listed, ids[..|ids| - 1]);
      HaltsThenDo(e, IsDrop, a, mid, cl, at, DisablePlugin(id));
      HaltsThenDo(e, IsDrop, a, mid, cl, at, DropPlugin(id));
      HaltsThenDo(e, IsDrop, a, Do(e, mid, cl, at, DisablePlugin(id)), cl, at, DropPlugin(id));
    }
  }

  lemma HaltsDrop(e: Env, s: Session, cl: Cluster, at: nat)
    requires at < |cl.tiers|
    ensures Halts(e, IsDrop, s, DropObsolete(e, s, cl, at))
  {
    var r := Read(e, s);
    HaltsRead(e, IsDrop, s);
    HaltsDropLoop(e, s, r, cl, at, r.world.plugins, e.pluginOrder(s.calls, r.world.plugins.Keys));
  }

  // ---------------------------------------------------------------- one tier

  /** The session in which the pods of the tier have been counted. */
  function Seen(e: Env, s: Session, cl: Cluster, at: nat): Session
    requires at < |cl.tiers|
  {
    Read(e, ReconcileTier(e, s, cl, at))
  }

  /** The tier declares plugins and its pods are counted as ready. */
  predicate Serves(e: Env, s: Session, cl: Cluster, at: nat)
    requires at < |cl.tiers|
  {
    cl.tiers[at].plugins != [] && IsReady(ObserveTier(e, ReconcileTier(e, s, cl, at), cl, at))
  }

  lemma HandledCases(e: Env, s: Session, cl: Cluster, at: nat)
    requires at < |cl.tiers|
    ensures var h, seen := HandleTier(e, s, cl, at), Seen(e, s, cl, at);
            var installed := Installed(e, seen, cl, at);
            if !seen.ok then h.TierFailed? && h.session == seen
            else if !Serves(e, s, cl, at) then h.TierDone? && h.session == seen
            else if !installed.ok then h.TierPluginsFailed? && h.session == installed
            else h.TierDone? && h.session == DropObsolete(e, installed, cl, at).(ok := true)
  {
  }

  /** What a failed command of a tier means for the tier. */
  predicate TierHalts(e: Env, a: Session, h: TierResult) {
    && |a.log| <= |h.session.log| && h.session.log[..|a.log|] == a.log
    && forall i | |a.log| <= i < |h.session.log| && Failed(e, h.session.log[i]) ::
         && i == |h.session.log| - 1
         && (IsApi(h.session.log[i].command) ==> h.TierFailed?)
         && (IsInstall(h.session.log[i].command) ==> h.TierPluginsFailed?)
         && (IsDrop(h.session.log[i].command) ==> h.TierDone?)
  }

  lemma TierHaltsAt(e: Env, s: Session, cl: Cluster, at: nat)
    requires at < |cl.tiers|
    ensures TierHalts(e, s, HandleTier(e, s, cl, at))
  {
    var seen := Seen(e, s, cl, at);
    var installed := Installed(e, seen, cl, at);
    var dropped := DropObsolete(e, installed, cl, at);
    HandledCases(e, s, cl, at);
    HaltsTier(e, s, cl, at);
    HaltsInstalled(e, seen, cl, at);
    HaltsDrop(e, installed, cl, at);
    if !seen.ok || !Serves(e, s, cl, at) {
      FirstPhase(e, s, seen, HandleTier(e, s, cl, at));
    } else if !installed.ok {
      SecondPhase(e, s, seen, installed, HandleTier(e, s, cl, at));
    } else {
      ThirdPhase(e, s, seen, installed, dropped, HandleTier(e, s, cl, at));
    }
  }

  lemma FirstPhase(e: Env, s: Session, seen: Session, h: TierResult)
    requires Halts(e, IsApi, s, seen) && h.session == seen && (if seen.ok then h.TierDone? else h.TierFailed?)
    ensures TierHalts(e, s, h)
  {
  }

  /** Nothing failed in a phase that ended well. */
  lemma NoneFailed(e: Env, kind: Command -> bool, a: Session, b: Session)
    requires Halts(e, kind, a, b) && b.ok
    ensures forall i | |a.log| <= i < |b.log| :: !Failed(e, b.log[i])
  {
  }

  lemma SecondPhase(e: Env, s: Session, seen: Session, installed: Session, h: TierResult)
    requires Halts(e, IsApi, s, seen) && seen.ok && Halts(e, IsInstall, seen, installed) && !installed.ok
    requires h.TierPluginsFailed? && h.session == installed
    ensures TierHalts(e, s, h)
  {
    NoneFailed(e, IsApi, s, seen);
    PrefixTrans(s.log, seen.log, installed.log);
  }

  lemma ThirdPhase(e: Env, s: Session, seen: Session, installed: Session, dropped: Session, h: TierResult)
    requires Halts(e, IsApi, s, seen) && seen.ok && Halts(e, IsInstall, seen, installed) && installed.ok
    requires Halts(e, IsDrop, installed, dropped) && h.TierDone? && h.session.log == dropped.log
    ensures TierHalts(e, s, h)
  {
    NoneFailed(e, IsApi, s, seen);
    NoneFailed(e, IsInstall, seen, installed);
    PrefixTrans(s.log, seen.log, installed.log);
    PrefixTrans(s.log, installed.log, dropped.log);
  }

  predicate NothingRefusedIn(a: Session, b: Session) {
    forall i | |a.log| <= i < |b.log| :: !Refused(b.log[i])
  }

  /** Where nothing is refused: the tier fails exactly if one of its calls up to the count of its pods does,
      and its plugins fail exactly if they are due and one of the calls for them does, up to the point where
      obsolete versions are looked for. What becomes of those makes no difference. */
  lemma TierOutcomeIff(e: Env, s: Session, cl: Cluster, at: nat)
    requires s.ok && at < |cl.tiers| && NothingRefusedIn(s, HandleTier(e, s, cl, at).session)
    ensures var h, seen := HandleTier(e, s, cl, at), Seen(e, s, cl, at);
            && (h.TierFailed? <==> !CallsDone(e, s.calls, seen.calls))
            && (h.TierPluginsFailed? <==>
                  && CallsDone(e, s.calls, seen.calls) && Serves(e, s, cl, at)
                  && !CallsDone(e, seen.calls, Installed(e, seen, cl, at).calls))
  {
    var h, seen := HandleTier(e, s, cl, at), Seen(e, s, cl, at);
    var installed := Installed(e, seen, cl, at);
    HandledCases(e, s, cl, at);
    HaltsTier(e, s, cl, at);
    HaltsInstalled(e, seen, cl, at);
    HaltsDrop(e, installed, cl, at);
    if !seen.ok {
      FailureShows(e, IsApi, s, seen);
    } else if Serves(e, s, cl, at) && !installed.ok {
      PrefixTrans(s.log, seen.log, installed.log);
      FailureShows(e, IsInstall, seen, installed);
    }
  }

  lemma FailureShows(e: Env, kind: Command -> bool, a: Session, b: Session)
    requires Halts(e, kind, a, b) && a.ok && !b.ok && NothingRefusedIn(a, b)
    ensures !CallsDone(e, a.calls, b.calls)
  {
    assert e.outcome(b.calls - 1) != Done;
  }

  // ---------------------------------------------------------------- a whole pass

  /** What a failed command means for the rest of the pass, up to tier number n. */
  ghost predicate WalkHalts(e: Env, s: Session, w: Walk, n: nat) {
    && |s.log| <= |w.session.log| && w.session.log[..|s.log|] == s.log
    && (forall i | |s.log| <= i < |w.session.log| :: w.session.log[i].at < n && !w.session.log[i].command.PatchStatus?)
    && (forall i | |s.log| <= i < |w.session.log| && Failed(e, w.session.log[i]) :: StepHalts(w, i))
  }

  predicate StepHalts(w: Walk, i: nat)
    requires i < |w.session.log|
  {
    var log := w.session.log;
    && (IsApi(log[i].command) ==> w.stop == TierError && i == |log| - 1)
    && (IsInstall(log[i].command) ==> w.stop == PluginError && i == |log| - 1)
    && (IsDrop(log[i].command) ==> forall j | i < j < |log| :: log[j].at > log[i].at)
  }

  lemma WalkOnHalts(e: Env, s: Session, w: Walk, cl: Cluster, at: nat)
    requires at < |cl.tiers| && WalkHalts(e, s, w, at)
    ensures WalkHalts(e, s, WalkOn(e, w, cl, at), at + 1)
  {
    if w.stop == NoStop {
      var v, h := WalkOn(e, w, cl, at), HandleTier(e, w.session, cl, at);
      WalkOnCases(e, w, cl, at);
      TierHaltsAt(e, w.session, cl, at);
      HandledLink(e, w.session, cl, at);
      PrefixTrans(s.log, w.session.log, v.session.log);
      assert h.TierFailed? ==> v.stop == TierError;
      assert h.TierPluginsFailed? ==> v.stop == PluginError;
      OneMoreTierHalts(e, s, w, v, h, cl, at);
    }
  }

  lemma OneMoreTierHalts(e: Env, s: Session, w: Walk, v: Walk, h: TierResult, cl: Cluster, at: nat)
    requires WalkHalts(e, s, w, at) && w.stop == NoStop && TierHalts(e, w.session, h) && v.session == h.session
    requires Link(e, Scope(cl, at, at, true, true), w.session, h.session)
    requires (h.TierFailed? ==> v.stop == TierError) && (h.TierPluginsFailed? ==> v.stop == PluginError)
    ensures WalkHalts(e, s, v, at + 1)
  {
    var log := v.session.log;
    PrefixTrans(s.log, w.session.log, log);
    forall i | |s.log| <= i < |log|
      ensures log[i].at < at + 1 && !log[i].command.PatchStatus?
      ensures i >= |w.session.log| ==> log[i].at == at
    {
      if i < |w.session.log| {
        assert log[i] == w.session.log[i];
      } else {
        assert StepIn(e, Scope(cl, at, at, true, true), log[i]);
      }
    }
    forall i | |s.log| <= i < |log| && Failed(e, log[i])
      ensures StepHalts(v, i)
    {
      if i < |w.session.log| {
        assert log[i] == w.session.log[i] && StepHalts(w, i);
      }
    }
  }

  lemma WalkHaltsAt(e: Env, s: Session, cl: Cluster, n: nat)
    requires n <= |cl.tiers|
    ensures WalkHalts(e, s, TierWalk(e, s, cl, n), n)
  {
    var kept := (w: Walk, at: nat) => WalkHalts(e, s, w, at);
    forall w: Walk, at: nat | at < |cl.tiers| && kept(w, at)
      ensures kept(WalkOn(e, w, cl, at), at + 1)
    {
      WalkOnHalts(e, s, w, cl, at);
    }
    WalkInduction(e, s, cl, n, kept);
  }

  /** What is left of a pass once a command has failed: after an API call nothing, and the pass fails; after
      a statement that installs a plugin only the status, and the pass does not fail; after a statement that
      drops one, nothing of the same tier. */
  predicate PassHalts(r: Session, i: nat)
    requires i < |r.log|
  {
    && (IsApi(r.log[i].command) ==> i == |r.log| - 1 && !r.ok)
    && (IsInstall(r.log[i].command) ==> i == |r.log| - 2 && r.log[i + 1].command.PatchStatus? && r.ok)
    && (IsDrop(r.log[i].command) ==> forall j | i < j < |r.log| :: r.log[j].at > r.log[i].at)
    && (r.log[i].command.PatchStatus? ==> i == |r.log| - 1)
  }

  lemma FailureStops(e: Env, s: Session, cl: Cluster, i: nat)
    requires s.ok && |s.log| <= i < |Reconcile(e, s, cl).log| && Failed(e, Reconcile(e, s, cl).log[i])
    ensures PassHalts(Reconcile(e, s, cl), i)
  {
    var w, r := WholeWalk(e, s, cl), Reconcile(e, s, cl);
    if Read(e, s).ok {
      StoppedMeansFailed(e, Read(e, s), cl, |cl.tiers|);
      WalkHaltsAt(e, Read(e, s), cl, |cl.tiers|);
      FinishCases(e, w, cl);
      StatusIsLast(e, w, cl);
      FinishHalts(e, s, w, r, |cl.tiers|, i);
    }
  }

  lemma StatusIsLast(e: Env, w: Walk, cl: Cluster)
    requires w.stop != NoStop <==> !w.session.ok
    ensures var r := FinishPass(e, w, cl); w.stop != TierError ==> r.log != [] && r.log[|r.log| - 1].at == |cl.tiers|
  {
  }

  lemma FinishHalts(e: Env, s: Session, w: Walk, r: Session, n: nat, i: nat)
    requires WalkHalts(e, s, w, n) && |s.log| <= i < |r.log| && Failed(e, r.log[i])
    requires if w.stop == TierError then r == w.session && !r.ok
             else AppendsStatus(w.session, r) && r.log[|r.log| - 1].at == n
    requires w.stop == PluginError ==> r.ok
    ensures PassHalts(r, i)
  {
    assert forall j | 0 <= j < |w.session.log| :: r.log[j] == r.log[..|w.session.log|][j];
    if i < |w.session.log| {
      assert StepHalts(w, i);
    }
  }

  // ---------------------------------------------------------------- in a run

  lemma SafeMeansAccepted(e: Env, id: Identity, specs: seq<Cluster>, w0: World, a: Session, b: Session)
    requires Safe(e, id, specs, w0, b)
    ensures NothingRefusedIn(a, b)
  {
    forall i | |a.log| <= i < |b.log|
      ensures !Refused(b.log[i])
    {
      var st := b.log[i];
      assert StepSafe(e, id, specs, st);
      JustifiedAccepted(e, st.cluster, st.at, st.before, st.command);
    }
  }

  /** Why a pass of a run stops at a tier, or goes on: exactly as the calls say. */
  lemma PassStopsIff(e: Env, id: Identity, w0: World, specs: seq<Cluster>, n: nat, at: nat)
    requires Legal(e, id, w0, specs) && n < |specs| && at < |specs[n].tiers|
    requires Read(e, BeforePass(e, w0, specs, n)).ok
    requires TierWalk(e, Read(e, BeforePass(e, w0, specs, n)), specs[n], at).stop == NoStop
    ensures var cl, s := specs[n], TierWalk(e, Read(e, BeforePass(e, w0, specs, n)), specs[n], at).session;
            var stop, seen := TierWalk(e, Read(e, BeforePass(e, w0, specs, n)), cl, at + 1).stop, Seen(e, s, cl, at);
            && (stop == TierError <==> !CallsDone(e, s.calls, seen.calls))
            && (stop == PluginError <==>
                  && CallsDone(e, s.calls, seen.calls) && Serves(e, s, cl, at)
                  && !CallsDone(e, seen.calls, Installed(e, seen, cl, at).calls))
  {
    var b, cl := BeforePass(e, w0, specs, n), specs[n];
    assert cl in specs;
    RunIsSafe(e, id, w0, specs, n);
    SafeTierWalk(e, specs, w0, Read(e, b), cl, at);
    var w := TierWalk(e, Read(e, b), cl, at);
    StoppedMeansFailed(e, Read(e, b), cl, at);
    SafeHandleTier(e, specs, w0, w.session, cl, at);
    SafeMeansAccepted(e, id, specs, w0, w.session, HandleTier(e, w.session, cl, at).session);
    TierOutcomeIff(e, w.session, cl, at);
    StopOfTier(e, w, cl, at);
  }

  lemma StopOfTier(e: Env, w: Walk, cl: Cluster, at: nat)
    requires at < |cl.tiers| && w.stop == NoStop
    ensures var stop, h := WalkOn(e, w, cl, at).stop, HandleTier(e, w.session, cl, at);
            (stop == TierError <==> h.TierFailed?) && (stop == PluginError <==> h.TierPluginsFailed?)
  {
  }
}
