/** What objects are created with, over whole runs: the content wanted by the spec of the pass that
    creates them, creation-only fields included. */
module Creation {
  import opened Types
  import opened Names
  import opened Builders
  import opened Machine
  import opened Protocol
  import opened Invariants
  import opened Safety
  import opened RunTheorems
  import opened TierConvergence

  /** The object is number j of those the tier wants. */
  ghost predicate WantedAs(e: Env, cl: Cluster, at: nat, j: nat, k: Key, content: Object) {
    at < |cl.tiers| && j < |Wanted(e, cl, at)| && Wanted(e, cl, at)[j] == Manifest(k, content)
  }

  // ---------------------------------------------------------------- commands

  lemma SubmittedIsWanted(e: Env, cl: Cluster, at: nat, w: World, k: Key, o: Object)
    requires at < |cl.tiers| && (SubmitsInOrder(e, cl, at, w, k, o) || SubmitsIngress(cl, at, w, k, o))
    ensures exists j: nat, content ::
              && WantedAs(e, cl, at, j, k, content)
              && o.labels == content.labels && o.live == content.live
              && o.fixed == if k in w.objects then w.objects[k].fixed else content.fixed
  {
    var d := e.desired(cl, at);
    WantedAt(e, cl, at);
    if SubmitsInOrder(e, cl, at, w, k, o) {
      var j :| 0 <= j < |d| && d[j].key == k && o == Settle(w.objects, d[j])
               && forall i | 0 <= i < j :: d[i].key in w.objects;
      assert WantedAs(e, cl, at, j, k, d[j].content);
    } else {
      assert WantedAs(e, cl, at, |d|, k, IngressManifest(cl, at).content);
    }
  }

  /** Whatever a run creates has exactly the content that a tier of the pass's spec wants under that key. */
  lemma CreatedAsWanted(e: Env, id: Identity, w0: World, specs: seq<Cluster>, i: nat)
    requires Legal(e, id, w0, specs) && i < |History(e, w0, specs).log|
    requires History(e, w0, specs).log[i].command.CreateObject?
    ensures var st := History(e, w0, specs).log[i];
            && st.cluster in specs
            && exists j: nat :: WantedAs(e, st.cluster, st.at, j, st.command.key, st.command.content)
  {
    HistoryIsSafe(e, id, w0, specs);
    StepCreates(e, id, specs, History(e, w0, specs).log[i]);
  }

  lemma StepCreates(e: Env, id: Identity, specs: seq<Cluster>, st: Step)
    requires StepSafe(e, id, specs, st) && st.command.CreateObject?
    ensures st.cluster in specs
    ensures exists j: nat :: WantedAs(e, st.cluster, st.at, j, st.command.key, st.command.content)
  {
    SubmittedIsWanted(e, st.cluster, st.at, st.before, st.command.key, st.command.content);
    var j: nat, content :| WantedAs(e, st.cluster, st.at, j, st.command.key, content)
                           && st.command.content.labels == content.labels
                           && st.command.content.live == content.live
                           && st.command.content.fixed == content.fixed;
    assert content == st.command.content;
  }

  /** Whatever a run patches gets the labels and live fields that a tier of the pass's spec wants under that
      key, and keeps its creation-only fields. */
  lemma PatchedAsWanted(e: Env, id: Identity, w0: World, specs: seq<Cluster>, i: nat)
    requires Legal(e, id, w0, specs) && i < |History(e, w0, specs).log|
    requires History(e, w0, specs).log[i].command.PatchObject?
    ensures var st := History(e, w0, specs).log[i];
            && st.cluster in specs && st.command.key in st.before.objects
            && st.command.content.fixed == st.before.objects[st.command.key].fixed
            && exists j: nat, content ::
                 && WantedAs(e, st.cluster, st.at, j, st.command.key, content)
                 && st.command.content.labels == content.labels && st.command.content.live == content.live
  {
    HistoryIsSafe(e, id, w0, specs);
    StepPatches(e, id, specs, History(e, w0, specs).log[i]);
  }

  lemma StepPatches(e: Env, id: Identity, specs: seq<Cluster>, st: Step)
    requires StepSafe(e, id, specs, st) && st.command.PatchObject?
    ensures st.cluster in specs && st.command.key in st.before.objects
    ensures st.command.content.fixed == st.before.objects[st.command.key].fixed
    ensures exists j: nat, content ::
              && WantedAs(e, st.cluster, st.at, j, st.command.key, content)
              && st.command.content.labels == content.labels && st.command.content.live == content.live
  {
    SubmittedIsWanted(e, st.cluster, st.at, st.before, st.command.key, st.command.content);
  }

  // ---------------------------------------------------------------- worlds

  /** The creation-only fields are those some tier of some spec of the run wanted under this key; for a
      StatefulSet so are the labels. */
  ghost predicate BornFrom(e: Env, specs: seq<Cluster>, k: Key, o: Object, cl: Cluster, at: nat, j: nat) {
    && cl in specs && at < |cl.tiers| && j < |Wanted(e, cl, at)| && Wanted(e, cl, at)[j].key == k
    && o.fixed == Wanted(e, cl, at)[j].content.fixed
    && (k.kind == StatefulSetKind ==> o.labels == Wanted(e, cl, at)[j].content.labels)
  }

  ghost predicate Born(e: Env, specs: seq<Cluster>, w: World, k: Key) {
    k in w.objects ==> exists cl, at: nat, j: nat :: BornFrom(e, specs, k, w.objects[k], cl, at, j)
  }

  lemma SetWanted(e: Env, cl: Cluster, at: nat, j: nat)
    requires KeysBuilt(e) && at < |cl.tiers| && j < |Wanted(e, cl, at)|
    requires Wanted(e, cl, at)[j].key.kind == StatefulSetKind
    ensures 3 <= j < |e.desired(cl, at)| && Wanted(e, cl, at)[j] == e.desired(cl, at)[j]
    ensures Wanted(e, cl, at)[j].key == SetKey(cl.id, cl.tiers[at].name, j - 2)
    ensures Wanted(e, cl, at)[j].content.labels == ReplicasetLabels(cl.id, cl.tiers[at].name, j - 2)
  {
    WantedAt(e, cl, at);
    if j < |e.desired(cl, at)| {
      assert e.desired(cl, at)[j].key == ManifestKey(cl, at, j);
    }
  }

  /** A StatefulSet is labelled the same by whichever spec submits it. */
  lemma SameKeySameLabels(e: Env, a: Cluster, i: nat, j: nat, b: Cluster, k: nat, l: nat)
    requires KeysBuilt(e) && a.id == b.id && i < |a.tiers| && k < |b.tiers|
    requires j < |Wanted(e, a, i)| && l < |Wanted(e, b, k)|
    requires Wanted(e, a, i)[j].key == Wanted(e, b, k)[l].key && Wanted(e, a, i)[j].key.kind == StatefulSetKind
    ensures Wanted(e, a, i)[j].content.labels == Wanted(e, b, k)[l].content.labels
  {
    SetWanted(e, a, i, j);
    SetWanted(e, b, k, l);
    SetNameInjective(a.id, a.tiers[i].name, j - 2, b.tiers[k].name, l - 2);
  }

  lemma StepKeepsBorn(e: Env, id: Identity, specs: seq<Cluster>, st: Step, k: Key)
    requires KeysBuilt(e) && (forall c | c in specs :: c.id == id) && StepSafe(e, id, specs, st)
    requires Born(e, specs, st.before, k)
    ensures Born(e, specs, st.after, k)
  {
    var c := st.command;
    if st.after != st.before && (c.CreateObject? || c.PatchObject?) && c.key == k {
      SubmittedIsWanted(e, st.cluster, st.at, st.before, k, c.content);
      var j: nat, content :| WantedAs(e, st.cluster, st.at, j, k, content)
                             && c.content.labels == content.labels && c.content.live == content.live
                             && c.content.fixed == if k in st.before.objects then st.before.objects[k].fixed
                                                   else content.fixed;
      if k in st.before.objects {
        var cl, at: nat, l: nat :| BornFrom(e, specs, k, st.before.objects[k], cl, at, l);
        if k.kind == StatefulSetKind {
          SameKeySameLabels(e, cl, at, l, st.cluster, st.at, j);
        }
        assert BornFrom(e, specs, k, st.after.objects[k], cl, at, l);
      } else {
        assert BornFrom(e, specs, k, st.after.objects[k], st.cluster, st.at, j);
      }
    }
  }

  /** In every world of every run, an object that was not there at the beginning has creation-only fields
      that a spec of the run wanted for it. */
  lemma BornAsWanted(e: Env, id: Identity, w0: World, specs: seq<Cluster>, i: nat, k: Key)
    requires Legal(e, id, w0, specs) && i <= |History(e, w0, specs).log| && k !in w0.objects
    ensures Born(e, specs, WorldAt(w0, History(e, w0, specs).log, i), k)
  {
    HistoryIsSafe(e, id, w0, specs);
    var s := History(e, w0, specs);
    var born := (w: World) => Born(e, specs, w, k);
    forall m | 0 <= m < i && born(WorldAt(w0, s.log, m))
      ensures born(WorldAt(w0, s.log, m + 1))
    {
      SafeWorld(e, id, specs, w0, s, m);
      StepKeepsBorn(e, id, specs, s.log[m], k);
    }
    KeptAlong(w0, s.log, 0, i, born);
  }

  // ---------------------------------------------------------------- what that means

  /** A StatefulSet of the tier selects the pods with its own labels, is governed by the tier's interconnect
      Service, and claims the storage of the tier. */
  predicate IsSetOf(id: Identity, k: Key, o: Object, t: Tier, i: nat) {
    && i >= 1 && k == SetKey(id, t.name, i) && o.fixed.SetFixed?
    && o.fixed.matchLabels == o.labels && o.fixed.serviceName == t.name + "-" + id.name + "-interconnect"
    && o.fixed.claims == t.storage
  }

  /** An interconnect Service is headless, a client Service is of the type given, or else ClusterIP. */
  predicate IsServiceOf(cl: Cluster, k: Key, o: Object, t: Tier) {
    && o.fixed.ServiceFixed?
    && (if o.fixed.headless then k == InterconnectKey(cl.id, t.name)
        else k == ClientKey(cl.id, t.name)
             && o.fixed.serviceType == if cl.service.serviceType != "" then cl.service.serviceType else "ClusterIP")
  }

  lemma FixedOfSet(hash: Config -> string, cl: Cluster, at: nat, i: nat)
    requires at < |cl.tiers|
    ensures var o := SetManifest(hash, cl, at, i).content;
            && o.fixed.SetFixed? && o.fixed.matchLabels == o.labels
            && o.fixed.serviceName == cl.tiers[at].name + "-" + cl.id.name + "-interconnect"
            && o.fixed.claims == cl.tiers[at].storage
  {
  }

  lemma FixedOfServices(cl: Cluster, at: nat)
    requires at < |cl.tiers|
    ensures IsServiceOf(cl, InterconnectManifest(cl, at).key, InterconnectManifest(cl, at).content, cl.tiers[at])
    ensures IsServiceOf(cl, ClientManifest(cl, at).key, ClientManifest(cl, at).content, cl.tiers[at])
    ensures ConfigMapManifest(cl, at).key.kind == ConfigMapKind
  {
  }

  /** From a store without it, in every world of every run: a StatefulSet is one of a tier of a spec of the
      run, with the selector of its own labels, its tier's interconnect Service and its tier's claims. */
  lemma SetsAreComplete(e: Env, id: Identity, w0: World, specs: seq<Cluster>, i: nat, k: Key)
    requires Legal(e, id, w0, specs) && Built(e) && i <= |History(e, w0, specs).log|
    requires k.kind == StatefulSetKind && k !in w0.objects && k in WorldAt(w0, History(e, w0, specs).log, i).objects
    ensures var w := WorldAt(w0, History(e, w0, specs).log, i);
            exists cl, at: nat, n: nat ::
              cl in specs && at < |cl.tiers| && IsSetOf(id, k, w.objects[k], cl.tiers[at], n)
  {
    BornAsWanted(e, id, w0, specs, i, k);
    BornSet(e, id, specs, k, WorldAt(w0, History(e, w0, specs).log, i).objects[k]);
  }

  lemma BornSet(e: Env, id: Identity, specs: seq<Cluster>, k: Key, o: Object)
    requires KeysBuilt(e) && Built(e) && (forall c | c in specs :: c.id == id) && k.kind == StatefulSetKind
    requires exists cl, at: nat, j: nat :: BornFrom(e, specs, k, o, cl, at, j)
    ensures exists cl, at: nat, n: nat :: cl in specs && at < |cl.tiers| && IsSetOf(id, k, o, cl.tiers[at], n)
  {
    var cl, at: nat, j: nat :| BornFrom(e, specs, k, o, cl, at, j);
    SetWanted(e, cl, at, j);
    ManifestAt(e.hash, cl, at, j);
    FixedOfSet(e.hash, cl, at, j - 2);
    assert IsSetOf(id, k, o, cl.tiers[at], j - 2);
  }

  /** And a Service is a headless interconnect Service or a client Service of the type its spec gave. */
  lemma ServicesAreComplete(e: Env, id: Identity, w0: World, specs: seq<Cluster>, i: nat, k: Key)
    requires Legal(e, id, w0, specs) && Built(e) && i <= |History(e, w0, specs).log|
    requires k.kind == ServiceKind && k !in w0.objects && k in WorldAt(w0, History(e, w0, specs).log, i).objects
    ensures var w := WorldAt(w0, History(e, w0, specs).log, i);
            exists cl, at: nat :: cl in specs && at < |cl.tiers| && IsServiceOf(cl, k, w.objects[k], cl.tiers[at])
  {
    BornAsWanted(e, id, w0, specs, i, k);
    BornService(e, id, specs, k, WorldAt(w0, History(e, w0, specs).log, i).objects[k]);
  }

  lemma ServiceWanted(e: Env, cl: Cluster, at: nat, j: nat)
    requires KeysBuilt(e) && Built(e) && at < |cl.tiers| && j < |Wanted(e, cl, at)|
    requires Wanted(e, cl, at)[j].key.kind == ServiceKind
    ensures Wanted(e, cl, at)[j] == InterconnectManifest(cl, at) || Wanted(e, cl, at)[j] == ClientManifest(cl, at)
  {
    WantedAt(e, cl, at);
    if j < |e.desired(cl, at)| {
      assert e.desired(cl, at)[j].key == ManifestKey(cl, at, j);
      ManifestAt(e.hash, cl, at, j);
    }
  }

  lemma BornService(e: Env, id: Identity, specs: seq<Cluster>, k: Key, o: Object)
    requires KeysBuilt(e) && Built(e) && k.kind == ServiceKind
    requires exists cl, at: nat, j: nat :: BornFrom(e, specs, k, o, cl, at, j)
    ensures exists cl, at: nat :: cl in specs && at < |cl.tiers| && IsServiceOf(cl, k, o, cl.tiers[at])
  {
    var cl, at: nat, j: nat :| BornFrom(e, specs, k, o, cl, at, j);
    ServiceWanted(e, cl, at, j);
    FixedOfServices(cl, at);
    assert IsServiceOf(cl, k, o, cl.tiers[at]);
  }
}
