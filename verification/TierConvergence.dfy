/** What a successful tier reconciliation leaves behind, from any object store. */
module TierConvergence {
  import opened Types
  import opened Names
  import opened Builders
  import opened Machine
  import opened Protocol

  // ---------------------------------------------------------------- the target

  function Wanted(e: Env, cl: Cluster, at: nat): seq<Manifest>
    requires at < |cl.tiers|
  {
    e.desired(cl, at) + (if WantsIngress(cl.tiers[at]) then [IngressManifest(cl, at)] else [])
  }

  ghost predicate OwnKey(e: Env, cl: Cluster, at: nat, k: Key)
    requires at < |cl.tiers|
  {
    exists i :: 0 <= i < |Wanted(e, cl, at)| && Wanted(e, cl, at)[i].key == k
  }

  /** A StatefulSet with the tier's labels whose index label is beyond the tier's replicas. */
  predicate Extra(cl: Cluster, at: nat, objects: map<Key, Object>, k: Key)
    requires at < |cl.tiers|
  {
    && k in objects && k.kind == StatefulSetKind
    && Matches(objects[k].labels, TierLabels(cl.id, cl.tiers[at].name))
    && BeyondReplicas(objects[k].labels, cl.tiers[at])
  }

  /** b is a with every wanted object created, or patched with its creation-only fields kept; with
      the extra replicasets gone; and with all other objects untouched. */
  ghost predicate IsTarget(e: Env, cl: Cluster, at: nat, a: map<Key, Object>, b: map<Key, Object>)
    requires at < |cl.tiers|
  {
    && (forall i | 0 <= i < |Wanted(e, cl, at)| ::
          var m := Wanted(e, cl, at)[i]; m.key in b && b[m.key] == Settle(a, m))
    && (forall k | !OwnKey(e, cl, at, k) ::
          (k in b <==> k in a && !Extra(cl, at, a, k)) && (k in b ==> b[k] == a[k]))
  }

  lemma WantedDistinct(e: Env, cl: Cluster, at: nat)
    requires KeysBuilt(e) && at < |cl.tiers|
    ensures var ms := Wanted(e, cl, at); forall i, j | 0 <= i < j < |ms| :: ms[i].key != ms[j].key
  {
    var ms := Wanted(e, cl, at);
    forall i, j | 0 <= i < j < |ms|
      ensures ms[i].key != ms[j].key
    {
      var d := e.desired(cl, at);
      assert d[i].key == ManifestKey(cl, at, i);
      if j < |d| && ms[i].key == ms[j].key {
        assert d[j].key == ManifestKey(cl, at, j);
        ManifestKeyInjective(cl, at, i, j);
      }
    }
  }

  // ---------------------------------------------------------------- upserts

  lemma UpsertDone(e: Env, s: Session, cl: Cluster, at: nat, m: Manifest)
    requires Upsert(e, s, cl, at, m).ok
    ensures s.ok
    ensures Upsert(e, s, cl, at, m).world == s.world.(objects := s.world.objects[m.key := Settle(s.world.objects, m)])
  {
  }

  /** b is a with these manifests settled and nothing else changed. */
  ghost predicate SettledIn(ms: seq<Manifest>, a: map<Key, Object>, b: map<Key, Object>) {
    && (forall i | 0 <= i < |ms| :: ms[i].key in b && b[ms[i].key] == Settle(a, ms[i]))
    && (forall k | (forall i | 0 <= i < |ms| :: ms[i].key != k) :: (k in b <==> k in a) && (k in b ==> b[k] == a[k]))
  }

  lemma SettleOneMore(ms: seq<Manifest>, a: map<Key, Object>, b: map<Key, Object>, m: Manifest)
    requires SettledIn(ms, a, b) && forall i | 0 <= i < |ms| :: ms[i].key != m.key
    ensures SettledIn(ms + [m], a, b[m.key := Settle(b, m)])
  {
    var now, all := b[m.key := Settle(b, m)], ms + [m];
    assert Settle(b, m) == Settle(a, m);
    assert all[|ms|] == m;
    forall k | forall i | 0 <= i < |all| :: all[i].key != k
      ensures (k in now <==> k in a) && (k in now ==> now[k] == a[k])
    {
      assert all[|ms|].key != k;
      assert forall i | 0 <= i < |ms| :: all[i].key == ms[i].key;
    }
  }

  lemma {:induction false} UpsertAllDone(e: Env, s: Session, cl: Cluster, at: nat, ms: seq<Manifest>)
    requires forall i, j | 0 <= i < j < |ms| :: ms[i].key != ms[j].key
    requires UpsertAll(e, s, cl, at, ms).ok
    ensures s.ok
    ensures var r := UpsertAll(e, s, cl, at, ms);
            && SettledIn(ms, s.world.objects, r.world.objects)
            && r.world == s.world.(objects := r.world.objects)
  {
    if ms != [] {
      var init, m := ms[..|ms| - 1], ms[|ms| - 1];
      var r := UpsertAll(e, s, cl, at, init);
      UpsertDone(e, r, cl, at, m);
      UpsertAllDone(e, s, cl, at, init);
      SettleOneMore(init, s.world.objects, r.world.objects, m);
      assert init + [m] == ms;
    }
  }

  // ---------------------------------------------------------------- deletes

  lemma {:induction false} DeleteLoopDone(
      e: Env, s: Session, cl: Cluster, at: nat, listed: map<Key, Object>, keys: seq<Key>)
    requires at < |cl.tiers| && forall k | k in keys :: k in listed
    requires DeleteLoop(e, s, cl, at, listed, keys).ok
    ensures s.ok
    ensures var r := DeleteLoop(e, s, cl, at, listed, keys);
            && r.world == s.world.(objects := r.world.objects)
            && (forall k :: k in r.world.objects <==>
                  k in s.world.objects && !(k in keys && BeyondReplicas(listed[k].labels, cl.tiers[at])))
            && (forall k | k in r.world.objects :: r.world.objects[k] == s.world.objects[k])
  {
    if keys != [] {
      var init, k := keys[..|keys| - 1], keys[|keys| - 1];
      assert keys == init + [k];
      assert k in keys && forall x | x in init :: x in keys;
      DeleteLoopDone(e, s, cl, at, listed, init);
    }
  }

  lemma DeleteExtraDone(e: Env, s: Session, cl: Cluster, at: nat)
    requires Valid(e) && at < |cl.tiers| && DeleteExtraSets(e, s, cl, at).ok
    ensures s.ok
    ensures var r := DeleteExtraSets(e, s, cl, at);
            && r.world == s.world.(objects := r.world.objects)
            && (forall k :: k in r.world.objects <==> k in s.world.objects && !Extra(cl, at, s.world.objects, k))
            && (forall k | k in r.world.objects :: r.world.objects[k] == s.world.objects[k])
  {
    var r := Read(e, s);
    var sets := TierSets(r.world, cl.id, cl.tiers[at].name);
    var keys := e.keyOrder(s.calls, sets);
    assert Lists(keys, sets);
    DeleteLoopDone(e, r, cl, at, r.world.objects, keys);
  }

  // ---------------------------------------------------------------- the tier

  lemma OwnSetsNotExtra(e: Env, cl: Cluster, at: nat, a: map<Key, Object>, b: map<Key, Object>)
    requires KeysBuilt(e) && at < |cl.tiers|
    requires SettledIn(e.desired(cl, at), a, b)
    ensures forall i | 0 <= i < |e.desired(cl, at)| :: !Extra(cl, at, b, e.desired(cl, at)[i].key)
  {
    var d := e.desired(cl, at);
    forall i | 0 <= i < |d|
      ensures !Extra(cl, at, b, d[i].key)
    {
      assert d[i].key == ManifestKey(cl, at, i);
      if i >= 3 {
        assert b[d[i].key].labels == d[i].content.labels;
        LabelRoundTrip(cl.id, cl.tiers[at].name, i - 2);
      }
    }
  }

  /** A tier reconciliation that reports success has reached its target, whatever the store was. */
  lemma SuccessMeansTarget(e: Env, s: Session, cl: Cluster, at: nat)
    requires Valid(e) && KeysBuilt(e) && at < |cl.tiers| && ReconcileTier(e, s, cl, at).ok
    ensures s.ok && IsTarget(e, cl, at, s.world.objects, ReconcileTier(e, s, cl, at).world.objects)
    ensures var r := ReconcileTier(e, s, cl, at); r.world == s.world.(objects := r.world.objects)
  {
    var d, t := e.desired(cl, at), cl.tiers[at];
    var made := UpsertAll(e, s, cl, at, d);
    var cut := DeleteExtraSets(e, made, cl, at);
    var r := ReconcileTier(e, s, cl, at);
    WantedDistinct(e, cl, at);
    assert forall i, j | 0 <= i < j < |d| :: Wanted(e, cl, at)[i] == d[i] && Wanted(e, cl, at)[j] == d[j];
    if WantsIngress(t) {
      UpsertDone(e, cut, cl, at, IngressManifest(cl, at));
    }
    DeleteExtraDone(e, made, cl, at);
    UpsertAllDone(e, s, cl, at, d);
    OwnSetsNotExtra(e, cl, at, s.world.objects, made.world.objects);
    TargetReached(e, cl, at, s.world.objects, made.world.objects, cut.world.objects, r.world.objects);
  }

  /** The stores along the way: base objects settled, then extra replicasets gone, then the Ingress. */
  ghost predicate Reached(
      e: Env, cl: Cluster, at: nat,
      a: map<Key, Object>, made: map<Key, Object>, cut: map<Key, Object>, b: map<Key, Object>)
    requires at < |cl.tiers|
  {
    && SettledIn(e.desired(cl, at), a, made)
    && (forall i | 0 <= i < |e.desired(cl, at)| :: !Extra(cl, at, made, e.desired(cl, at)[i].key))
    && (forall k :: k in cut <==> k in made && !Extra(cl, at, made, k))
    && (forall k | k in cut :: cut[k] == made[k])
    && b == if WantsIngress(cl.tiers[at])
            then cut[IngressManifest(cl, at).key := Settle(cut, IngressManifest(cl, at))] else cut
  }

  lemma WantedAt(e: Env, cl: Cluster, at: nat)
    requires at < |cl.tiers|
    ensures var d, ms := e.desired(cl, at), Wanted(e, cl, at);
            && |ms| == |d| + (if WantsIngress(cl.tiers[at]) then 1 else 0)
            && (forall i | 0 <= i < |d| :: ms[i] == d[i])
            && (WantsIngress(cl.tiers[at]) ==> ms[|d|] == IngressManifest(cl, at))
  {
  }

  lemma OwnReached(
      e: Env, cl: Cluster, at: nat,
      a: map<Key, Object>, made: map<Key, Object>, cut: map<Key, Object>, b: map<Key, Object>, i: nat)
    requires KeysBuilt(e) && at < |cl.tiers| && Reached(e, cl, at, a, made, cut, b)
    requires i < |Wanted(e, cl, at)|
    ensures var m := Wanted(e, cl, at)[i]; m.key in b && b[m.key] == Settle(a, m)
  {
    var d, ms := e.desired(cl, at), Wanted(e, cl, at);
    WantedDistinct(e, cl, at);
    WantedAt(e, cl, at);
    if i == |d| {
      assert forall j | 0 <= j < |d| :: d[j].key != ms[i].key;
    }
  }

  lemma OtherReached(
      e: Env, cl: Cluster, at: nat,
      a: map<Key, Object>, made: map<Key, Object>, cut: map<Key, Object>, b: map<Key, Object>, k: Key)
    requires KeysBuilt(e) && at < |cl.tiers| && Reached(e, cl, at, a, made, cut, b)
    requires !OwnKey(e, cl, at, k)
    ensures (k in b <==> k in a && !Extra(cl, at, a, k)) && (k in b ==> b[k] == a[k])
  {
    var d, ms := e.desired(cl, at), Wanted(e, cl, at);
    WantedAt(e, cl, at);
    assert forall i | 0 <= i < |ms| :: ms[i].key != k;
    assert forall i | 0 <= i < |d| :: d[i].key == ms[i].key;
    assert WantsIngress(cl.tiers[at]) ==> ms[|d|].key == IngressManifest(cl, at).key;
  }

  lemma TargetReached(
      e: Env, cl: Cluster, at: nat,
      a: map<Key, Object>, made: map<Key, Object>, cut: map<Key, Object>, b: map<Key, Object>)
    requires KeysBuilt(e) && at < |cl.tiers| && Reached(e, cl, at, a, made, cut, b)
    ensures IsTarget(e, cl, at, a, b)
  {
    forall i | 0 <= i < |Wanted(e, cl, at)|
      ensures var m := Wanted(e, cl, at)[i]; m.key in b && b[m.key] == Settle(a, m)
    {
      OwnReached(e, cl, at, a, made, cut, b, i);
    }
    forall k | !OwnKey(e, cl, at, k)
      ensures (k in b <==> k in a && !Extra(cl, at, a, k)) && (k in b ==> b[k] == a[k])
    {
      OtherReached(e, cl, at, a, made, cut, b, k);
    }
  }

  // ---------------------------------------------------------------- without faults it succeeds

  lemma {:induction false} UpsertAllSucceeds(e: Env, s: Session, cl: Cluster, at: nat, ms: seq<Manifest>)
    requires FaultFree(e) && s.ok
    ensures UpsertAll(e, s, cl, at, ms).ok
  {
    if ms != [] {
      UpsertAllSucceeds(e, s, cl, at, ms[..|ms| - 1]);
    }
  }

  lemma {:induction false} DeleteLoopSucceeds(
      e: Env, s: Session, cl: Cluster, at: nat, listed: map<Key, Object>, keys: seq<Key>)
    requires FaultFree(e) && s.ok && at < |cl.tiers|
    ensures DeleteLoop(e, s, cl, at, listed, keys).ok
  {
    if keys != [] {
      DeleteLoopSucceeds(e, s, cl, at, listed, keys[..|keys| - 1]);
    }
  }

  lemma TierSucceeds(e: Env, s: Session, cl: Cluster, at: nat)
    requires FaultFree(e) && s.ok && at < |cl.tiers|
    ensures ReconcileTier(e, s, cl, at).ok
  {
    var made := UpsertAll(e, s, cl, at, e.desired(cl, at));
    UpsertAllSucceeds(e, s, cl, at, e.desired(cl, at));
    var r := Read(e, made);
    var keys := e.keyOrder(made.calls, TierSets(r.world, cl.id, cl.tiers[at].name));
    DeleteLoopSucceeds(e, r, cl, at, r.world.objects, keys);
  }
}
