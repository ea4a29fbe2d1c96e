/** Anti-affinity: the merge copies the user's Affinity but not the PodAntiAffinity it points to, so
    the StatefulSets of one pass share a growing list of terms. */
module Scheduling {
  import opened Text
  import opened Types
  import opened Names
  import opened Builders

  class PodAntiAffinity {
    var required: seq<Term>

    constructor ()
      ensures required == []
    {
      required := [];
    }
  }

  class AffinityRef {
    var podAntiAffinity: PodAntiAffinity?
    var rest: string

    constructor (rest: string)
      ensures podAntiAffinity == null && this.rest == rest
    {
      podAntiAffinity := null;
      this.rest := rest;
    }

    constructor CopyOf(base: AffinityRef)
      ensures podAntiAffinity == base.podAntiAffinity && rest == base.rest
    {
      podAntiAffinity := base.podAntiAffinity;
      rest := base.rest;
    }

    function Value(): Affinity
      reads this, podAntiAffinity
    {
      Affinity(if podAntiAffinity == null then None else Some(podAntiAffinity.required), rest)
    }
  }

  /** What is sent when the pointer is serialised. */
  function Sent(a: AffinityRef?): Option<Affinity>
    reads a, if a == null then {} else {a.podAntiAffinity}
  {
    if a == null then None else Some(a.Value())
  }

  /** The PodAntiAffinity that the user's spec holds, if any: all that a merge can write to. */
  function Shared(base: AffinityRef?): set<PodAntiAffinity>
    reads base
  {
    if base == null || base.podAntiAffinity == null then {} else {base.podAntiAffinity}
  }

  /** mergeReplicasetAntiAffinity. */
  method Merge(base: AffinityRef?, labels: Labels) returns (affinity: AffinityRef)
    modifies Shared(base)
    ensures fresh(affinity) && affinity.podAntiAffinity != null
    ensures Shared(base) == {} ==> fresh(affinity.podAntiAffinity)
    ensures Shared(base) != {} ==> affinity.podAntiAffinity == base.podAntiAffinity
    ensures affinity.rest == if base == null then "" else base.rest
    ensures affinity.podAntiAffinity.required
         == (if Shared(base) == {} then [] else old(base.podAntiAffinity.required)) + [Term(labels, HOSTNAME_KEY)]
  {
    var term := Term(labels, HOSTNAME_KEY);
    if base != null {
      affinity := new AffinityRef.CopyOf(base);
    } else {
      affinity := new AffinityRef("");
    }
    if affinity.podAntiAffinity == null {
      affinity.podAntiAffinity := new PodAntiAffinity();
    }
    affinity.podAntiAffinity.required := affinity.podAntiAffinity.required + [term];
  }

  lemma TermsGrow(user: seq<Term>, id: Identity, tier: string, n: nat)
    ensures user + TermsUpTo(id, tier, 0) == user
    ensures [] + [Term(ReplicasetLabels(id, tier, n + 1), HOSTNAME_KEY)] == [ReplicasetTerm(id, tier, n + 1)]
    ensures (user + TermsUpTo(id, tier, n)) + [Term(ReplicasetLabels(id, tier, n + 1), HOSTNAME_KEY)]
         == user + TermsUpTo(id, tier, n + 1)
  {
    var all := TermsUpTo(id, tier, n + 1);
    assert all == TermsUpTo(id, tier, n) + [ReplicasetTerm(id, tier, n + 1)];
  }

  /** The affinity of one StatefulSet, read at the moment it is sent. */
  method SubmitOne(id: Identity, t: Tier, base: AffinityRef?, rsIndex: nat) returns (sent: Option<Affinity>)
    requires rsIndex >= 1 && Sent(base) == AffinityAfter(id, t, rsIndex - 1)
    modifies Shared(base)
    ensures sent == SubmittedAffinity(id, t, rsIndex) && Sent(base) == AffinityAfter(id, t, rsIndex)
  {
    TermsGrow(UserTerms(t), id, t.name, rsIndex - 1);
    var affinity := base;
    if !t.disableAutoAntiAffinity {
      affinity := Merge(base, ReplicasetLabels(id, t.name, rsIndex));
    }
    sent := Sent(affinity);
  }

  /** The affinities that the replicaset loop submits, one per replicaset; and what the loop leaves in
      the user's own spec object. */
  method SubmitReplicasets(id: Identity, t: Tier, base: AffinityRef?) returns (sent: seq<Option<Affinity>>)
    requires Sent(base) == t.affinity
    modifies Shared(base)
    ensures |sent| == SetCount(t)
    ensures forall i | 0 <= i < |sent| :: sent[i] == SubmittedAffinity(id, t, i + 1)
    ensures Sent(base) == AffinityAfter(id, t, SetCount(t))
  {
    sent := [];
    var rsIndex := 1;
    TermsGrow(UserTerms(t), id, t.name, 0);
    while rsIndex <= t.replicas
      invariant |sent| == rsIndex - 1 <= SetCount(t)
      invariant forall i | 0 <= i < |sent| :: sent[i] == SubmittedAffinity(id, t, i + 1)
      invariant Sent(base) == AffinityAfter(id, t, rsIndex - 1)
    {
      var one := SubmitOne(id, t, base, rsIndex);
      sent := sent + [one];
      rsIndex := rsIndex + 1;
    }
  }

  /** The user's affinity after n replicasets have been built from it. */
  function AffinityAfter(id: Identity, t: Tier, n: nat): Option<Affinity> {
    if t.disableAutoAntiAffinity || t.affinity.None? || t.affinity.value.required.None? then t.affinity
    else Some(t.affinity.value.(required := Some(t.affinity.value.required.value + TermsUpTo(id, t.name, n))))
  }

  // ---------------------------------------------------------------- what is submitted

  /** The required terms the user gave. */
  function UserTerms(t: Tier): seq<Term> {
    if t.affinity.None? || t.affinity.value.required.None? then [] else t.affinity.value.required.value
  }

  predicate UserGaveAntiAffinity(t: Tier) {
    t.affinity.Some? && t.affinity.value.required.Some?
  }

  lemma {:induction false} TermsInOrder(id: Identity, tier: string, n: nat)
    ensures |TermsUpTo(id, tier, n)| == n
    ensures forall j | 0 <= j < n :: TermsUpTo(id, tier, n)[j] == ReplicasetTerm(id, tier, j + 1)
  {
    if n > 0 {
      TermsInOrder(id, tier, n - 1);
    }
  }

  /** Whatever the user gave: the submitted list starts with the user's terms and ends with the
      replicaset's own. Without a PodAntiAffinity of the user nothing stands between; with one, the
      terms of all earlier replicasets do. Other scheduling rules are passed on. */
  lemma SubmittedTerms(id: Identity, t: Tier, index: nat)
    requires index >= 1 && !t.disableAutoAntiAffinity
    ensures var a := SubmittedAffinity(id, t, index);
            && a.Some? && a.value.required.Some?
            && a.value.rest == (if t.affinity.Some? then t.affinity.value.rest else "")
            && var terms, user := a.value.required.value, UserTerms(t);
               && user <= terms && terms[|terms| - 1] == ReplicasetTerm(id, t.name, index)
               && |terms| == |user| + (if UserGaveAntiAffinity(t) then index else 1)
               && (UserGaveAntiAffinity(t) ==> terms == user + TermsUpTo(id, t.name, index))
  {
    TermsInOrder(id, t.name, index);
  }

  /** The documented outcome: the user's rules and one term against the replicaset's own pods. */
  function DocumentedAffinity(id: Identity, t: Tier, index: nat): Option<Affinity> {
    if t.disableAutoAntiAffinity then t.affinity
    else
      var rest := if t.affinity.Some? then t.affinity.value.rest else "";
      Some(Affinity(Some(UserTerms(t) + [ReplicasetTerm(id, t.name, index)]), rest))
  }

  /** A pass submits the documented affinity for all replicasets of a tier exactly when the automatic
      term is disabled, or the user gave no PodAntiAffinity, or there is at most one replicaset. */
  lemma AsDocumentedIff(id: Identity, t: Tier)
    ensures (forall k: nat | 1 <= k <= SetCount(t) :: SubmittedAffinity(id, t, k) == DocumentedAffinity(id, t, k))
       <==> t.disableAutoAntiAffinity || !UserGaveAntiAffinity(t) || SetCount(t) <= 1
  {
    if !t.disableAutoAntiAffinity && UserGaveAntiAffinity(t) {
      if SetCount(t) > 1 {
        SubmittedTerms(id, t, 2);
        assert |SubmittedAffinity(id, t, 2).value.required.value|
            != |DocumentedAffinity(id, t, 2).value.required.value|;
      } else {
        assert TermsUpTo(id, t.name, 1) == [ReplicasetTerm(id, t.name, 1)];
      }
    } else {
      forall k: nat
        ensures SubmittedAffinity(id, t, k) == DocumentedAffinity(id, t, k)
      {
        var own := [ReplicasetTerm(id, t.name, k)];
        assert [] + own == own;
      }
    }
  }
}
