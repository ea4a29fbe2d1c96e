/** Generated object names and labels, and when two of them can be equal. */
module Names {
  import opened Text
  import opened Types

  /** Client Service, ConfigMap and Ingress share this name. */
  function TierName(id: Identity, tier: string): string {
    tier + "-" + id.name
  }

  function InterconnectName(id: Identity, tier: string): string {
    tier + "-" + id.name + "-interconnect"
  }

  function SetName(id: Identity, tier: string, index: int): string {
    tier + "-" + id.name + "-" + Decimal(index)
  }

  const REPLICASET_LABEL := "picodata.io/replicaset"

  function TierLabels(id: Identity, tier: string): Labels {
    map[
      "app.kubernetes.io/name" := tier + "-" + id.name,
      "app.kubernetes.io/cluster" := id.clusterName,
      "app.kubernetes.io/instance" := id.name
    ]
  }

  function ReplicasetLabels(id: Identity, tier: string, index: int): Labels {
    TierLabels(id, tier)[REPLICASET_LABEL := Decimal(index)]
  }

  function ConfigMapKey(id: Identity, tier: string): Key {
    Key(ConfigMapKind, TierName(id, tier))
  }

  function InterconnectKey(id: Identity, tier: string): Key {
    Key(ServiceKind, InterconnectName(id, tier))
  }

  function ClientKey(id: Identity, tier: string): Key {
    Key(ServiceKind, TierName(id, tier))
  }

  function SetKey(id: Identity, tier: string, index: int): Key {
    Key(StatefulSetKind, SetName(id, tier, index))
  }

  function IngressKey(id: Identity, tier: string): Key {
    Key(IngressKind, TierName(id, tier))
  }

  /** The replicaset index written in an object's labels, as the delete loop reads it. */
  function LabelledIndex(labels: Labels): Option<Int32> {
    if REPLICASET_LABEL in labels then ParseInt32(labels[REPLICASET_LABEL]) else None
  }

  predicate Matches(labels: Labels, selector: Labels) {
    forall k | k in selector :: k in labels && labels[k] == selector[k]
  }

  /** The delete test decides the true index: the label printed for an index parses back to it. */
  lemma LabelRoundTrip(id: Identity, tier: string, index: Int32)
    ensures LabelledIndex(ReplicasetLabels(id, tier, index)) == Some(index)
  {
    DecimalRoundTrip(index);
  }

  // ---------------------------------------------------------------- injectivity

  lemma TierNameInjective(id: Identity, s: string, t: string)
    requires TierName(id, s) == TierName(id, t)
    ensures s == t
  {
    var suffix := "-" + id.name;
    assert TierName(id, s) == s + suffix && TierName(id, t) == t + suffix;
    assert |s| == |t|;
    assert s == (s + suffix)[..|s|];
    assert t == (t + suffix)[..|t|];
  }

  lemma InterconnectNameInjective(id: Identity, s: string, t: string)
    requires InterconnectName(id, s) == InterconnectName(id, t)
    ensures s == t
  {
    assert |s| == |t|;
    assert s == InterconnectName(id, s)[..|s|];
    assert t == InterconnectName(id, t)[..|t|];
  }

  /** Labels select exactly one tier: distinct tiers never match each other's selector. */
  lemma LabelsIdentifyTier(id: Identity, s: string, t: string, index: int)
    ensures Matches(ReplicasetLabels(id, s, index), TierLabels(id, t)) <==> s == t
  {
    var selector := TierLabels(id, t);
    assert "app.kubernetes.io/name" in selector;
    if Matches(ReplicasetLabels(id, s, index), selector) {
      TierNameInjective(id, s, t);
    }
  }

  /** For any two clusters of a namespace: two StatefulSet names are equal exactly when the indices are
      and "<tier>-<cluster>" is. */
  lemma SetNamesEqualIff(a: Identity, s: string, i: nat, b: Identity, t: string, j: nat)
    ensures SetName(a, s, i) == SetName(b, t, j) <==> TierName(a, s) == TierName(b, t) && i == j
  {
    DecimalFree(i, '-');
    DecimalFree(j, '-');
    assert SetName(a, s, i) == TierName(a, s) + ['-'] + Decimal(i);
    assert SetName(b, t, j) == TierName(b, t) + ['-'] + Decimal(j);
    if SetName(a, s, i) == SetName(b, t, j) {
      SplitLast(TierName(a, s), Decimal(i), TierName(b, t), Decimal(j), '-');
      DecimalInjective(i, j);
    }
  }

  /** Within one cluster a StatefulSet name determines tier and index. */
  lemma SetNameInjective(id: Identity, s: string, i: nat, t: string, j: nat)
    requires SetName(id, s, i) == SetName(id, t, j)
    ensures s == t && i == j
  {
    SetNamesEqualIff(id, s, i, id, t, j);
    TierNameInjective(id, s, t);
  }

  /** Across clusters of a namespace, hyphen-free tier names keep StatefulSet names apart. */
  lemma SetNameInjectiveAcrossClusters(a: Identity, s: string, i: nat, b: Identity, t: string, j: nat)
    requires '-' !in s && '-' !in t
    requires SetName(a, s, i) == SetName(b, t, j)
    ensures s == t && a.name == b.name && i == j
  {
    SetNamesEqualIff(a, s, i, b, t, j);
    SplitFirst(s, a.name, t, b.name, '-');
  }

  /** With a hyphen in a tier name, two clusters of a namespace can claim the same StatefulSet. */
  lemma HyphenatedTierCollides(namespace: string, x: string, y: string, z: string, index: int)
    requires x != []
    ensures SetName(Identity(z, namespace, z), x + "-" + y, index)
         == SetName(Identity(y + "-" + z, namespace, z), x, index)
    ensures x + "-" + y != x
  {
    assert (x + "-" + y) + "-" + z == x + "-" + (y + "-" + z);
  }

  /** name is prefix-suffix for some prefix, possibly empty. */
  predicate EndsWithName(name: string, suffix: string) {
    |name| > |suffix| && name[|name| - |suffix| - 1..] == ['-'] + suffix
  }

  lemma ShorterNameIsSuffix(a: Identity, s: string, b: Identity, t: string)
    requires TierName(a, s) == TierName(b, t) && |a.name| <= |b.name| && a.name != b.name
    ensures EndsWithName(b.name, a.name)
  {
    var whole := TierName(a, s);
    assert whole == s + (['-'] + a.name) && whole == t + (['-'] + b.name);
    assert whole[|whole| - |a.name|..] == a.name && whole[|whole| - |b.name|..] == b.name;
    assert |a.name| < |b.name|;
    assert whole[|whole| - |a.name| - 1..] == ['-'] + a.name;
  }

  lemma SuffixNameCollides(a: Identity, b: Identity, t: string)
    requires EndsWithName(b.name, a.name)
    ensures TierName(a, t + "-" + b.name[..|b.name| - |a.name| - 1]) == TierName(b, t)
  {
    var prefix := b.name[..|b.name| - |a.name| - 1];
    assert b.name == prefix + (['-'] + a.name);
  }

  ghost predicate SetsCollide(a: Identity, b: Identity) {
    exists s, i: nat, t, j: nat :: s != [] && t != [] && SetName(a, s, i) == SetName(b, t, j)
  }

  /** Two clusters of a namespace can ever claim the same StatefulSet exactly when the name of one ends
      with a hyphen and the name of the other. */
  lemma SetsCollideIff(a: Identity, b: Identity)
    requires a.name != b.name
    ensures SetsCollide(a, b) <==> EndsWithName(a.name, b.name) || EndsWithName(b.name, a.name)
  {
    if SetsCollide(a, b) {
      var s, i: nat, t, j: nat :| s != [] && t != [] && SetName(a, s, i) == SetName(b, t, j);
      SetNamesEqualIff(a, s, i, b, t, j);
      if |a.name| <= |b.name| {
        ShorterNameIsSuffix(a, s, b, t);
      } else {
        ShorterNameIsSuffix(b, t, a, s);
      }
    }
    var t := "t";
    if EndsWithName(b.name, a.name) {
      var s := t + "-" + b.name[..|b.name| - |a.name| - 1];
      SuffixNameCollides(a, b, t);
      SetNamesEqualIff(a, s, 1, b, t, 1);
    } else if EndsWithName(a.name, b.name) {
      var s := t + "-" + a.name[..|a.name| - |b.name| - 1];
      SuffixNameCollides(b, a, t);
      SetNamesEqualIff(a, t, 1, b, s, 1);
    }
  }

  // ------------------------------------------------- client against interconnect Services

  const INTERCONNECT := "interconnect"

  /** word, word-word, word-word-word, ... */
  predicate Repeats(name: string, word: string)
    decreases |name|
  {
    || name == word
    || (&& |name| > |word| + 1
        && name[..|name| - |word| - 1] + ['-'] + word == name
        && Repeats(name[..|name| - |word| - 1], word))
  }

  predicate OnlyInterconnect(name: string) {
    Repeats(name, INTERCONNECT)
  }

  predicate ServicesClash(id: Identity, s: string, t: string) {
    TierName(id, s) == InterconnectName(id, t)
  }

  /** If "-x" is what "-x-word" ends with, then x is nothing but repeated words. */
  lemma {:induction false} SuffixForcesRepetition(before: string, x: string, word: string)
    requires word != [] && '-' !in word && |before| == |word| + 1
    requires before + ['-'] + x == ['-'] + x + ['-'] + word
    ensures Repeats(x, word)
    decreases |x|
  {
    var n := |word| + 1;
    var whole := before + ['-'] + x;
    assert whole[n] == '-';
    assert whole[|x| + 2..] == word;
    assert forall k | 0 <= k < |word| :: whole[|x| + 2 + k] == word[k];
    assert n <= |x| + 1;
    assert whole[|x| + 1] == '-';
    if n == |x| + 1 {
      assert x == whole[n + 1..] == word;
    } else {
      TailOfWhole(before, x, word);
      var y := x[..|x| - n];
      MoreThanOneWord(before, x, word);
      SuffixForcesRepetition(before, y, word);
    }
  }

  lemma MoreThanOneWord(before: string, x: string, word: string)
    requires word != [] && '-' !in word && |before| == |word| + 1
    requires before + ['-'] + x == ['-'] + x + ['-'] + word
    requires |x| > |word| && x == x[..|x| - |word| - 1] + ['-'] + word
    ensures |x| > |word| + 1
  {
    assert (before + ['-'] + x)[|before|] == '-';
    assert (['-'] + x + ['-'] + word)[|before|] == x[|word|];
    assert x[|x| - 1] == word[|word| - 1];
  }

  lemma TailOfWhole(before: string, x: string, word: string)
    requires |before| == |word| + 1 && |x| > |word|
    requires before + ['-'] + x == ['-'] + x + ['-'] + word
    ensures x == x[..|x| - |word| - 1] + ['-'] + word
    ensures before + ['-'] + x[..|x| - |word| - 1] == ['-'] + x[..|x| - |word| - 1] + ['-'] + word
  {
    var n := |word| + 1;
    var whole := before + ['-'] + x;
    var y := x[..|x| - n];
    assert x == whole[n + 1..];
    assert x[|x| - n..] == whole[|x| + 1..] == ['-'] + word;
    assert x == y + x[|x| - n..];
    assert before + ['-'] + y == whole[..|x| + 1] == ['-'] + x;
  }

  lemma {:induction false} RepetitionIsSuffixOfItself(x: string, word: string)
    requires Repeats(x, word)
    ensures ['-'] + word + ['-'] + x == ['-'] + x + ['-'] + word
    decreases |x|
  {
    if x != word {
      var y := x[..|x| - |word| - 1];
      RepetitionIsSuffixOfItself(y, word);
      Rotate(['-'] + word, ['-'], y, x);
      assert ['-'] + word + ['-'] + x == (['-'] + word) + ['-'] + x;
      assert ['-'] + x + ['-'] + word == ['-'] + x + (['-'] + word);
    }
  }

  lemma Rotate(d: string, h: string, y: string, x: string)
    requires d + h + y == h + y + d
    requires x == y + d
    ensures d + h + x == h + x + d
  {
    assert d + h + x == (d + h + y) + d;
    assert h + x + d == (h + y + d) + d;
  }

  /** A cluster has two tiers whose client and interconnect Services clash exactly when its
      name is "interconnect" repeated with hyphens. */
  lemma ServicesClashIff(id: Identity)
    ensures (exists s, t :: s != [] && t != [] && ServicesClash(id, s, t)) <==> OnlyInterconnect(id.name)
  {
    if s, t :| s != [] && t != [] && ServicesClash(id, s, t) {
      ClashForcesInterconnect(id, s, t);
    }
    if OnlyInterconnect(id.name) {
      var t := "a";
      var s := t + "-interconnect";
      var dash := ['-'] + INTERCONNECT;
      assert dash == "-interconnect";
      RepetitionIsSuffixOfItself(id.name, INTERCONNECT);
      assert TierName(id, s) == t + (dash + ['-'] + id.name);
      assert InterconnectName(id, t) == t + (['-'] + id.name + dash);
      assert ['-'] + id.name + dash == ['-'] + id.name + ['-'] + INTERCONNECT;
      assert ServicesClash(id, s, t);
    }
  }

  lemma ClashForcesInterconnect(id: Identity, s: string, t: string)
    requires ServicesClash(id, s, t)
    ensures OnlyInterconnect(id.name)
  {
    var name := TierName(id, s);
    var n := |INTERCONNECT| + 1;
    assert |s| == |t| + n;
    var before := s[|t|..];
    assert name[|t|..] == before + ['-'] + id.name;
    assert "-interconnect" == ['-'] + INTERCONNECT;
    assert name[|t|..] == ['-'] + id.name + ['-'] + INTERCONNECT;
    assert '-' !in INTERCONNECT;
    SuffixForcesRepetition(before, id.name, INTERCONNECT);
  }
}
