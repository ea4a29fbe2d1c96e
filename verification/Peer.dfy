/** Peer and advertise addresses: what a pod's environment makes of the advertise template, and
    that the peer in every tier's config is the address the first pod advertises. */
module Peer {
  import opened Text
  import opened Types
  import opened Names
  import opened Listeners
  import opened Builders

  // ---------------------------------------------------------------- $(VAR) references

  /** How far it is to the closing parenthesis. */
  function ClosingAt(s: string): (n: Option<nat>)
    ensures n.Some? ==> n.value < |s| && s[n.value] == ')'
  {
    if s == [] then None
    else if s[0] == ')' then Some(0)
    else
      var rest := ClosingAt(s[1..]);
      if rest.None? then None else Some(rest.value + 1)
  }

  /** The expansion Kubernetes applies to env values: $(NAME) if NAME is defined so far, $$ for $,
      anything else as it stands. */
  function Expand(s: string, vars: map<string, string>): string
    decreases |s|
  {
    if s == [] then []
    else if s[0] != '$' then [s[0]] + Expand(s[1..], vars)
    else if |s| == 1 then "$"
    else if s[1] == '$' then ['$'] + Expand(s[2..], vars)
    else if s[1] != '(' then s[..2] + Expand(s[2..], vars)
    else
      var close := ClosingAt(s[2..]);
      if close.None? then s[..2] + Expand(s[2..], vars)
      else
        var name := s[2..][..close.value];
        (if name in vars then vars[name] else "$(" + name + ")") + Expand(s[2..][close.value + 1..], vars)
  }

  lemma {:induction false} ExpandPlainText(a: string, b: string, vars: map<string, string>)
    requires '$' !in a
    ensures Expand(a + b, vars) == a + Expand(b, vars)
  {
    if a == [] {
      assert a + b == b;
    } else {
      assert (a + b)[1..] == a[1..] + b;
      assert a[0] in a;
      assert forall c | c in a[1..] :: c in a;
      ExpandPlainText(a[1..], b, vars);
    }
  }

  lemma {:induction false} ClosingAfter(name: string, b: string)
    requires ')' !in name
    ensures ClosingAt(name + [')'] + b) == Some(|name|)
  {
    var t := name + [')'] + b;
    if name != [] {
      assert name[0] in name && t[0] == name[0] && forall c | c in name[1..] :: c in name;
      assert t[1..] == name[1..] + [')'] + b;
      ClosingAfter(name[1..], b);
    }
  }

  lemma ExpandReference(name: string, b: string, vars: map<string, string>)
    requires name in vars && ')' !in name
    ensures Expand("$(" + name + ")" + b, vars) == vars[name] + Expand(b, vars)
  {
    var s := "$(" + name + ")" + b;
    var t := s[2..];
    assert t == name + [')'] + b;
    ClosingAfter(name, b);
    assert t[..|name|] == name && t[|name| + 1..] == b;
  }

  /** The template with both references filled in. */
  lemma ExpandAdvertise(id: Identity, tier: string, port: int, vars: map<string, string>)
    requires POD_VARIABLE in vars && NAMESPACE_VARIABLE in vars && vars[NAMESPACE_VARIABLE] == id.namespace
    requires '$' !in tier && '$' !in id.name
    ensures Expand(AdvertiseTemplate(id, tier, port), vars) == Address(vars[POD_VARIABLE], id, tier, port)
  {
    var middle := "." + InterconnectName(id, tier) + ".";
    var last := ".svc.cluster.local:" + Decimal(port);
    var tail := "$(" + NAMESPACE_VARIABLE + ")" + last;
    NoDollar(port);
    assert '$' !in last && '$' !in middle;
    ExpandPlainText(last, [], vars);
    assert last + [] == last;
    ExpandReference(NAMESPACE_VARIABLE, last, vars);
    ExpandPlainText(middle, tail, vars);
    ExpandReference(POD_VARIABLE, middle + tail, vars);
    JoinAdvertise(id, tier, port, middle, tail, last, vars[POD_VARIABLE]);
  }

  lemma JoinAdvertise(
      id: Identity, tier: string, port: int, middle: string, tail: string, last: string, pod: string)
    requires middle == "." + InterconnectName(id, tier) + "." && last == ".svc.cluster.local:" + Decimal(port)
    requires tail == "$(" + NAMESPACE_VARIABLE + ")" + last
    ensures AdvertiseTemplate(id, tier, port) == "$(" + POD_VARIABLE + ")" + (middle + tail)
    ensures pod + (middle + (id.namespace + last)) == Address(pod, id, tier, port)
  {
    assert "$(" + POD_VARIABLE + ")" + middle + tail == "$(" + POD_VARIABLE + ")" + (middle + tail);
  }

  lemma NoDollar(port: int)
    ensures '$' !in Decimal(port)
  {
    if port >= 0 {
      DecimalFree(port, '$');
    } else {
      DecimalFree(-port, '$');
    }
  }

  // ---------------------------------------------------------------- environments

  /** What a pod's fields and the referenced secret hold. */
  datatype Pod = Pod(field: string -> string, secret: string -> string)

  function Resolve(source: EnvSource, earlier: map<string, string>, pod: Pod): string {
    match source
    case Literal(text) => Expand(text, earlier)
    case FieldRef(path) => pod.field(path)
    case SecretRef(secret) => pod.secret(secret)
  }

  /** Variables are defined in order, each seeing those before it; a later definition of a name wins. */
  function Environment(env: seq<EnvVar>, pod: Pod): map<string, string> {
    if env == [] then map[]
    else
      var before := Environment(env[..|env| - 1], pod);
      var last := env[|env| - 1];
      before[last.name := Resolve(last.source, before, pod)]
  }

  /** A variable that is not defined again has the value its definition resolved to. */
  lemma {:induction false} LastDefinition(a: seq<EnvVar>, v: EnvVar, b: seq<EnvVar>, pod: Pod)
    requires forall x | x in b :: x.name != v.name
    ensures v.name in Environment(a + [v] + b, pod)
    ensures Environment(a + [v] + b, pod)[v.name] == Resolve(v.source, Environment(a, pod), pod)
  {
    var env := a + [v] + b;
    if b == [] {
      assert env[..|env| - 1] == a && env[|env| - 1] == v;
    } else {
      assert b[|b| - 1] in b && forall x | x in b[..|b| - 1] :: x in b;
      LastDefinition(a, v, b[..|b| - 1], pod);
      assert env[..|env| - 1] == a + [v] + b[..|b| - 1] && env[|env| - 1] == b[|b| - 1];
    }
  }

  lemma LaterNamesDiffer(cl: Cluster, tier: string, index: int)
    ensures forall x | x in GeneratedEnv(cl, tier, index)[5..] :: x.name != ADVERTISE
  {
    var env := GeneratedEnv(cl, tier, index);
    var later := env[5..];
    forall k | 0 <= k < |later|
      ensures later[k].name != ADVERTISE
    {
      assert |later[k].name| < 25 == |ADVERTISE|;
    }
  }

  lemma TwoFields(v0: EnvVar, v1: EnvVar, v2: EnvVar, v3: EnvVar, pod: Pod)
    requires v1.source.FieldRef? && v2.source.FieldRef?
    requires v1.name != v2.name && v1.name != v3.name && v2.name != v3.name
    ensures var vars := Environment([v0, v1, v2, v3], pod);
            && v1.name in vars && vars[v1.name] == pod.field(v1.source.path)
            && v2.name in vars && vars[v2.name] == pod.field(v2.source.path)
  {
    var env := [v0, v1, v2, v3];
    assert env == [v0] + [v1] + [v2, v3];
    LastDefinition([v0], v1, [v2, v3], pod);
    assert env == [v0, v1] + [v2] + [v3];
    LastDefinition([v0, v1], v2, [v3], pod);
  }

  lemma FirstFour(cl: Cluster, tier: string, index: int)
    ensures var env := GeneratedEnv(cl, tier, index);
            && |env| == 14 && env[..4] == [env[0], env[1], env[2], env[3]]
            && env[1] == EnvVar(POD_VARIABLE, FieldRef("metadata.name"))
            && env[2] == EnvVar(NAMESPACE_VARIABLE, FieldRef("metadata.namespace"))
            && |env[1].name| == 13 && |env[2].name| == 18 && |env[3].name| == 22
            && env[4] == EnvVar(ADVERTISE, Literal(AdvertiseTemplate(cl.id, tier, BinaryPort(cl))))
  {
  }

  /** Before the advertise address is resolved, the two variables it refers to are the pod's. */
  lemma FirstVariables(cl: Cluster, tier: string, index: int, pod: Pod)
    ensures var vars := Environment(GeneratedEnv(cl, tier, index)[..4], pod);
            && POD_VARIABLE in vars && vars[POD_VARIABLE] == pod.field("metadata.name")
            && NAMESPACE_VARIABLE in vars && vars[NAMESPACE_VARIABLE] == pod.field("metadata.namespace")
  {
    var env := GeneratedEnv(cl, tier, index);
    FirstFour(cl, tier, index);
    assert |env[1].name| != |env[2].name| && |env[1].name| != |env[3].name| && |env[2].name| != |env[3].name|;
    TwoFields(env[0], env[1], env[2], env[3], pod);
  }

  // ---------------------------------------------------------------- the advertised address

  /** The environment of the pods of a replicaset: what the operator generates, then the user's. */
  function PodEnv(cl: Cluster, at: nat, index: int): seq<EnvVar>
    requires at < |cl.tiers|
  {
    GeneratedEnv(cl, cl.tiers[at].name, index) + cl.tiers[at].env
  }

  /** This is the env of the pod template in the StatefulSet. */
  lemma TemplateEnv(hash: Config -> string, cl: Cluster, at: nat, index: nat)
    requires at < |cl.tiers|
    ensures BuildTemplate(hash, cl, at, index).env == PodEnv(cl, at, index)
  {
  }

  /** StatefulSet pods are named after their set and ordinal. */
  function PodName(id: Identity, tier: string, index: int, ordinal: nat): string {
    SetName(id, tier, index) + "-" + Decimal(ordinal)
  }

  ghost predicate IsPod(pod: Pod, cl: Cluster, at: nat, index: int, ordinal: nat)
    requires at < |cl.tiers|
  {
    && pod.field("metadata.name") == PodName(cl.id, cl.tiers[at].name, index, ordinal)
    && pod.field("metadata.namespace") == cl.id.namespace
  }

  lemma FifthOf(env: seq<EnvVar>, user: seq<EnvVar>, pod: Pod)
    requires |env| > 5
    requires forall x | x in env[5..] :: x.name != env[4].name
    requires forall x | x in user :: x.name != env[4].name
    ensures env[4].name in Environment(env + user, pod)
    ensures Environment(env + user, pod)[env[4].name] == Resolve(env[4].source, Environment(env[..4], pod), pod)
  {
    var rest := env[5..] + user;
    assert env + user == env[..4] + [env[4]] + rest;
    LastDefinition(env[..4], env[4], rest, pod);
  }

  /** Unless the user's env defines it again, a pod advertises its own name under its tier's
      interconnect Service; redefining any other generated variable does not change that. */
  lemma Advertised(cl: Cluster, at: nat, index: int, ordinal: nat, pod: Pod)
    requires at < |cl.tiers| && IsPod(pod, cl, at, index, ordinal)
    requires '$' !in cl.tiers[at].name && '$' !in cl.id.name
    requires forall v | v in cl.tiers[at].env :: v.name != ADVERTISE
    ensures var vars, t := Environment(PodEnv(cl, at, index), pod), cl.tiers[at].name;
            && ADVERTISE in vars
            && vars[ADVERTISE] == Address(PodName(cl.id, t, index, ordinal), cl.id, t, BinaryPort(cl))
  {
    var t := cl.tiers[at];
    FirstFour(cl, t.name, index);
    LaterNamesDiffer(cl, t.name, index);
    FifthOf(GeneratedEnv(cl, t.name, index), t.env, pod);
    FirstVariables(cl, t.name, index, pod);
    ExpandAdvertise(cl.id, t.name, BinaryPort(cl), Environment(GeneratedEnv(cl, t.name, index)[..4], pod));
  }

  /** The environment a pod gets from the template of its StatefulSet. */
  function TemplateVars(hash: Config -> string, cl: Cluster, at: nat, index: nat, pod: Pod): map<string, string>
    requires at < |cl.tiers|
  {
    Environment(BuildTemplate(hash, cl, at, index).env, pod)
  }

  /** The peer in every tier's config is what ordinal 0 of replicaset 1 of the first tier advertises. */
  lemma PeerIsAdvertised(hash: Config -> string, cl: Cluster, at: nat, pod: Pod)
    requires at < |cl.tiers| && IsPod(pod, cl, 0, 1, 0)
    requires '$' !in cl.tiers[0].name && '$' !in cl.id.name
    requires forall v | v in cl.tiers[0].env :: v.name != ADVERTISE
    ensures ADVERTISE in TemplateVars(hash, cl, 0, 1, pod)
    ensures BuildConfig(cl, at).peer == TemplateVars(hash, cl, 0, 1, pod)[ADVERTISE]
  {
    TemplateEnv(hash, cl, 0, 1);
    Advertised(cl, 0, 1, 0, pod);
    PeerText(cl.id, cl.tiers[0].name, Decimal(BinaryPort(cl)));
  }

  lemma PeerText(id: Identity, t: string, port: string)
    ensures t + "-" + id.name + "-1-0." + t + "-" + id.name + "-interconnect." + id.namespace
            + ".svc.cluster.local:" + port
         == PodName(id, t, 1, 0) + "." + InterconnectName(id, t) + "." + id.namespace + ".svc.cluster.local:" + port
  {
    assert Decimal(1) == "1" && Decimal(0) == "0";
    assert PodName(id, t, 1, 0) + "." == t + "-" + id.name + "-1-0.";
    assert InterconnectName(id, t) + "." == t + "-" + id.name + "-interconnect.";
  }

  // ---------------------------------------------------------------- no two pods share an address

  /** "<index>-<ordinal>" */
  function Place(index: nat, ordinal: nat): string {
    Decimal(index) + ['-'] + Decimal(ordinal)
  }

  lemma PlaceFacts(i: nat, a: nat, j: nat, b: nat)
    ensures '.' !in Place(i, a)
    ensures Place(i, a) == Place(j, b) ==> i == j && a == b
  {
    DecimalFree(i, '.');
    DecimalFree(a, '.');
    DecimalFree(a, '-');
    DecimalFree(b, '-');
    if Place(i, a) == Place(j, b) {
      SplitLast(Decimal(i), Decimal(a), Decimal(j), Decimal(b), '-');
      DecimalInjective(i, j);
      DecimalInjective(a, b);
    }
  }

  /** A tier name, a fixed middle, the pod's place, a dot and the tier name again determine tier and
      place, whatever characters the names contain. */
  lemma TwiceNamed(s: string, p: string, t: string, q: string, c: string)
    requires '.' !in p && '.' !in q
    requires s + c + p + ['.'] + s == t + c + q + ['.'] + t
    ensures s == t && p == q
  {
    if |s| < |t| {
      LongerCannotMatch(s, p, t, q, c);
    } else if |t| < |s| {
      LongerCannotMatch(t, q, s, p, c);
    } else {
      var whole := s + c + p + ['.'] + s;
      assert s == whole[..|s|] == t;
      assert p == whole[|s| + |c|..|whole| - |s| - 1] == q;
    }
  }

  lemma LongerCannotMatch(s: string, p: string, t: string, q: string, c: string)
    requires |s| < |t|
    requires s + c + p + ['.'] + s == t + c + q + ['.'] + t
    ensures '.' in p
  {
    var whole := s + c + p + ['.'] + s;
    var d := |t| - |s|;
    assert |p| == |q| + 2 * d;
    assert whole[|whole| - |t| - 1] == '.';
    assert whole[|whole| - |t| - 1] == p[|p| - d];
  }

  lemma PodNameParts(id: Identity, s: string, i: nat, a: nat)
    ensures PodName(id, s, i, a) == s + ("-" + id.name + "-") + Place(i, a)
  {
  }

  lemma RegroupName(x: string, s: string, e: string, r: string)
    ensures x + "." + (s + e) + r == (x + ['.'] + s) + (e + r)
  {
  }

  lemma AddressParts(pod: string, id: Identity, s: string, port: int)
    ensures Address(pod, id, s, port) == (pod + ['.'] + s) + AddressEnd(id, port)
  {
    var e, r := "-" + id.name + "-interconnect", "." + id.namespace + ".svc.cluster.local:" + Decimal(port);
    assert InterconnectName(id, s) == s + e;
    RegroupName(pod, s, e, r);
  }

  function AddressEnd(id: Identity, port: int): string {
    ("-" + id.name + "-interconnect") + ("." + id.namespace + ".svc.cluster.local:" + Decimal(port))
  }

  /** The advertise addresses of a cluster's pods are pairwise distinct. */
  lemma AddressesDistinct(id: Identity, s: string, i: nat, a: nat, t: string, j: nat, b: nat, port: int)
    requires Address(PodName(id, s, i, a), id, s, port) == Address(PodName(id, t, j, b), id, t, port)
    ensures s == t && i == j && a == b
  {
    var c, end := "-" + id.name + "-", AddressEnd(id, port);
    var x := s + c + Place(i, a) + ['.'] + s;
    var y := t + c + Place(j, b) + ['.'] + t;
    AddressParts(PodName(id, s, i, a), id, s, port);
    AddressParts(PodName(id, t, j, b), id, t, port);
    PodNameParts(id, s, i, a);
    PodNameParts(id, t, j, b);
    SameBeforeEnd(x, y, end);
    PlaceFacts(i, a, j, b);
    PlaceFacts(j, b, i, a);
    TwiceNamed(s, Place(i, a), t, Place(j, b), c);
  }

  lemma SameBeforeEnd(x: string, y: string, end: string)
    requires x + end == y + end
    ensures x == y
  {
    assert |x| == |y|;
    assert x == (x + end)[..|x|] && y == (y + end)[..|y|];
  }

  /** Two pods of a cluster whose env does not redefine the address never advertise the same one. */
  lemma NoSharedAdvertise(
      hash: Config -> string, cl: Cluster, at: nat, i: nat, a: nat, pod: Pod, other: nat, j: nat, b: nat, second: Pod)
    requires at < |cl.tiers| && other < |cl.tiers|
    requires IsPod(pod, cl, at, i, a) && IsPod(second, cl, other, j, b)
    requires forall k | 0 <= k < |cl.tiers| ::
               '$' !in cl.tiers[k].name && forall v | v in cl.tiers[k].env :: v.name != ADVERTISE
    requires '$' !in cl.id.name
    requires cl.tiers[at].name != cl.tiers[other].name || i != j || a != b
    ensures ADVERTISE in TemplateVars(hash, cl, at, i, pod) && ADVERTISE in TemplateVars(hash, cl, other, j, second)
    ensures TemplateVars(hash, cl, at, i, pod)[ADVERTISE] != TemplateVars(hash, cl, other, j, second)[ADVERTISE]
  {
    TemplateEnv(hash, cl, at, i);
    TemplateEnv(hash, cl, other, j);
    var s, t := cl.tiers[at].name, cl.tiers[other].name;
    Advertised(cl, at, i, a, pod);
    Advertised(cl, other, j, b, second);
    var port := BinaryPort(cl);
    if Address(PodName(cl.id, s, i, a), cl.id, s, port) == Address(PodName(cl.id, t, j, b), cl.id, t, port) {
      AddressesDistinct(cl.id, s, i, a, t, j, b, port);
    }
  }
}
