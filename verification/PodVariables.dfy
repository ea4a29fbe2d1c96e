/** All the variables that the operator generates, as a pod sees them: where it listens, what it advertises,
    which replicaset it belongs to. */
module PodVariables {
  import opened Text
  import opened Types
  import opened Listeners
  import opened Builders
  import opened Peer

  // ---------------------------------------------------------------- one definition each

  lemma DefinedOnce(env: seq<EnvVar>, j: nat, pod: Pod)
    requires j < |env| && forall k | j < k < |env| :: env[k].name != env[j].name
    ensures env[j].name in Environment(env, pod)
    ensures Environment(env, pod)[env[j].name] == Resolve(env[j].source, Environment(env[..j], pod), pod)
  {
    assert env == env[..j] + [env[j]] + env[j + 1..];
    LastDefinition(env[..j], env[j], env[j + 1..], pod);
  }

  /** Length and tenth character tell the generated names apart. */
  predicate HasShape(s: string, length: nat, tenth: char) {
    |s| == length && length >= 10 && s[9] == tenth
  }

  lemma FieldShapes(cl: Cluster, tier: string, index: int)
    ensures var env := GeneratedEnv(cl, tier, index);
            && |env| == 14
            && |env[0].name| == 6 && HasShape(env[1].name, 13, 'N') && HasShape(env[2].name, 18, 'N')
  {
  }

  lemma IprotoShapes(cl: Cluster, tier: string, index: int)
    ensures var env := GeneratedEnv(cl, tier, index);
            && |env| == 14
            && HasShape(env[3].name, 22, 'I') && HasShape(env[4].name, 25, 'I')
  {
  }

  lemma HttpShapes(cl: Cluster, tier: string, index: int)
    ensures var env := GeneratedEnv(cl, tier, index);
            && |env| == 14
            && HasShape(env[5].name, 20, 'H') && HasShape(env[6].name, 23, 'H')
  {
  }

  lemma PgShapes(cl: Cluster, tier: string, index: int)
    ensures var env := GeneratedEnv(cl, tier, index);
            && |env| == 14
            && HasShape(env[7].name, 18, 'P') && HasShape(env[8].name, 21, 'P')
  {
  }

  lemma PlaceShapes(cl: Cluster, tier: string, index: int)
    ensures var env := GeneratedEnv(cl, tier, index);
            && |env| == 14
            && HasShape(env[9].name, 24, 'R') && HasShape(env[10].name, 23, 'F')
  {
  }

  lemma FileShapes(cl: Cluster, tier: string, index: int)
    ensures var env := GeneratedEnv(cl, tier, index);
            && |env| == 14
            && HasShape(env[11].name, 20, 'C') && HasShape(env[12].name, 19, 'A') && HasShape(env[13].name, 23, 'A')
  {
  }

  lemma ShapesDistinct(env: seq<EnvVar>)
    requires |env| == 14 && |env[0].name| == 6 && HasShape(env[1].name, 13, 'N') && HasShape(env[2].name, 18, 'N')
    requires HasShape(env[3].name, 22, 'I') && HasShape(env[4].name, 25, 'I')
    requires HasShape(env[5].name, 20, 'H') && HasShape(env[6].name, 23, 'H')
    requires HasShape(env[7].name, 18, 'P') && HasShape(env[8].name, 21, 'P')
    requires HasShape(env[9].name, 24, 'R') && HasShape(env[10].name, 23, 'F')
    requires HasShape(env[11].name, 20, 'C') && HasShape(env[12].name, 19, 'A') && HasShape(env[13].name, 23, 'A')
    ensures forall i, j | 0 <= i < j < 14 :: env[i].name != env[j].name
  {
  }

  lemma GeneratedDistinct(cl: Cluster, tier: string, index: int)
    ensures var env := GeneratedEnv(cl, tier, index);
            |env| == 14 && forall i, j | 0 <= i < j < 14 :: env[i].name != env[j].name
  {
    FieldShapes(cl, tier, index);
    IprotoShapes(cl, tier, index);
    HttpShapes(cl, tier, index);
    PgShapes(cl, tier, index);
    PlaceShapes(cl, tier, index);
    FileShapes(cl, tier, index);
    ShapesDistinct(GeneratedEnv(cl, tier, index));
  }

  /** The user's env does not define this variable. */
  predicate NotRedefined(t: Tier, name: string) {
    forall v | v in t.env :: v.name != name
  }

  /** A generated variable that the user's env does not define again has its generated value. */
  lemma GeneratedResolves(cl: Cluster, at: nat, index: int, j: nat, pod: Pod)
    requires at < |cl.tiers| && j < 14
    requires |GeneratedEnv(cl, cl.tiers[at].name, index)| == 14
    requires NotRedefined(cl.tiers[at], GeneratedEnv(cl, cl.tiers[at].name, index)[j].name)
    ensures var v := GeneratedEnv(cl, cl.tiers[at].name, index)[j];
            var vars := Environment(PodEnv(cl, at, index), pod);
            && v.name in vars
            && vars[v.name] == Resolve(v.source, Environment(GeneratedEnv(cl, cl.tiers[at].name, index)[..j], pod), pod)
  {
    var env, user := GeneratedEnv(cl, cl.tiers[at].name, index), cl.tiers[at].env;
    GeneratedDistinct(cl, cl.tiers[at].name, index);
    LastOfBoth(env, user, j, pod);
  }

  lemma LastOfBoth(env: seq<EnvVar>, user: seq<EnvVar>, j: nat, pod: Pod)
    requires j < |env| && (forall k | j < k < |env| :: env[k].name != env[j].name)
    requires forall v | v in user :: v.name != env[j].name
    ensures env[j].name in Environment(env + user, pod)
    ensures Environment(env + user, pod)[env[j].name] == Resolve(env[j].source, Environment(env[..j], pod), pod)
  {
    var all := env + user;
    forall k | j < k < |all|
      ensures all[k].name != all[j].name
    {
      if k >= |env| {
        assert all[k] == user[k - |env|] && user[k - |env|] in user;
      }
    }
    DefinedOnce(all, j, pod);
    assert all[..j] == env[..j];
  }

  /** Every later variable can refer to the pod's name and namespace. */
  lemma PodIsKnown(cl: Cluster, tier: string, index: int, j: nat, pod: Pod)
    requires 3 <= j <= 14 && |GeneratedEnv(cl, tier, index)| == 14
    ensures var vars := Environment(GeneratedEnv(cl, tier, index)[..j], pod);
            && POD_VARIABLE in vars && vars[POD_VARIABLE] == pod.field("metadata.name")
            && NAMESPACE_VARIABLE in vars && vars[NAMESPACE_VARIABLE] == pod.field("metadata.namespace")
  {
    var env := GeneratedEnv(cl, tier, index);
    GeneratedDistinct(cl, tier, index);
    FirstFour(cl, tier, index);
    DefinedOnce(env[..j], 1, pod);
    DefinedOnce(env[..j], 2, pod);
  }

  // ---------------------------------------------------------------- their values

  const HTTP_LISTEN := "PICODATA_HTTP_LISTEN"
  const HTTP_ADVERTISE := "PICODATA_HTTP_ADVERTISE"
  const PG_LISTEN := "PICODATA_PG_LISTEN"
  const PG_ADVERTISE := "PICODATA_PG_ADVERTISE"
  const IPROTO_LISTEN := "PICODATA_IPROTO_LISTEN"
  const REPLICASET := "PICODATA_REPLICASET_NAME"
  const FAILURE_DOMAIN := "PICODATA_FAILURE_DOMAIN"

  lemma PortNames(hash: Config -> string, cl: Cluster, at: nat, index: nat)
    requires at < |cl.tiers|
    ensures var ports := BuildTemplate(hash, cl, at, index).ports;
            && |ports| >= 3 && ports[0] == Port("binary", BinaryPort(cl)) && ports[1] == Port("http", HttpPort(cl))
            && ports[2] == Port("pg", PgPort(cl))
  {
  }

  lemma ListenDefinition(cl: Cluster, tier: string, index: int)
    ensures var env := GeneratedEnv(cl, tier, index);
            |env| == 14
            && env[3] == EnvVar(IPROTO_LISTEN, Literal("$(" + POD_VARIABLE + ")" + (":" + Decimal(BinaryPort(cl)))))
  {
    assert "$(INSTANCE_NAME):" == ("$(" + POD_VARIABLE + ")") + ":";
    Regroup("$(" + POD_VARIABLE + ")", ":", Decimal(BinaryPort(cl)));
  }

  lemma FirstDefinitions(cl: Cluster, tier: string, index: int)
    ensures var env := GeneratedEnv(cl, tier, index);
            && |env| == 14
            && env[4] == EnvVar(ADVERTISE, Literal(AdvertiseTemplate(cl.id, tier, BinaryPort(cl))))
            && env[5] == EnvVar(HTTP_LISTEN, Literal("0.0.0.0:" + Decimal(HttpPort(cl))))
            && env[6] == EnvVar(HTTP_ADVERTISE, Literal(AdvertiseTemplate(cl.id, tier, HttpPort(cl))))
  {
  }

  lemma LaterDefinitions(cl: Cluster, tier: string, index: int)
    ensures var env := GeneratedEnv(cl, tier, index);
            && |env| == 14
            && env[7] == EnvVar(PG_LISTEN, Literal("0.0.0.0:" + Decimal(PgPort(cl))))
            && env[8] == EnvVar(PG_ADVERTISE, Literal(AdvertiseTemplate(cl.id, tier, PgPort(cl))))
            && env[9] == EnvVar(REPLICASET, Literal(tier + "_" + Decimal(index)))
  {
  }

  lemma DomainText()
    ensures "HOST=$(INSTANCE_NAME)" == "HOST=" + ("$(" + POD_VARIABLE + ")" + "")
  {
  }

  lemma DomainDefinition(cl: Cluster, tier: string, index: int)
    ensures |GeneratedEnv(cl, tier, index)| == 14
    ensures GeneratedEnv(cl, tier, index)[10] == EnvVar(FAILURE_DOMAIN, Literal("HOST=$(INSTANCE_NAME)"))
  {
  }

  lemma ExpandPlain(text: string, vars: map<string, string>)
    requires '$' !in text
    ensures Expand(text, vars) == text
  {
    ExpandPlainText(text, "", vars);
    assert text + "" == text;
  }

  lemma ListenExpands(port: int, vars: map<string, string>)
    requires POD_VARIABLE in vars
    ensures Expand("$(" + POD_VARIABLE + ")" + (":" + Decimal(port)), vars)
         == vars[POD_VARIABLE] + (":" + Decimal(port))
    ensures Expand("0.0.0.0:" + Decimal(port), vars) == "0.0.0.0:" + Decimal(port)
    ensures Expand("HOST=" + ("$(" + POD_VARIABLE + ")" + ""), vars) == "HOST=" + vars[POD_VARIABLE]
  {
    NoDollar(port);
    assert '$' !in ":" && '$' !in "0.0.0.0:" && '$' !in "HOST=" && ')' !in POD_VARIABLE;
    ExpandReference(POD_VARIABLE, ":" + Decimal(port), vars);
    ExpandPlain(":" + Decimal(port), vars);
    ExpandPlain("0.0.0.0:" + Decimal(port), vars);
    ExpandReference(POD_VARIABLE, "", vars);
    ExpandPlainText("HOST=", "$(" + POD_VARIABLE + ")" + "", vars);
    assert vars[POD_VARIABLE] + "" == vars[POD_VARIABLE];
  }

  // ---------------------------------------------------------------- what a pod sees

  /** The variable is defined, with this value. */
  predicate Sees(vars: map<string, string>, name: string, value: string) {
    name in vars && vars[name] == value
  }

  predicate NoDollars(cl: Cluster, at: nat)
    requires at < |cl.tiers|
  {
    '$' !in cl.tiers[at].name && '$' !in cl.id.name
  }

  lemma ListensAt(cl: Cluster, at: nat, index: int, ordinal: nat, pod: Pod)
    requires at < |cl.tiers| && IsPod(pod, cl, at, index, ordinal)
    ensures var vars, t := Environment(PodEnv(cl, at, index), pod), cl.tiers[at];
            && (NotRedefined(t, IPROTO_LISTEN) ==>
                  Sees(vars, IPROTO_LISTEN, PodName(cl.id, t.name, index, ordinal) + (":" + Decimal(BinaryPort(cl)))))
            && (NotRedefined(t, HTTP_LISTEN) ==> Sees(vars, HTTP_LISTEN, "0.0.0.0:" + Decimal(HttpPort(cl))))
            && (NotRedefined(t, PG_LISTEN) ==> Sees(vars, PG_LISTEN, "0.0.0.0:" + Decimal(PgPort(cl))))
  {
    var t := cl.tiers[at].name;
    ListenDefinition(cl, t, index);
    FirstDefinitions(cl, t, index);
    LaterDefinitions(cl, t, index);
    if NotRedefined(cl.tiers[at], IPROTO_LISTEN) {
      GeneratedResolves(cl, at, index, 3, pod);
      PodIsKnown(cl, t, index, 3, pod);
      ListenExpands(BinaryPort(cl), Environment(GeneratedEnv(cl, t, index)[..3], pod));
    }
    if NotRedefined(cl.tiers[at], HTTP_LISTEN) {
      GeneratedResolves(cl, at, index, 5, pod);
      PodIsKnown(cl, t, index, 5, pod);
      ListenExpands(HttpPort(cl), Environment(GeneratedEnv(cl, t, index)[..5], pod));
    }
    if NotRedefined(cl.tiers[at], PG_LISTEN) {
      GeneratedResolves(cl, at, index, 7, pod);
      PodIsKnown(cl, t, index, 7, pod);
      ListenExpands(PgPort(cl), Environment(GeneratedEnv(cl, t, index)[..7], pod));
    }
  }

  lemma AdvertisesAt(cl: Cluster, at: nat, index: int, ordinal: nat, pod: Pod)
    requires at < |cl.tiers| && IsPod(pod, cl, at, index, ordinal) && NoDollars(cl, at)
    ensures var vars, t := Environment(PodEnv(cl, at, index), pod), cl.tiers[at];
            var name := PodName(cl.id, t.name, index, ordinal);
            && (NotRedefined(t, HTTP_ADVERTISE) ==>
                  Sees(vars, HTTP_ADVERTISE, Address(name, cl.id, t.name, HttpPort(cl))))
            && (NotRedefined(t, PG_ADVERTISE) ==> Sees(vars, PG_ADVERTISE, Address(name, cl.id, t.name, PgPort(cl))))
  {
    var t := cl.tiers[at].name;
    FirstDefinitions(cl, t, index);
    LaterDefinitions(cl, t, index);
    if NotRedefined(cl.tiers[at], HTTP_ADVERTISE) {
      GeneratedResolves(cl, at, index, 6, pod);
      PodIsKnown(cl, t, index, 6, pod);
      ExpandAdvertise(cl.id, t, HttpPort(cl), Environment(GeneratedEnv(cl, t, index)[..6], pod));
    }
    if NotRedefined(cl.tiers[at], PG_ADVERTISE) {
      GeneratedResolves(cl, at, index, 8, pod);
      PodIsKnown(cl, t, index, 8, pod);
      ExpandAdvertise(cl.id, t, PgPort(cl), Environment(GeneratedEnv(cl, t, index)[..8], pod));
    }
  }

  lemma BelongsTo(cl: Cluster, at: nat, index: int, ordinal: nat, pod: Pod)
    requires at < |cl.tiers| && IsPod(pod, cl, at, index, ordinal) && NoDollars(cl, at)
    ensures var vars, t := Environment(PodEnv(cl, at, index), pod), cl.tiers[at];
            && (NotRedefined(t, REPLICASET) ==> Sees(vars, REPLICASET, t.name + "_" + Decimal(index)))
            && (NotRedefined(t, FAILURE_DOMAIN) ==>
                  Sees(vars, FAILURE_DOMAIN, "HOST=" + PodName(cl.id, t.name, index, ordinal)))
  {
    var t := cl.tiers[at].name;
    LaterDefinitions(cl, t, index);
    DomainDefinition(cl, t, index);
    DomainText();
    if NotRedefined(cl.tiers[at], REPLICASET) {
      GeneratedResolves(cl, at, index, 9, pod);
      NoDollar(index);
      ExpandPlain(t + "_" + Decimal(index), Environment(GeneratedEnv(cl, t, index)[..9], pod));
    }
    if NotRedefined(cl.tiers[at], FAILURE_DOMAIN) {
      GeneratedResolves(cl, at, index, 10, pod);
      PodIsKnown(cl, t, index, 10, pod);
      ListenExpands(0, Environment(GeneratedEnv(cl, t, index)[..10], pod));
    }
  }

  const POD_IP := "POD_IP"
  const CONFIG_FILE := "PICODATA_CONFIG_FILE"
  const ADMIN_SOCKET := "PICODATA_ADMIN_SOCK"
  const ADMIN_PASSWORD := "PICODATA_ADMIN_PASSWORD"

  lemma PlaceDefinitions(cl: Cluster, tier: string, index: int)
    ensures var env := GeneratedEnv(cl, tier, index);
            && |env| == 14 && env[0] == EnvVar(POD_IP, FieldRef("status.podIP"))
            && env[11] == EnvVar(CONFIG_FILE, Literal("/pico/config.yaml"))
            && env[12] == EnvVar(ADMIN_SOCKET, Literal("/pico/admin.sock"))
            && env[13] == EnvVar(ADMIN_PASSWORD, SecretRef("adminPassword"))
  {
  }

  lemma PathsExpand(vars: map<string, string>)
    ensures Expand("/pico/config.yaml", vars) == "/pico/config.yaml"
    ensures Expand("/pico/admin.sock", vars) == "/pico/admin.sock"
  {
    ExpandPlain("/pico/config.yaml", vars);
    ExpandPlain("/pico/admin.sock", vars);
  }

  lemma PathsSeen(cl: Cluster, at: nat, index: int, pod: Pod)
    requires at < |cl.tiers|
    ensures var vars, t := Environment(PodEnv(cl, at, index), pod), cl.tiers[at];
            && (NotRedefined(t, CONFIG_FILE) ==> Sees(vars, CONFIG_FILE, "/pico/config.yaml"))
            && (NotRedefined(t, ADMIN_SOCKET) ==> Sees(vars, ADMIN_SOCKET, "/pico/admin.sock"))
  {
    var t, env := cl.tiers[at], GeneratedEnv(cl, cl.tiers[at].name, index);
    PlaceDefinitions(cl, t.name, index);
    PathsExpand(Environment(env[..11], pod));
    PathsExpand(Environment(env[..12], pod));
    if NotRedefined(t, CONFIG_FILE) {
      GeneratedResolves(cl, at, index, 11, pod);
    }
    if NotRedefined(t, ADMIN_SOCKET) {
      GeneratedResolves(cl, at, index, 12, pod);
    }
  }

  lemma SourcesSeen(cl: Cluster, at: nat, index: int, pod: Pod)
    requires at < |cl.tiers|
    ensures var vars, t := Environment(PodEnv(cl, at, index), pod), cl.tiers[at];
            && (NotRedefined(t, POD_IP) ==> Sees(vars, POD_IP, pod.field("status.podIP")))
            && (NotRedefined(t, ADMIN_PASSWORD) ==> Sees(vars, ADMIN_PASSWORD, pod.secret("adminPassword")))
  {
    PlaceDefinitions(cl, cl.tiers[at].name, index);
    if NotRedefined(cl.tiers[at], POD_IP) {
      GeneratedResolves(cl, at, index, 0, pod);
    }
    if NotRedefined(cl.tiers[at], ADMIN_PASSWORD) {
      GeneratedResolves(cl, at, index, 13, pod);
    }
  }

  /** Where a pod finds its config, its socket, its address and the admin password. */
  lemma PlacesSeen(hash: Config -> string, cl: Cluster, at: nat, index: nat, pod: Pod)
    requires at < |cl.tiers|
    ensures var vars, t := TemplateVars(hash, cl, at, index, pod), cl.tiers[at];
            && (NotRedefined(t, POD_IP) ==> Sees(vars, POD_IP, pod.field("status.podIP")))
            && (NotRedefined(t, CONFIG_FILE) ==> Sees(vars, CONFIG_FILE, "/pico/config.yaml"))
            && (NotRedefined(t, ADMIN_SOCKET) ==> Sees(vars, ADMIN_SOCKET, "/pico/admin.sock"))
            && (NotRedefined(t, ADMIN_PASSWORD) ==> Sees(vars, ADMIN_PASSWORD, pod.secret("adminPassword")))
  {
    TemplateEnv(hash, cl, at, index);
    PathsSeen(cl, at, index, pod);
    SourcesSeen(cl, at, index, pod);
  }

  /** Whatever the user's env defines last, a pod sees. */
  lemma UserEnvWins(hash: Config -> string, cl: Cluster, at: nat, index: nat, j: nat, pod: Pod)
    requires at < |cl.tiers| && j < |cl.tiers[at].env|
    requires forall k | j < k < |cl.tiers[at].env| :: cl.tiers[at].env[k].name != cl.tiers[at].env[j].name
    ensures var v, vars := cl.tiers[at].env[j], TemplateVars(hash, cl, at, index, pod);
            && v.name in vars
            && vars[v.name] == Resolve(v.source, Environment(PodEnv(cl, at, index)[..14 + j], pod), pod)
  {
    var generated, user := GeneratedEnv(cl, cl.tiers[at].name, index), cl.tiers[at].env;
    var env := PodEnv(cl, at, index);
    TemplateEnv(hash, cl, at, index);
    GeneratedDistinct(cl, cl.tiers[at].name, index);
    assert forall k | 14 <= k < |env| :: env[k] == user[k - 14];
    DefinedOnce(env, 14 + j, pod);
  }

  /** Three protocols: for each, the port a pod listens on and the port it advertises under its own address
      is the container's port of that name, and so the one its tier's Services forward to. */
  lemma PodsListenWhereTheyAdvertise(hash: Config -> string, cl: Cluster, at: nat, index: nat, ordinal: nat, pod: Pod)
    requires at < |cl.tiers| && IsPod(pod, cl, at, index, ordinal) && NoDollars(cl, at)
    requires forall v | v in cl.tiers[at].env ::
               v.name !in {IPROTO_LISTEN, ADVERTISE, HTTP_LISTEN, HTTP_ADVERTISE, PG_LISTEN, PG_ADVERTISE}
    ensures var vars, ports := TemplateVars(hash, cl, at, index, pod), BuildTemplate(hash, cl, at, index).ports;
            var t := cl.tiers[at].name;
            var name := PodName(cl.id, t, index, ordinal);
            && |ports| >= 3 && ports[0].name == "binary" && ports[1].name == "http" && ports[2].name == "pg"
            && Sees(vars, IPROTO_LISTEN, name + (":" + Decimal(ports[0].number)))
            && Sees(vars, ADVERTISE, Address(name, cl.id, t, ports[0].number))
            && Sees(vars, HTTP_LISTEN, "0.0.0.0:" + Decimal(ports[1].number))
            && Sees(vars, HTTP_ADVERTISE, Address(name, cl.id, t, ports[1].number))
            && Sees(vars, PG_LISTEN, "0.0.0.0:" + Decimal(ports[2].number))
            && Sees(vars, PG_ADVERTISE, Address(name, cl.id, t, ports[2].number))
  {
    TemplateEnv(hash, cl, at, index);
    PortNames(hash, cl, at, index);
    ListensAt(cl, at, index, ordinal, pod);
    AdvertisesAt(cl, at, index, ordinal, pod);
    Peer.Advertised(cl, at, index, ordinal, pod);
  }

  /** A pod's replicaset name is that of its tier and the index in its labels. */
  lemma ReplicasetNamed(hash: Config -> string, cl: Cluster, at: nat, index: nat, ordinal: nat, pod: Pod)
    requires at < |cl.tiers| && IsPod(pod, cl, at, index, ordinal) && NoDollars(cl, at)
    requires NotRedefined(cl.tiers[at], REPLICASET)
    ensures var template := BuildTemplate(hash, cl, at, index);
            && "picodata.io/replicaset" in template.labels
            && Sees(TemplateVars(hash, cl, at, index, pod), REPLICASET,
                    cl.tiers[at].name + "_" + template.labels["picodata.io/replicaset"])
  {
    TemplateEnv(hash, cl, at, index);
    BelongsTo(cl, at, index, ordinal, pod);
  }
}
