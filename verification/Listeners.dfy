/** Plugin listeners: the four places that enumerate them, the placeholder section of
    config.yaml and the sed script that fills it in on each pod. */
module Listeners {
  import opened Text
  import opened Types
  import opened Names

  datatype Listener = Listener(plugin: string, service: string, port: Int32)

  // ---------------------------------------------------------------- enumerations

  function ServiceListeners(plugin: string, services: seq<PluginService>): seq<Listener> {
    if services == [] then []
    else
      var last := services[|services| - 1];
      ServiceListeners(plugin, services[..|services| - 1]) + [Listener(plugin, last.name, last.listenerPort)]
  }

  /** Every declared (plugin, service, port), in spec order. */
  function PluginListeners(plugins: seq<Plugin>): seq<Listener> {
    if plugins == [] then []
    else
      var last := plugins[|plugins| - 1];
      PluginListeners(plugins[..|plugins| - 1]) + ServiceListeners(last.name, last.services)
  }

  /** Those with a usable port. */
  function Exposed(ls: seq<Listener>): seq<Listener> {
    if ls == [] then []
    else
      var last := ls[|ls| - 1];
      Exposed(ls[..|ls| - 1]) + (if last.port > 0 then [last] else [])
  }

  lemma {:induction false} ExposedMember(ls: seq<Listener>)
    ensures forall l :: l in Exposed(ls) <==> l in ls && l.port > 0
  {
    if ls != [] {
      var last := ls[|ls| - 1];
      ExposedMember(ls[..|ls| - 1]);
      assert ls == ls[..|ls| - 1] + [last];
    }
  }

  lemma ExposedOneMore(ls: seq<Listener>, l: Listener)
    ensures Exposed(ls + [l]) == if l.port > 0 then Exposed(ls) + [l] else Exposed(ls)
  {
    assert (ls + [l])[..|ls|] == ls;
  }

  /** A function that goes through a list from its end distributes over lists. */
  lemma {:induction false} Distributes<X, T>(a: seq<X>, b: seq<X>, f: seq<X> -> seq<T>, g: X -> seq<T>)
    requires f([]) == []
    requires forall xs: seq<X>, x: X :: f(xs + [x]) == f(xs) + g(x)
    ensures f(a + b) == f(a) + f(b)
  {
    if b == [] {
      assert a + b == a && f(a) + f(b) == f(a);
    } else {
      var init, last := b[..|b| - 1], b[|b| - 1];
      Distributes(a, init, f, g);
      assert b == init + [last] && a + b == (a + init) + [last];
      assert f((a + init) + [last]) == f(a + init) + g(last);
      assert f(init + [last]) == f(init) + g(last);
      assert f(a) + (f(init) + g(last)) == (f(a) + f(init)) + g(last);
    }
  }

  lemma ExposedAppend(a: seq<Listener>, b: seq<Listener>)
    ensures Exposed(a + b) == Exposed(a) + Exposed(b)
  {
    var usable := (l: Listener) => if l.port > 0 then [l] else [];
    forall ls: seq<Listener>, l: Listener
      ensures Exposed(ls + [l]) == Exposed(ls) + usable(l)
    {
      ExposedOneMore(ls, l);
      assert Exposed(ls) + [] == Exposed(ls);
    }
    Distributes(a, b, Exposed, usable);
  }

  lemma SameWithLast<T>(a: seq<T>, b: seq<T>, x: T)
    ensures a + [x] == b + [x] <==> a == b
  {
    assert a == (a + [x])[..|a + [x]| - 1] && b == (b + [x])[..|b + [x]| - 1];
  }

  predicate AllUsable(ls: seq<Listener>) {
    forall l | l in ls :: l.port > 0
  }

  lemma AllUsableOneMore(ls: seq<Listener>, l: Listener)
    ensures AllUsable(ls + [l]) <==> AllUsable(ls) && l.port > 0
  {
    assert l in ls + [l] && forall m | m in ls :: m in ls + [l];
  }

  lemma {:induction false} ExposedAll(ls: seq<Listener>)
    ensures Exposed(ls) == ls <==> AllUsable(ls)
    ensures |Exposed(ls)| <= |ls|
  {
    if ls != [] {
      var init, last := ls[..|ls| - 1], ls[|ls| - 1];
      assert ls == init + [last];
      ExposedAll(init);
      ExposedOneMore(init, last);
      AllUsableOneMore(init, last);
      SameWithLast(Exposed(init), init, last);
    }
  }

  // ---------------------------------------------------------------- ports

  /** One port per listener, in order. */
  function Each<T>(ls: seq<Listener>, portOf: Listener -> T): seq<T> {
    seq(|ls|, i requires 0 <= i < |ls| => portOf(ls[i]))
  }

  /** The container's port for a listener. */
  function PortOf(l: Listener): Port {
    Port(l.plugin + "-" + l.service, l.port)
  }

  /** The client Service's. */
  function ExposedPortOf(l: Listener): ExposedPort {
    ExposedPort(l.plugin + "-" + l.service, l.port, l.port)
  }

  // ---------------------------------------------------------------- the config section

  /** A plugin with at least one usable service. */
  datatype Group = Group(name: string, entries: seq<Listener>)

  function Groups(plugins: seq<Plugin>): seq<Group> {
    if plugins == [] then []
    else
      var last := plugins[|plugins| - 1];
      var entries := Exposed(ServiceListeners(last.name, last.services));
      Groups(plugins[..|plugins| - 1]) + (if entries == [] then [] else [Group(last.name, entries)])
  }

  function Entries(groups: seq<Group>): seq<Listener> {
    if groups == [] then [] else Entries(groups[..|groups| - 1]) + groups[|groups| - 1].entries
  }

  lemma {:induction false} EntriesOfGroups(plugins: seq<Plugin>)
    ensures Entries(Groups(plugins)) == Exposed(PluginListeners(plugins))
  {
    if plugins != [] {
      var last := plugins[|plugins| - 1];
      var before := plugins[..|plugins| - 1];
      EntriesOfGroups(before);
      ExposedAppend(PluginListeners(before), ServiceListeners(last.name, last.services));
      var gs := Groups(plugins);
      if Exposed(ServiceListeners(last.name, last.services)) != [] {
        assert gs[..|gs| - 1] == Groups(before);
      } else {
        assert gs == Groups(before);
      }
    }
  }

  /** Section text is fixed text with one hole per listener for its advertised address. */
  datatype Piece = Fixed(text: string) | Advertised(listener: Listener)

  type Advert = Listener -> string

  function PieceText(p: Piece, advert: Advert): string {
    match p
    case Fixed(text) => text
    case Advertised(l) => advert(l)
  }

  function Render(ps: seq<Piece>, advert: Advert): string {
    if ps == [] then "" else Render(ps[..|ps| - 1], advert) + PieceText(ps[|ps| - 1], advert)
  }

  lemma RenderOneMore(a: seq<Piece>, x: Piece, advert: Advert)
    ensures Render(a + [x], advert) == Render(a, advert) + PieceText(x, advert)
  {
    assert (a + [x])[..|a|] == a;
  }

  lemma {:induction false} RenderAppend(a: seq<Piece>, b: seq<Piece>, advert: Advert)
    ensures Render(a + b, advert) == Render(a, advert) + Render(b, advert)
  {
    if b == [] {
      assert a + b == a;
    } else {
      var init, last := b[..|b| - 1], b[|b| - 1];
      RenderAppend(a, init, advert);
      assert a + b == (a + init) + [last];
      RenderOneMore(a + init, last, advert);
      Regroup(Render(a, advert), Render(init, advert), PieceText(last, advert));
    }
  }

  function EntryHead(l: Listener): string {
    (ENTRY_INDENT + l.service + ENTRY_LISTENER + ENTRY_ENABLED) + (ENTRY_LISTEN + Decimal(l.port) + ENTRY_ADVERTISE)
  }

  const ENTRY_INDENT := "        "
  const ENTRY_LISTENER := ":\n          listener:\n"
  const ENTRY_ENABLED := "            enabled: true\n"
  const ENTRY_LISTEN := "            listen: \"0.0.0.0:"
  const ENTRY_ADVERTISE := "\"\n            advertise: \""
  const ENTRY_END := "\"\n"

  function EntryPieces(l: Listener): seq<Piece> {
    [Fixed(EntryHead(l)), Advertised(l), Fixed(ENTRY_END)]
  }

  function EntriesPieces(ls: seq<Listener>): seq<Piece> {
    if ls == [] then [] else EntriesPieces(ls[..|ls| - 1]) + EntryPieces(ls[|ls| - 1])
  }

  function GroupHead(name: string): string {
    "    " + name + ":\n      service:\n"
  }

  function GroupPieces(g: Group): seq<Piece> {
    [Fixed(GroupHead(g.name))] + EntriesPieces(g.entries)
  }

  function GroupsPieces(groups: seq<Group>): seq<Piece> {
    if groups == [] then [] else GroupsPieces(groups[..|groups| - 1]) + GroupPieces(groups[|groups| - 1])
  }

  const SECTION_HEAD := "  plugin:\n"

  function SectionPieces(groups: seq<Group>): seq<Piece> {
    if groups == [] then [] else [Fixed(SECTION_HEAD)] + GroupsPieces(groups)
  }

  function SectionText(groups: seq<Group>, advert: Advert): string {
    Render(SectionPieces(groups), advert)
  }

  /** Everything of "__PLUGIN_ADVERTISE_" after the first underscore. */
  const PLACEHOLDER_HEAD := "_PLUGIN_ADVERTISE_"

  function Framed(head: string, a: string, b: string): string {
    ['_'] + (head + (a + ['_'] + b)) + ['_', '_']
  }

  function Placeholder(l: Listener): string {
    Framed(PLACEHOLDER_HEAD, Upper(l.plugin), Upper(l.service))
  }

  // ---------------------------------------------------------------- the sed script

  /** s|pattern|replacement|g, with the shell variables of the replacement still in place. */
  datatype SedExpr = SedExpr(pattern: string, replacement: string)

  const POD_VARIABLE := "INSTANCE_NAME"
  const NAMESPACE_VARIABLE := "INSTANCE_NAMESPACE"

  function AddressTemplate(id: Identity, tier: string, port: int): string {
    ['$'] + POD_VARIABLE + ("." + InterconnectName(id, tier) + ".")
    + (['$'] + NAMESPACE_VARIABLE + (".svc.cluster.local:" + Decimal(port)))
  }

  function SedExpression(id: Identity, tier: string, l: Listener): SedExpr {
    SedExpr(Placeholder(l), AddressTemplate(id, tier, l.port))
  }

  function SedExpressions(id: Identity, tier: string, ls: seq<Listener>): seq<SedExpr> {
    seq(|ls|, i requires 0 <= i < |ls| => SedExpression(id, tier, ls[i]))
  }

  function ExprText(e: SedExpr): string {
    "-e \"s|" + e.pattern + "|" + e.replacement + "|g\""
  }

  function ExprsText(es: seq<SedExpr>): string {
    if es == [] then ""
    else if |es| == 1 then ExprText(es[0])
    else ExprsText(es[..|es| - 1]) + " " + ExprText(es[|es| - 1])
  }

  const TEMPLATE_PATH := "/etc/picodata-tpl/config.yaml"
  const CONFIG_OUT_DIR := "/pico-conf-out"

  function InitScript(es: seq<SedExpr>): string {
    if es != [] then "sed " + ExprsText(es) + " " + TEMPLATE_PATH + " > " + CONFIG_OUT_DIR + "/config.yaml"
    else "cp " + TEMPLATE_PATH + " " + CONFIG_OUT_DIR + "/config.yaml"
  }

  // ------------------------------------------------- what shell and sed make of it

  predicate IsNameChar(c: char) {
    'A' <= c <= 'Z' || 'a' <= c <= 'z' || c == '_' || IsDigit(c)
  }

  function NameLength(s: string): (n: nat)
    ensures n <= |s|
    ensures forall i | 0 <= i < n :: IsNameChar(s[i])
    ensures n < |s| ==> !IsNameChar(s[n])
  {
    if s == [] || !IsNameChar(s[0]) then 0 else 1 + NameLength(s[1..])
  }

  /** Double-quoted text after parameter expansion: the longest name after each $ is looked up. */
  function ShellExpand(s: string, vars: map<string, string>): string {
    if s == [] then []
    else if s[0] != '$' then [s[0]] + ShellExpand(s[1..], vars)
    else
      var n := NameLength(s[1..]);
      var name := s[1..][..n];
      if n == 0 then ['$'] + ShellExpand(s[1..], vars)
      else (if name in vars then vars[name] else "") + ShellExpand(s[1..][n..], vars)
  }

  /** s|p|r|g where neither pattern nor replacement holds a character that sed treats specially. */
  function ReplaceAll(s: string, p: string, r: string): string {
    if p == [] || |s| < |p| then s
    else if s[..|p|] == p then r + ReplaceAll(s[|p|..], p, r)
    else [s[0]] + ReplaceAll(s[1..], p, r)
  }

  function RunSed(text: string, es: seq<SedExpr>, vars: map<string, string>): string {
    if es == [] then text
    else
      var last := es[|es| - 1];
      ReplaceAll(RunSed(text, es[..|es| - 1], vars), last.pattern, ShellExpand(last.replacement, vars))
  }

  function PodVars(pod: string, namespace: string): map<string, string> {
    map[POD_VARIABLE := pod, NAMESPACE_VARIABLE := namespace]
  }

  /** The address one pod advertises for a port. */
  function Address(pod: string, id: Identity, tier: string, port: int): string {
    pod + "." + InterconnectName(id, tier) + "." + id.namespace + ".svc.cluster.local:" + Decimal(port)
  }

  // ---------------------------------------------------------------- expansion lemmas

  lemma {:induction false} ExpandPlain(a: string, b: string, vars: map<string, string>)
    requires '$' !in a
    ensures ShellExpand(a + b, vars) == a + ShellExpand(b, vars)
  {
    if a == [] {
      assert a + b == b;
    } else {
      assert (a + b)[1..] == a[1..] + b;
      assert a[0] in a;
      assert forall c | c in a[1..] :: c in a;
      ExpandPlain(a[1..], b, vars);
    }
  }

  lemma ExpandVariable(name: string, b: string, vars: map<string, string>)
    requires name != [] && name in vars
    requires forall c | c in name :: IsNameChar(c)
    requires b != [] ==> !IsNameChar(b[0])
    ensures ShellExpand(['$'] + name + b, vars) == vars[name] + ShellExpand(b, vars)
  {
    var s := ['$'] + name + b;
    var t := name + b;
    assert s[1..] == t;
    var n := NameLength(t);
    assert forall k | 0 <= k < |name| :: t[k] == name[k] && name[k] in name;
    assert b != [] ==> t[|name|] == b[0];
    assert n == |name|;
    assert t[..n] == name && t[n..] == b;
  }

  /** Letters, digits and hyphens: nothing that the shell, sed or the placeholder syntax would read
      as anything but text. */
  predicate Clean(s: string) {
    s != [] && forall c | c in s :: 'A' <= c <= 'Z' || 'a' <= c <= 'z' || IsDigit(c) || c == '-'
  }

  lemma ExpandTwoVariables(a: string, middle: string, b: string, last: string, vars: map<string, string>)
    requires a in vars && a != [] && forall c | c in a :: IsNameChar(c)
    requires b in vars && b != [] && forall c | c in b :: IsNameChar(c)
    requires middle != [] && !IsNameChar(middle[0]) && '$' !in middle
    requires last != [] && !IsNameChar(last[0]) && '$' !in last
    ensures ShellExpand(['$'] + a + middle + (['$'] + b + last), vars) == vars[a] + (middle + (vars[b] + last))
  {
    var tail := ['$'] + b + last;
    ExpandText(last, vars);
    ExpandVariable(b, last, vars);
    ExpandPlain(middle, tail, vars);
    ExpandVariable(a, middle + tail, vars);
    Regroup(['$'] + a, middle, tail);
  }

  lemma ExpandText(a: string, vars: map<string, string>)
    requires '$' !in a
    ensures ShellExpand(a, vars) == a
  {
    ExpandPlain(a, [], vars);
    assert a + [] == a;
  }

  lemma PodVarsAre(pod: string, namespace: string)
    ensures var vars := PodVars(pod, namespace);
            && POD_VARIABLE in vars && NAMESPACE_VARIABLE in vars
            && vars[POD_VARIABLE] == pod && vars[NAMESPACE_VARIABLE] == namespace
  {
    assert |POD_VARIABLE| != |NAMESPACE_VARIABLE|;
  }

  lemma VariableNames()
    ensures POD_VARIABLE != [] && forall c | c in POD_VARIABLE :: IsNameChar(c)
    ensures NAMESPACE_VARIABLE != [] && forall c | c in NAMESPACE_VARIABLE :: IsNameChar(c)
  {
  }

  lemma JoinAddress(pod: string, middle: string, namespace: string, last: string, id: Identity, tier: string, port: int)
    requires middle == "." + InterconnectName(id, tier) + "." && namespace == id.namespace
    requires last == ".svc.cluster.local:" + Decimal(port)
    ensures pod + (middle + (namespace + last)) == Address(pod, id, tier, port)
    ensures AddressTemplate(id, tier, port) == ['$'] + POD_VARIABLE + middle + (['$'] + NAMESPACE_VARIABLE + last)
  {
  }

  lemma ExpandAddress(pod: string, id: Identity, tier: string, port: nat)
    requires '$' !in tier && '$' !in id.name
    ensures ShellExpand(AddressTemplate(id, tier, port), PodVars(pod, id.namespace))
         == Address(pod, id, tier, port)
  {
    var last := ".svc.cluster.local:" + Decimal(port);
    var middle := "." + InterconnectName(id, tier) + ".";
    DecimalFree(port, '$');
    PodVarsAre(pod, id.namespace);
    VariableNames();
    ExpandTwoVariables(POD_VARIABLE, middle, NAMESPACE_VARIABLE, last, PodVars(pod, id.namespace));
    JoinAddress(pod, middle, id.namespace, last, id, tier, port);
  }
}
