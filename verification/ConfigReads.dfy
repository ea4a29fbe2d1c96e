/** What the config says once it is read: the topology of all tiers, and on each pod the listeners of the
    tier's plugins with the ports of the container and the pod's own addresses. */
module ConfigReads {
  import opened Text
  import opened Types
  import opened Listeners
  import opened Builders
  import opened Lines
  import opened Substitution
  import opened Peer
  import opened InitContainer
  import opened Yaml

  /** These keys are open above a line that is indented by n. */
  predicate Under(r: Reading, n: nat, open: seq<Open>) {
    Above(r.open, n) == open
  }

  predicate BlankOf(s: string, n: nat) {
    Blank(s) && |s| == n
  }

  lemma Indents()
    ensures BlankOf("  ", 2) && BlankOf("    ", 4) && BlankOf("      ", 6) && BlankOf("        ", 8)
  {
  }

  lemma DeepIndents()
    ensures BlankOf("          ", 10) && BlankOf("            ", 12)
  {
  }

  // ---------------------------------------------------------------- kinds of lines

  function Opened(r: Reading, n: nat, key: string): Reading {
    Reading(Above(r.open, n) + [Open(n, key)], r.settings)
  }

  function Valued(r: Reading, n: nat, key: string, value: string): Reading {
    var above := Above(r.open, n);
    Reading(above + [Open(n, key)], r.settings + [Setting(Keys(above) + [key], value)])
  }

  ghost predicate IsKeyLine(line: string, n: nat, key: string) {
    forall r :: ReadLine(r, line) == Opened(r, n, key)
  }

  ghost predicate IsValueLine(line: string, n: nat, key: string, value: string) {
    forall r :: ReadLine(r, line) == Valued(r, n, key, value)
  }

  lemma KeyLine(spaces: string, key: string, n: nat)
    requires BlankOf(spaces, n) && IsKey(key)
    ensures IsKeyLine(spaces + (key + ([':'] + "")), n, key)
  {
    forall r {
      OpensKey(r, spaces, key);
    }
  }

  lemma ValueLine(spaces: string, key: string, value: string, n: nat)
    requires BlankOf(spaces, n) && IsKey(key)
    ensures IsValueLine(spaces + (key + ([':'] + ([' '] + value))), n, key, Unquoted(value))
  {
    forall r {
      GivesValue(r, spaces, key, value);
    }
  }

  /** After a line at indent n, keys further out are open as before. */
  lemma StaysOpen(open: seq<Open>, n: nat, key: string, m: nat)
    ensures Above(Above(open, n) + [Open(n, key)], m)
         == if n < m then Above(open, n) + [Open(n, key)] else Above(open, m)
  {
    AboveOneMore(Above(open, n), Open(n, key), m);
    if m <= n {
      AboveTwice(open, n, m);
    }
  }

  lemma OpenedUnder(r: Reading, n: nat, key: string, open: seq<Open>, m: nat)
    requires Under(r, n, open)
    ensures Opened(r, n, key) == Reading(open + [Open(n, key)], r.settings)
    ensures Above(Opened(r, n, key).open, m) == if n < m then open + [Open(n, key)] else Above(r.open, m)
  {
    StaysOpen(r.open, n, key, m);
  }

  lemma ValuedUnder(r: Reading, n: nat, key: string, value: string, open: seq<Open>, m: nat)
    requires Under(r, n, open) && m <= n
    ensures Valued(r, n, key, value).settings == r.settings + [Setting(Keys(open) + [key], value)]
    ensures Above(Valued(r, n, key, value).open, m) == Above(r.open, m)
  {
    StaysOpen(r.open, n, key, m);
  }

  lemma ReadTwo(r: Reading, a: string, b: string)
    ensures ReadLines(r, [a, b]) == ReadLine(ReadLine(r, a), b)
  {
    ReadOneMore(r, [], a);
    ReadOneMore(r, [a], b);
    assert [] + [a] == [a] && [a] + [b] == [a, b];
  }

  lemma ReadThree(r: Reading, a: string, b: string, c: string)
    ensures ReadLines(r, [a, b, c]) == ReadLine(ReadLine(ReadLine(r, a), b), c)
  {
    ReadTwo(r, a, b);
    ReadOneMore(r, [a, b], c);
    assert [a, b] + [c] == [a, b, c];
  }

  // ---------------------------------------------------------------- one listener

  /** What the section says of a listener, under the keys down to "listener". */
  function ListenerSettings(path: seq<string>, l: Listener, address: string): seq<Setting> {
    [Setting(path + ["enabled"], "true"),
     Setting(path + ["listen"], "0.0.0.0:" + Decimal(l.port)),
     Setting(path + ["advertise"], address)]
  }

  lemma ListenerLineIs()
    ensures IsKeyLine(LISTENER_LINE, 10, "listener")
  {
    DeepIndents();
    assert LISTENER_LINE == "          " + ("listener" + ([':'] + ""));
    KeyLine("          ", "listener", 10);
  }

  lemma EnabledLineIs()
    ensures IsValueLine(ENABLED_LINE, 12, "enabled", "true")
  {
    DeepIndents();
    assert ENABLED_LINE == "            " + ("enabled" + ([':'] + ([' '] + "true")));
    ValueLine("            ", "enabled", "true", 12);
  }

  lemma ListenStart()
    ensures ENTRY_LISTEN == "            " + ("listen" + ([':'] + ([' '] + (['"'] + "0.0.0.0:")))) && IsKey("listen")
  {
  }

  lemma AdvertiseStart()
    ensures ADVERTISE_START == "            " + ("advertise" + ([':'] + ([' '] + ['"']))) && IsKey("advertise")
  {
  }

  lemma JoinListen(spaces: string, key: string, head: string, text: string)
    ensures Quoted(spaces + (key + ([':'] + ([' '] + (['"'] + head)))), text)
         == spaces + (key + ([':'] + ([' '] + (['"'] + (head + text) + ['"']))))
  {
  }

  lemma JoinAdvertise(spaces: string, key: string, text: string)
    ensures Quoted(spaces + (key + ([':'] + ([' '] + ['"']))), text)
         == spaces + (key + ([':'] + ([' '] + (['"'] + text + ['"']))))
  {
  }

  lemma ListenLineIs(text: string)
    ensures IsValueLine(Quoted(ENTRY_LISTEN, text), 12, "listen", "0.0.0.0:" + text)
  {
    DeepIndents();
    ListenStart();
    JoinListen("            ", "listen", "0.0.0.0:", text);
    QuotesGo("0.0.0.0:" + text);
    ValueLine("            ", "listen", ['"'] + ("0.0.0.0:" + text) + ['"'], 12);
  }

  lemma AdvertiseLineIs(text: string)
    ensures IsValueLine(Quoted(ADVERTISE_START, text), 12, "advertise", text)
  {
    DeepIndents();
    AdvertiseStart();
    JoinAdvertise("            ", "advertise", text);
    QuotesGo(text);
    ValueLine("            ", "advertise", ['"'] + text + ['"'], 12);
  }

  lemma NameLineIs(indent: string, name: string, n: nat)
    requires BlankOf(indent, n) && IsKey(name)
    ensures IsKeyLine(NameLine(indent, name), n, name)
  {
    assert NameLine(indent, name) == indent + (name + ([':'] + ""));
    KeyLine(indent, name, n);
  }

  /** Two keys, one in the other. */
  lemma KeysRead(r: Reading, a: string, k: string, n: nat, b: string, l: string, m: nat, open: seq<Open>)
    requires IsKeyLine(a, n, k) && IsKeyLine(b, m, l) && n < m && Under(r, n, open)
    ensures ReadLines(r, [a, b]) == Reading(open + [Open(n, k)] + [Open(m, l)], r.settings)
    ensures Under(ReadLines(r, [a, b]), n, open)
  {
    ReadTwo(r, a, b);
    OpenedUnder(r, n, k, open, m);
    var q := Opened(r, n, k);
    OpenedUnder(r, n, k, open, n);
    OpenedUnder(q, m, l, open + [Open(n, k)], n);
  }

  function Three(
      path: seq<string>, k1: string, v1: string, k2: string, v2: string, k3: string, v3: string): seq<Setting> {
    [Setting(path + [k1], v1), Setting(path + [k2], v2), Setting(path + [k3], v3)]
  }

  lemma OneByOne<T>(xs: seq<T>, a: T, b: T, c: T)
    ensures xs + [a] + [b] + [c] == xs + [a, b, c]
  {
  }

  /** Three values under the same key. */
  lemma ValuesRead(
      r: Reading, a: string, k1: string, v1: string, b: string, k2: string, v2: string,
      c: string, k3: string, v3: string, n: nat, m: nat)
    requires IsValueLine(a, n, k1, v1) && IsValueLine(b, n, k2, v2) && IsValueLine(c, n, k3, v3)
    requires Under(r, n, r.open) && m <= n
    ensures Above(ReadLines(r, [a, b, c]).open, m) == Above(r.open, m)
    ensures ReadLines(r, [a, b, c]).settings == r.settings + Three(Keys(r.open), k1, v1, k2, v2, k3, v3)
  {
    ReadThree(r, a, b, c);
    var x := Valued(r, n, k1, v1);
    var y := Valued(x, n, k2, v2);
    ValuedUnder(r, n, k1, v1, r.open, n);
    ValuedUnder(r, n, k1, v1, r.open, m);
    ValuedUnder(x, n, k2, v2, r.open, n);
    ValuedUnder(x, n, k2, v2, r.open, m);
    ValuedUnder(y, n, k3, v3, r.open, m);
    var path := Keys(r.open);
    OneByOne(r.settings, Setting(path + [k1], v1), Setting(path + [k2], v2), Setting(path + [k3], v3));
  }

  lemma EntryReads(r: Reading, l: Listener, advert: Advert, open: seq<Open>)
    requires Under(r, 8, open) && IsKey(l.service)
    ensures var q := ReadLines(r, EntryLines(l, AsIs(), advert));
            && Under(q, 8, open)
            && q.settings == r.settings + ListenerSettings(Keys(open) + [l.service, "listener"], l, advert(l))
  {
    var a, b := NameLine(ENTRY_INDENT, l.service), LISTENER_LINE;
    var c, d, f := ENABLED_LINE, Quoted(ENTRY_LISTEN, Decimal(l.port)), Quoted(ADVERTISE_START, advert(l));
    Indents();
    NameLineIs(ENTRY_INDENT, l.service, 8);
    ListenerLineIs();
    EnabledLineIs();
    ListenLineIs(Decimal(l.port));
    AdvertiseLineIs(advert(l));
    FiveRead(r, a, l.service, 8, b, "listener", 10, c, "enabled", "true", d, "listen", "0.0.0.0:" + Decimal(l.port),
             f, "advertise", advert(l), 12, open);
  }

  lemma TwoKeys(open: seq<Open>, n: nat, k: string, m: nat, l: string)
    ensures Keys(open + [Open(n, k)] + [Open(m, l)]) == Keys(open) + [k, l]
  {
  }

  lemma FiveRead(
      r: Reading, a: string, k: string, n: nat, b: string, l: string, m: nat,
      c: string, k1: string, v1: string, d: string, k2: string, v2: string, f: string, k3: string, v3: string, o: nat,
      open: seq<Open>)
    requires n < m < o && Under(r, n, open) && IsKeyLine(a, n, k) && IsKeyLine(b, m, l)
    requires IsValueLine(c, o, k1, v1) && IsValueLine(d, o, k2, v2) && IsValueLine(f, o, k3, v3)
    ensures Under(ReadLines(r, [a, b, c, d, f]), n, open)
    ensures ReadLines(r, [a, b, c, d, f]).settings == r.settings + Three(Keys(open) + [k, l], k1, v1, k2, v2, k3, v3)
  {
    var q := ReadLines(r, [a, b]);
    KeysRead(r, a, k, n, b, l, m, open);
    AboveOneMore(open + [Open(n, k)], Open(m, l), o);
    ValuesRead(q, c, k1, v1, d, k2, v2, f, k3, v3, o, n);
    ReadAppend(r, [a, b], [c, d, f]);
    JoinTwoThree(a, b, c, d, f);
    TwoKeys(open, n, k, m, l);
  }

  lemma JoinTwoThree<T>(a: T, b: T, c: T, d: T, e: T)
    ensures [a, b] + [c, d, e] == [a, b, c, d, e]
  {
  }

  // ---------------------------------------------------------------- the plugin section

  /** What the section says: of every listener, in order, under plugin and service name. */
  function SectionSettings(base: seq<string>, ls: seq<Listener>, advert: Advert): seq<Setting> {
    if ls == [] then []
    else
      var l := ls[|ls| - 1];
      SectionSettings(base, ls[..|ls| - 1], advert)
      + ListenerSettings(base + [l.plugin, "service"] + [l.service, "listener"], l, advert(l))
  }

  lemma {:induction false} SettingsAppend(base: seq<string>, a: seq<Listener>, b: seq<Listener>, advert: Advert)
    ensures SectionSettings(base, a + b, advert) == SectionSettings(base, a, advert) + SectionSettings(base, b, advert)
  {
    if b == [] {
      assert a + b == a;
    } else {
      var init, last := b[..|b| - 1], b[|b| - 1];
      assert a + b == (a + init) + [last] && ((a + init) + [last])[..|a + init|] == a + init;
      SettingsAppend(base, a, init, advert);
      Associative(SectionSettings(base, a, advert), SectionSettings(base, init, advert),
                  ListenerSettings(base + [last.plugin, "service"] + [last.service, "listener"], last, advert(last)));
    }
  }

  lemma {:induction false} EntriesRead(
      r: Reading, ls: seq<Listener>, advert: Advert, open: seq<Open>, base: seq<string>, plugin: string)
    requires Under(r, 8, open) && Keys(open) == base + [plugin, "service"]
    requires forall l | l in ls :: l.plugin == plugin && IsKey(l.service)
    ensures var q := ReadLines(r, EntriesLines(ls, AsIs(), advert));
            && Under(q, 8, open) && q.settings == r.settings + SectionSettings(base, ls, advert)
  {
    if ls != [] {
      var init, last := ls[..|ls| - 1], ls[|ls| - 1];
      assert last in ls && forall l | l in init :: l in ls;
      EntriesRead(r, init, advert, open, base, plugin);
      var q := ReadLines(r, EntriesLines(init, AsIs(), advert));
      EntryReads(q, last, advert, open);
      ReadAppend(r, EntriesLines(init, AsIs(), advert), EntryLines(last, AsIs(), advert));
      Associative(r.settings, SectionSettings(base, init, advert),
                  ListenerSettings(Keys(open) + [last.service, "listener"], last, advert(last)));
    }
  }

  lemma ServiceLineIs()
    ensures IsKeyLine(SERVICE_LINE, 6, "service")
  {
    Indents();
    assert SERVICE_LINE == "      " + ("service" + ([':'] + ""));
    KeyLine("      ", "service", 6);
  }

  lemma PluginLineIs()
    ensures IsKeyLine(PLUGIN_LINE, 2, "plugin")
  {
    Indents();
    assert PLUGIN_LINE == "  " + ("plugin" + ([':'] + ""));
    KeyLine("  ", "plugin", 2);
  }

  /** All entries of a group are of its plugin. */
  predicate GroupKeys(g: Group) {
    IsKey(g.name) && forall l | l in g.entries :: l.plugin == g.name && IsKey(l.service)
  }

  lemma GroupReads(r: Reading, g: Group, advert: Advert, open: seq<Open>)
    requires Under(r, 4, open) && GroupKeys(g)
    ensures var q := ReadLines(r, GroupLines(g, AsIs(), advert));
            && Under(q, 4, open) && q.settings == r.settings + SectionSettings(Keys(open), g.entries, advert)
  {
    Indents();
    NameLineIs("    ", g.name, 4);
    ServiceLineIs();
    var heads := [NameLine("    ", g.name), SERVICE_LINE];
    var mid := ReadLines(r, heads);
    KeysRead(r, NameLine("    ", g.name), g.name, 4, SERVICE_LINE, "service", 6, open);
    AboveOneMore(open + [Open(4, g.name)], Open(6, "service"), 8);
    TwoKeys(open, 4, g.name, 6, "service");
    EntriesRead(mid, g.entries, advert, mid.open, Keys(open), g.name);
    ReadAppend(r, heads, EntriesLines(g.entries, AsIs(), advert));
    var q := ReadLines(r, GroupLines(g, AsIs(), advert));
    AboveTwice(q.open, 8, 4);
  }

  lemma {:induction false} GroupsRead(r: Reading, groups: seq<Group>, advert: Advert, open: seq<Open>)
    requires Under(r, 4, open) && forall g | g in groups :: GroupKeys(g)
    ensures var q := ReadLines(r, GroupsLines(groups, AsIs(), advert));
            q.settings == r.settings + SectionSettings(Keys(open), Entries(groups), advert) && Under(q, 4, open)
  {
    if groups != [] {
      var init, last := groups[..|groups| - 1], groups[|groups| - 1];
      assert last in groups && forall g | g in init :: g in groups;
      GroupsRead(r, init, advert, open);
      var q := ReadLines(r, GroupsLines(init, AsIs(), advert));
      GroupReads(q, last, advert, open);
      ReadAppend(r, GroupsLines(init, AsIs(), advert), GroupLines(last, AsIs(), advert));
      SettingsAppend(Keys(open), Entries(init), last.entries, advert);
      Associative(r.settings, SectionSettings(Keys(open), Entries(init), advert),
                  SectionSettings(Keys(open), last.entries, advert));
    }
  }

  lemma PlainIsKey(s: string)
    requires Plain(s)
    ensures IsKey(s)
  {
    assert s != [] ==> s[0] in s;
  }

  lemma ServicesOfPlugin(plugin: string, services: seq<PluginService>)
    ensures forall l | l in Exposed(ServiceListeners(plugin, services)) :: l.plugin == plugin
  {
    ServiceListenersMember(plugin, services);
    ExposedMember(ServiceListeners(plugin, services));
  }

  lemma {:induction false} GroupsHaveKeys(plugins: seq<Plugin>)
    requires PlainPlugins(plugins)
    ensures forall g | g in Groups(plugins) :: GroupKeys(g)
  {
    if plugins != [] {
      var init, last := plugins[..|plugins| - 1], plugins[|plugins| - 1];
      assert last in plugins && forall p | p in init :: p in plugins;
      GroupsHaveKeys(init);
      ServicesOfPlugin(last.name, last.services);
      PlainPluginsListeners([last]);
      PlainIsKey(last.name);
      var entries := Exposed(ServiceListeners(last.name, last.services));
      assert PluginListeners([last]) == ServiceListeners(last.name, last.services) by {
        assert [last][..0] == [] && PluginListeners([]) == [];
      }
      forall l | l in entries
        ensures IsKey(l.service)
      {
        PlainIsKey(l.service);
      }
    }
  }

  /** The section, read where the keys `open` are open above it. */
  lemma SectionReads(r: Reading, plugins: seq<Plugin>, advert: Advert, open: seq<Open>)
    requires Under(r, 2, open) && PlainPlugins(plugins)
    ensures ReadLines(r, SectionLines(Groups(plugins), AsIs(), advert)).settings
         == r.settings + SectionSettings(Keys(open) + ["plugin"], Exposed(PluginListeners(plugins)), advert)
  {
    var groups := Groups(plugins);
    EntriesOfGroups(plugins);
    if groups != [] {
      PluginLineIs();
      GroupsHaveKeys(plugins);
      OpenedUnder(r, 2, "plugin", open, 4);
      ReadOneMore(r, [], PLUGIN_LINE);
      assert [] + [PLUGIN_LINE] == [PLUGIN_LINE];
      var q := Opened(r, 2, "plugin");
      GroupsRead(q, groups, advert, q.open);
      KeysOneMore(open, Open(2, "plugin"));
      ReadAppend(r, [PLUGIN_LINE], GroupsLines(groups, AsIs(), advert));
    }
  }

  // ---------------------------------------------------------------- the config of a pod

  const NOTHING_READ := Reading([], [])

  /** A text that ends inside the mapping of the key "instance". */
  predicate EndsInInstance(front: string) {
    EndsLine(front) && Under(ReadText(NOTHING_READ, front), 2, [Open(0, "instance")])
  }

  lemma SectionTextReads(r: Reading, front: string, plugins: seq<Plugin>, advert: Advert, open: seq<Open>)
    requires PlainPlugins(plugins) && AllOneLine(SectionLines(Groups(plugins), AsIs(), advert))
    requires EndsLine(front) && Under(ReadText(r, front), 2, open)
    ensures ReadText(r, front + SectionText(Groups(plugins), advert)).settings
         == ReadText(r, front).settings
            + SectionSettings(Keys(open) + ["plugin"], Exposed(PluginListeners(plugins)), advert)
  {
    var lines := SectionLines(Groups(plugins), AsIs(), advert);
    SectionAsLines(Groups(plugins), advert);
    ReadAfterLines(r, front, lines);
    SectionReads(ReadText(r, front), plugins, advert, open);
  }

  lemma DirectReads(front: string, plugins: seq<Plugin>, id: Identity, tier: string, pod: string)
    requires CleanSite(id, tier, pod) && PlainPlugins(plugins) && EndsInInstance(front)
    ensures ReadText(NOTHING_READ, front + DirectSection(plugins, id, tier, pod)).settings
         == ReadText(NOTHING_READ, front).settings
            + SectionSettings(["instance", "plugin"], Exposed(PluginListeners(plugins)), OwnAddress(pod, id, tier))
  {
    DirectOneLine(plugins, id, tier, pod);
    SectionTextReads(NOTHING_READ, front, plugins, OwnAddress(pod, id, tier), [Open(0, "instance")]);
    InstanceKeys();
  }

  lemma InstanceKeys()
    ensures Keys([Open(0, "instance")]) + ["plugin"] == ["instance", "plugin"]
  {
  }

  /** What a pod reads in the config file that its init container wrote: what stands in front of the section,
      and then, for every usable listener of the tier's plugins in spec order, that it is enabled, that it
      listens on its port, and that it is advertised under the pod's own address with the same port. */
  lemma PodConfigReads(hash: Config -> string, cl: Cluster, at: nat, index: nat, pod: Pod, front: string)
    requires at < |cl.tiers| && GoodSite(cl, at, pod) && PlainPlugins(cl.tiers[at].plugins) && EndsInInstance(front)
    requires NothingMistaken(front, Exposed(PluginListeners(cl.tiers[at].plugins)))
    ensures var t := cl.tiers[at];
            var file := PodConfig(hash, cl, at, index, pod, front);
            && file.Some?
            && ReadText(NOTHING_READ, file.value).settings
               == ReadText(NOTHING_READ, front).settings
                  + SectionSettings(["instance", "plugin"], Exposed(PluginListeners(t.plugins)),
                                    OwnAddress(pod.field("metadata.name"), cl.id, t.name))
  {
    PodConfigIsDirectIff(hash, cl, at, index, pod, front);
    DirectReads(front, cl.tiers[at].plugins, cl.id, cl.tiers[at].name, pod.field("metadata.name"));
  }

  /** Read off that list: listener number i is given three values, the last two with its port. */
  lemma {:induction false} SettingsAt(base: seq<string>, ls: seq<Listener>, advert: Advert, i: nat)
    requires i < |ls|
    ensures var all, l := SectionSettings(base, ls, advert), ls[i];
            var path := base + [l.plugin, "service"] + [l.service, "listener"];
            && |all| == 3 * |ls|
            && all[3 * i..3 * i + 3] == ListenerSettings(path, l, advert(l))
  {
    var init := ls[..|ls| - 1];
    SettingsLength(base, init, advert);
    if i < |init| {
      SettingsAt(base, init, advert, i);
    }
  }

  lemma {:induction false} SettingsLength(base: seq<string>, ls: seq<Listener>, advert: Advert)
    ensures |SectionSettings(base, ls, advert)| == 3 * |ls|
  {
    if ls != [] {
      SettingsLength(base, ls[..|ls| - 1], advert);
    }
  }

  // ---------------------------------------------------------------- the topology

  /** What Picodata is told of a tier. */
  function TierSettings(base: seq<string>, t: Tier): seq<Setting> {
    [Setting(base + [t.name] + ["replication_factor"],
             Decimal(if t.replicationFactor == 0 then 1 else t.replicationFactor)),
     Setting(base + [t.name] + ["can_vote"], if t.canVote then "true" else "false")]
  }

  function TopologySettings(base: seq<string>, tiers: seq<Tier>): seq<Setting> {
    if tiers == [] then []
    else TopologySettings(base, tiers[..|tiers| - 1]) + TierSettings(base, tiers[|tiers| - 1])
  }

  function FactorLine(value: string): string {
    "            " + ("replication_factor" + ([':'] + ([' '] + value)))
  }

  function VoteLine(value: string): string {
    "            " + ("can_vote" + ([':'] + ([' '] + value)))
  }

  function TierLines(t: Tier): seq<string> {
    [NameLine(TopologyText.INDENT, t.name), FactorLine(Decimal(TopologyText.Factor(t))),
     VoteLine(TopologyText.Flag(t.canVote))]
  }

  function TopologyLines(tiers: seq<Tier>): seq<string> {
    if tiers == [] then [] else TopologyLines(tiers[..|tiers| - 1]) + TierLines(tiers[|tiers| - 1])
  }

  lemma FactorStart(value: string)
    ensures TopologyText.FACTOR_KEY + value == ['\n'] + FactorLine(value)
  {
    FactorKey();
    JoinKey("            ", "replication_factor", value);
  }

  lemma FactorKey()
    ensures TopologyText.FACTOR_KEY == ['\n'] + ("            " + ("replication_factor" + ([':'] + [' '])))
  {
  }

  lemma JoinKey(spaces: string, key: string, value: string)
    ensures ['\n'] + (spaces + (key + ([':'] + [' ']))) + value == ['\n'] + (spaces + (key + ([':'] + ([' '] + value))))
  {
  }

  lemma VoteStart(value: string)
    ensures TopologyText.VOTE_KEY + value == VoteLine(value)
  {
    assert TopologyText.VOTE_KEY == "            " + ("can_vote" + ([':'] + [' ']));
  }

  lemma JoinThree(a: string, b: string, c: string)
    ensures Join([a, b, c]) == Line(a) + (Line(b) + Line(c))
  {
    JoinTwo(a, b);
    assert [a, b, c][..2] == [a, b];
  }

  lemma JoinTier(head: string, factorKey: string, factor: string, voteKey: string, vote: string)
    ensures head + [':'] + (factorKey + (factor + ['\n'] + (voteKey + (vote + ['\n'] + ""))))
         == (head + [':']) + ((factorKey + factor) + ['\n'] + ((voteKey + vote) + ['\n']))
  {
  }

  lemma TierText(head: string, factor: string, vote: string)
    ensures TopologyText.Line(head, factor, vote, "") == Join([head + [':'], FactorLine(factor), VoteLine(vote)])
  {
    FactorStart(factor);
    VoteStart(vote);
    JoinTier(head, TopologyText.FACTOR_KEY, factor, TopologyText.VOTE_KEY, vote);
    AfterBreak(head + [':'], FactorLine(factor), VoteLine(vote));
    JoinThree(head + [':'], FactorLine(factor), VoteLine(vote));
  }

  lemma AfterBreak(a: string, b: string, c: string)
    ensures a + ((['\n'] + b) + ['\n'] + (c + ['\n'])) == Line(a) + (Line(b) + Line(c))
  {
  }

  lemma TierAsLines(t: Tier)
    ensures TopologyText.TopologyLine(t) == Join(TierLines(t))
  {
    TierText(TopologyText.INDENT + t.name, Decimal(TopologyText.Factor(t)), TopologyText.Flag(t.canVote));
  }

  lemma {:induction false} TopologyAsLines(tiers: seq<Tier>)
    ensures TopologyText.Topology(tiers) == Join(TopologyLines(tiers))
  {
    if tiers != [] {
      TopologyAsLines(tiers[..|tiers| - 1]);
      TierAsLines(tiers[|tiers| - 1]);
      JoinAppend(TopologyLines(tiers[..|tiers| - 1]), TierLines(tiers[|tiers| - 1]));
    }
  }

  lemma TierLineKinds(t: Tier)
    requires IsKey(t.name)
    ensures IsKeyLine(NameLine(TopologyText.INDENT, t.name), 10, t.name)
    ensures IsValueLine(FactorLine(Decimal(TopologyText.Factor(t))), 12, "replication_factor",
                        Decimal(TopologyText.Factor(t)))
    ensures IsValueLine(VoteLine(TopologyText.Flag(t.canVote)), 12, "can_vote", TopologyText.Flag(t.canVote))
  {
    DeepIndents();
    NameLineIs(TopologyText.INDENT, t.name, 10);
    ValueLine("            ", "replication_factor", Decimal(TopologyText.Factor(t)), 12);
    ValueLine("            ", "can_vote", TopologyText.Flag(t.canVote), 12);
    NumberUnquoted(TopologyText.Factor(t));
  }

  lemma NumberUnquoted(n: int)
    ensures Unquoted(Decimal(n)) == Decimal(n)
  {
    if n >= 0 {
      DecimalFree(n, '"');
    }
  }

  lemma TierReads(r: Reading, t: Tier, open: seq<Open>)
    requires Under(r, 10, open) && IsKey(t.name)
    ensures Under(ReadLines(r, TierLines(t)), 10, open)
    ensures ReadLines(r, TierLines(t)).settings == r.settings + TierSettings(Keys(open), t)
  {
    var f, v := Decimal(TopologyText.Factor(t)), TopologyText.Flag(t.canVote);
    var lines := TierLines(t);
    TierLineKinds(t);
    ReadThree(r, lines[0], lines[1], lines[2]);
    TwoValues(r, 10, t.name, 12, "replication_factor", f, "can_vote", v, open);
  }

  lemma TwoValues(
      r: Reading, n: nat, k: string, m: nat, k1: string, v1: string, k2: string, v2: string, open: seq<Open>)
    requires Under(r, n, open) && n < m
    ensures var q := Valued(Valued(Opened(r, n, k), m, k1, v1), m, k2, v2);
            && Under(q, n, open)
            && q.settings == r.settings + [Setting(Keys(open) + [k] + [k1], v1), Setting(Keys(open) + [k] + [k2], v2)]
  {
    var a := Opened(r, n, k);
    OpenedUnder(r, n, k, open, m);
    OpenedUnder(r, n, k, open, n);
    KeysOneMore(open, Open(n, k));
    var b := Valued(a, m, k1, v1);
    ValuedUnder(a, m, k1, v1, a.open, m);
    ValuedUnder(a, m, k1, v1, a.open, n);
    ValuedUnder(b, m, k2, v2, a.open, n);
    assert r.settings + [Setting(Keys(open) + [k] + [k1], v1)] + [Setting(Keys(open) + [k] + [k2], v2)]
        == r.settings + [Setting(Keys(open) + [k] + [k1], v1), Setting(Keys(open) + [k] + [k2], v2)];
  }

  lemma {:induction false} TopologyLinesRead(r: Reading, tiers: seq<Tier>, open: seq<Open>)
    requires Under(r, 10, open) && forall t | t in tiers :: IsKey(t.name)
    ensures var q := ReadLines(r, TopologyLines(tiers));
            Under(q, 10, open) && q.settings == r.settings + TopologySettings(Keys(open), tiers)
  {
    if tiers != [] {
      var init, last := tiers[..|tiers| - 1], tiers[|tiers| - 1];
      assert last in tiers && forall t | t in init :: t in tiers;
      TopologyLinesRead(r, init, open);
      TierReads(ReadLines(r, TopologyLines(init)), last, open);
      ReadAppend(r, TopologyLines(init), TierLines(last));
      Associative(r.settings, TopologySettings(Keys(open), init), TierSettings(Keys(open), last));
    }
  }

  lemma TierOneLine(t: Tier)
    requires OneLine(t.name)
    ensures AllOneLine(TierLines(t))
  {
    TopologyText.NumberHasNoNewline(TopologyText.Factor(t));
    TopologyText.FlagsDiffer();
    assert OneLine("            ") && OneLine("replication_factor");
    assert OneLine("can_vote") && OneLine(TopologyText.INDENT);
  }

  lemma {:induction false} TopologyOneLine(tiers: seq<Tier>)
    requires forall t | t in tiers :: OneLine(t.name)
    ensures AllOneLine(TopologyLines(tiers))
  {
    if tiers != [] {
      assert tiers[|tiers| - 1] in tiers && forall t | t in tiers[..|tiers| - 1] :: t in tiers;
      TopologyOneLine(tiers[..|tiers| - 1]);
      TierOneLine(tiers[|tiers| - 1]);
    }
  }

  /** Whichever tier's config it stands in, the topology says of every tier of the spec, in order, its
      replication factor (1 if left out) and its voting right. */
  lemma TopologyReads(cl: Cluster, at: nat, front: string, open: seq<Open>)
    requires at < |cl.tiers| && forall t | t in cl.tiers :: IsKey(t.name) && OneLine(t.name)
    requires EndsLine(front) && Under(ReadText(NOTHING_READ, front), 10, open)
    ensures ReadText(NOTHING_READ, front + BuildConfig(cl, at).topology).settings
         == ReadText(NOTHING_READ, front).settings + TopologySettings(Keys(open), cl.tiers)
  {
    TopologyAsLines(cl.tiers);
    TopologyOneLine(cl.tiers);
    ReadAfterLines(NOTHING_READ, front, TopologyLines(cl.tiers));
    TopologyLinesRead(ReadText(NOTHING_READ, front), cl.tiers, open);
  }
}
