/** The sed script run on a pod turns the placeholder section into the section rendered with
    that pod's own addresses: exactly for which names and ports. */
module Substitution {
  import opened Text
  import opened Types
  import opened Names
  import opened Listeners
  import opened Lines
  import opened Sed

  // ---------------------------------------------------------------- the section as lines

  const PLUGIN_LINE := "  plugin:"
  const SERVICE_LINE := "      service:"
  const LISTENER_LINE := "          listener:"
  const ENABLED_LINE := "            enabled: true"
  const ADVERTISE_START := "            advertise: \""

  function NameLine(indent: string, name: string): string {
    indent + name + [':']
  }

  function Quoted(start: string, text: string): string {
    start + text + ['"']
  }

  /** The lines of an entry; `spell` is applied to the name, `advert` gives the address. */
  function EntryLines(l: Listener, spell: string -> string, advert: Advert): seq<string> {
    [NameLine(ENTRY_INDENT, spell(l.service)), LISTENER_LINE, ENABLED_LINE,
     Quoted(ENTRY_LISTEN, Decimal(l.port)), Quoted(ADVERTISE_START, advert(l))]
  }

  function EntriesLines(ls: seq<Listener>, spell: string -> string, advert: Advert): seq<string> {
    if ls == [] then []
    else EntriesLines(ls[..|ls| - 1], spell, advert) + EntryLines(ls[|ls| - 1], spell, advert)
  }

  function GroupLines(g: Group, spell: string -> string, advert: Advert): seq<string> {
    [NameLine("    ", spell(g.name)), SERVICE_LINE] + EntriesLines(g.entries, spell, advert)
  }

  function GroupsLines(groups: seq<Group>, spell: string -> string, advert: Advert): seq<string> {
    if groups == [] then []
    else GroupsLines(groups[..|groups| - 1], spell, advert) + GroupLines(groups[|groups| - 1], spell, advert)
  }

  function SectionLines(groups: seq<Group>, spell: string -> string, advert: Advert): seq<string> {
    if groups == [] then [] else [PLUGIN_LINE] + GroupsLines(groups, spell, advert)
  }

  function AsIs(): string -> string {
    text => text
  }

  lemma ListenerLines()
    ensures ENTRY_LISTENER == [':', '\n'] + Line(LISTENER_LINE)
  {
  }

  lemma EnabledLines()
    ensures ENTRY_ENABLED == Line(ENABLED_LINE)
  {
  }

  lemma AdvertiseLines()
    ensures ENTRY_ADVERTISE == ['"', '\n'] + ADVERTISE_START && ENTRY_END == ['"', '\n']
  {
  }

  lemma PluginLines()
    ensures SECTION_HEAD == Line(PLUGIN_LINE)
  {
  }

  lemma GroupHeadLines(name: string)
    ensures GroupHead(name) == Line(NameLine("    ", name)) + Line(SERVICE_LINE)
  {
    assert ":\n      service:\n" == [':', '\n'] + Line(SERVICE_LINE);
  }

  lemma FiveLines(
      indent: string, name: string, listener: string, enabled: string, listen: string, port: string,
      advertise: string, address: string)
    ensures (indent + name + ([':', '\n'] + Line(listener)) + Line(enabled))
            + (listen + port + (['"', '\n'] + advertise)) + address + ['"', '\n']
         == Join([NameLine(indent, name), listener, enabled, Quoted(listen, port), Quoted(advertise, address)])
  {
    var a, b, c := NameLine(indent, name), Quoted(listen, port), Quoted(advertise, address);
    JoinFive(a, listener, enabled, b, c);
    assert indent + name + ([':', '\n'] + Line(listener)) + Line(enabled) == Line(a) + Line(listener) + Line(enabled);
    assert listen + port + (['"', '\n'] + advertise) == Line(b) + advertise;
    assert advertise + address + ['"', '\n'] == Line(c);
  }

  lemma JoinFive(a: string, b: string, c: string, d: string, e: string)
    ensures Join([a, b, c, d, e]) == Line(a) + Line(b) + Line(c) + Line(d) + Line(e)
  {
    assert [a, b, c, d, e][..4] == [a, b, c, d] && [a, b, c, d][..3] == [a, b, c];
    assert [a, b, c][..2] == [a, b] && [a, b][..1] == [a] && [a][..0] == [];
    assert Join([a]) == Line(a);
    assert Join([a, b]) == Line(a) + Line(b);
    assert Join([a, b, c]) == Line(a) + Line(b) + Line(c);
    assert Join([a, b, c, d]) == Line(a) + Line(b) + Line(c) + Line(d);
  }

  lemma EntryAsLines(l: Listener, advert: Advert)
    ensures Render(EntryPieces(l), advert) == Join(EntryLines(l, AsIs(), advert))
  {
    ListenerLines();
    EnabledLines();
    AdvertiseLines();
    FiveLines(ENTRY_INDENT, l.service, LISTENER_LINE, ENABLED_LINE, ENTRY_LISTEN, Decimal(l.port),
              ADVERTISE_START, advert(l));
    RenderThree(EntryHead(l), l, ENTRY_END, advert);
  }

  lemma RenderThree(a: string, l: Listener, b: string, advert: Advert)
    ensures Render([Fixed(a), Advertised(l), Fixed(b)], advert) == a + advert(l) + b
  {
    var ps := [Fixed(a), Advertised(l), Fixed(b)];
    assert ps[..2][..1][..0] == [] && ps[..2][..1] == [Fixed(a)];
    assert Render([Fixed(a)], advert) == a;
    assert Render(ps[..2], advert) == a + advert(l);
  }

  lemma {:induction false} EntriesAsLines(ls: seq<Listener>, advert: Advert)
    ensures Render(EntriesPieces(ls), advert) == Join(EntriesLines(ls, AsIs(), advert))
  {
    if ls != [] {
      var init, last := ls[..|ls| - 1], ls[|ls| - 1];
      EntriesAsLines(init, advert);
      EntryAsLines(last, advert);
      RenderAppend(EntriesPieces(init), EntryPieces(last), advert);
      JoinAppend(EntriesLines(init, AsIs(), advert), EntryLines(last, AsIs(), advert));
    }
  }

  lemma RenderOne(text: string, advert: Advert)
    ensures Render([Fixed(text)], advert) == text
  {
    RenderOneMore([], Fixed(text), advert);
    assert [] + [Fixed(text)] == [Fixed(text)] && Render([], advert) == "";
  }

  lemma JoinTwo(a: string, b: string)
    ensures Join([a, b]) == Line(a) + Line(b) && Join([a]) == Line(a)
  {
    assert [a, b][..1] == [a] && [a][..0] == [];
    assert Join([a]) == Line(a);
  }

  lemma GroupAsLines(g: Group, advert: Advert)
    ensures Render(GroupPieces(g), advert) == Join(GroupLines(g, AsIs(), advert))
  {
    GroupHeadLines(g.name);
    EntriesAsLines(g.entries, advert);
    RenderOne(GroupHead(g.name), advert);
    RenderAppend([Fixed(GroupHead(g.name))], EntriesPieces(g.entries), advert);
    JoinTwo(NameLine("    ", g.name), SERVICE_LINE);
    JoinAppend([NameLine("    ", g.name), SERVICE_LINE], EntriesLines(g.entries, AsIs(), advert));
  }

  lemma {:induction false} GroupsAsLines(groups: seq<Group>, advert: Advert)
    ensures Render(GroupsPieces(groups), advert) == Join(GroupsLines(groups, AsIs(), advert))
  {
    if groups != [] {
      var init, last := groups[..|groups| - 1], groups[|groups| - 1];
      GroupsAsLines(init, advert);
      GroupAsLines(last, advert);
      RenderAppend(GroupsPieces(init), GroupPieces(last), advert);
      JoinAppend(GroupsLines(init, AsIs(), advert), GroupLines(last, AsIs(), advert));
    }
  }

  lemma SectionAsLines(groups: seq<Group>, advert: Advert)
    ensures SectionText(groups, advert) == Join(SectionLines(groups, AsIs(), advert))
  {
    if groups != [] {
      PluginLines();
      GroupsAsLines(groups, advert);
      RenderOne(SECTION_HEAD, advert);
      RenderAppend([Fixed(SECTION_HEAD)], GroupsPieces(groups), advert);
      JoinTwo(PLUGIN_LINE, "");
      JoinAppend([PLUGIN_LINE], GroupsLines(groups, AsIs(), advert));
    }
  }

  // ---------------------------------------------------------------- what a script makes of the lines

  /** The holes once the script has worked on them. */
  function Worked(script: string -> string, advert: Advert): Advert {
    l => script(advert(l))
  }

  lemma ScriptAround(script: string -> string, a: string, c: char, text: string, d: char)
    requires WorksByWord(script) && Delimiter(c) && Delimiter(d) && '_' !in a
    ensures script((a + [c]) + text + [d]) == (a + [c]) + script(text) + [d]
  {
    assert (a + [c]) + text + [d] == a + ([c] + (text + ([d] + "")));
    assert Splits(script, a, c, text + ([d] + "")) && Splits(script, text, d, "");
    ScriptEmpty(script);
    assert (a + [c]) + script(text) + [d] == a + ([c] + (script(text) + ([d] + "")));
  }

  lemma ScriptName(script: string -> string, indent: string, name: string)
    requires WorksByWord(script) && '_' !in indent && indent != [] && indent[|indent| - 1] == ' '
    ensures script(NameLine(indent, name)) == NameLine(indent, script(name))
  {
    assert indent == indent[..|indent| - 1] + [' '];
    ScriptAround(script, indent[..|indent| - 1], ' ', name, ':');
  }

  lemma ScriptQuoted(script: string -> string, start: string, text: string)
    requires WorksByWord(script) && '_' !in start && start != [] && Delimiter(start[|start| - 1])
    ensures script(Quoted(start, text)) == Quoted(start, script(text))
  {
    assert start == start[..|start| - 1] + [start[|start| - 1]];
    ScriptAround(script, start[..|start| - 1], start[|start| - 1], text, '"');
  }

  lemma PlainLines()
    ensures '_' !in PLUGIN_LINE && '_' !in SERVICE_LINE && '_' !in LISTENER_LINE && '_' !in ENABLED_LINE
  {
  }

  lemma KeptLines(script: string -> string)
    requires WorksByWord(script)
    ensures script(PLUGIN_LINE) == PLUGIN_LINE && script(SERVICE_LINE) == SERVICE_LINE
    ensures script(LISTENER_LINE) == LISTENER_LINE && script(ENABLED_LINE) == ENABLED_LINE
  {
    PlainLines();
  }

  lemma PlainStarts()
    ensures '_' !in ENTRY_LISTEN && ENTRY_LISTEN != [] && ENTRY_LISTEN[|ENTRY_LISTEN| - 1] == ':'
    ensures '_' !in ADVERTISE_START && ADVERTISE_START != [] && ADVERTISE_START[|ADVERTISE_START| - 1] == '"'
    ensures '_' !in ENTRY_INDENT && ENTRY_INDENT != [] && ENTRY_INDENT[|ENTRY_INDENT| - 1] == ' '
  {
  }

  lemma PortLine(script: string -> string, port: nat)
    requires WorksByWord(script)
    ensures script(Quoted(ENTRY_LISTEN, Decimal(port))) == Quoted(ENTRY_LISTEN, Decimal(port))
  {
    PlainStarts();
    DecimalFree(port, '_');
    ScriptQuoted(script, ENTRY_LISTEN, Decimal(port));
  }

  lemma AdvertLine(script: string -> string, address: string)
    requires WorksByWord(script)
    ensures script(Quoted(ADVERTISE_START, address)) == Quoted(ADVERTISE_START, script(address))
  {
    PlainStarts();
    ScriptQuoted(script, ADVERTISE_START, address);
  }

  lemma ServiceName(script: string -> string, name: string)
    requires WorksByWord(script)
    ensures script(NameLine(ENTRY_INDENT, name)) == NameLine(ENTRY_INDENT, script(name))
  {
    PlainStarts();
    ScriptName(script, ENTRY_INDENT, name);
  }

  lemma FiveImages(
      script: string -> string, a: string, b: string, c: string, d: string, e: string, a': string, e': string)
    requires script(a) == a' && script(b) == b && script(c) == c && script(d) == d && script(e) == e'
    ensures Images(script, [a, b, c, d, e], [a', b, c, d, e'])
  {
  }

  lemma EntryImages(script: string -> string, l: Listener, advert: Advert)
    requires WorksByWord(script) && l.port > 0
    ensures Images(script, EntryLines(l, AsIs(), advert), EntryLines(l, script, Worked(script, advert)))
  {
    KeptLines(script);
    ServiceName(script, l.service);
    PortLine(script, l.port);
    AdvertLine(script, advert(l));
    FiveImages(script, NameLine(ENTRY_INDENT, l.service), LISTENER_LINE, ENABLED_LINE,
               Quoted(ENTRY_LISTEN, Decimal(l.port)), Quoted(ADVERTISE_START, advert(l)),
               NameLine(ENTRY_INDENT, script(l.service)), Quoted(ADVERTISE_START, script(advert(l))));
  }

  lemma {:induction false} EntriesImages(script: string -> string, ls: seq<Listener>, advert: Advert)
    requires WorksByWord(script) && AllUsable(ls)
    ensures Images(script, EntriesLines(ls, AsIs(), advert), EntriesLines(ls, script, Worked(script, advert)))
  {
    if ls != [] {
      var init, last := ls[..|ls| - 1], ls[|ls| - 1];
      assert last in ls && forall l | l in init :: l in ls;
      EntriesImages(script, init, advert);
      EntryImages(script, last, advert);
      ImagesAppend(script, EntriesLines(init, AsIs(), advert), EntriesLines(init, script, Worked(script, advert)),
                   EntryLines(last, AsIs(), advert), EntryLines(last, script, Worked(script, advert)));
    }
  }

  lemma GroupImages(script: string -> string, g: Group, advert: Advert)
    requires WorksByWord(script) && AllUsable(g.entries)
    ensures Images(script, GroupLines(g, AsIs(), advert), GroupLines(g, script, Worked(script, advert)))
  {
    KeptLines(script);
    ScriptName(script, "    ", g.name);
    EntriesImages(script, g.entries, advert);
    ImagesAppend(script, [NameLine("    ", g.name), SERVICE_LINE], [NameLine("    ", script(g.name)), SERVICE_LINE],
                 EntriesLines(g.entries, AsIs(), advert), EntriesLines(g.entries, script, Worked(script, advert)));
  }

  lemma {:induction false} GroupsImages(script: string -> string, groups: seq<Group>, advert: Advert)
    requires WorksByWord(script) && forall g | g in groups :: AllUsable(g.entries)
    ensures Images(script, GroupsLines(groups, AsIs(), advert), GroupsLines(groups, script, Worked(script, advert)))
  {
    if groups != [] {
      var init, last := groups[..|groups| - 1], groups[|groups| - 1];
      assert last in groups && forall g | g in init :: g in groups;
      GroupsImages(script, init, advert);
      GroupImages(script, last, advert);
      ImagesAppend(script, GroupsLines(init, AsIs(), advert), GroupsLines(init, script, Worked(script, advert)),
                   GroupLines(last, AsIs(), advert), GroupLines(last, script, Worked(script, advert)));
    }
  }

  lemma SectionImages(script: string -> string, groups: seq<Group>, advert: Advert)
    requires WorksByWord(script) && forall g | g in groups :: AllUsable(g.entries)
    ensures Images(script, SectionLines(groups, AsIs(), advert), SectionLines(groups, script, Worked(script, advert)))
  {
    KeptLines(script);
    GroupsImages(script, groups, advert);
    if groups != [] {
      ImagesAppend(script, [PLUGIN_LINE], [PLUGIN_LINE],
                   GroupsLines(groups, AsIs(), advert), GroupsLines(groups, script, Worked(script, advert)));
    }
  }

  // ---------------------------------------------------------------- the lines determine names and addresses

  /** The same names and addresses throughout. */
  ghost predicate SameEntries(
      ls: seq<Listener>, spell: string -> string, advert: Advert, spell': string -> string, advert': Advert) {
    forall l | l in ls :: spell(l.service) == spell'(l.service) && advert(l) == advert'(l)
  }

  ghost predicate SameGroups(
      groups: seq<Group>, spell: string -> string, advert: Advert, spell': string -> string, advert': Advert) {
    forall g | g in groups :: spell(g.name) == spell'(g.name) && SameEntries(g.entries, spell, advert, spell', advert')
  }

  lemma NameLineIff(indent: string, a: string, b: string)
    ensures NameLine(indent, a) == NameLine(indent, b) <==> a == b
  {
    assert a == NameLine(indent, a)[|indent|..|indent| + |a|];
    assert b == NameLine(indent, b)[|indent|..|indent| + |b|];
    assert |NameLine(indent, a)| == |indent| + |a| + 1 && |NameLine(indent, b)| == |indent| + |b| + 1;
  }

  lemma QuotedIff(start: string, a: string, b: string)
    ensures Quoted(start, a) == Quoted(start, b) <==> a == b
  {
    assert a == Quoted(start, a)[|start|..|start| + |a|];
    assert b == Quoted(start, b)[|start|..|start| + |b|];
    assert |Quoted(start, a)| == |start| + |a| + 1 && |Quoted(start, b)| == |start| + |b| + 1;
  }

  lemma FiveIff(a: string, b: string, c: string, d: string, e: string, a': string, e': string)
    ensures [a, b, c, d, e] == [a', b, c, d, e'] <==> a == a' && e == e'
  {
    assert [a, b, c, d, e][0] == a && [a, b, c, d, e][4] == e;
    assert [a', b, c, d, e'][0] == a' && [a', b, c, d, e'][4] == e';
  }

  lemma EntryIff(l: Listener, spell: string -> string, advert: Advert, spell': string -> string, advert': Advert)
    ensures EntryLines(l, spell, advert) == EntryLines(l, spell', advert')
       <==> spell(l.service) == spell'(l.service) && advert(l) == advert'(l)
  {
    NameLineIff(ENTRY_INDENT, spell(l.service), spell'(l.service));
    QuotedIff(ADVERTISE_START, advert(l), advert'(l));
    FiveIff(NameLine(ENTRY_INDENT, spell(l.service)), LISTENER_LINE, ENABLED_LINE,
            Quoted(ENTRY_LISTEN, Decimal(l.port)), Quoted(ADVERTISE_START, advert(l)),
            NameLine(ENTRY_INDENT, spell'(l.service)), Quoted(ADVERTISE_START, advert'(l)));
  }

  lemma AppendIff<T>(a: seq<T>, b: seq<T>, c: seq<T>, d: seq<T>)
    requires |a| == |c|
    ensures a + b == c + d <==> a == c && b == d
  {
    assert (a + b)[..|a|] == a && (a + b)[|a|..] == b && (c + d)[..|c|] == c && (c + d)[|c|..] == d;
  }

  lemma {:induction false} EntriesIff(
      ls: seq<Listener>, spell: string -> string, advert: Advert, spell': string -> string, advert': Advert)
    ensures |EntriesLines(ls, spell, advert)| == |EntriesLines(ls, spell', advert')|
    ensures EntriesLines(ls, spell, advert) == EntriesLines(ls, spell', advert')
       <==> SameEntries(ls, spell, advert, spell', advert')
  {
    if ls != [] {
      var init, last := ls[..|ls| - 1], ls[|ls| - 1];
      assert ls == init + [last];
      EntriesIff(init, spell, advert, spell', advert');
      EntryIff(last, spell, advert, spell', advert');
      AppendIff(EntriesLines(init, spell, advert), EntryLines(last, spell, advert),
                EntriesLines(init, spell', advert'), EntryLines(last, spell', advert'));
      assert last in ls && forall l | l in init :: l in ls;
    }
  }

  lemma GroupIff(g: Group, spell: string -> string, advert: Advert, spell': string -> string, advert': Advert)
    ensures |GroupLines(g, spell, advert)| == |GroupLines(g, spell', advert')|
    ensures GroupLines(g, spell, advert) == GroupLines(g, spell', advert')
       <==> spell(g.name) == spell'(g.name) && SameEntries(g.entries, spell, advert, spell', advert')
  {
    var a, b := NameLine("    ", spell(g.name)), NameLine("    ", spell'(g.name));
    NameLineIff("    ", spell(g.name), spell'(g.name));
    EntriesIff(g.entries, spell, advert, spell', advert');
    AppendIff([a, SERVICE_LINE], EntriesLines(g.entries, spell, advert),
              [b, SERVICE_LINE], EntriesLines(g.entries, spell', advert'));
    assert [a, SERVICE_LINE][0] == a && [b, SERVICE_LINE][0] == b;
  }

  lemma {:induction false} GroupsIff(
      groups: seq<Group>, spell: string -> string, advert: Advert, spell': string -> string, advert': Advert)
    ensures |GroupsLines(groups, spell, advert)| == |GroupsLines(groups, spell', advert')|
    ensures GroupsLines(groups, spell, advert) == GroupsLines(groups, spell', advert')
       <==> SameGroups(groups, spell, advert, spell', advert')
  {
    if groups != [] {
      var init, last := groups[..|groups| - 1], groups[|groups| - 1];
      assert groups == init + [last];
      GroupsIff(init, spell, advert, spell', advert');
      GroupIff(last, spell, advert, spell', advert');
      AppendIff(GroupsLines(init, spell, advert), GroupLines(last, spell, advert),
                GroupsLines(init, spell', advert'), GroupLines(last, spell', advert'));
      assert last in groups && forall g | g in init :: g in groups;
    }
  }

  lemma SectionIff(
      groups: seq<Group>, spell: string -> string, advert: Advert, spell': string -> string, advert': Advert)
    ensures |SectionLines(groups, spell, advert)| == |SectionLines(groups, spell', advert')|
    ensures SectionLines(groups, spell, advert) == SectionLines(groups, spell', advert')
       <==> SameGroups(groups, spell, advert, spell', advert')
  {
    GroupsIff(groups, spell, advert, spell', advert');
    AppendIff([PLUGIN_LINE], GroupsLines(groups, spell, advert), [PLUGIN_LINE], GroupsLines(groups, spell', advert'));
  }

  /** In terms of the listeners that are printed. */
  ghost predicate SameListeners(
      ls: seq<Listener>, spell: string -> string, advert: Advert, spell': string -> string, advert': Advert) {
    SameEntries(ls, spell, advert, spell', advert') && forall l | l in ls :: spell(l.plugin) == spell'(l.plugin)
  }

  lemma {:induction false} ServiceListenersMember(plugin: string, services: seq<PluginService>)
    ensures forall l | l in ServiceListeners(plugin, services) ::
              l.plugin == plugin && exists s :: s in services && l.service == s.name && l.port == s.listenerPort
  {
    if services != [] {
      ServiceListenersMember(plugin, services[..|services| - 1]);
      assert services == services[..|services| - 1] + [services[|services| - 1]];
    }
  }

  lemma {:induction false} GroupsAreListeners(
      plugins: seq<Plugin>, spell: string -> string, advert: Advert, spell': string -> string, advert': Advert)
    ensures SameGroups(Groups(plugins), spell, advert, spell', advert')
       <==> SameListeners(Exposed(PluginListeners(plugins)), spell, advert, spell', advert')
  {
    if plugins != [] {
      var init, last := plugins[..|plugins| - 1], plugins[|plugins| - 1];
      var own := ServiceListeners(last.name, last.services);
      GroupsAreListeners(init, spell, advert, spell', advert');
      ExposedAppend(PluginListeners(init), own);
      ServiceListenersMember(last.name, last.services);
      ExposedMember(own);
      OneMoreGroup(Groups(init), Exposed(PluginListeners(init)), last.name, Exposed(own),
                   spell, advert, spell', advert');
    }
  }

  lemma OneMoreGroup(
      groups: seq<Group>, ls: seq<Listener>, name: string, entries: seq<Listener>,
      spell: string -> string, advert: Advert, spell': string -> string, advert': Advert)
    requires SameGroups(groups, spell, advert, spell', advert') <==> SameListeners(ls, spell, advert, spell', advert')
    requires forall l | l in entries :: l.plugin == name
    ensures SameGroups(groups + (if entries == [] then [] else [Group(name, entries)]), spell, advert, spell', advert')
       <==> SameListeners(ls + entries, spell, advert, spell', advert')
  {
    var all := ls + entries;
    assert forall l :: l in all <==> l in ls || l in entries;
    if entries == [] {
      assert groups + [] == groups;
    } else {
      var more := groups + [Group(name, entries)];
      assert forall g :: g in more <==> g in groups || g == Group(name, entries);
      assert entries[0] in entries;
    }
  }

  // ---------------------------------------------------------------- the sed script

  predicate IsPlainChar(c: char) {
    'A' <= c <= 'Z' || 'a' <= c <= 'z' || IsDigit(c) || c == '-' || c == '_'
  }

  /** Letters, digits, hyphens and underscores: nothing that the shell or sed reads as anything but text. */
  predicate Plain(s: string) {
    forall c | c in s :: IsPlainChar(c)
  }

  predicate PlainListener(l: Listener) {
    Plain(l.plugin) && Plain(l.service) && l.port > 0
  }

  predicate PlainListeners(ls: seq<Listener>) {
    forall l | l in ls :: PlainListener(l)
  }

  predicate CleanSite(id: Identity, tier: string, pod: string) {
    Clean(id.name) && Clean(id.namespace) && Clean(tier) && Clean(pod)
  }

  /** The script for these listeners, on the pod. */
  function Script(ls: seq<Listener>, id: Identity, tier: string, pod: string): string -> string {
    text => RunSed(text, SedExpressions(id, tier, ls), PodVars(pod, id.namespace))
  }

  lemma ScriptOneMore(text: string, ls: seq<Listener>, id: Identity, tier: string, pod: string)
    requires CleanSite(id, tier, pod) && ls != [] && ls[|ls| - 1].port > 0
    ensures Script(ls, id, tier, pod)(text)
         == ReplaceAll(Script(ls[..|ls| - 1], id, tier, pod)(text),
                       Placeholder(ls[|ls| - 1]), Address(pod, id, tier, ls[|ls| - 1].port))
  {
    var es, last := SedExpressions(id, tier, ls), ls[|ls| - 1];
    assert es[..|es| - 1] == SedExpressions(id, tier, ls[..|ls| - 1]);
    assert es[|es| - 1] == SedExpression(id, tier, last);
    ExpandAddress(pod, id, tier, last.port);
  }

  lemma UpperPlain(s: string)
    requires Plain(s)
    ensures Plain(Upper(s))
  {
    var u := Upper(s);
    forall i | 0 <= i < |s|
      ensures IsPlainChar(u[i])
    {
      assert s[i] in s;
    }
  }

  lemma FramedPlain(h: string, a: string, b: string)
    requires Plain(h) && Plain(a) && Plain(b)
    ensures Plain(Framed(h, a, b)) && Framed(h, a, b) != []
    ensures Framed(h, a, b)[0] == '_' && Framed(h, a, b)[|Framed(h, a, b)| - 1] == '_'
  {
  }

  lemma PlaceholderPlain(l: Listener)
    requires Plain(l.plugin) && Plain(l.service)
    ensures Plain(Placeholder(l)) && Placeholder(l) != []
    ensures Placeholder(l)[0] == '_' && Placeholder(l)[|Placeholder(l)| - 1] == '_'
  {
    UpperPlain(l.plugin);
    UpperPlain(l.service);
    assert Plain(PLACEHOLDER_HEAD);
    FramedPlain(PLACEHOLDER_HEAD, Upper(l.plugin), Upper(l.service));
  }

  lemma AddressFree(pod: string, id: Identity, tier: string, port: nat, c: char)
    requires c == '_' || c == '"' || c == '\n'
    requires CleanSite(id, tier, pod)
    ensures c !in Address(pod, id, tier, port)
  {
    DecimalFree(port, c);
    assert c !in ".svc.cluster.local:";
    assert c !in "-interconnect";
    assert c !in InterconnectName(id, tier);
  }

  lemma AddressHasOneColon(pod: string, id: Identity, tier: string, port: nat)
    requires CleanSite(id, tier, pod)
    ensures Count(Address(pod, id, tier, port), ':') == 1
  {
    var head := pod + "." + InterconnectName(id, tier) + "." + id.namespace + ".svc.cluster.local";
    assert ':' !in "-interconnect" && ':' !in ".svc.cluster.local";
    assert ':' !in InterconnectName(id, tier);
    assert ".svc.cluster.local:" == ".svc.cluster.local" + [':'];
    assert Address(pod, id, tier, port) == head + ([':'] + Decimal(port));
    OneColon(head, port);
  }

  lemma OneColon(head: string, port: nat)
    requires ':' !in head
    ensures Count(head + ([':'] + Decimal(port)), ':') == 1
  {
    DecimalFree(port, ':');
    CountNone(head, ':');
    CountNone(Decimal(port), ':');
    CountAppend(head, [':'] + Decimal(port), ':');
    CountAppend([':'], Decimal(port), ':');
  }

  lemma PlainHasNoDelimiter(s: string, c: char)
    requires Plain(s) && Delimiter(c)
    ensures c !in s
  {
  }

  lemma {:induction false} ScriptSplits(
      ls: seq<Listener>, id: Identity, tier: string, pod: string, a: string, c: char, b: string)
    requires CleanSite(id, tier, pod) && PlainListeners(ls) && Delimiter(c)
    ensures Splits(Script(ls, id, tier, pod), a, c, b)
  {
    if ls != [] {
      var init, last := ls[..|ls| - 1], ls[|ls| - 1];
      var script := Script(init, id, tier, pod);
      assert last in ls && forall l | l in init :: l in ls;
      ScriptSplits(init, id, tier, pod, a, c, b);
      ScriptOneMore(a + ([c] + b), ls, id, tier, pod);
      ScriptOneMore(a, ls, id, tier, pod);
      ScriptOneMore(b, ls, id, tier, pod);
      PlaceholderPlain(last);
      PlainHasNoDelimiter(Placeholder(last), c);
      ReplaceSplits(script(a), c, script(b), Placeholder(last), Address(pod, id, tier, last.port));
    }
  }

  /** No placeholder of these listeners stands in the text. */
  ghost predicate Untouched(ls: seq<Listener>, text: string) {
    forall l | l in ls :: !Occurs(Placeholder(l), text)
  }

  lemma TraceOneMore(text: string, before: string, untouched: bool, p: string, r: string)
    requires if untouched then before == text else Count(before, ':') > Count(text, ':')
    requires p != [] && ':' !in p && Count(r, ':') == 1
    ensures var out := ReplaceAll(before, p, r);
            if untouched && !Occurs(p, text) then out == text else Count(out, ':') > Count(text, ':')
  {
    ReplaceCounts(before, p, r, ':');
    if untouched && !Occurs(p, text) {
      ReplaceAbsent(text, p, r);
    }
  }

  lemma UntouchedOneMore(ls: seq<Listener>, text: string)
    requires ls != []
    ensures Untouched(ls, text) <==>
              Untouched(ls[..|ls| - 1], text) && !Occurs(Placeholder(ls[|ls| - 1]), text)
  {
    assert ls == ls[..|ls| - 1] + [ls[|ls| - 1]];
  }

  /** The script leaves a text as it is where no placeholder stands in it, and nowhere else: each
      replacement adds a colon. */
  lemma {:induction false} ScriptTrace(ls: seq<Listener>, id: Identity, tier: string, pod: string, text: string)
    requires CleanSite(id, tier, pod) && PlainListeners(ls)
    ensures var out := Script(ls, id, tier, pod)(text);
            if Untouched(ls, text) then out == text else Count(out, ':') > Count(text, ':')
  {
    if ls != [] {
      var init, last := ls[..|ls| - 1], ls[|ls| - 1];
      assert last in ls && forall l | l in init :: l in ls;
      ScriptTrace(init, id, tier, pod, text);
      ScriptOneMore(text, ls, id, tier, pod);
      PlaceholderPlain(last);
      PlainHasNoDelimiter(Placeholder(last), ':');
      AddressHasOneColon(pod, id, tier, last.port);
      UntouchedOneMore(ls, text);
      TraceOneMore(text, Script(init, id, tier, pod)(text), Untouched(init, text),
                   Placeholder(last), Address(pod, id, tier, last.port));
    }
  }

  lemma ScriptKeepsIff(ls: seq<Listener>, id: Identity, tier: string, pod: string, text: string)
    requires CleanSite(id, tier, pod) && PlainListeners(ls)
    ensures Script(ls, id, tier, pod)(text) == text <==> Untouched(ls, text)
  {
    ScriptTrace(ls, id, tier, pod, text);
  }

  lemma {:induction false} ScriptAddsNoBreak(ls: seq<Listener>, id: Identity, tier: string, pod: string, text: string)
    requires CleanSite(id, tier, pod) && PlainListeners(ls) && '\n' !in text
    ensures '\n' !in Script(ls, id, tier, pod)(text)
  {
    if ls != [] {
      var init, last := ls[..|ls| - 1], ls[|ls| - 1];
      assert last in ls && forall l | l in init :: l in ls;
      ScriptAddsNoBreak(init, id, tier, pod, text);
      ScriptOneMore(text, ls, id, tier, pod);
      AddressFree(pod, id, tier, last.port, '\n');
      ReplaceAddsNo(Script(init, id, tier, pod)(text), Placeholder(last), Address(pod, id, tier, last.port), '\n');
    }
  }

  lemma NoUnderscoreUntouched(ls: seq<Listener>, text: string)
    requires PlainListeners(ls) && '_' !in text
    ensures Untouched(ls, text)
  {
    forall l | l in ls
      ensures !Occurs(Placeholder(l), text)
    {
      PlaceholderPlain(l);
      assert Placeholder(l)[0] in Placeholder(l);
      if Occurs(Placeholder(l), text) {
        OccursHas(Placeholder(l), text, '_');
      }
    }
  }

  lemma ScriptWorksByWord(ls: seq<Listener>, id: Identity, tier: string, pod: string)
    requires CleanSite(id, tier, pod) && PlainListeners(ls)
    ensures WorksByWord(Script(ls, id, tier, pod))
  {
    var script := Script(ls, id, tier, pod);
    forall a, c, b | Delimiter(c)
      ensures Splits(script, a, c, b)
    {
      ScriptSplits(ls, id, tier, pod, a, c, b);
    }
    forall t: string | '_' !in t
      ensures script(t) == t
    {
      NoUnderscoreUntouched(ls, t);
      ScriptKeepsIff(ls, id, tier, pod, t);
    }
    forall t: string | '\n' !in t
      ensures '\n' !in script(t)
    {
      ScriptAddsNoBreak(ls, id, tier, pod, t);
    }
  }

  // ---------------------------------------------------------------- what becomes of a placeholder

  /** The first listener whose placeholder stands in the text. */
  ghost function FirstHit(ls: seq<Listener>, text: string): Option<Listener> {
    if ls == [] then None
    else
      var earlier, last := FirstHit(ls[..|ls| - 1], text), ls[|ls| - 1];
      if earlier.Some? || !Occurs(Placeholder(last), text) then earlier else Some(last)
  }

  /** What the script makes of a placeholder: nothing if no listener hits it, the address of the first
      listener that hits it if that one has this very placeholder, and else a spoiled text. */
  ghost predicate Becomes(text: string, hit: Option<Listener>, out: string, id: Identity, tier: string, pod: string) {
    if hit.None? then out == text
    else if Placeholder(hit.value) == text then hit.value.port > 0 && out == Address(pod, id, tier, hit.value.port)
    else Spoiled(out)
  }

  lemma BecomesOneMore(
      text: string, hit: Option<Listener>, out: string, last: Listener, id: Identity, tier: string, pod: string)
    requires CleanSite(id, tier, pod) && PlainListener(last) && Becomes(text, hit, out, id, tier, pod)
    requires text != [] && text[0] == '_' && text[|text| - 1] == '_'
    ensures Becomes(text, if hit.Some? || !Occurs(Placeholder(last), text) then hit else Some(last),
                    ReplaceAll(out, Placeholder(last), Address(pod, id, tier, last.port)), id, tier, pod)
  {
    var p, r := Placeholder(last), Address(pod, id, tier, last.port);
    PlaceholderPlain(last);
    PlainHasNoDelimiter(p, ':');
    AddressHasOneColon(pod, id, tier, last.port);
    if hit.None? {
      if !Occurs(p, text) {
        ReplaceAbsent(text, p, r);
      } else if p == text {
        ReplaceWhole(text, r);
      } else {
        PartSpoils(text, p, r);
      }
    } else if Placeholder(hit.value) == text {
      AddressFree(pod, id, tier, hit.value.port, '_');
      AddressUntouched(p, out, r);
    } else {
      StaysSpoiled(out, p, r);
    }
  }

  lemma AddressUntouched(p: string, address: string, r: string)
    requires p != [] && p[0] == '_' && '_' !in address
    ensures ReplaceAll(address, p, r) == address
  {
    assert p[0] in p;
    if Occurs(p, address) {
      OccursHas(p, address, '_');
    }
    ReplaceAbsent(address, p, r);
  }

  lemma {:induction false} ScriptOnPlaceholder(ls: seq<Listener>, id: Identity, tier: string, pod: string, text: string)
    requires CleanSite(id, tier, pod) && PlainListeners(ls)
    requires text != [] && text[0] == '_' && text[|text| - 1] == '_'
    ensures Becomes(text, FirstHit(ls, text), Script(ls, id, tier, pod)(text), id, tier, pod)
  {
    if ls != [] {
      var init, last := ls[..|ls| - 1], ls[|ls| - 1];
      assert last in ls && forall l | l in init :: l in ls;
      ScriptOnPlaceholder(init, id, tier, pod, text);
      ScriptOneMore(text, ls, id, tier, pod);
      BecomesOneMore(text, FirstHit(init, text), Script(init, id, tier, pod)(text), last, id, tier, pod);
    }
  }

  // ---------------------------------------------------------------- when two listeners share a placeholder

  lemma UpperJoined(a: string, b: string)
    ensures Upper(a + ['_'] + b) == Upper(a) + ['_'] + Upper(b)
  {
  }

  /** "<plugin>_<service>" ignoring case: all that a placeholder shows of its listener. */
  predicate SharePlaceholder(l: Listener, m: Listener) {
    EqualFold(l.plugin + ['_'] + l.service, m.plugin + ['_'] + m.service)
  }

  /** For any names at all, two listeners have the same placeholder exactly when their names, joined by
      an underscore, are equal ignoring case. */
  lemma PlaceholderIff(l: Listener, m: Listener)
    ensures Placeholder(l) == Placeholder(m) <==> SharePlaceholder(l, m)
  {
    UpperJoined(l.plugin, l.service);
    UpperJoined(m.plugin, m.service);
    FramedIff(PLACEHOLDER_HEAD, Upper(l.plugin), Upper(l.service), Upper(m.plugin), Upper(m.service));
  }

  lemma FramedIff(h: string, a: string, b: string, c: string, d: string)
    ensures Framed(h, a, b) == Framed(h, c, d) <==> a + ['_'] + b == c + ['_'] + d
  {
    var x, y := Framed(h, a, b), Framed(h, c, d);
    assert x[|h| + 1..|x| - 2] == a + ['_'] + b && y[|h| + 1..|y| - 2] == c + ['_'] + d;
  }

  /** Without underscores in the names, that is: exactly when both names are equal ignoring case. */
  lemma PlaceholderInjective(l: Listener, m: Listener)
    requires Clean(l.plugin) && Clean(l.service) && Clean(m.plugin) && Clean(m.service)
    ensures Placeholder(l) == Placeholder(m)
       <==> EqualFold(l.plugin, m.plugin) && EqualFold(l.service, m.service)
  {
    PlaceholderIff(l, m);
    UpperJoined(l.plugin, l.service);
    UpperJoined(m.plugin, m.service);
    if SharePlaceholder(l, m) {
      UpperClean(l.plugin);
      UpperClean(m.plugin);
      SplitFirst(Upper(l.plugin), Upper(l.service), Upper(m.plugin), Upper(m.service), '_');
    }
  }

  lemma UpperClean(s: string)
    requires Clean(s)
    ensures '_' !in Upper(s)
  {
    assert forall i | 0 <= i < |s| :: s[i] in s && Upper(s)[i] == UpperChar(s[i]);
  }

  // ---------------------------------------------------------------- whose address a hole ends up with

  /** The first listener whose placeholder stands in this one's has the same placeholder and port. */
  ghost predicate Settled(ls: seq<Listener>, l: Listener) {
    var hit := FirstHit(ls, Placeholder(l));
    hit.Some? && SharePlaceholder(hit.value, l) && hit.value.port == l.port
  }

  lemma AddressDeterminesPort(pod: string, id: Identity, tier: string, p: nat, q: nat)
    requires Address(pod, id, tier, p) == Address(pod, id, tier, q)
    ensures p == q
  {
    var a := pod + "." + InterconnectName(id, tier) + "." + id.namespace + ".svc.cluster.local:";
    assert Address(pod, id, tier, p)[|a|..] == Decimal(p);
    assert Address(pod, id, tier, q)[|a|..] == Decimal(q);
    DecimalInjective(p, q);
  }

  lemma AddressNotSpoiled(pod: string, id: Identity, tier: string, port: nat)
    requires CleanSite(id, tier, pod)
    ensures !Spoiled(Address(pod, id, tier, port)) && '_' !in Address(pod, id, tier, port)
  {
    var a := Address(pod, id, tier, port);
    AddressHasOneColon(pod, id, tier, port);
    AddressFree(pod, id, tier, port, '_');
    assert a == [] || (a[0] in a && a[|a| - 1] in a);
  }

  lemma SettledIff(ls: seq<Listener>, id: Identity, tier: string, pod: string, l: Listener)
    requires CleanSite(id, tier, pod) && PlainListeners(ls) && PlainListener(l)
    ensures Script(ls, id, tier, pod)(Placeholder(l)) == Address(pod, id, tier, l.port) <==> Settled(ls, l)
  {
    var text, hit := Placeholder(l), FirstHit(ls, Placeholder(l));
    PlaceholderPlain(l);
    ScriptOnPlaceholder(ls, id, tier, pod, text);
    AddressNotSpoiled(pod, id, tier, l.port);
    assert text[0] in text;
    if hit.Some? {
      PlaceholderIff(hit.value, l);
      if Placeholder(hit.value) == text && Address(pod, id, tier, hit.value.port) == Address(pod, id, tier, l.port) {
        AddressDeterminesPort(pod, id, tier, hit.value.port, l.port);
      }
    }
  }

  // ---------------------------------------------------------------- the pod's file

  predicate PlainPlugins(plugins: seq<Plugin>) {
    forall p | p in plugins :: Plain(p.name) && forall s | s in p.services :: Plain(s.name)
  }

  predicate PlainGroups(groups: seq<Group>) {
    forall g | g in groups :: Plain(g.name) && PlainListeners(g.entries)
  }

  lemma {:induction false} PlainPluginsListeners(plugins: seq<Plugin>)
    requires PlainPlugins(plugins)
    ensures PlainListeners(Exposed(PluginListeners(plugins)))
    ensures PlainGroups(Groups(plugins)) && forall g | g in Groups(plugins) :: AllUsable(g.entries)
  {
    if plugins != [] {
      var init, last := plugins[..|plugins| - 1], plugins[|plugins| - 1];
      assert last in plugins && forall p | p in init :: p in plugins;
      PlainPluginsListeners(init);
      var ls := ServiceListeners(last.name, last.services);
      ServiceListenersMember(last.name, last.services);
      ExposedMember(ls);
      ExposedAppend(PluginListeners(init), ls);
    }
  }

  /** The config section that the pod should end up with, had it been rendered for it directly. */
  function DirectSection(plugins: seq<Plugin>, id: Identity, tier: string, pod: string): string {
    SectionText(Groups(plugins), OwnAddress(pod, id, tier))
  }

  function OwnAddress(pod: string, id: Identity, tier: string): Advert {
    (l: Listener) => Address(pod, id, tier, l.port)
  }

  /** What the init container writes: the template file, run through the generated sed script with
      the pod's own variables. */
  function PodFile(front: string, plugins: seq<Plugin>, id: Identity, tier: string, pod: string): string {
    RunSed(front + SectionText(Groups(plugins), Placeholder),
           SedExpressions(id, tier, Exposed(PluginListeners(plugins))), PodVars(pod, id.namespace))
  }

  /** Each name and each placeholder of the section is worked on by itself, whatever stands around it;
      the rest of the section stays. */
  lemma ScriptResult(front: string, plugins: seq<Plugin>, id: Identity, tier: string, pod: string)
    requires CleanSite(id, tier, pod) && PlainPlugins(plugins) && EndsLine(front)
    ensures var script := Script(Exposed(PluginListeners(plugins)), id, tier, pod);
            PodFile(front, plugins, id, tier, pod)
            == script(front) + Join(SectionLines(Groups(plugins), script, Worked(script, Placeholder)))
  {
    var groups, ls := Groups(plugins), Exposed(PluginListeners(plugins));
    var script := Script(ls, id, tier, pod);
    PlainPluginsListeners(plugins);
    ScriptWorksByWord(ls, id, tier, pod);
    SectionAsLines(groups, Placeholder);
    ScriptAfterLines(script, front, SectionText(groups, Placeholder));
    SectionImages(script, groups, Placeholder);
    ScriptJoin(script, SectionLines(groups, AsIs(), Placeholder),
               SectionLines(groups, script, Worked(script, Placeholder)));
  }

  /** All the ways in which the script can go wrong, excluded: nothing that is not a placeholder contains
      one, and each placeholder is settled by a listener with its port. */
  ghost predicate NothingMistaken(front: string, ls: seq<Listener>) {
    && Untouched(ls, front)
    && forall l | l in ls :: Untouched(ls, l.plugin) && Untouched(ls, l.service) && Settled(ls, l)
  }

  ghost predicate AllOneLine(lines: seq<string>) {
    forall x | x in lines :: OneLine(x)
  }

  lemma EntryOneLine(l: Listener, advert: Advert)
    requires PlainListener(l) && OneLine(advert(l))
    ensures AllOneLine(EntryLines(l, AsIs(), advert))
  {
    DecimalFree(l.port, '\n');
    assert OneLine(LISTENER_LINE) && OneLine(ENABLED_LINE) && OneLine(ENTRY_INDENT) && OneLine(ENTRY_LISTEN);
    assert OneLine(ADVERTISE_START);
  }

  lemma {:induction false} EntriesOneLine(ls: seq<Listener>, advert: Advert)
    requires PlainListeners(ls) && forall l | l in ls :: OneLine(advert(l))
    ensures AllOneLine(EntriesLines(ls, AsIs(), advert))
  {
    if ls != [] {
      assert ls[|ls| - 1] in ls && forall l | l in ls[..|ls| - 1] :: l in ls;
      EntriesOneLine(ls[..|ls| - 1], advert);
      EntryOneLine(ls[|ls| - 1], advert);
    }
  }

  lemma GroupOneLine(g: Group, advert: Advert)
    requires Plain(g.name) && PlainListeners(g.entries) && forall l | l in g.entries :: OneLine(advert(l))
    ensures AllOneLine(GroupLines(g, AsIs(), advert))
  {
    EntriesOneLine(g.entries, advert);
    assert OneLine(SERVICE_LINE) && OneLine("    ");
    assert OneLine(NameLine("    ", g.name));
  }

  lemma {:induction false} GroupsOneLine(groups: seq<Group>, advert: Advert)
    requires PlainGroups(groups) && forall g, l | g in groups && l in g.entries :: OneLine(advert(l))
    ensures AllOneLine(GroupsLines(groups, AsIs(), advert))
  {
    if groups != [] {
      var init, last := groups[..|groups| - 1], groups[|groups| - 1];
      assert last in groups && forall g | g in init :: g in groups;
      GroupsOneLine(init, advert);
      GroupOneLine(last, advert);
    }
  }

  lemma SectionOneLine(groups: seq<Group>, advert: Advert)
    requires PlainGroups(groups) && forall g, l | g in groups && l in g.entries :: OneLine(advert(l))
    ensures AllOneLine(SectionLines(groups, AsIs(), advert))
  {
    GroupsOneLine(groups, advert);
    assert OneLine(PLUGIN_LINE);
  }

  lemma ImagesOneLine(script: string -> string, xs: seq<string>, ys: seq<string>)
    requires WorksByWord(script) && Images(script, xs, ys) && AllOneLine(xs)
    ensures AllOneLine(ys)
  {
    forall i | 0 <= i < |ys|
      ensures OneLine(ys[i])
    {
      assert xs[i] in xs && script(xs[i]) == ys[i];
    }
  }

  /** Front and lines are as they should be exactly if the whole file is. */
  lemma FileIff(a: string, xs: seq<string>, b: string, ys: seq<string>)
    requires EndsLine(a) && EndsLine(b) && |xs| == |ys| && AllOneLine(xs) && AllOneLine(ys)
    ensures a + Join(xs) == b + Join(ys) <==> a == b && xs == ys
  {
    if a + Join(xs) == b + Join(ys) {
      LinesDetermined(a, xs, b, ys);
    }
  }

  lemma PlaceholderOneLine(l: Listener)
    requires PlainListener(l)
    ensures OneLine(Placeholder(l))
  {
    PlaceholderPlain(l);
    PlainHasNoDelimiter(Placeholder(l), '\n');
  }

  lemma TemplateOneLine(plugins: seq<Plugin>)
    requires PlainPlugins(plugins)
    ensures AllOneLine(SectionLines(Groups(plugins), AsIs(), Placeholder))
  {
    PlainPluginsListeners(plugins);
    forall g, l | g in Groups(plugins) && l in g.entries
      ensures OneLine(Placeholder(l))
    {
      PlaceholderOneLine(l);
    }
    SectionOneLine(Groups(plugins), Placeholder);
  }

  lemma DirectOneLine(plugins: seq<Plugin>, id: Identity, tier: string, pod: string)
    requires CleanSite(id, tier, pod) && PlainPlugins(plugins)
    ensures AllOneLine(SectionLines(Groups(plugins), AsIs(), OwnAddress(pod, id, tier)))
  {
    PlainPluginsListeners(plugins);
    forall g, l | g in Groups(plugins) && l in g.entries
      ensures OneLine(OwnAddress(pod, id, tier)(l))
    {
      AddressFree(pod, id, tier, l.port, '\n');
    }
    SectionOneLine(Groups(plugins), OwnAddress(pod, id, tier));
  }

  lemma SectionRefinesIff(plugins: seq<Plugin>, id: Identity, tier: string, pod: string)
    requires CleanSite(id, tier, pod) && PlainPlugins(plugins)
    ensures var ls, groups := Exposed(PluginListeners(plugins)), Groups(plugins);
            var script := Script(ls, id, tier, pod);
            (SectionLines(groups, script, Worked(script, Placeholder))
             == SectionLines(groups, AsIs(), OwnAddress(pod, id, tier)))
            <==> forall l | l in ls :: Untouched(ls, l.plugin) && Untouched(ls, l.service) && Settled(ls, l)
  {
    var ls := Exposed(PluginListeners(plugins));
    var script := Script(ls, id, tier, pod);
    PlainPluginsListeners(plugins);
    SectionIff(Groups(plugins), script, Worked(script, Placeholder), AsIs(), OwnAddress(pod, id, tier));
    GroupsAreListeners(plugins, script, Worked(script, Placeholder), AsIs(), OwnAddress(pod, id, tier));
    forall l | l in ls
      ensures script(l.plugin) == AsIs()(l.plugin) <==> Untouched(ls, l.plugin)
      ensures script(l.service) == AsIs()(l.service) <==> Untouched(ls, l.service)
      ensures Worked(script, Placeholder)(l) == OwnAddress(pod, id, tier)(l) <==> Settled(ls, l)
    {
      ScriptKeepsIff(ls, id, tier, pod, l.plugin);
      ScriptKeepsIff(ls, id, tier, pod, l.service);
      SettledIff(ls, id, tier, pod, l);
    }
  }

  /** For all names of letters, digits, hyphens and underscores: the script refines direct rendering,
      character for character, exactly when no name and nothing in front of the section contains a
      placeholder, and the first listener whose placeholder stands in that of another shares it and
      has the same port. */
  lemma ScriptRefinesDirectRendering(front: string, plugins: seq<Plugin>, id: Identity, tier: string, pod: string)
    requires CleanSite(id, tier, pod) && PlainPlugins(plugins) && EndsLine(front)
    ensures PodFile(front, plugins, id, tier, pod) == front + DirectSection(plugins, id, tier, pod)
       <==> NothingMistaken(front, Exposed(PluginListeners(plugins)))
  {
    var groups, ls := Groups(plugins), Exposed(PluginListeners(plugins));
    var script := Script(ls, id, tier, pod);
    var xs := SectionLines(groups, script, Worked(script, Placeholder));
    var ys := SectionLines(groups, AsIs(), OwnAddress(pod, id, tier));
    PlainPluginsListeners(plugins);
    ScriptResult(front, plugins, id, tier, pod);
    SectionAsLines(groups, OwnAddress(pod, id, tier));
    ScriptWorksByWord(ls, id, tier, pod);
    ScriptAfterLines(script, front, "");
    TemplateOneLine(plugins);
    DirectOneLine(plugins, id, tier, pod);
    SectionImages(script, groups, Placeholder);
    ImagesOneLine(script, SectionLines(groups, AsIs(), Placeholder), xs);
    SectionIff(groups, script, Worked(script, Placeholder), AsIs(), OwnAddress(pod, id, tier));
    FileIff(script(front), xs, front, ys);
    ScriptKeepsIff(ls, id, tier, pod, front);
    SectionRefinesIff(plugins, id, tier, pod);
  }
}
