/** The four places that enumerate a tier's plugin listeners: config section, sed script, container
    ports and client Service ports, each built by its own loop. */
module PortAgreement {
  import opened Types
  import opened Listeners
  import opened Builders

  // ---------------------------------------------------------------- sums over spec order

  lemma ListenersOneMore(plugins: seq<Plugin>, n: nat)
    requires n < |plugins|
    ensures PluginListeners(plugins[..n + 1])
         == PluginListeners(plugins[..n]) + ServiceListeners(plugins[n].name, plugins[n].services)
  {
    assert plugins[..n + 1][..n] == plugins[..n];
  }

  lemma ServicesOneMore(plugin: string, services: seq<PluginService>, n: nat)
    requires n < |services|
    ensures ServiceListeners(plugin, services[..n + 1])
         == ServiceListeners(plugin, services[..n]) + [Listener(plugin, services[n].name, services[n].listenerPort)]
  {
    assert services[..n + 1][..n] == services[..n];
  }

  // ---------------------------------------------------------------- the loops

  lemma PortsStep<T>(
      fixed: seq<T>, before: seq<Listener>, own: seq<Listener>, l: Listener, portOf: Listener -> T)
    ensures fixed + Each(before + (own + [l]), portOf) == (fixed + Each(before + own, portOf)) + [portOf(l)]
  {
    assert before + (own + [l]) == (before + own) + [l];
    assert Each((before + own) + [l], portOf) == Each(before + own, portOf) + [portOf(l)];
  }

  /** The port list of the container. */
  method BuildPorts(cl: Cluster, t: Tier) returns (ports: seq<Port>)
    ensures ports == ContainerPorts(cl, t)
  {
    ports := StandardPorts(cl);
    for i := 0 to |t.plugins|
      invariant ports == StandardPorts(cl) + Each(PluginListeners(t.plugins[..i]), PortOf)
    {
      var plugin := t.plugins[i];
      ghost var before := PluginListeners(t.plugins[..i]);
      assert before + ServiceListeners(plugin.name, plugin.services[..0]) == before;
      for j := 0 to |plugin.services|
        invariant ports == StandardPorts(cl)
                           + Each(before + ServiceListeners(plugin.name, plugin.services[..j]), PortOf)
      {
        var svc := plugin.services[j];
        ServicesOneMore(plugin.name, plugin.services, j);
        PortsStep(StandardPorts(cl), before, ServiceListeners(plugin.name, plugin.services[..j]),
                  Listener(plugin.name, svc.name, svc.listenerPort), PortOf);
        ports := ports + [Port(plugin.name + "-" + svc.name, svc.listenerPort)];
      }
      assert plugin.services[..|plugin.services|] == plugin.services;
      ListenersOneMore(t.plugins, i);
    }
    assert t.plugins[..|t.plugins|] == t.plugins;
  }

  /** The port list of the client Service, in a loop of its own. */
  method BuildClientPorts(cl: Cluster, t: Tier) returns (ports: seq<ExposedPort>)
    ensures ports == ClientPorts(cl, t)
  {
    ports := StandardClientPorts(cl);
    for i := 0 to |t.plugins|
      invariant ports == StandardClientPorts(cl) + Each(PluginListeners(t.plugins[..i]), ExposedPortOf)
    {
      var plugin := t.plugins[i];
      ghost var before := PluginListeners(t.plugins[..i]);
      assert before + ServiceListeners(plugin.name, plugin.services[..0]) == before;
      for j := 0 to |plugin.services|
        invariant ports == StandardClientPorts(cl)
                           + Each(before + ServiceListeners(plugin.name, plugin.services[..j]), ExposedPortOf)
      {
        var svc := plugin.services[j];
        ServicesOneMore(plugin.name, plugin.services, j);
        PortsStep(StandardClientPorts(cl), before, ServiceListeners(plugin.name, plugin.services[..j]),
                  Listener(plugin.name, svc.name, svc.listenerPort), ExposedPortOf);
        ports := ports + [ExposedPort(plugin.name + "-" + svc.name, svc.listenerPort, svc.listenerPort)];
      }
      assert plugin.services[..|plugin.services|] == plugin.services;
      ListenersOneMore(t.plugins, i);
    }
    assert t.plugins[..|t.plugins|] == t.plugins;
  }

  /** The sed expressions of the init container. */
  method BuildSedExpressions(id: Identity, t: Tier) returns (exprs: seq<SedExpr>)
    ensures exprs == SedExpressions(id, t.name, Exposed(PluginListeners(t.plugins)))
  {
    exprs := [];
    for i := 0 to |t.plugins|
      invariant exprs == SedExpressions(id, t.name, Exposed(PluginListeners(t.plugins[..i])))
    {
      var plugin := t.plugins[i];
      ghost var before := PluginListeners(t.plugins[..i]);
      assert before + ServiceListeners(plugin.name, plugin.services[..0]) == before;
      for j := 0 to |plugin.services|
        invariant exprs == SedExpressions(id, t.name,
                             Exposed(before + ServiceListeners(plugin.name, plugin.services[..j])))
      {
        var svc := plugin.services[j];
        ServicesOneMore(plugin.name, plugin.services, j);
        SedStep(id, t.name, before, ServiceListeners(plugin.name, plugin.services[..j]),
                Listener(plugin.name, svc.name, svc.listenerPort));
        if svc.listenerPort <= 0 {
          continue;
        }
        exprs := exprs + [SedExpression(id, t.name, Listener(plugin.name, svc.name, svc.listenerPort))];
      }
      assert plugin.services[..|plugin.services|] == plugin.services;
      ListenersOneMore(t.plugins, i);
    }
    assert t.plugins[..|t.plugins|] == t.plugins;
  }

  lemma SedStep(id: Identity, tier: string, before: seq<Listener>, own: seq<Listener>, l: Listener)
    ensures SedExpressions(id, tier, Exposed(before + (own + [l])))
         == SedExpressions(id, tier, Exposed(before + own)) + (if l.port > 0 then [SedExpression(id, tier, l)] else [])
  {
    assert before + (own + [l]) == (before + own) + [l];
    ExposedOneMore(before + own, l);
  }

  /** The plugin section of a tier's config: first the plugins with a usable port are collected, then
      they are printed. */
  method BuildPluginSection(t: Tier) returns (out: string)
    ensures out == PluginSection(t)
  {
    var groups := CollectGroups(t.plugins);
    if |groups| == 0 {
      return "";
    }
    ghost var head := [Fixed(SECTION_HEAD)];
    HeadText(SECTION_HEAD);
    out := SECTION_HEAD;
    for i := 0 to |groups|
      invariant out == Render(head + GroupsPieces(groups[..i]), Placeholder)
    {
      var group := PrintGroup(groups[i]);
      GroupsStep(head, groups, i);
      out := out + group;
    }
    assert groups[..|groups|] == groups;
  }

  lemma GroupsStep(head: seq<Piece>, groups: seq<Group>, i: nat)
    requires i < |groups|
    ensures Render(head + GroupsPieces(groups[..i + 1]), Placeholder)
         == Render(head + GroupsPieces(groups[..i]), Placeholder) + Render(GroupPieces(groups[i]), Placeholder)
  {
    assert groups[..i + 1][..i] == groups[..i];
    var before := head + GroupsPieces(groups[..i]);
    assert head + (GroupsPieces(groups[..i]) + GroupPieces(groups[i])) == before + GroupPieces(groups[i]);
    RenderAppend(before, GroupPieces(groups[i]), Placeholder);
  }

  method CollectGroups(plugins: seq<Plugin>) returns (groups: seq<Group>)
    ensures groups == Groups(plugins)
  {
    groups := [];
    for i := 0 to |plugins|
      invariant groups == Groups(plugins[..i])
    {
      var p := plugins[i];
      var entries := [];
      for j := 0 to |p.services|
        invariant entries == Exposed(ServiceListeners(p.name, p.services[..j]))
      {
        var s := p.services[j];
        ServicesOneMore(p.name, p.services, j);
        ExposedOneMore(ServiceListeners(p.name, p.services[..j]), Listener(p.name, s.name, s.listenerPort));
        if s.listenerPort > 0 {
          entries := entries + [Listener(p.name, s.name, s.listenerPort)];
        }
      }
      assert p.services[..|p.services|] == p.services;
      assert plugins[..i + 1][..i] == plugins[..i];
      if |entries| > 0 {
        groups := groups + [Group(p.name, entries)];
      }
    }
    assert plugins[..|plugins|] == plugins;
  }

  lemma HeadText(text: string)
    ensures Render([Fixed(text)] + [], Placeholder) == text
  {
    assert [Fixed(text)] + [] == [] + [Fixed(text)];
    RenderOneMore([], Fixed(text), Placeholder);
    assert Render([], Placeholder) == "";
  }

  method PrintGroup(g: Group) returns (out: string)
    ensures out == Render(GroupPieces(g), Placeholder)
  {
    ghost var head := [Fixed(GroupHead(g.name))];
    HeadText(GroupHead(g.name));
    out := GroupHead(g.name);
    for i := 0 to |g.entries|
      invariant out == Render(head + EntriesPieces(g.entries[..i]), Placeholder)
    {
      var entry := PrintEntry(g.entries[i]);
      EntriesStep(head, g.entries, i);
      out := out + entry;
    }
    assert g.entries[..|g.entries|] == g.entries;
  }

  method PrintEntry(l: Listener) returns (out: string)
    ensures out == Render(EntryPieces(l), Placeholder)
  {
    EntryText(l);
    out := EntryHead(l) + Placeholder(l) + ENTRY_END;
  }

  lemma EntriesStep(head: seq<Piece>, ls: seq<Listener>, i: nat)
    requires i < |ls|
    ensures Render(head + EntriesPieces(ls[..i + 1]), Placeholder)
         == Render(head + EntriesPieces(ls[..i]), Placeholder) + Render(EntryPieces(ls[i]), Placeholder)
  {
    assert ls[..i + 1][..i] == ls[..i];
    var before := head + EntriesPieces(ls[..i]);
    assert head + (EntriesPieces(ls[..i]) + EntryPieces(ls[i])) == before + EntryPieces(ls[i]);
    RenderAppend(before, EntryPieces(ls[i]), Placeholder);
  }

  lemma ThreePieces(a: Piece, b: Piece, c: Piece, advert: Advert)
    ensures Render([a, b, c], advert) == PieceText(a, advert) + PieceText(b, advert) + PieceText(c, advert)
  {
    assert [a, b, c][..2] == [a, b] && [a, b][..1] == [a] && [a][..0] == [];
    assert Render([a], advert) == PieceText(a, advert);
    assert Render([a, b], advert) == PieceText(a, advert) + PieceText(b, advert);
  }

  lemma EntryText(l: Listener)
    ensures Render(EntryPieces(l), Placeholder) == EntryHead(l) + Placeholder(l) + ENTRY_END
  {
    ThreePieces(Fixed(EntryHead(l)), Advertised(l), Fixed(ENTRY_END), Placeholder);
  }

  // ---------------------------------------------------------------- agreement

  /** The listeners a piece of config text advertises, in order. */
  function Holes(ps: seq<Piece>): seq<Listener> {
    if ps == [] then []
    else
      var last := ps[|ps| - 1];
      Holes(ps[..|ps| - 1]) + (if last.Advertised? then [last.listener] else [])
  }

  lemma {:induction false} HolesAppend(a: seq<Piece>, b: seq<Piece>)
    ensures Holes(a + b) == Holes(a) + Holes(b)
  {
    if b == [] {
      assert a + b == a;
    } else {
      HolesAppend(a, b[..|b| - 1]);
      assert (a + b)[..|a + b| - 1] == a + b[..|b| - 1];
    }
  }

  lemma HolesJoin(a: seq<Piece>, b: seq<Piece>, x: seq<Listener>, y: seq<Listener>)
    requires Holes(a) == x && Holes(b) == y
    ensures Holes(a + b) == x + y
  {
    HolesAppend(a, b);
  }

  lemma EntryHoles(l: Listener)
    ensures Holes(EntryPieces(l)) == [l]
  {
    var ps := EntryPieces(l);
    assert ps[..2][..1][..0] == [];
    assert Holes(ps[..1]) == [] && Holes(ps[..2]) == [l];
  }

  /** Pieces that are put together listener by listener, one hole each, have the holes in order. */
  lemma {:induction false} HolesInOrder(
      ls: seq<Listener>, pieces: Listener -> seq<Piece>, all: seq<Listener> -> seq<Piece>)
    requires all([]) == []
    requires forall xs: seq<Listener>, x: Listener :: all(xs + [x]) == all(xs) + pieces(x)
    requires forall x: Listener :: Holes(pieces(x)) == [x]
    ensures Holes(all(ls)) == ls
  {
    if ls != [] {
      var init, last := ls[..|ls| - 1], ls[|ls| - 1];
      assert ls == init + [last];
      HolesInOrder(init, pieces, all);
      HolesJoin(all(init), pieces(last), init, [last]);
    }
  }

  lemma EntriesOneMore(ls: seq<Listener>, l: Listener)
    ensures EntriesPieces(ls + [l]) == EntriesPieces(ls) + EntryPieces(l)
  {
    assert (ls + [l])[..|ls|] == ls;
  }

  lemma EntriesInOrder(ls: seq<Listener>)
    ensures Holes(EntriesPieces(ls)) == ls
  {
    forall xs: seq<Listener>, x: Listener
      ensures EntriesPieces(xs + [x]) == EntriesPieces(xs) + EntryPieces(x)
    {
      EntriesOneMore(xs, x);
    }
    forall x: Listener
      ensures Holes(EntryPieces(x)) == [x]
    {
      EntryHoles(x);
    }
    HolesInOrder(ls, EntryPieces, EntriesPieces);
  }

  lemma FixedHole(text: string)
    ensures Holes([Fixed(text)]) == []
  {
    assert [Fixed(text)][..0] == [];
  }

  lemma {:induction false} GroupsInOrder(groups: seq<Group>)
    ensures Holes(GroupsPieces(groups)) == Entries(groups)
  {
    if groups != [] {
      var init, last := groups[..|groups| - 1], groups[|groups| - 1];
      GroupsInOrder(init);
      FixedHole(GroupHead(last.name));
      EntriesInOrder(last.entries);
      HolesJoin([Fixed(GroupHead(last.name))], EntriesPieces(last.entries), [], last.entries);
      HolesJoin(GroupsPieces(init), GroupPieces(last), Entries(init), last.entries);
    }
  }

  /** Under the same names and in the same order, each Service port is forwarded to the container port
      of the same number. */
  predicate Forwards(exposed: seq<ExposedPort>, ports: seq<Port>) {
    && |exposed| == |ports|
    && forall i | 0 <= i < |ports| :: ForwardsTo(exposed[i], ports[i])
  }

  predicate ForwardsTo(x: ExposedPort, p: Port) {
    x.name == p.name && x.port == x.targetPort == p.number
  }

  /** Config section and sed script enumerate the listeners with a usable port, container and client
      Service the declared ones, all in spec order; the four agree exactly when every declared port is
      usable. */
  lemma ListenersAgree(hash: Config -> string, cl: Cluster, at: nat, index: nat)
    requires at < |cl.tiers|
    ensures var t := cl.tiers[at];
            var ls := PluginListeners(t.plugins);
            var template := BuildTemplate(hash, cl, at, index);
            && Holes(SectionPieces(Groups(t.plugins))) == Exposed(ls)
            && template.initScript == InitScript(SedExpressions(cl.id, t.name, Exposed(ls)))
            && |template.ports| == 3 + |ls| && template.ports[3..] == Each(ls, PortOf)
            && Forwards(ClientManifest(cl, at).content.live.servicePorts, template.ports)
            && (Exposed(ls) == ls <==> AllUsable(ls))
  {
    var t := cl.tiers[at];
    var ls := PluginListeners(t.plugins);
    var groups := Groups(t.plugins);
    FixedHole(SECTION_HEAD);
    GroupsInOrder(groups);
    if groups != [] {
      HolesJoin([Fixed(SECTION_HEAD)], GroupsPieces(groups), [], Entries(groups));
    }
    EntriesOfGroups(t.plugins);
    ExposedAll(ls);
    PortsForwarded(cl, t);
  }

  lemma PortsForwarded(cl: Cluster, t: Tier)
    ensures |ContainerPorts(cl, t)| == 3 + |PluginListeners(t.plugins)|
    ensures ContainerPorts(cl, t)[3..] == Each(PluginListeners(t.plugins), PortOf)
    ensures Forwards(ClientPorts(cl, t), ContainerPorts(cl, t))
  {
    var ports, exposed := StandardPorts(cl), StandardClientPorts(cl);
    assert Forwards(exposed, ports);
    ForwardsEach(exposed, ports, PluginListeners(t.plugins));
  }

  lemma ForwardsEach(exposed: seq<ExposedPort>, ports: seq<Port>, ls: seq<Listener>)
    requires Forwards(exposed, ports)
    ensures Forwards(exposed + Each(ls, ExposedPortOf), ports + Each(ls, PortOf))
  {
    var xs, ps := Each(ls, ExposedPortOf), Each(ls, PortOf);
    forall i | 0 <= i < |ports| + |ls|
      ensures ForwardsTo((exposed + xs)[i], (ports + ps)[i])
    {
      if i >= |ports| {
        assert (exposed + xs)[i] == ExposedPortOf(ls[i - |ports|]) && (ports + ps)[i] == PortOf(ls[i - |ports|]);
      }
    }
  }
}
