/** Names with at most single underscores inside, the ones that are in use: no placeholder contains
    another, so that only ports can go wrong. And two families of names with which the script fails. */
module SingleUnderscores {
  import opened Text
  import opened Types
  import opened Listeners
  import opened Lines
  import opened Sed
  import opened Substitution

  // ---------------------------------------------------------------- no double underscore

  predicate NoDouble(w: string) {
    forall k | 0 <= k < |w| - 1 :: !(w[k] == '_' && w[k + 1] == '_')
  }

  lemma NoDoubleAppend(u: string, v: string)
    requires NoDouble(u) && NoDouble(v)
    requires v != [] && v[0] != '_'
    ensures NoDouble(u + v)
  {
    forall k | 0 <= k < |u + v| - 1
      ensures !((u + v)[k] == '_' && (u + v)[k + 1] == '_')
    {
      if k >= |u| {
        assert (u + v)[k] == v[k - |u|] && (u + v)[k + 1] == v[k - |u| + 1];
      } else if k < |u| - 1 {
        assert (u + v)[k] == u[k] && (u + v)[k + 1] == u[k + 1];
      }
    }
  }

  // ---------------------------------------------------------------- the shape of a placeholder

  /** What the proofs need to know of PLACEHOLDER_HEAD. */
  predicate GoodHead(h: string) {
    |h| >= 2 && h[0] == '_' && h[1] == 'P' && NoDouble(h)
  }

  /** No double underscore, and none at either end. */
  predicate Calm(w: string) {
    NoDouble(w) && (w != [] ==> w[0] != '_' && w[|w| - 1] != '_')
  }

  predicate GoodPart(a: string) {
    a != [] && Calm(a)
  }

  /** Letters, digits, hyphens and single underscores between them. */
  predicate Named(s: string) {
    s != [] && Calm(s) && Plain(s)
  }

  lemma CleanIsNamed(s: string)
    requires Clean(s)
    ensures Named(s)
  {
    assert '_' !in s;
  }

  lemma NamedUpper(s: string)
    requires Named(s)
    ensures GoodPart(Upper(s))
  {
    var u := Upper(s);
    assert forall i | 0 <= i < |s| :: u[i] == '_' <==> s[i] == '_';
  }

  lemma PlaceholderParts(l: Listener)
    requires Named(l.plugin) && Named(l.service)
    ensures GoodHead(PLACEHOLDER_HEAD) && GoodPart(Upper(l.plugin)) && GoodPart(Upper(l.service))
  {
    NamedUpper(l.plugin);
    NamedUpper(l.service);
  }

  lemma JoinedParts(a: string, b: string)
    requires GoodPart(a) && GoodPart(b)
    ensures GoodPart(a + ['_'] + b)
  {
    var w := a + ['_'] + b;
    forall k | 0 <= k < |w| - 1
      ensures !(w[k] == '_' && w[k + 1] == '_')
    {
      if k + 1 < |a| {
        assert w[k] == a[k] && w[k + 1] == a[k + 1];
      } else if k > |a| {
        assert w[k] == b[k - |a| - 1] && w[k + 1] == b[k - |a|];
      }
    }
    assert w[0] == a[0] && w[|w| - 1] == b[|b| - 1];
  }

  /** Between its first and its last two underscores a placeholder has no double underscore. */
  lemma FrameMiddle(h: string, rest: string)
    requires GoodHead(h) && GoodPart(rest)
    ensures NoDouble(h + rest) && h + rest != [] && (h + rest)[|h + rest| - 1] != '_'
  {
    NoDoubleAppend(h, rest);
  }

  /** Text up to the first double underscore is determined by the whole. */
  lemma NotShorter(a: string, v: string, b: string, q: string)
    requires GoodPart(b) && a + ['_', '_'] + v == b + ['_', '_'] + q
    ensures |a| >= |b|
  {
    var whole := a + ['_', '_'] + v;
    assert whole[|a|] == '_' && whole[|a| + 1] == '_';
    assert forall k | 0 <= k < |b| :: whole[k] == b[k];
  }

  lemma UpToDouble(a: string, v: string, b: string, q: string)
    requires GoodPart(a) && GoodPart(b) && a + ['_', '_'] + v == b + ['_', '_'] + q
    ensures a == b
  {
    NotShorter(a, v, b, q);
    NotShorter(b, q, a, v);
    var whole := a + ['_', '_'] + v;
    assert a == whole[..|a|] && b == whole[..|b|];
  }

  lemma FramedText(h: string, a: string, b: string, v: string)
    ensures Framed(h, a, b) + v == (['_'] + h) + ((a + ['_'] + b) + ['_', '_'] + v)
  {
  }

  /** Only an equal placeholder can match at the start of one. */
  lemma PrefixForcesEqual(h: string, a: string, b: string, v: string, c: string, d: string, rest: string)
    requires GoodPart(a) && GoodPart(b) && GoodPart(c) && GoodPart(d)
    requires Framed(h, a, b) + v == Framed(h, c, d) + rest
    ensures a + ['_'] + b == c + ['_'] + d
  {
    FramedText(h, a, b, v);
    FramedText(h, c, d, rest);
    JoinedParts(a, b);
    JoinedParts(c, d);
    SameAfter(['_'] + h, (a + ['_'] + b) + ['_', '_'] + v, (c + ['_'] + d) + ['_', '_'] + rest);
    UpToDouble(a + ['_'] + b, v, c + ['_'] + d, rest);
  }

  lemma StartsDouble(h: string, a: string, b: string)
    requires GoodHead(h)
    ensures var p := Framed(h, a, b); |p| >= 4 && p[0] == '_' && p[1] == '_' && p[2] == 'P'
  {
    assert Framed(h, a, b)[1] == h[0] && Framed(h, a, b)[2] == h[1];
  }

  lemma MatchStarts(s: string, k: nat, p: string, i: nat)
    requires MatchAt(s, k, p) && i < |p|
    ensures s[k + i] == p[i]
  {
    assert s[k..k + |p|][i] == s[k + i];
  }

  lemma NotInCalm(w: string, h: string, c: string, d: string)
    requires GoodHead(h) && NoDouble(w)
    ensures !Occurs(Framed(h, c, d), w)
  {
    var p := Framed(h, c, d);
    StartsDouble(h, c, d);
    forall k: nat
      ensures !MatchAt(w, k, p)
    {
      if MatchAt(w, k, p) {
        MatchStarts(w, k, p, 0);
        MatchStarts(w, k, p, 1);
      }
    }
  }

  /** A placeholder can only match at the start of another. */
  lemma MatchesAtStart(h: string, a: string, b: string, c: string, d: string, k: nat)
    requires GoodHead(h) && GoodPart(a) && GoodPart(b) && MatchAt(Framed(h, a, b), k, Framed(h, c, d))
    ensures k == 0
  {
    var s, p, middle := Framed(h, a, b), Framed(h, c, d), h + (a + ['_'] + b);
    JoinedParts(a, b);
    FrameMiddle(h, a + ['_'] + b);
    StartsDouble(h, c, d);
    MatchStarts(s, k, p, 0);
    MatchStarts(s, k, p, 1);
    assert |s| == |middle| + 3 && forall i | 0 <= i < |middle| :: s[i + 1] == middle[i];
  }

  lemma OnlyItself(h: string, a: string, b: string, c: string, d: string)
    requires GoodHead(h) && GoodPart(a) && GoodPart(b) && GoodPart(c) && GoodPart(d)
    ensures Occurs(Framed(h, c, d), Framed(h, a, b)) <==> Framed(h, c, d) == Framed(h, a, b)
  {
    var s, p := Framed(h, a, b), Framed(h, c, d);
    if k: nat :| MatchAt(s, k, p) {
      MatchesAtStart(h, a, b, c, d, k);
      assert s == p + s[|p|..] && s + "" == s;
      PrefixForcesEqual(h, a, b, "", c, d, s[|p|..]);
      FramedIff(h, a, b, c, d);
    }
    if s == p {
      assert MatchAt(s, 0, p);
    }
  }

  // ---------------------------------------------------------------- only ports can go wrong

  predicate NamedListener(l: Listener) {
    Named(l.plugin) && Named(l.service) && l.port > 0
  }

  predicate NamedListeners(ls: seq<Listener>) {
    forall l | l in ls :: NamedListener(l)
  }

  lemma NamedOccursIff(l: Listener, m: Listener)
    requires NamedListener(l) && NamedListener(m)
    ensures Occurs(Placeholder(m), Placeholder(l)) <==> SharePlaceholder(m, l)
  {
    PlaceholderParts(l);
    PlaceholderParts(m);
    PlaceholderIff(m, l);
    OnlyItself(PLACEHOLDER_HEAD, Upper(l.plugin), Upper(l.service), Upper(m.plugin), Upper(m.service));
  }

  lemma NamedUntouched(ls: seq<Listener>, name: string)
    requires NamedListeners(ls) && Named(name)
    ensures Untouched(ls, name)
  {
    forall l | l in ls
      ensures !Occurs(Placeholder(l), name)
    {
      PlaceholderParts(l);
      NotInCalm(name, PLACEHOLDER_HEAD, Upper(l.plugin), Upper(l.service));
    }
  }

  /** The first listener that shares this one's placeholder. */
  function FirstSharer(ls: seq<Listener>, l: Listener): Option<Listener> {
    if ls == [] then None
    else
      var earlier, last := FirstSharer(ls[..|ls| - 1], l), ls[|ls| - 1];
      if earlier.Some? || !SharePlaceholder(last, l) then earlier else Some(last)
  }

  lemma {:induction false} FirstHitShares(ls: seq<Listener>, l: Listener)
    requires NamedListeners(ls) && NamedListener(l)
    ensures FirstHit(ls, Placeholder(l)) == FirstSharer(ls, l)
    ensures FirstSharer(ls, l).Some? ==> FirstSharer(ls, l).value in ls && SharePlaceholder(FirstSharer(ls, l).value, l)
    ensures l in ls ==> FirstSharer(ls, l).Some?
  {
    if ls != [] {
      var init, last := ls[..|ls| - 1], ls[|ls| - 1];
      assert ls == init + [last];
      assert last in ls && forall m | m in init :: m in ls;
      FirstHitShares(init, l);
      NamedOccursIff(l, last);
    }
  }

  lemma {:induction false} SharersAgree(ls: seq<Listener>, l: Listener, m: Listener)
    requires SharePlaceholder(l, m)
    ensures FirstSharer(ls, l) == FirstSharer(ls, m)
  {
    if ls != [] {
      SharersAgree(ls[..|ls| - 1], l, m);
    }
  }

  /** Listeners that share a placeholder have the same port. */
  predicate PortsAgree(ls: seq<Listener>) {
    forall l, m | l in ls && m in ls && SharePlaceholder(l, m) :: l.port == m.port
  }

  /** The port of the first sharer. */
  function DecidedPort(ls: seq<Listener>, l: Listener): Int32 {
    var first := FirstSharer(ls, l);
    if first.Some? then first.value.port else l.port
  }

  lemma SettledByFirst(ls: seq<Listener>, l: Listener)
    requires NamedListeners(ls) && l in ls
    ensures Settled(ls, l) <==> DecidedPort(ls, l) == l.port
    ensures FirstSharer(ls, l).Some? && FirstSharer(ls, l).value in ls && SharePlaceholder(FirstSharer(ls, l).value, l)
  {
    FirstHitShares(ls, l);
  }

  /** That is everybody's own exactly when sharers agree. */
  lemma AllSettledIff(ls: seq<Listener>)
    requires NamedListeners(ls)
    ensures (forall l | l in ls :: Settled(ls, l)) <==> PortsAgree(ls)
  {
    if forall l | l in ls :: Settled(ls, l) {
      forall l, m | l in ls && m in ls && SharePlaceholder(l, m)
        ensures l.port == m.port
      {
        SettledByFirst(ls, l);
        SettledByFirst(ls, m);
        SharersAgree(ls, l, m);
      }
    }
    if PortsAgree(ls) {
      forall l | l in ls
        ensures Settled(ls, l)
      {
        SettledByFirst(ls, l);
        AgreesWith(ls, FirstSharer(ls, l).value, l);
      }
    }
  }

  lemma AgreesWith(ls: seq<Listener>, l: Listener, m: Listener)
    requires PortsAgree(ls) && l in ls && m in ls && SharePlaceholder(l, m)
    ensures l.port == m.port
  {
  }

  predicate NamedPlugins(plugins: seq<Plugin>) {
    forall p | p in plugins :: Named(p.name) && forall s | s in p.services :: Named(s.name)
  }

  lemma {:induction false} NamedPluginsListeners(plugins: seq<Plugin>)
    requires NamedPlugins(plugins)
    ensures NamedListeners(Exposed(PluginListeners(plugins)))
  {
    if plugins != [] {
      var init, last := plugins[..|plugins| - 1], plugins[|plugins| - 1];
      assert last in plugins && forall p | p in init :: p in plugins;
      NamedPluginsListeners(init);
      var ls := ServiceListeners(last.name, last.services);
      ServiceListenersMember(last.name, last.services);
      ExposedMember(ls);
      ExposedAppend(PluginListeners(init), ls);
    }
  }

  /** With such names the script refines direct rendering exactly when nothing in front of the section
      contains a placeholder and listeners that share a placeholder agree on their port. */
  lemma RefinesIffPortsAgree(front: string, plugins: seq<Plugin>, id: Identity, tier: string, pod: string)
    requires CleanSite(id, tier, pod) && NamedPlugins(plugins) && EndsLine(front)
    ensures PodFile(front, plugins, id, tier, pod) == front + DirectSection(plugins, id, tier, pod)
       <==> Untouched(Exposed(PluginListeners(plugins)), front) && PortsAgree(Exposed(PluginListeners(plugins)))
  {
    var ls := Exposed(PluginListeners(plugins));
    NamedPluginsListeners(plugins);
    ScriptRefinesDirectRendering(front, plugins, id, tier, pod);
    AllSettledIff(ls);
    forall l | l in ls
      ensures Untouched(ls, l.plugin) && Untouched(ls, l.service)
    {
      NamedUntouched(ls, l.plugin);
      NamedUntouched(ls, l.service);
    }
  }

  // ---------------------------------------------------------------- two families that go wrong

  lemma {:induction false} TwoListeners(
      x: string, s: string, p: Int32, y: string, t: string, q: Int32, plugins: seq<Plugin>)
    requires p > 0 && q > 0
    requires |plugins| == 2 && plugins[0].name == x && plugins[1].name == y
    requires plugins[0].services == [PluginService(s, p)] && plugins[1].services == [PluginService(t, q)]
    ensures Exposed(PluginListeners(plugins)) == [Listener(x, s, p), Listener(y, t, q)]
  {
    assert plugins[..1][..0] == [] && plugins[..2] == plugins;
    assert [PluginService(s, p)][..0] == [] && [PluginService(t, q)][..0] == [];
    assert ServiceListeners(x, plugins[0].services) == [Listener(x, s, p)];
    assert ServiceListeners(y, plugins[1].services) == [Listener(y, t, q)];
    assert PluginListeners(plugins[..1]) == [Listener(x, s, p)];
    var ls := [Listener(x, s, p), Listener(y, t, q)];
    assert ls[..1] == [Listener(x, s, p)] && ls[..1][..0] == [];
    assert Exposed(ls[..1]) == [Listener(x, s, p)];
  }

  lemma TwoAgreeIff(l: Listener, m: Listener)
    requires SharePlaceholder(l, m)
    ensures PortsAgree([l, m]) <==> l.port == m.port
  {
    assert l in [l, m] && m in [l, m];
  }

  lemma JoinedNames(x: string, y: string)
    requires Clean(x) && Clean(y)
    ensures Named(x) && Named(y) && Named(x + ['_'] + y)
  {
    CleanIsNamed(x);
    CleanIsNamed(y);
    JoinedParts(x, y);
  }

  /** Plugin "x_y" with service "z", plugin "x" with service "y_z". */
  predicate Ambiguous(plugins: seq<Plugin>, x: string, y: string, z: string, p: Int32, q: Int32) {
    && |plugins| == 2 && plugins[0].name == x + ['_'] + y && plugins[1].name == x
    && plugins[0].services == [PluginService(z, p)] && plugins[1].services == [PluginService(y + ['_'] + z, q)]
  }

  lemma AmbiguousAreNamed(plugins: seq<Plugin>, x: string, y: string, z: string, p: Int32, q: Int32)
    requires Ambiguous(plugins, x, y, z, p, q) && Clean(x) && Clean(y) && Clean(z)
    ensures NamedPlugins(plugins)
  {
    JoinedNames(x, y);
    JoinedNames(y, z);
  }

  lemma AmbiguousShare(x: string, y: string, z: string, p: Int32, q: Int32)
    ensures SharePlaceholder(Listener(x + ['_'] + y, z, p), Listener(x, y + ['_'] + z, q))
  {
    assert (x + ['_'] + y) + ['_'] + z == x + ['_'] + (y + ['_'] + z);
  }

  /** These two share a placeholder: after an innocent front the pod's file is right exactly when their
      ports are equal. */
  lemma UnderscoreNamesCollide(
      front: string, x: string, y: string, z: string, p: Int32, q: Int32, plugins: seq<Plugin>,
      id: Identity, tier: string, pod: string)
    requires Clean(x) && Clean(y) && Clean(z) && p > 0 && q > 0 && CleanSite(id, tier, pod)
    requires Ambiguous(plugins, x, y, z, p, q) && EndsLine(front) && Untouched(Exposed(PluginListeners(plugins)), front)
    ensures PodFile(front, plugins, id, tier, pod) == front + DirectSection(plugins, id, tier, pod) <==> p == q
  {
    TwoListeners(x + ['_'] + y, z, p, x, y + ['_'] + z, q, plugins);
    AmbiguousAreNamed(plugins, x, y, z, p, q);
    AmbiguousShare(x, y, z, p, q);
    RefinesIffPortsAgree(front, plugins, id, tier, pod);
    TwoAgreeIff(Listener(x + ['_'] + y, z, p), Listener(x, y + ['_'] + z, q));
  }

  /** Service "s" before service "s_" of the same plugin. */
  predicate Trailing(plugins: seq<Plugin>, x: string, s: string, p: Int32, q: Int32) {
    |plugins| == 1 && plugins[0].name == x && plugins[0].services == [PluginService(s, p), PluginService(s + ['_'], q)]
  }

  lemma TrailingListeners(plugins: seq<Plugin>, x: string, s: string, p: Int32, q: Int32)
    requires p > 0 && q > 0 && Trailing(plugins, x, s, p, q)
    ensures Exposed(PluginListeners(plugins)) == [Listener(x, s, p), Listener(x, s + ['_'], q)]
  {
    var services, ls := plugins[0].services, [Listener(x, s, p), Listener(x, s + ['_'], q)];
    assert plugins[..0] == [] && services[..1][..0] == [];
    assert ServiceListeners(x, services[..1]) == [Listener(x, s, p)];
    assert ServiceListeners(x, services) == ls;
    assert ls[..1] == [Listener(x, s, p)] && ls[..1][..0] == [];
    assert Exposed(ls[..1]) == [Listener(x, s, p)];
  }

  lemma TrailingContains(x: string, s: string, p: Int32, q: Int32)
    ensures Occurs(Placeholder(Listener(x, s, p)), Placeholder(Listener(x, s + ['_'], q)))
    ensures !SharePlaceholder(Listener(x, s, p), Listener(x, s + ['_'], q))
  {
    var a, b := Placeholder(Listener(x, s, p)), Placeholder(Listener(x, s + ['_'], q));
    assert Upper(s + ['_']) == Upper(s) + ['_'];
    assert b == a + ['_'];
    assert MatchAt(b, 0, a);
    PlaceholderIff(Listener(x, s, p), Listener(x, s + ['_'], q));
  }

  lemma SecondNotSettled(l: Listener, m: Listener)
    requires Occurs(Placeholder(l), Placeholder(m)) && !SharePlaceholder(l, m)
    ensures !Settled([l, m], m)
  {
    assert [l, m][..1] == [l] && [l][..0] == [];
    assert FirstHit([l], Placeholder(m)) == Some(l);
  }

  /** Then the first placeholder is the beginning of the second one's, and the pod's file is wrong
      whatever the ports are. */
  lemma TrailingUnderscoreBreaks(
      front: string, x: string, s: string, p: Int32, q: Int32, plugins: seq<Plugin>,
      id: Identity, tier: string, pod: string)
    requires Plain(x) && Plain(s) && p > 0 && q > 0 && CleanSite(id, tier, pod) && EndsLine(front)
    requires Trailing(plugins, x, s, p, q)
    ensures PodFile(front, plugins, id, tier, pod) != front + DirectSection(plugins, id, tier, pod)
  {
    var l, m := Listener(x, s, p), Listener(x, s + ['_'], q);
    TrailingListeners(plugins, x, s, p, q);
    TrailingContains(x, s, p, q);
    SecondNotSettled(l, m);
    ScriptRefinesDirectRendering(front, plugins, id, tier, pod);
    assert m in [l, m];
  }
}
