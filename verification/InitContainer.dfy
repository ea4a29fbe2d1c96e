/** The init container: its script, run by a shell with the pod's own variables, makes the config file of
    the pod from the template that the tier's ConfigMap holds. */
module InitContainer {
  import opened Text
  import opened Types
  import opened Names
  import opened Listeners
  import opened Builders
  import opened Lines
  import opened Substitution
  import opened SingleUnderscores
  import opened Shell
  import opened Peer

  // ---------------------------------------------------------------- expressions as words

  function EditText(e: SedExpr): string {
    ("s|" + e.pattern) + (['|'] + (e.replacement + (['|'] + "g")))
  }

  /** Quotes, blanks and bars in the wrong places would make another script of it. */
  ghost predicate Runnable(e: SedExpr, vars: map<string, string>) {
    && '"' !in e.pattern && '"' !in e.replacement && '$' !in e.pattern && '|' !in e.pattern
    && '|' !in ShellExpand(e.replacement, vars)
  }

  function EditOf(e: SedExpr, vars: map<string, string>): Edit {
    Edit(e.pattern, ShellExpand(e.replacement, vars))
  }

  function EditsOf(es: seq<SedExpr>, vars: map<string, string>): seq<Edit> {
    if es == [] then [] else EditsOf(es[..|es| - 1], vars) + [EditOf(es[|es| - 1], vars)]
  }

  function EditWords(es: seq<SedExpr>, vars: map<string, string>): seq<string> {
    if es == [] then []
    else EditWords(es[..|es| - 1], vars) + ["-e", ShellExpand(EditText(es[|es| - 1]), vars)]
  }

  lemma ExprTextParts(e: SedExpr, t: string)
    ensures ExprText(e) + ([' '] + t) == "-e" + ([' '] + (['"'] + (EditText(e) + (['"'] + ([' '] + t)))))
  {
    assert "-e \"s|" == "-e" + ([' '] + (['"'] + "s|"));
    assert "|g\"" == ['|'] + ("g" + ['"']);
    JoinExpr("-e", "s|", e.pattern, e.replacement, t);
  }

  lemma JoinExpr(flag: string, head: string, p: string, r: string, t: string)
    ensures (flag + ([' '] + (['"'] + head))) + p + "|" + r + (['|'] + ("g" + ['"'])) + ([' '] + t)
         == flag + ([' '] + (['"'] + (((head + p) + (['|'] + (r + (['|'] + "g")))) + (['"'] + ([' '] + t)))))
  {
  }

  lemma QuoteFree(e: SedExpr)
    requires '"' !in e.pattern && '"' !in e.replacement
    ensures '"' !in EditText(e)
  {
    assert '"' !in "s|" && '"' !in "g";
  }

  lemma FlagIsBare()
    ensures Bare("-e")
  {
  }

  lemma FlagAndQuoted(flag: string, q: string, t: string, vars: map<string, string>)
    requires Bare(flag) && '"' !in q
    ensures Words(flag + ([' '] + (['"'] + (q + (['"'] + ([' '] + t))))), vars)
         == [flag, ShellExpand(q, vars)] + Words(t, vars)
  {
    BareWord(flag, ['"'] + (q + (['"'] + ([' '] + t))), vars);
    QuotedWord(q, t, vars);
    Associative([flag], [ShellExpand(q, vars)], Words(t, vars));
    assert [flag] + [ShellExpand(q, vars)] == [flag, ShellExpand(q, vars)];
  }

  lemma ExprWords(e: SedExpr, t: string, vars: map<string, string>)
    requires Runnable(e, vars)
    ensures Words(ExprText(e) + ([' '] + t), vars) == ["-e", ShellExpand(EditText(e), vars)] + Words(t, vars)
  {
    ExprTextParts(e, t);
    FlagIsBare();
    QuoteFree(e);
    FlagAndQuoted("-e", EditText(e), t, vars);
  }

  lemma JoinWords(a: string, b: string, t: string)
    ensures (a + [' '] + b) + ([' '] + t) == a + ([' '] + (b + ([' '] + t)))
  {
  }

  lemma ExprsOneMore(es: seq<SedExpr>, t: string)
    requires |es| > 1
    ensures ExprsText(es) + ([' '] + t)
         == ExprsText(es[..|es| - 1]) + ([' '] + (ExprText(es[|es| - 1]) + ([' '] + t)))
  {
    assert ExprsText(es) == ExprsText(es[..|es| - 1]) + [' '] + ExprText(es[|es| - 1]);
    JoinWords(ExprsText(es[..|es| - 1]), ExprText(es[|es| - 1]), t);
  }

  lemma {:induction false} AllExprWords(es: seq<SedExpr>, t: string, vars: map<string, string>)
    requires es != [] && forall e | e in es :: Runnable(e, vars)
    ensures Words(ExprsText(es) + ([' '] + t), vars) == EditWords(es, vars) + Words(t, vars)
  {
    var init, last := es[..|es| - 1], es[|es| - 1];
    assert last in es && forall e | e in init :: e in es;
    if |es| == 1 {
      ExprWords(last, t, vars);
      assert init == [] && EditWords(es, vars) == ["-e", ShellExpand(EditText(last), vars)];
    } else {
      ExprsOneMore(es, t);
      AllExprWords(init, ExprText(last) + ([' '] + t), vars);
      ExprWords(last, t, vars);
      Associative(EditWords(init, vars), ["-e", ShellExpand(EditText(last), vars)], Words(t, vars));
    }
  }

  // ---------------------------------------------------------------- the words as a sed call

  /** Variables are expanded on each side of a bar. */
  lemma {:induction false} ExpandSplits(a: string, b: string, vars: map<string, string>)
    ensures ShellExpand(a + (['|'] + b), vars) == ShellExpand(a, vars) + (['|'] + ShellExpand(b, vars))
    decreases |a|
  {
    var s := a + (['|'] + b);
    if a == [] {
      assert s == ['|'] + b && s[1..] == b;
    } else if a[0] != '$' {
      assert s[0] == a[0] && s[1..] == a[1..] + (['|'] + b);
      ExpandSplits(a[1..], b, vars);
      Regroup([a[0]], ShellExpand(a[1..], vars), ['|'] + ShellExpand(b, vars));
    } else {
      var n := NameLength(a[1..]);
      assert s[0] == '$' && s[1..] == a[1..] + (['|'] + b);
      NameEndsAtBar(a[1..], b);
      assert s[1..][..n] == a[1..][..n] && s[1..][n..] == a[1..][n..] + (['|'] + b);
      ExpandSplits(a[1..][n..], b, vars);
      var head := if n == 0 then ['$'] else if a[1..][..n] in vars then vars[a[1..][..n]] else "";
      assert n == 0 ==> a[1..][n..] == a[1..];
      Regroup(head, ShellExpand(a[1..][n..], vars), ['|'] + ShellExpand(b, vars));
    }
  }

  lemma {:induction false} NameEndsAtBar(a: string, b: string)
    ensures NameLength(a + (['|'] + b)) == NameLength(a)
  {
    var s := a + (['|'] + b);
    if a == [] {
      assert s[0] == '|';
    } else {
      assert s[0] == a[0] && s[1..] == a[1..] + (['|'] + b);
      NameEndsAtBar(a[1..], b);
    }
  }

  lemma EditExpands(e: SedExpr, vars: map<string, string>)
    requires '$' !in e.pattern
    ensures ShellExpand(EditText(e), vars)
         == ("s|" + e.pattern) + (['|'] + (ShellExpand(e.replacement, vars) + (['|'] + "g")))
  {
    ExpandSplits("s|" + e.pattern, e.replacement + (['|'] + "g"), vars);
    ExpandSplits(e.replacement, "g", vars);
    ExpandText("s|" + e.pattern, vars);
    ExpandText("g", vars);
  }

  lemma ReplacementParses(p: string, r: string)
    requires '|' !in r
    ensures ParseReplacement(p, r + (['|'] + "g")) == Some(Edit(p, r))
  {
    UpToFirst(r, '|', "g");
    var rest := r + (['|'] + "g");
    assert rest[..|r|] == r && rest[|r|..] == ['|'] + "g";
    assert "|g" == ['|'] + "g";
  }

  lemma PatternParses(p: string, q: string)
    requires '|' !in p
    ensures ParsePattern(p + (['|'] + q)) == ParseReplacement(p, q)
  {
    UpToFirst(p, '|', q);
    var rest := p + (['|'] + q);
    assert rest[..|p|] == p && rest[|p| + 1..] == q;
  }

  lemma HeadDropped(t: string)
    ensures ParseEdit("s|" + t) == ParsePattern(t)
  {
    assert ("s|" + t)[..2] == "s|" && ("s|" + t)[2..] == t;
  }

  lemma EditParses(p: string, r: string)
    requires '|' !in p && '|' !in r
    ensures ParseEdit(("s|" + p) + (['|'] + (r + (['|'] + "g")))) == Some(Edit(p, r))
  {
    Regroup("s|", p, ['|'] + (r + (['|'] + "g")));
    HeadDropped(p + (['|'] + (r + (['|'] + "g"))));
    PatternParses(p, r + (['|'] + "g"));
    ReplacementParses(p, r);
  }

  lemma {:induction false} WordsParse(
      es: seq<SedExpr>, vars: map<string, string>, rest: seq<string>, edits: seq<Edit>)
    requires forall e | e in es :: Runnable(e, vars)
    ensures ParseSed(EditWords(es, vars) + rest, edits) == ParseSed(rest, edits + EditsOf(es, vars))
  {
    if es == [] {
      assert [] + rest == rest && edits + [] == edits;
    } else {
      var init, last := es[..|es| - 1], es[|es| - 1];
      var here := ["-e", ShellExpand(EditText(last), vars)];
      assert last in es && forall e | e in init :: e in es;
      Associative(EditWords(init, vars), here, rest);
      WordsParse(init, vars, here + rest, edits);
      EditExpands(last, vars);
      EditParses(last.pattern, ShellExpand(last.replacement, vars));
      assert (here + rest)[0] == "-e" && (here + rest)[1] == here[1] && (here + rest)[2..] == rest;
      Associative(edits, EditsOf(init, vars), [EditOf(last, vars)]);
    }
  }

  lemma {:induction false} EditsAreSed(text: string, es: seq<SedExpr>, vars: map<string, string>)
    ensures ApplyEdits(text, EditsOf(es, vars)) == RunSed(text, es, vars)
  {
    if es != [] {
      EditsAreSed(text, es[..|es| - 1], vars);
      assert EditsOf(es, vars)[..|EditsOf(es, vars)| - 1] == EditsOf(es[..|es| - 1], vars);
    }
  }

  // ---------------------------------------------------------------- the script

  const OUTPUT_PATH := "/pico-conf-out/config.yaml"

  lemma OutputPath()
    ensures CONFIG_OUT_DIR + "/config.yaml" == OUTPUT_PATH
  {
  }

  lemma OutputIsBare()
    ensures Bare(OUTPUT_PATH)
  {
  }

  lemma TemplateIsBare()
    ensures Bare(TEMPLATE_PATH)
  {
  }

  lemma CommandsAreBare()
    ensures Bare("sed") && Bare("cp") && Bare(">")
  {
  }

  lemma Paths()
    ensures CONFIG_OUT_DIR + "/config.yaml" == OUTPUT_PATH
    ensures Bare(OUTPUT_PATH) && Bare(TEMPLATE_PATH) && Bare("sed") && Bare("cp") && Bare(">")
  {
    OutputPath();
    OutputIsBare();
    TemplateIsBare();
    CommandsAreBare();
  }

  lemma JoinSed(exprs: string, input: string, dir: string, file: string)
    ensures "sed " + exprs + " " + input + " > " + dir + file
         == "sed" + ([' '] + (exprs + ([' '] + (input + ([' '] + (">" + ([' '] + (dir + file))))))))
  {
    assert "sed " == "sed" + [' '] && " > " == [' '] + (">" + [' ']);
  }

  lemma JoinCp(input: string, dir: string, file: string)
    ensures "cp " + input + " " + dir + file == "cp" + ([' '] + (input + ([' '] + (dir + file))))
  {
    assert "cp " == "cp" + [' '];
  }

  lemma SedScriptWords(es: seq<SedExpr>, vars: map<string, string>)
    requires es != [] && forall e | e in es :: Runnable(e, vars)
    ensures Words(InitScript(es), vars) == ["sed"] + (EditWords(es, vars) + [TEMPLATE_PATH, ">", OUTPUT_PATH])
  {
    Paths();
    JoinSed(ExprsText(es), TEMPLATE_PATH, CONFIG_OUT_DIR, "/config.yaml");
    var tail := TEMPLATE_PATH + ([' '] + (">" + ([' '] + OUTPUT_PATH)));
    BareWord("sed", ExprsText(es) + ([' '] + tail), vars);
    AllExprWords(es, tail, vars);
    BareWord(TEMPLATE_PATH, ">" + ([' '] + OUTPUT_PATH), vars);
    BareWord(">", OUTPUT_PATH, vars);
    LastWord(OUTPUT_PATH, vars);
    assert [TEMPLATE_PATH] + ([">"] + [OUTPUT_PATH]) == [TEMPLATE_PATH, ">", OUTPUT_PATH];
  }

  lemma CpScriptWords(vars: map<string, string>)
    ensures Words(InitScript([]), vars) == ["cp", TEMPLATE_PATH, OUTPUT_PATH]
  {
    Paths();
    JoinCp(TEMPLATE_PATH, CONFIG_OUT_DIR, "/config.yaml");
    BareWord("cp", TEMPLATE_PATH + ([' '] + OUTPUT_PATH), vars);
    BareWord(TEMPLATE_PATH, OUTPUT_PATH, vars);
    LastWord(OUTPUT_PATH, vars);
    assert ["cp"] + ([TEMPLATE_PATH] + [OUTPUT_PATH]) == ["cp", TEMPLATE_PATH, OUTPUT_PATH];
  }

  lemma ScriptCalls(es: seq<SedExpr>, vars: map<string, string>)
    requires es != [] && forall e | e in es :: Runnable(e, vars)
    ensures var words := Words(InitScript(es), vars);
            && words != [] && words[0] == "sed"
            && ParseSed(words[1..], []) == Some(SedCall(EditsOf(es, vars), TEMPLATE_PATH, OUTPUT_PATH))
  {
    var rest := [TEMPLATE_PATH, ">", OUTPUT_PATH];
    SedScriptWords(es, vars);
    WordsParse(es, vars, rest, []);
    assert Words(InitScript(es), vars)[1..] == EditWords(es, vars) + rest;
    assert [] + EditsOf(es, vars) == EditsOf(es, vars);
    ParseRest(EditsOf(es, vars));
  }

  /** The script writes the template, with the expressions applied in order, to the config file of the pod. */
  lemma ScriptRuns(es: seq<SedExpr>, vars: map<string, string>, files: Files)
    requires TEMPLATE_PATH in files && forall e | e in es :: Runnable(e, vars)
    ensures Execute(InitScript(es), vars, files)
         == Some(files[OUTPUT_PATH := RunSed(files[TEMPLATE_PATH], es, vars)])
  {
    if es == [] {
      CpScriptWords(vars);
    } else {
      ScriptCalls(es, vars);
      EditsAreSed(files[TEMPLATE_PATH], es, vars);
    }
  }

  lemma ParseRest(edits: seq<Edit>)
    ensures ParseSed([TEMPLATE_PATH, ">", OUTPUT_PATH], edits) == Some(SedCall(edits, TEMPLATE_PATH, OUTPUT_PATH))
  {
    assert TEMPLATE_PATH[0] == '/';
  }

  // ---------------------------------------------------------------- the pod's own variables

  /** The init container of a pod sees the pod's name and namespace. */
  lemma InitVariables(hash: Config -> string, cl: Cluster, at: nat, index: nat, pod: Pod)
    requires at < |cl.tiers|
    ensures Environment(BuildTemplate(hash, cl, at, index).initEnv, pod)
         == PodVars(pod.field("metadata.name"), pod.field("metadata.namespace"))
  {
    var env := InitEnv();
    assert env[..1] == [env[0]] && env[..1][..0] == [];
    assert Environment(env[..1], pod) == map[POD_VARIABLE := pod.field("metadata.name")];
  }

  lemma TemplateQuoteFree(id: Identity, tier: string, port: nat)
    requires '"' !in id.name && '"' !in tier
    ensures '"' !in AddressTemplate(id, tier, port)
  {
    DecimalFree(port, '"');
    assert '"' !in POD_VARIABLE && '"' !in NAMESPACE_VARIABLE && '"' !in "-interconnect";
    assert '"' !in ".svc.cluster.local:";
    assert '"' !in InterconnectName(id, tier);
  }

  lemma AddressBarFree(pod: string, id: Identity, tier: string, port: nat)
    requires CleanSite(id, tier, pod)
    ensures '|' !in Address(pod, id, tier, port)
  {
    DecimalFree(port, '|');
    assert '|' !in ".svc.cluster.local:" && '|' !in "-interconnect";
    assert '|' !in InterconnectName(id, tier);
  }

  lemma SedIsRunnable(id: Identity, tier: string, pod: string, l: Listener)
    requires CleanSite(id, tier, pod) && PlainListener(l)
    ensures Runnable(SedExpression(id, tier, l), PodVars(pod, id.namespace))
  {
    PlaceholderPlain(l);
    TemplateQuoteFree(id, tier, l.port);
    ExpandAddress(pod, id, tier, l.port);
    AddressBarFree(pod, id, tier, l.port);
  }

  // ---------------------------------------------------------------- the pod's config file

  /** What the pod finds as its config after its init container has run on this template file. */
  function InitOutput(template: Template, pod: Pod, file: string): Option<string> {
    var files := Execute(template.initScript, Environment(template.initEnv, pod), map[TEMPLATE_PATH := file]);
    if files.Some? && OUTPUT_PATH in files.value then Some(files.value[OUTPUT_PATH]) else None
  }

  /** The template file ends with the plugin section. */
  function PodConfig(hash: Config -> string, cl: Cluster, at: nat, index: nat, pod: Pod, front: string): Option<string>
    requires at < |cl.tiers|
  {
    InitOutput(BuildTemplate(hash, cl, at, index), pod, front + BuildConfig(cl, at).pluginSection)
  }

  predicate GoodSite(cl: Cluster, at: nat, pod: Pod)
    requires at < |cl.tiers|
  {
    && CleanSite(cl.id, cl.tiers[at].name, pod.field("metadata.name"))
    && pod.field("metadata.namespace") == cl.id.namespace
  }

  lemma PodConfigIsSed(hash: Config -> string, cl: Cluster, at: nat, index: nat, pod: Pod, front: string)
    requires at < |cl.tiers| && GoodSite(cl, at, pod) && PlainPlugins(cl.tiers[at].plugins)
    ensures PodConfig(hash, cl, at, index, pod, front)
         == Some(PodFile(front, cl.tiers[at].plugins, cl.id, cl.tiers[at].name, pod.field("metadata.name")))
  {
    var t, name := cl.tiers[at], pod.field("metadata.name");
    var ls := Exposed(PluginListeners(t.plugins));
    var es, vars := SedExpressions(cl.id, t.name, ls), PodVars(name, cl.id.namespace);
    PlainPluginsListeners(t.plugins);
    InitVariables(hash, cl, at, index, pod);
    AllRunnable(cl.id, t.name, name, ls);
    ScriptRuns(es, vars, map[TEMPLATE_PATH := front + PluginSection(t)]);
  }

  /** The sed call that the script makes on a pod, if it makes one. */
  function SedOf(template: Template, pod: Pod): Option<SedCall> {
    var words := Words(template.initScript, Environment(template.initEnv, pod));
    if words != [] && words[0] == "sed" then ParseSed(words[1..], []) else None
  }

  lemma {:induction false} EditsInOrder(es: seq<SedExpr>, vars: map<string, string>)
    ensures |EditsOf(es, vars)| == |es| && forall i | 0 <= i < |es| :: EditsOf(es, vars)[i] == EditOf(es[i], vars)
  {
    if es != [] {
      EditsInOrder(es[..|es| - 1], vars);
    }
  }

  lemma AllRunnable(id: Identity, tier: string, pod: string, ls: seq<Listener>)
    requires CleanSite(id, tier, pod) && forall l | l in ls :: PlainListener(l)
    ensures forall e | e in SedExpressions(id, tier, ls) :: Runnable(e, PodVars(pod, id.namespace))
  {
    var es := SedExpressions(id, tier, ls);
    forall e | e in es
      ensures Runnable(e, PodVars(pod, id.namespace))
    {
      var i :| 0 <= i < |es| && es[i] == e;
      SedIsRunnable(id, tier, pod, ls[i]);
    }
  }

  lemma EditsAreAddresses(id: Identity, tier: string, pod: string, ls: seq<Listener>)
    requires CleanSite(id, tier, pod) && forall l | l in ls :: PlainListener(l)
    ensures var edits := EditsOf(SedExpressions(id, tier, ls), PodVars(pod, id.namespace));
            && |edits| == |ls|
            && forall i | 0 <= i < |ls| :: edits[i] == Edit(Placeholder(ls[i]), Address(pod, id, tier, ls[i].port))
  {
    EditsInOrder(SedExpressions(id, tier, ls), PodVars(pod, id.namespace));
    forall i | 0 <= i < |ls|
      ensures EditsOf(SedExpressions(id, tier, ls), PodVars(pod, id.namespace))[i]
           == Edit(Placeholder(ls[i]), Address(pod, id, tier, ls[i].port))
    {
      assert ls[i] in ls;
      ExpandAddress(pod, id, tier, ls[i].port);
    }
  }

  /** On a pod, the script of its template is a sed call from the template file to the config file, with one
      edit per usable listener, in spec order: from its placeholder to the pod's address with its port. */
  lemma ScriptFollowsListeners(hash: Config -> string, cl: Cluster, at: nat, index: nat, pod: Pod)
    requires at < |cl.tiers| && GoodSite(cl, at, pod) && PlainPlugins(cl.tiers[at].plugins)
    requires Exposed(PluginListeners(cl.tiers[at].plugins)) != []
    ensures var t, name, ls := cl.tiers[at], pod.field("metadata.name"), Exposed(PluginListeners(cl.tiers[at].plugins));
            var call := SedOf(BuildTemplate(hash, cl, at, index), pod);
            && call.Some? && call.value.input == TEMPLATE_PATH && call.value.output == OUTPUT_PATH
            && |call.value.edits| == |ls|
            && forall i | 0 <= i < |ls| ::
                 call.value.edits[i] == Edit(Placeholder(ls[i]), Address(name, cl.id, t.name, ls[i].port))
  {
    var t, name, ls := cl.tiers[at], pod.field("metadata.name"), Exposed(PluginListeners(cl.tiers[at].plugins));
    var es, vars := SedExpressions(cl.id, t.name, ls), PodVars(name, cl.id.namespace);
    PlainPluginsListeners(t.plugins);
    ExposedMember(PluginListeners(t.plugins));
    InitVariables(hash, cl, at, index, pod);
    AllRunnable(cl.id, t.name, name, ls);
    ScriptCalls(es, vars);
    EditsAreAddresses(cl.id, t.name, name, ls);
  }

  /** For all names of letters, digits, hyphens and underscores: the pod's config is, character for character,
      the front and the section rendered directly with each service's own address and port, exactly when
      no name and nothing in front contains a placeholder, and each placeholder is settled by a listener
      with its port. */
  lemma PodConfigIsDirectIff(hash: Config -> string, cl: Cluster, at: nat, index: nat, pod: Pod, front: string)
    requires at < |cl.tiers| && GoodSite(cl, at, pod) && PlainPlugins(cl.tiers[at].plugins) && EndsLine(front)
    ensures var t := cl.tiers[at];
            PodConfig(hash, cl, at, index, pod, front)
            == Some(front + DirectSection(t.plugins, cl.id, t.name, pod.field("metadata.name")))
            <==> NothingMistaken(front, Exposed(PluginListeners(t.plugins)))
  {
    PodConfigIsSed(hash, cl, at, index, pod, front);
    ScriptRefinesDirectRendering(front, cl.tiers[at].plugins, cl.id, cl.tiers[at].name, pod.field("metadata.name"));
  }

  /** With single inner underscores: exactly when nothing in front contains a placeholder and listeners that
      share a placeholder have the same port. */
  lemma PodConfigIffPortsAgree(hash: Config -> string, cl: Cluster, at: nat, index: nat, pod: Pod, front: string)
    requires at < |cl.tiers| && GoodSite(cl, at, pod) && NamedPlugins(cl.tiers[at].plugins) && EndsLine(front)
    ensures var t := cl.tiers[at];
            PodConfig(hash, cl, at, index, pod, front)
            == Some(front + DirectSection(t.plugins, cl.id, t.name, pod.field("metadata.name")))
            <==> Untouched(Exposed(PluginListeners(t.plugins)), front)
                 && PortsAgree(Exposed(PluginListeners(t.plugins)))
  {
    assert PlainPlugins(cl.tiers[at].plugins);
    PodConfigIsSed(hash, cl, at, index, pod, front);
    RefinesIffPortsAgree(front, cl.tiers[at].plugins, cl.id, cl.tiers[at].name, pod.field("metadata.name"));
  }

  /** Each name and each placeholder of the section is worked on by itself. */
  lemma PodConfigByWord(hash: Config -> string, cl: Cluster, at: nat, index: nat, pod: Pod, front: string)
    requires at < |cl.tiers| && GoodSite(cl, at, pod) && PlainPlugins(cl.tiers[at].plugins) && EndsLine(front)
    ensures var t := cl.tiers[at];
            var script := Script(Exposed(PluginListeners(t.plugins)), cl.id, t.name, pod.field("metadata.name"));
            PodConfig(hash, cl, at, index, pod, front)
            == Some(script(front) + Join(SectionLines(Groups(t.plugins), script, Worked(script, Placeholder))))
  {
    PodConfigIsSed(hash, cl, at, index, pod, front);
    ScriptResult(front, cl.tiers[at].plugins, cl.id, cl.tiers[at].name, pod.field("metadata.name"));
  }
}
