/** What /bin/sh makes of the one-line scripts of init containers: words, variables, cp and sed. */
module Shell {
  import opened Text
  import opened Listeners

  type Files = map<string, string>

  // ---------------------------------------------------------------- words

  /** Words stand between blanks; blanks inside double quotes do not count, and the quotes go. A word is
      quoted as a whole or not at all. Variables are expanded in both. */
  function Words(s: string, vars: map<string, string>): seq<string> {
    if s == [] then []
    else if s[0] == ' ' then Words(s[1..], vars)
    else if s[0] == '"' then
      var n := UpTo(s[1..], '"');
      [ShellExpand(s[1..][..n], vars)]
      + (if n < |s| - 1 then Words(s[1..][n + 1..], vars) else [])
    else
      var n := UpTo(s, ' ');
      [ShellExpand(s[..n], vars)] + Words(s[n..], vars)
  }

  /** Nothing in the text means anything to the shell but the blank. */
  predicate Bare(w: string) {
    w != [] && ' ' !in w && '"' !in w && '$' !in w
  }

  lemma BareStart(w: string)
    requires Bare(w)
    ensures w[0] != ' ' && w[0] != '"'
  {
    assert w[0] in w;
  }

  lemma BareWord(w: string, t: string, vars: map<string, string>)
    requires Bare(w)
    ensures Words(w + ([' '] + t), vars) == [w] + Words(t, vars)
  {
    var s := w + ([' '] + t);
    BareStart(w);
    UpToFirst(w, ' ', t);
    ExpandText(w, vars);
    assert s[0] == w[0] && s[..|w|] == w && s[|w|..] == [' '] + t;
    assert Words([' '] + t, vars) == Words(t, vars) by {
      assert ([' '] + t)[1..] == t;
    }
  }

  lemma LastWord(w: string, vars: map<string, string>)
    requires Bare(w)
    ensures Words(w, vars) == [w]
  {
    BareStart(w);
    UpToEnd(w, ' ');
    ExpandText(w, vars);
    assert w[..|w|] == w && w[|w|..] == [];
  }

  lemma QuotedWord(q: string, t: string, vars: map<string, string>)
    requires '"' !in q
    ensures Words(['"'] + (q + (['"'] + ([' '] + t))), vars) == [ShellExpand(q, vars)] + Words(t, vars)
  {
    var s := ['"'] + (q + (['"'] + ([' '] + t)));
    UpToFirst(q, '"', [' '] + t);
    assert s[1..] == q + (['"'] + ([' '] + t));
    assert s[1..][..|q|] == q && s[1..][|q| + 1..] == [' '] + t;
    assert Words([' '] + t, vars) == Words(t, vars) by {
      assert ([' '] + t)[1..] == t;
    }
  }

  // ---------------------------------------------------------------- commands

  /** s|pattern|replacement|g */
  datatype Edit = Edit(pattern: string, replacement: string)

  function ParseReplacement(pattern: string, rest: string): Option<Edit> {
    var m := UpTo(rest, '|');
    if rest[m..] != "|g" then None else Some(Edit(pattern, rest[..m]))
  }

  function ParsePattern(rest: string): Option<Edit> {
    var n := UpTo(rest, '|');
    if n == |rest| then None else ParseReplacement(rest[..n], rest[n + 1..])
  }

  function ParseEdit(text: string): Option<Edit> {
    if |text| < 2 || text[..2] != "s|" then None else ParsePattern(text[2..])
  }

  function ApplyEdits(text: string, edits: seq<Edit>): string {
    if edits == [] then text
    else
      var last := edits[|edits| - 1];
      ReplaceAll(ApplyEdits(text, edits[..|edits| - 1]), last.pattern, last.replacement)
  }

  /** sed [-e EDIT]... INPUT > OUTPUT */
  datatype SedCall = SedCall(edits: seq<Edit>, input: string, output: string)

  function ParseSed(args: seq<string>, edits: seq<Edit>): Option<SedCall>
    decreases |args|
  {
    if |args| >= 2 && args[0] == "-e" then
      var edit := ParseEdit(args[1]);
      if edit.None? then None else ParseSed(args[2..], edits + [edit.value])
    else if |args| == 3 && args[1] == ">" then Some(SedCall(edits, args[0], args[2]))
    else None
  }

  /** The files after the script has run, if it is one of these and its input is there. */
  function Execute(script: string, vars: map<string, string>, files: Files): Option<Files> {
    var words := Words(script, vars);
    if |words| == 3 && words[0] == "cp" then
      if words[1] in files then Some(files[words[2] := files[words[1]]]) else None
    else if |words| >= 1 && words[0] == "sed" then
      var sed := ParseSed(words[1..], []);
      if sed.Some? && sed.value.input in files
      then Some(files[sed.value.output := ApplyEdits(files[sed.value.input], sed.value.edits)])
      else None
    else None
  }
}
