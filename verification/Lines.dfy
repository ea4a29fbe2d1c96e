/** Texts as lines, and scripts that work on them word by word. */
module Lines {
  import opened Text

  // ---------------------------------------------------------------- the script, one line at a time

  /** A script that works on each side of a delimiter, leaves text without underscores alone and adds
      no line breaks. */
  ghost predicate WorksByWord(script: string -> string) {
    && (forall a, c, b | Delimiter(c) :: Splits(script, a, c, b))
    && (forall t: string | '_' !in t :: script(t) == t)
    && (forall t: string | '\n' !in t :: '\n' !in script(t))
  }

  predicate Delimiter(c: char) {
    c == '\n' || c == ':' || c == '"' || c == ' '
  }

  predicate Splits(script: string -> string, a: string, c: char, b: string) {
    script(a + ([c] + b)) == script(a) + ([c] + script(b))
  }

  function Line(text: string): string {
    text + ['\n']
  }

  function Join(lines: seq<string>): string {
    if lines == [] then "" else Join(lines[..|lines| - 1]) + Line(lines[|lines| - 1])
  }

  predicate OneLine(text: string) {
    '\n' !in text
  }

  predicate EndsLine(text: string) {
    text != [] ==> text[|text| - 1] == '\n'
  }

  lemma ScriptEmpty(script: string -> string)
    requires WorksByWord(script)
    ensures script("") == ""
  {
  }

  /** What comes after whole lines is worked on separately. */
  lemma ScriptAfterLines(script: string -> string, a: string, b: string)
    requires WorksByWord(script) && EndsLine(a)
    ensures script(a + b) == script(a) + script(b) && EndsLine(script(a))
  {
    ScriptEmpty(script);
    if a == [] {
      assert a + b == b && script(a) + script(b) == script(b);
    } else {
      var init := a[..|a| - 1];
      assert a + b == init + (['\n'] + b) && a == init + (['\n'] + "");
      assert Splits(script, init, '\n', b) && Splits(script, init, '\n', "");
      assert script(a) + script(b) == script(init) + (['\n'] + script(b));
    }
  }

  lemma ScriptLine(script: string -> string, text: string)
    requires WorksByWord(script)
    ensures script(Line(text)) == Line(script(text))
  {
    ScriptEmpty(script);
    assert Line(text) == text + (['\n'] + "");
    assert Splits(script, text, '\n', "");
    assert Line(script(text)) == script(text) + (['\n'] + "");
  }

  lemma JoinEndsLine(lines: seq<string>)
    ensures EndsLine(Join(lines))
  {
  }

  lemma {:induction false} JoinAppend(xs: seq<string>, ys: seq<string>)
    ensures Join(xs + ys) == Join(xs) + Join(ys)
  {
    if ys == [] {
      assert xs + ys == xs;
    } else {
      assert (xs + ys)[..|xs + ys| - 1] == xs + ys[..|ys| - 1];
      JoinAppend(xs, ys[..|ys| - 1]);
      Regroup(Join(xs), Join(ys[..|ys| - 1]), Line(ys[|ys| - 1]));
    }
  }

  ghost predicate Images(script: string -> string, xs: seq<string>, ys: seq<string>) {
    |xs| == |ys| && forall i | 0 <= i < |xs| :: script(xs[i]) == ys[i]
  }

  lemma ImagesAppend(script: string -> string, a: seq<string>, b: seq<string>, c: seq<string>, d: seq<string>)
    requires Images(script, a, b) && Images(script, c, d)
    ensures Images(script, a + c, b + d)
  {
  }

  /** Line by line. */
  lemma {:induction false} ScriptJoin(script: string -> string, xs: seq<string>, ys: seq<string>)
    requires WorksByWord(script) && Images(script, xs, ys)
    ensures script(Join(xs)) == Join(ys)
  {
    ScriptEmpty(script);
    if xs != [] {
      var n := |xs| - 1;
      ScriptJoin(script, xs[..n], ys[..n]);
      JoinEndsLine(xs[..n]);
      ScriptAfterLines(script, Join(xs[..n]), Line(xs[n]));
      ScriptLine(script, xs[n]);
    }
  }

  lemma LastLine(a: string, x: string, b: string, y: string)
    requires EndsLine(a) && EndsLine(b) && OneLine(x) && OneLine(y) && a + Line(x) == b + Line(y)
    ensures a == b && x == y
  {
    assert a + x == (a + Line(x))[..|a + Line(x)| - 1] && b + y == (b + Line(y))[..|b + Line(y)| - 1];
    if a != [] && b != [] {
      assert a + x == a[..|a| - 1] + ['\n'] + x && b + y == b[..|b| - 1] + ['\n'] + y;
      SplitLast(a[..|a| - 1], x, b[..|b| - 1], y, '\n');
      assert a == a[..|a| - 1] + ['\n'] && b == b[..|b| - 1] + ['\n'];
    } else {
      OneEmpty(a, x, b, y);
    }
  }

  lemma BreakInLines(a: string, x: string)
    requires EndsLine(a)
    ensures a != [] ==> '\n' in a + x
  {
    if a != [] {
      assert (a + x)[|a| - 1] == '\n';
    }
  }

  lemma OneEmpty(a: string, x: string, b: string, y: string)
    requires EndsLine(a) && EndsLine(b) && OneLine(x) && OneLine(y) && a + x == b + y && (a == [] || b == [])
    ensures a == b && x == y
  {
    BreakInLines(a, x);
    BreakInLines(b, y);
    assert a == [] ==> a + x == x;
    assert b == [] ==> b + y == y;
  }

  /** Equal texts have equal lines. */
  lemma {:induction false} LinesDetermined(a: string, xs: seq<string>, b: string, ys: seq<string>)
    requires EndsLine(a) && EndsLine(b) && |xs| == |ys|
    requires (forall x | x in xs :: OneLine(x)) && forall y | y in ys :: OneLine(y)
    requires a + Join(xs) == b + Join(ys)
    ensures a == b && xs == ys
  {
    if xs == [] {
      assert a + "" == a && b + "" == b;
    } else {
      var n := |xs| - 1;
      var u, v := Join(xs[..n]), Join(ys[..n]);
      JoinEndsLine(xs[..n]);
      JoinEndsLine(ys[..n]);
      Regroup(a, u, Line(xs[n]));
      Regroup(b, v, Line(ys[n]));
      LastLine(a + u, xs[n], b + v, ys[n]);
      assert forall x | x in xs[..n] :: x in xs;
      assert forall y | y in ys[..n] :: y in ys;
      LinesDetermined(a, xs[..n], b, ys[..n]);
      assert xs == xs[..n] + [xs[n]] && ys == ys[..n] + [ys[n]];
    }
  }
}
