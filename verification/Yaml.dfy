/** Reading the config files that the operator writes: nested mappings, one key a line, by indentation. */
module Yaml {
  import opened Text
  import opened Lines

  /** A key that is open, and how far it is indented. */
  datatype Open = Open(indent: nat, key: string)

  /** A value under all the keys that are open above it. */
  datatype Setting = Setting(path: seq<string>, value: string)

  datatype Reading = Reading(open: seq<Open>, settings: seq<Setting>)

  function Keys(open: seq<Open>): seq<string> {
    seq(|open|, i requires 0 <= i < |open| => open[i].key)
  }

  /** What stays open above a line that is indented by n. */
  function Above(open: seq<Open>, n: nat): seq<Open> {
    if open == [] || open[|open| - 1].indent < n then open else Above(open[..|open| - 1], n)
  }

  function Indent(line: string): (n: nat)
    ensures n <= |line| && (forall i | 0 <= i < n :: line[i] == ' ') && (n < |line| ==> line[n] != ' ')
  {
    if line == [] || line[0] != ' ' then 0 else 1 + Indent(line[1..])
  }

  function Unquoted(value: string): string {
    if |value| >= 2 && value[0] == '"' && value[|value| - 1] == '"' then value[1..|value| - 1] else value
  }

  /** "key:" opens the key, "key: value" gives its value; other lines are passed over. */
  function ReadKey(r: Reading, n: nat, key: string, rest: string): Reading {
    var open := Above(r.open, n) + [Open(n, key)];
    if rest == [] then Reading(open, r.settings)
    else if rest[0] == ' ' then Reading(open, r.settings + [Setting(Keys(open), Unquoted(rest[1..]))])
    else r
  }

  function ReadLine(r: Reading, line: string): Reading {
    var n := Indent(line);
    var body := line[n..];
    var k := UpTo(body, ':');
    if k == |body| then r else ReadKey(r, n, body[..k], body[k + 1..])
  }

  function ReadLines(r: Reading, lines: seq<string>): Reading {
    if lines == [] then r else ReadLine(ReadLines(r, lines[..|lines| - 1]), lines[|lines| - 1])
  }

  function TextLines(text: string): seq<string> {
    if text == [] then []
    else
      var n := UpTo(text, '\n');
      [text[..n]] + (if n < |text| then TextLines(text[n + 1..]) else [])
  }

  /** All settings of a text that continues the one read so far. */
  function ReadText(r: Reading, text: string): Reading {
    ReadLines(r, TextLines(text))
  }

  // ---------------------------------------------------------------- texts and lines

  lemma FirstTextLine(x: string, t: string)
    requires OneLine(x)
    ensures TextLines(x + (['\n'] + t)) == [x] + TextLines(t)
  {
    var s := x + (['\n'] + t);
    UpToFirst(x, '\n', t);
    assert s != [] && s[..|x|] == x && s[|x| + 1..] == t;
  }

  lemma JoinThen(lines: seq<string>, line: string, t: string)
    ensures Join(lines + [line]) + t == Join(lines) + (line + (['\n'] + t))
  {
    assert (lines + [line])[..|lines|] == lines;
    Associative(Join(lines), Line(line), t);
    Associative(line, ['\n'], t);
  }

  lemma {:induction false} JoinedLines(lines: seq<string>, t: string)
    requires forall x | x in lines :: OneLine(x)
    ensures TextLines(Join(lines) + t) == lines + TextLines(t)
  {
    if lines == [] {
      assert Join(lines) + t == t && lines + TextLines(t) == TextLines(t);
    } else {
      var init, last := lines[..|lines| - 1], lines[|lines| - 1];
      assert lines == init + [last];
      assert last in lines && forall x | x in init :: x in lines;
      JoinThen(init, last, t);
      JoinedLines(init, last + (['\n'] + t));
      FirstTextLine(last, t);
      Associative(init, [last], TextLines(t));
    }
  }

  lemma HasBreak(a: string)
    requires EndsLine(a) && a != []
    ensures UpTo(a, '\n') < |a|
  {
    assert a[..|a|] == a && a[|a| - 1] in a;
  }

  lemma PartsAt(a: string, n: nat)
    requires n < |a|
    ensures a == a[..n] + ([a[n]] + a[n + 1..])
    ensures EndsLine(a) ==> EndsLine(a[n + 1..])
  {
  }

  lemma FirstBreak(a: string) returns (x: string, rest: string)
    requires EndsLine(a) && a != []
    ensures a == x + (['\n'] + rest) && OneLine(x) && EndsLine(rest)
  {
    var n := UpTo(a, '\n');
    HasBreak(a);
    PartsAt(a, n);
    x, rest := a[..n], a[n + 1..];
  }

  /** Whole lines are read by themselves. */
  lemma {:induction false} LinesAfterLines(a: string, b: string)
    requires EndsLine(a)
    ensures TextLines(a + b) == TextLines(a) + TextLines(b)
    decreases |a|
  {
    if a == [] {
      assert a + b == b && TextLines(a) + TextLines(b) == TextLines(b);
    } else {
      var x, rest := FirstBreak(a);
      Associative(x, ['\n'] + rest, b);
      Associative(['\n'], rest, b);
      FirstTextLine(x, rest);
      FirstTextLine(x, rest + b);
      LinesAfterLines(rest, b);
      Associative([x], TextLines(rest), TextLines(b));
    }
  }

  lemma ReadOneMore(r: Reading, lines: seq<string>, line: string)
    ensures ReadLines(r, lines + [line]) == ReadLine(ReadLines(r, lines), line)
  {
    assert (lines + [line])[..|lines|] == lines;
  }

  lemma {:induction false} ReadAppend(r: Reading, a: seq<string>, b: seq<string>)
    ensures ReadLines(r, a + b) == ReadLines(ReadLines(r, a), b)
  {
    if b == [] {
      assert a + b == a;
    } else {
      var init, last := b[..|b| - 1], b[|b| - 1];
      assert a + b == (a + init) + [last];
      ReadAppend(r, a, init);
      ReadOneMore(r, a + init, last);
    }
  }

  lemma ReadAfterLines(r: Reading, a: string, lines: seq<string>)
    requires EndsLine(a) && forall x | x in lines :: OneLine(x)
    ensures ReadText(r, a + Join(lines)) == ReadLines(ReadText(r, a), lines)
  {
    LinesAfterLines(a, Join(lines));
    JoinedLines(lines, "");
    assert Join(lines) + "" == Join(lines) && lines + TextLines("") == lines;
    ReadAppend(r, TextLines(a), lines);
  }

  // ---------------------------------------------------------------- what stays open

  lemma {:induction false} AboveTwice(open: seq<Open>, n: nat, m: nat)
    requires m <= n
    ensures Above(Above(open, n), m) == Above(open, m)
  {
    if open != [] && open[|open| - 1].indent >= n {
      AboveTwice(open[..|open| - 1], n, m);
    }
  }

  lemma AboveOneMore(open: seq<Open>, o: Open, n: nat)
    ensures Above(open + [o], n) == if o.indent < n then open + [o] else Above(open, n)
  {
    assert (open + [o])[..|open|] == open;
  }

  lemma KeysOneMore(open: seq<Open>, o: Open)
    ensures Keys(open + [o]) == Keys(open) + [o.key]
  {
  }

  // ---------------------------------------------------------------- single lines

  predicate Blank(s: string) {
    forall c | c in s :: c == ' '
  }

  predicate IsKey(s: string) {
    ':' !in s && (s != [] ==> s[0] != ' ')
  }

  lemma IndentOf(spaces: string, body: string)
    requires Blank(spaces) && body != [] && body[0] != ' '
    ensures Indent(spaces + body) == |spaces| && (spaces + body)[|spaces|..] == body
  {
    var line := spaces + body;
    assert line[|spaces|] == body[0];
    assert forall i | 0 <= i < |spaces| :: line[i] == spaces[i] && spaces[i] in spaces;
  }

  lemma KeyOf(key: string, rest: string)
    requires IsKey(key)
    ensures var body := key + ([':'] + rest);
            && body != [] && body[0] != ' ' && UpTo(body, ':') == |key| && |key| < |body|
            && body[..|key|] == key && body[|key| + 1..] == rest
  {
    UpToFirst(key, ':', rest);
    assert key == [] ==> (key + ([':'] + rest))[0] == ':';
  }

  lemma LineParts(r: Reading, spaces: string, key: string, rest: string)
    requires Blank(spaces) && IsKey(key)
    ensures ReadLine(r, spaces + (key + ([':'] + rest))) == ReadKey(r, |spaces|, key, rest)
  {
    KeyOf(key, rest);
    IndentOf(spaces, key + ([':'] + rest));
  }

  lemma OpensKey(r: Reading, spaces: string, key: string)
    requires Blank(spaces) && IsKey(key)
    ensures ReadLine(r, spaces + (key + ([':'] + "")))
         == Reading(Above(r.open, |spaces|) + [Open(|spaces|, key)], r.settings)
  {
    LineParts(r, spaces, key, "");
  }

  lemma GivesValue(r: Reading, spaces: string, key: string, value: string)
    requires Blank(spaces) && IsKey(key)
    ensures var above := Above(r.open, |spaces|);
            ReadLine(r, spaces + (key + ([':'] + ([' '] + value))))
            == Reading(above + [Open(|spaces|, key)], r.settings + [Setting(Keys(above) + [key], Unquoted(value))])
  {
    LineParts(r, spaces, key, [' '] + value);
    KeysOneMore(Above(r.open, |spaces|), Open(|spaces|, key));
    assert ([' '] + value)[1..] == value;
  }

  lemma QuotesGo(value: string)
    ensures Unquoted(['"'] + value + ['"']) == value
  {
  }
}
