/** What replacing every occurrence of a pattern does to a text: it works line by line and word by
    word, and each replacement leaves a trace. */
module Sed {
  import opened Text
  import opened Listeners

  predicate MatchAt(s: string, k: nat, p: string) {
    k + |p| <= |s| && s[k..k + |p|] == p
  }

  ghost predicate Occurs(p: string, s: string) {
    exists k: nat :: MatchAt(s, k, p)
  }

  lemma MatchLater(c: char, s: string, k: nat, p: string)
    ensures MatchAt([c] + s, k + 1, p) <==> MatchAt(s, k, p)
  {
    if k + |p| <= |s| {
      assert ([c] + s)[k + 1..k + 1 + |p|] == s[k..k + |p|];
    }
  }

  /** A pattern occurs at the front or in the rest. */
  lemma OccursFront(c: char, s: string, p: string)
    ensures Occurs(p, [c] + s) <==> MatchAt([c] + s, 0, p) || Occurs(p, s)
  {
    if k: nat :| MatchAt([c] + s, k, p) {
      if k > 0 {
        MatchLater(c, s, k - 1, p);
      }
    }
    if k: nat :| MatchAt(s, k, p) {
      MatchLater(c, s, k, p);
    }
  }

  /** A pattern with a character that the text has not does not occur in it. */
  lemma OccursHas(p: string, s: string, c: char)
    requires Occurs(p, s) && c in p
    ensures c in s
  {
    var k: nat :| MatchAt(s, k, p);
    var i :| 0 <= i < |p| && p[i] == c;
    assert s[k..k + |p|][i] == s[k + i];
  }

  lemma ReplaceAtFront(s: string, p: string, r: string)
    requires p != [] && MatchAt(s, 0, p)
    ensures ReplaceAll(s, p, r) == r + ReplaceAll(s[|p|..], p, r)
  {
    assert s[0..0 + |p|] == s[..|p|];
  }

  lemma ReplaceLater(c: char, s: string, p: string, r: string)
    requires p != [] && !MatchAt([c] + s, 0, p)
    ensures ReplaceAll([c] + s, p, r) == [c] + ReplaceAll(s, p, r)
  {
    var t := [c] + s;
    assert t[1..] == s && t[0] == c;
    assert |p| <= |t| ==> t[0..0 + |p|] == t[..|p|];
  }

  lemma {:induction false} ReplaceAbsent(s: string, p: string, r: string)
    requires p != [] && !Occurs(p, s)
    ensures ReplaceAll(s, p, r) == s
  {
    if s != [] {
      assert s == [s[0]] + s[1..];
      OccursFront(s[0], s[1..], p);
      ReplaceLater(s[0], s[1..], p, r);
      ReplaceAbsent(s[1..], p, r);
    }
  }

  // ---------------------------------------------------------------- word by word

  lemma MatchedChars(s: string, p: string)
    requires MatchAt(s, 0, p)
    ensures forall i | 0 <= i < |p| :: s[i] in p
  {
    assert s[0..0 + |p|] == p;
  }

  /** No match reaches beyond a character that the pattern has not. */
  lemma NoMatchAcross(a: string, c: char, b: string, p: string)
    requires p != [] && c !in p
    ensures MatchAt(a + ([c] + b), 0, p) <==> MatchAt(a, 0, p)
  {
    var s := a + ([c] + b);
    assert s[|a|] == c;
    if MatchAt(s, 0, p) {
      MatchedChars(s, p);
    }
    if |p| <= |a| {
      assert s[0..0 + |p|] == a[0..0 + |p|];
    }
  }

  lemma SplitsAtFront(a: string, t: string, u: string, p: string, r: string)
    requires p != [] && MatchAt(a, 0, p) && MatchAt(a + t, 0, p)
    requires ReplaceAll(a[|p|..] + t, p, r) == ReplaceAll(a[|p|..], p, r) + u
    ensures ReplaceAll(a + t, p, r) == ReplaceAll(a, p, r) + u
  {
    assert (a + t)[|p|..] == a[|p|..] + t;
    ReplaceAtFront(a + t, p, r);
    ReplaceAtFront(a, p, r);
    Regroup(r, ReplaceAll(a[|p|..], p, r), u);
  }

  lemma SplitsLater(a: string, t: string, u: string, p: string, r: string)
    requires p != [] && a != [] && !MatchAt(a, 0, p) && !MatchAt(a + t, 0, p)
    requires ReplaceAll(a[1..] + t, p, r) == ReplaceAll(a[1..], p, r) + u
    ensures ReplaceAll(a + t, p, r) == ReplaceAll(a, p, r) + u
  {
    assert a == [a[0]] + a[1..] && a + t == [a[0]] + (a[1..] + t);
    ReplaceLater(a[0], a[1..] + t, p, r);
    ReplaceLater(a[0], a[1..], p, r);
    Regroup([a[0]], ReplaceAll(a[1..], p, r), u);
  }

  lemma {:induction false} ReplaceSplits(a: string, c: char, b: string, p: string, r: string)
    requires p != [] && c !in p
    ensures ReplaceAll(a + ([c] + b), p, r) == ReplaceAll(a, p, r) + ([c] + ReplaceAll(b, p, r))
  {
    var t, u := [c] + b, [c] + ReplaceAll(b, p, r);
    NoMatchAcross(a, c, b, p);
    if a == [] {
      assert a + t == t;
      ReplaceLater(c, b, p, r);
    } else if MatchAt(a, 0, p) {
      ReplaceSplits(a[|p|..], c, b, p, r);
      SplitsAtFront(a, t, u, p, r);
    } else {
      ReplaceSplits(a[1..], c, b, p, r);
      SplitsLater(a, t, u, p, r);
    }
  }

  lemma {:induction false} ReplaceAddsNo(s: string, p: string, r: string, c: char)
    requires c !in s && c !in r
    ensures c !in ReplaceAll(s, p, r)
  {
    if p != [] && |s| >= |p| {
      assert forall x | x in s[|p|..] || x in s[1..] :: x in s;
      if s[..|p|] == p {
        ReplaceAddsNo(s[|p|..], p, r, c);
      } else {
        ReplaceAddsNo(s[1..], p, r, c);
      }
    }
  }

  // ---------------------------------------------------------------- the trace of a replacement

  function Count(s: string, c: char): nat {
    if s == [] then 0 else (if s[0] == c then 1 else 0) + Count(s[1..], c)
  }

  lemma {:induction false} CountAppend(a: string, b: string, c: char)
    ensures Count(a + b, c) == Count(a, c) + Count(b, c)
  {
    if a == [] {
      assert a + b == b;
    } else {
      assert (a + b)[1..] == a[1..] + b;
      CountAppend(a[1..], b, c);
    }
  }

  lemma {:induction false} CountNone(s: string, c: char)
    ensures Count(s, c) == 0 <==> c !in s
  {
    if s != [] {
      CountNone(s[1..], c);
      assert s == [s[0]] + s[1..];
    }
  }

  /** If the replacement has a character that the pattern has not, the text has more of it
      afterwards for each occurrence. */
  lemma {:induction false} ReplaceCounts(s: string, p: string, r: string, c: char)
    requires p != [] && c !in p
    ensures Count(ReplaceAll(s, p, r), c) >= Count(s, c)
    ensures Occurs(p, s) ==> Count(ReplaceAll(s, p, r), c) >= Count(s, c) + Count(r, c)
  {
    if MatchAt(s, 0, p) {
      var rest := s[|p|..];
      assert s == p + rest;
      ReplaceAtFront(s, p, r);
      CountAppend(p, rest, c);
      CountNone(p, c);
      CountAppend(r, ReplaceAll(rest, p, r), c);
      ReplaceCounts(rest, p, r, c);
    } else if s != [] {
      var rest := s[1..];
      assert s == [s[0]] + rest;
      ReplaceLater(s[0], rest, p, r);
      OccursFront(s[0], rest, p);
      CountAppend([s[0]], rest, c);
      CountAppend([s[0]], ReplaceAll(rest, p, r), c);
      ReplaceCounts(rest, p, r, c);
    }
  }

  /** A replacement that did not take all of its text: two replacements' worth of colons, or one and
      an underscore left at an end. */
  predicate Spoiled(s: string) {
    || Count(s, ':') >= 2
    || (Count(s, ':') >= 1 && s != [] && (s[0] == '_' || s[|s| - 1] == '_'))
  }

  /** Nothing repairs that. */
  lemma StaysSpoiled(s: string, p: string, r: string)
    requires p != [] && ':' !in p && Count(r, ':') >= 1 && Spoiled(s)
    ensures Spoiled(ReplaceAll(s, p, r))
  {
    ReplaceCounts(s, p, r, ':');
    if !Occurs(p, s) {
      ReplaceAbsent(s, p, r);
    }
  }

  lemma FrontSpoils(p: string, rest: string, r: string)
    requires p != [] && rest != [] && rest[|rest| - 1] == '_' && ':' !in p && Count(r, ':') >= 1
    ensures Spoiled(r + ReplaceAll(rest, p, r))
  {
    CountAppend(r, ReplaceAll(rest, p, r), ':');
    ReplaceCounts(rest, p, r, ':');
    if !Occurs(p, rest) {
      ReplaceAbsent(rest, p, r);
      assert (r + rest)[|r + rest| - 1] == '_';
    }
  }

  /** A text framed by underscores is spoiled when only part of it is replaced. */
  lemma PartSpoils(s: string, p: string, r: string)
    requires s != [] && s[0] == '_' && s[|s| - 1] == '_'
    requires p != [] && p != s && ':' !in p && Count(r, ':') >= 1 && Occurs(p, s)
    ensures Spoiled(ReplaceAll(s, p, r))
  {
    if MatchAt(s, 0, p) {
      assert s == p + s[|p|..];
      ReplaceAtFront(s, p, r);
      FrontSpoils(p, s[|p|..], r);
    } else {
      assert s == [s[0]] + s[1..];
      ReplaceLater(s[0], s[1..], p, r);
      ReplaceCounts(s, p, r, ':');
    }
  }

  lemma ReplaceWhole(s: string, r: string)
    requires s != []
    ensures ReplaceAll(s, s, r) == r
  {
    assert s[..|s|] == s && s[|s|..] == [];
    assert r + [] == r;
  }
}
