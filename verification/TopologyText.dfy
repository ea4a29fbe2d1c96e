/** The topology that every instance finds in its config: how it is printed, and what it says. */
module TopologyText {
  import opened Text
  import opened Types

  const INDENT := "          "
  const FACTOR_KEY := "\n            replication_factor: "
  const VOTE_KEY := "            can_vote: "

  /** A factor that is left out is 1. */
  function Factor(t: Tier): Int32 {
    if t.replicationFactor == 0 then 1 else t.replicationFactor
  }

  function Flag(b: bool): string {
    if b then "true" else "false"
  }

  function Line(head: string, factor: string, vote: string, rest: string): string {
    head + [':'] + (FACTOR_KEY + (factor + ['\n'] + (VOTE_KEY + (vote + ['\n'] + rest))))
  }

  function TopologyLine(t: Tier): string {
    Line(INDENT + t.name, Decimal(Factor(t)), Flag(t.canVote), "")
  }

  function Topology(tiers: seq<Tier>): string {
    if tiers == [] then "" else Topology(tiers[..|tiers| - 1]) + TopologyLine(tiers[|tiers| - 1])
  }

  lemma TopologyOneMore(tiers: seq<Tier>, i: nat)
    requires i < |tiers|
    ensures Topology(tiers[..i + 1]) == Topology(tiers[..i]) + TopologyLine(tiers[i])
  {
    assert tiers[..i + 1][..i] == tiers[..i];
  }

  /** The topology is built by appending one line per tier. */
  method BuildTopology(tiers: seq<Tier>) returns (text: string)
    ensures text == Topology(tiers)
  {
    text := "";
    for i := 0 to |tiers|
      invariant text == Topology(tiers[..i])
    {
      TopologyOneMore(tiers, i);
      text := text + TopologyLine(tiers[i]);
    }
    assert tiers[..|tiers|] == tiers;
  }

  // ---------------------------------------------------------------- from the front

  lemma {:induction false} TopologyFront(tiers: seq<Tier>)
    requires tiers != []
    ensures Topology(tiers) == TopologyLine(tiers[0]) + Topology(tiers[1..])
  {
    var init, last := tiers[..|tiers| - 1], tiers[|tiers| - 1];
    if init == [] {
      assert tiers[1..] == [] && Topology(tiers[1..]) == "";
    } else {
      TopologyFront(init);
      MiddleOf(tiers);
      Regroup(TopologyLine(tiers[0]), Topology(init[1..]), TopologyLine(last));
    }
  }

  lemma MiddleOf(tiers: seq<Tier>)
    requires |tiers| >= 2
    ensures var init, tail := tiers[..|tiers| - 1], tiers[1..];
            init[0] == tiers[0] && tail[..|tail| - 1] == init[1..] && tail[|tail| - 1] == tiers[|tiers| - 1]
  {
  }

  lemma LineThen(head: string, factor: string, vote: string, rest: string)
    ensures Line(head, factor, vote, "") + rest == Line(head, factor, vote, rest)
  {
    var end := vote + ['\n'] + "";
    Regroup(head + [':'], FACTOR_KEY + (factor + ['\n'] + (VOTE_KEY + end)), rest);
    Regroup(FACTOR_KEY, factor + ['\n'] + (VOTE_KEY + end), rest);
    Regroup(factor + ['\n'], VOTE_KEY + end, rest);
    Regroup(VOTE_KEY, end, rest);
    assert end == vote + ['\n'];
  }

  // ---------------------------------------------------------------- reading a line

  lemma NumberHasNoNewline(n: int)
    ensures '\n' !in Decimal(n)
  {
    if n >= 0 {
      DecimalFree(n, '\n');
    } else {
      DecimalFree(-n, '\n');
    }
  }

  /** A text that begins with a line determines the line's parts and what follows. */
  lemma LineParses(n: string, f: string, v: string, r: string, m: string, g: string, w: string, q: string)
    requires ':' !in n && ':' !in m && '\n' !in f && '\n' !in g && '\n' !in v && '\n' !in w
    requires Line(n, f, v, r) == Line(m, g, w, q)
    ensures n == m && f == g && v == w && r == q
  {
    var vr, wq := VOTE_KEY + (v + ['\n'] + r), VOTE_KEY + (w + ['\n'] + q);
    SplitFirst(n, FACTOR_KEY + (f + ['\n'] + vr), m, FACTOR_KEY + (g + ['\n'] + wq), ':');
    SameAfter(FACTOR_KEY, f + ['\n'] + vr, g + ['\n'] + wq);
    SplitFirst(f, vr, g, wq, '\n');
    SameAfter(VOTE_KEY, v + ['\n'] + r, w + ['\n'] + q);
    SplitFirst(v, r, w, q, '\n');
  }

  // ---------------------------------------------------------------- what it says

  /** What Picodata reads of a tier: its name, its replication factor and whether it votes. */
  datatype TierFacts = TierFacts(name: string, factor: Int32, canVote: bool)

  function Facts(t: Tier): TierFacts {
    TierFacts(t.name, Factor(t), t.canVote)
  }

  function AllFacts(tiers: seq<Tier>): seq<TierFacts> {
    seq(|tiers|, i requires 0 <= i < |tiers| => Facts(tiers[i]))
  }

  lemma FactsFront(tiers: seq<Tier>)
    requires tiers != []
    ensures AllFacts(tiers)[0] == Facts(tiers[0]) && AllFacts(tiers)[1..] == AllFacts(tiers[1..])
    ensures AllFacts(tiers) == [Facts(tiers[0])] + AllFacts(tiers[1..])
  {
  }

  lemma LineSays(s: Tier, r: string, t: Tier, q: string)
    requires ':' !in s.name && ':' !in t.name && TopologyLine(s) + r == TopologyLine(t) + q
    ensures Facts(s) == Facts(t) && r == q
  {
    LineThen(INDENT + s.name, Decimal(Factor(s)), Flag(s.canVote), r);
    LineThen(INDENT + t.name, Decimal(Factor(t)), Flag(t.canVote), q);
    NumberHasNoNewline(Factor(s));
    NumberHasNoNewline(Factor(t));
    FlagsDiffer();
    LineParses(INDENT + s.name, Decimal(Factor(s)), Flag(s.canVote), r,
               INDENT + t.name, Decimal(Factor(t)), Flag(t.canVote), q);
    SameAfter(INDENT, s.name, t.name);
    DecimalRoundTrip(Factor(s));
    DecimalRoundTrip(Factor(t));
  }

  lemma FlagsDiffer()
    ensures Flag(true) != Flag(false) && '\n' !in Flag(true) && '\n' !in Flag(false)
  {
    assert |Flag(true)| != |Flag(false)|;
  }

  lemma EmptyTopology(tiers: seq<Tier>)
    ensures Topology(tiers) == "" <==> tiers == []
  {
    if tiers != [] {
      assert |TopologyLine(tiers[|tiers| - 1])| > 0;
    }
  }

  /** For tier names without a colon: the text says of each tier, in order, its name, its factor and
      whether it votes, and nothing else. */
  lemma {:induction false} TopologySays(a: seq<Tier>, b: seq<Tier>)
    requires forall t | t in a + b :: ':' !in t.name
    ensures Topology(a) == Topology(b) <==> AllFacts(a) == AllFacts(b)
  {
    if a == [] || b == [] {
      EmptyTopology(a);
      EmptyTopology(b);
    } else {
      assert forall t | t in a[1..] + b[1..] :: t in a + b;
      TopologySays(a[1..], b[1..]);
      TopologyFront(a);
      TopologyFront(b);
      FactsFront(a);
      FactsFront(b);
      assert a[0] in a + b && b[0] in a + b;
      if Topology(a) == Topology(b) {
        LineSays(a[0], Topology(a[1..]), b[0], Topology(b[1..]));
      }
    }
  }
}
