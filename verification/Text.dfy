/** Strings as the operator uses them: decimal numbers, letter case, and splitting a
    generated name back into the parts it was printed from. */
module Text {

  datatype Option<+T> = None | Some(value: T)

  const MIN_INT32 := -0x8000_0000
  const MAX_INT32 := 0x7FFF_FFFF

  /** Go's int32. */
  type Int32 = x: int | MIN_INT32 <= x <= MAX_INT32 witness 0

  /** The value an int32 variable holds once the exact result x is stored in it. */
  function Wrap32(x: int): Int32 {
    (x - MIN_INT32) % 0x1_0000_0000 + MIN_INT32
  }

  // ---------------------------------------------------------------- decimal numbers

  function Digit(d: nat): char
    requires d < 10
  {
    ('0' as int + d) as char
  }

  predicate IsDigit(c: char) {
    '0' <= c <= '9'
  }

  function Natural(n: nat): string {
    if n < 10 then [Digit(n)] else Natural(n / 10) + [Digit(n % 10)]
  }

  /** The %d verb. */
  function Decimal(n: int): string {
    if n < 0 then "-" + Natural(-n) else Natural(n)
  }

  predicate AllDigits(s: string) {
    forall c | c in s :: IsDigit(c)
  }

  function NaturalValue(s: string): nat
    requires AllDigits(s)
  {
    if s == [] then 0
    else
      assert s[|s| - 1] in s;
      NaturalValue(s[..|s| - 1]) * 10 + (s[|s| - 1] as int - '0' as int)
  }

  /** strconv.ParseInt(s, 10, 32): an optional sign, then at least one digit, in range. */
  function ParseInt32(s: string): Option<Int32> {
    var signed := s != [] && (s[0] == '-' || s[0] == '+');
    var digits := if signed then s[1..] else s;
    if digits == [] || !AllDigits(digits) then None
    else
      var magnitude: int := NaturalValue(digits);
      var v := if signed && s[0] == '-' then -magnitude else magnitude;
      if MIN_INT32 <= v <= MAX_INT32 then Some(v) else None
  }

  lemma {:induction false} NaturalRoundTrip(n: nat)
    ensures Natural(n) != [] && AllDigits(Natural(n)) && NaturalValue(Natural(n)) == n
  {
    if n < 10 {
      assert Natural(n)[..0] == [];
      assert NaturalValue([]) == 0;
    } else {
      NaturalRoundTrip(n / 10);
      var s := Natural(n);
      assert s[..|s| - 1] == Natural(n / 10);
    }
  }

  /** Printing an int32 and parsing it back gives the number, whatever its sign. */
  lemma DecimalRoundTrip(n: Int32)
    ensures ParseInt32(Decimal(n)) == Some(n)
  {
    var m: int := n;
    if m < 0 {
      NaturalRoundTrip(-m);
      assert Decimal(m)[1..] == Natural(-m);
    } else {
      NaturalRoundTrip(m);
      assert Natural(m)[0] in Natural(m);
    }
  }

  lemma DecimalInjective(m: nat, n: nat)
    requires Decimal(m) == Decimal(n)
    ensures m == n
  {
    NaturalRoundTrip(m);
    NaturalRoundTrip(n);
  }

  /** A non-negative decimal contains neither hyphen, dot nor any other separator. */
  lemma DecimalFree(n: nat, c: char)
    requires !IsDigit(c)
    ensures c !in Decimal(n)
  {
    NaturalRoundTrip(n);
  }

  // ---------------------------------------------------------------- letter case

  function UpperChar(c: char): char {
    if 'a' <= c <= 'z' then (c as int - 32) as char else c
  }

  /** strings.ToUpper on ASCII text. */
  function Upper(s: string): (u: string)
    ensures |u| == |s|
    ensures forall i | 0 <= i < |s| :: u[i] == UpperChar(s[i])
  {
    if s == [] then [] else [UpperChar(s[0])] + Upper(s[1..])
  }

  /** strings.EqualFold on ASCII text. */
  predicate EqualFold(a: string, b: string) {
    Upper(a) == Upper(b)
  }

  // ---------------------------------------------------------------- splitting

  lemma Regroup(x: string, y: string, z: string)
    ensures (x + y) + z == x + (y + z)
  {
  }

  lemma Associative<T>(a: seq<T>, b: seq<T>, c: seq<T>)
    ensures a + (b + c) == (a + b) + c
  {
  }

  lemma SameAfter(head: string, a: string, b: string)
    requires head + a == head + b
    ensures a == b
  {
    assert a == (head + a)[|head|..] && b == (head + b)[|head|..];
  }

  /** Text before the first separator is determined by the whole. */
  lemma SplitFirst(a: string, r: string, b: string, q: string, sep: char)
    requires sep !in a && sep !in b
    requires a + [sep] + r == b + [sep] + q
    ensures a == b && r == q
  {
    var s := a + [sep] + r;
    var t := b + [sep] + q;
    assert s[|a|] == sep && t[|b|] == sep;
    assert forall k | 0 <= k < |a| :: s[k] == a[k];
    assert forall k | 0 <= k < |b| :: t[k] == b[k];
    assert a == s[..|a|] && b == t[..|b|];
    assert r == s[|a| + 1..] && q == t[|b| + 1..];
  }

  /** Text after the last separator is determined by the whole. */
  lemma SplitLast(r: string, a: string, q: string, b: string, sep: char)
    requires sep !in a && sep !in b
    requires r + [sep] + a == q + [sep] + b
    ensures a == b && r == q
  {
    var s := r + [sep] + a;
    var t := q + [sep] + b;
    assert s[|r|] == sep && t[|q|] == sep;
    assert forall k | |r| < k < |s| :: s[k] == a[k - |r| - 1];
    assert forall k | |q| < k < |t| :: t[k] == b[k - |q| - 1];
    assert r == s[..|r|] && q == t[..|q|];
    assert a == s[|r| + 1..] && b == t[|q| + 1..];
  }

  /** How far it is to the first c, or to the end. */
  function UpTo(s: string, c: char): (n: nat)
    ensures n <= |s| && c !in s[..n] && (n < |s| ==> s[n] == c)
  {
    if s == [] || s[0] == c then 0 else 1 + UpTo(s[1..], c)
  }

  lemma {:induction false} UpToFirst(a: string, c: char, b: string)
    requires c !in a
    ensures UpTo(a + ([c] + b), c) == |a|
  {
    if a == [] {
      assert a + ([c] + b) == [c] + b;
    } else {
      assert a[0] in a && forall x | x in a[1..] :: x in a;
      assert (a + ([c] + b))[1..] == a[1..] + ([c] + b);
      UpToFirst(a[1..], c, b);
    }
  }

  lemma {:induction false} UpToEnd(a: string, c: char)
    requires c !in a
    ensures UpTo(a, c) == |a|
  {
    if a != [] {
      assert a[0] in a && forall x | x in a[1..] :: x in a;
      UpToEnd(a[1..], c);
    }
  }
}
