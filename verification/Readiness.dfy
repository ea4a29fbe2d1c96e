/** When the int32 sums behind "ready" mean that every single replicaset is fully ready, and when
    the int32 loop that creates replicasets ends. */
module Readiness {
  import opened Text
  import opened Types
  import opened Names
  import opened Builders
  import opened Machine
  import opened Protocol
  import opened Invariants
  import opened TierConvergence
  import opened TierTheorems

  // ---------------------------------------------------------------- sums

  function Total(rs: seq<int>): int {
    if rs == [] then 0 else Total(rs[..|rs| - 1]) + rs[|rs| - 1]
  }

  /** What an int32 accumulator holds after adding all reports. */
  function Sum32(rs: seq<int>): Int32 {
    if rs == [] then 0 else Wrap32(Sum32(rs[..|rs| - 1]) + rs[|rs| - 1])
  }

  lemma WrapAbsorbs(x: int, y: int)
    ensures Wrap32(Wrap32(x) + y) == Wrap32(x + y)
  {
    var m := 0x1_0000_0000;
    var q := (x - MIN_INT32) / m;
    assert Wrap32(x) == x - q * m;
    ModuloShift(x + y - MIN_INT32, q, m);
    assert Wrap32(x) + y - MIN_INT32 == (x + y - MIN_INT32) - q * m;
  }

  lemma ModuloShift(a: int, q: int, m: int)
    requires m > 0
    ensures (a - q * m) % m == a % m
  {
    var k := a / m;
    var rest := a % m;
    assert a - q * m == (k - q) * m + rest;
    DivisionIsUnique(a - q * m, k - q, rest, m);
  }

  lemma DivisionIsUnique(a: int, k: int, rest: int, m: int)
    requires m > 0 && 0 <= rest < m && a == k * m + rest
    ensures a % m == rest
  {
    var d := a / m - k;
    assert a == (a / m) * m + a % m;
    MultipleBound(d, m);
    assert d * m == rest - a % m;
  }

  lemma MultipleBound(d: int, m: int)
    requires m > 0
    ensures d > 0 ==> d * m >= m
    ensures d < 0 ==> d * m <= -m
  {
  }

  /** The accumulator ends up with the wrapped true sum. */
  lemma {:induction false} SumWraps(rs: seq<int>)
    ensures Sum32(rs) == Wrap32(Total(rs))
  {
    if rs != [] {
      SumWraps(rs[..|rs| - 1]);
      WrapAbsorbs(Total(rs[..|rs| - 1]), rs[|rs| - 1]);
    }
  }

  // ---------------------------------------------------------------- counting

  /** n reports, none above the replication factor. */
  predicate Counts(rs: seq<int>, n: nat, factor: int) {
    |rs| == n && forall i | 0 <= i < n :: 0 <= rs[i] <= factor
  }

  predicate AllFull(rs: seq<int>, factor: int) {
    forall i | 0 <= i < |rs| :: rs[i] == factor
  }

  lemma {:induction false} Counting(rs: seq<int>, n: nat, factor: int)
    requires Counts(rs, n, factor)
    ensures 0 <= Total(rs) <= n * factor
    ensures Total(rs) == n * factor <==> AllFull(rs, factor)
  {
    if n > 0 {
      var init := rs[..n - 1];
      Counting(init, n - 1, factor);
      assert (n - 1) * factor == n * factor - factor;
      assert AllFull(rs, factor) <==> AllFull(init, factor) && rs[n - 1] == factor;
    }
  }

  /** Reports within the factor that add up to a given total. */
  function Fill(n: nat, factor: nat, total: nat): seq<int>
    requires total <= n * factor
  {
    if n == 0 then []
    else
      var here := if total < factor then total else factor;
      Times(n, factor);
      [here] + Fill(n - 1, factor, total - here)
  }

  lemma Times(n: nat, factor: nat)
    requires n > 0
    ensures n * factor == (n - 1) * factor + factor
    ensures (n - 1) * factor >= 0
  {
  }

  lemma {:induction false} TotalPrepend(x: int, rs: seq<int>)
    ensures Total([x] + rs) == x + Total(rs)
  {
    if rs == [] {
      assert [x] + rs == [x] && [x][..0] == [];
    } else {
      TotalPrepend(x, rs[..|rs| - 1]);
      assert ([x] + rs)[..|rs|] == [x] + rs[..|rs| - 1];
    }
  }

  lemma {:induction false} FillTotals(n: nat, factor: nat, total: nat)
    requires total <= n * factor
    ensures Counts(Fill(n, factor, total), n, factor) && Total(Fill(n, factor, total)) == total
  {
    if n > 0 {
      var here := if total < factor then total else factor;
      Times(n, factor);
      FillTotals(n - 1, factor, total - here);
      TotalPrepend(here, Fill(n - 1, factor, total - here));
    }
  }

  /** The ready test as the code makes it. */
  predicate TestsReady(t: Tier, rs: seq<int>) {
    Sum32(rs) >= DesiredPods(t)
  }

  predicate ProductFits(t: Tier) {
    t.replicas * t.replicationFactor <= MAX_INT32
  }

  lemma WrapInRange(x: int)
    requires MIN_INT32 <= x <= MAX_INT32
    ensures Wrap32(x) == x
  {
  }

  /** If the product fits an int32, the test is exact: ready means that every replicaset is full. */
  lemma ReadyTestExact(t: Tier, rs: seq<int>)
    requires t.replicas >= 1 && t.replicationFactor >= 1 && ProductFits(t)
    requires Counts(rs, t.replicas, t.replicationFactor)
    ensures TestsReady(t, rs) <==> AllFull(rs, t.replicationFactor)
  {
    SumWraps(rs);
    Counting(rs, t.replicas, t.replicationFactor);
    assert t.replicas * t.replicationFactor >= 0;
    WrapInRange(Total(rs));
    WrapInRange(t.replicas * t.replicationFactor);
  }

  /** The test is sound for all reports exactly when the product fits an int32: beyond that, reports
      that add up to 2^31-1 pass it although some pod is missing. */
  lemma ReadyIsSoundIff(t: Tier)
    requires t.replicas >= 1 && t.replicationFactor >= 1
    ensures (forall rs: seq<int> | Counts(rs, t.replicas, t.replicationFactor) && TestsReady(t, rs) ::
               AllFull(rs, t.replicationFactor))
       <==> ProductFits(t)
  {
    if ProductFits(t) {
      forall rs: seq<int> | Counts(rs, t.replicas, t.replicationFactor) && TestsReady(t, rs)
        ensures AllFull(rs, t.replicationFactor)
      {
        ReadyTestExact(t, rs);
      }
    } else {
      var rs := Fill(t.replicas, t.replicationFactor, MAX_INT32);
      FillTotals(t.replicas, t.replicationFactor, MAX_INT32);
      SumWraps(rs);
      Counting(rs, t.replicas, t.replicationFactor);
      assert TestsReady(t, rs) && !AllFull(rs, t.replicationFactor);
    }
  }

  // ---------------------------------------------------------------- what the status counts

  function SumTo(f: nat -> int, n: nat): int {
    if n == 0 then 0 else SumTo(f, n - 1) + f(n)
  }

  lemma {:induction false} TotalAppend(a: seq<int>, b: seq<int>)
    ensures Total(a + b) == Total(a) + Total(b)
  {
    if b == [] {
      assert a + b == a;
    } else {
      assert (a + b)[..|a + b| - 1] == a + b[..|b| - 1];
      TotalAppend(a, b[..|b| - 1]);
    }
  }

  function Mapped<T>(xs: seq<T>, f: T -> int): seq<int> {
    seq(|xs|, i requires 0 <= i < |xs| => f(xs[i]))
  }

  lemma TotalWithout<T>(a: seq<T>, x: T, b: seq<T>, f: T -> int)
    ensures Total(Mapped(a + [x] + b, f)) == Total(Mapped(a + b, f)) + f(x)
  {
    assert Mapped(a + [x] + b, f) == Mapped(a, f) + [f(x)] + Mapped(b, f);
    assert Mapped(a + b, f) == Mapped(a, f) + Mapped(b, f);
    TotalAppend(Mapped(a, f) + [f(x)], Mapped(b, f));
    TotalAppend(Mapped(a, f), [f(x)]);
    TotalAppend(Mapped(a, f), Mapped(b, f));
    assert [f(x)][..0] == [];
  }

  ghost predicate Numbered<T(!new)>(item: nat -> T, n: nat, x: T) {
    exists i: nat :: 1 <= i <= n && item(i) == x
  }

  /** xs lists items 1..n, each once, in any order. */
  ghost predicate ListsNumbered<T(!new)>(xs: seq<T>, item: nat -> T, n: nat) {
    && (forall i, j | 0 <= i < j < |xs| :: xs[i] != xs[j])
    && (forall x :: x in xs <==> Numbered(item, n, x))
    && (forall i: nat, j: nat | 1 <= i < j <= n :: item(i) != item(j))
  }

  lemma WithoutLast<T(!new)>(a: seq<T>, b: seq<T>, item: nat -> T, n: nat)
    requires n > 0 && ListsNumbered(a + [item(n)] + b, item, n)
    ensures ListsNumbered(a + b, item, n - 1)
  {
    var xs, ys := a + [item(n)] + b, a + b;
    forall i, j | 0 <= i < j < |ys|
      ensures ys[i] != ys[j]
    {
      assert ys[i] == xs[if i < |a| then i else i + 1] && ys[j] == xs[if j < |a| then j else j + 1];
    }
    forall x
      ensures x in ys <==> Numbered(item, n - 1, x)
    {
      if x in ys {
        ListedOnce(a, item(n), b, x);
        assert Numbered(item, n, x);
      }
      if Numbered(item, n - 1, x) {
        assert Numbered(item, n, x);
        assert x in xs && x != item(n);
      }
    }
  }

  lemma ListedOnce<T>(a: seq<T>, y: T, b: seq<T>, x: T)
    requires forall i, j | 0 <= i < j < |a + [y] + b| :: (a + [y] + b)[i] != (a + [y] + b)[j]
    requires x in a + b
    ensures x in a + [y] + b && x != y
  {
    var xs, ys := a + [y] + b, a + b;
    var i :| 0 <= i < |ys| && ys[i] == x;
    assert xs[|a|] == y && xs[if i < |a| then i else i + 1] == x;
  }

  lemma FirstIn<T>(xs: seq<T>)
    ensures xs == [] || xs[0] in xs
  {
  }

  /** Their total does not depend on the order. */
  lemma {:induction false} TotalOfNumbered<T(!new)>(
      xs: seq<T>, f: T -> int, item: nat -> T, g: nat -> int, n: nat)
    requires ListsNumbered(xs, item, n) && forall i: nat | 1 <= i <= n :: g(i) == f(item(i))
    ensures Total(Mapped(xs, f)) == SumTo(g, n)
  {
    if n == 0 {
      assert forall x :: !Numbered(item, 0, x);
      FirstIn(xs);
    } else {
      assert Numbered(item, n, item(n));
      var j :| 0 <= j < |xs| && xs[j] == item(n);
      var a, b := xs[..j], xs[j + 1..];
      assert xs == a + [item(n)] + b;
      WithoutLast(a, b, item, n);
      TotalOfNumbered(a + b, f, item, g, n - 1);
      TotalWithout(a, item(n), b, f);
    }
  }

  function Reports(e: Env, call: nat): Key -> int {
    k => e.ready(call, k)
  }

  function SetKeys(id: Identity, tier: string): nat -> Key {
    (i: nat) => SetKey(id, tier, i)
  }

  function SetReports(e: Env, call: nat, id: Identity, tier: string): nat -> int {
    (i: nat) => e.ready(call, SetKey(id, tier, i))
  }

  /** What replicasets 1..n of a tier report together at a call. */
  function ReportedPods(e: Env, call: nat, id: Identity, tier: string, n: nat): int {
    SumTo(SetReports(e, call, id, tier), n)
  }

  /** The sum behind the status is over the reports in the order of the list. */
  lemma {:induction false} ReadySumIsSum(e: Env, call: nat, keys: seq<Key>)
    ensures ReadySum(e, call, keys) == Sum32(Mapped(keys, Reports(e, call)))
  {
    if keys != [] {
      ReadySumIsSum(e, call, keys[..|keys| - 1]);
      assert Mapped(keys, Reports(e, call))[..|keys| - 1] == Mapped(keys[..|keys| - 1], Reports(e, call));
    }
  }

  /** The tier's selector lists exactly its replicasets. */
  lemma SetsAreNumbered(cl: Cluster, at: nat, keys: seq<Key>, sets: set<Key>)
    requires at < |cl.tiers| && Lists(keys, sets)
    requires forall k :: k in sets <==> exists i: nat :: IsOwnSet(cl, at, k, i)
    ensures ListsNumbered(keys, SetKeys(cl.id, cl.tiers[at].name), SetCount(cl.tiers[at]))
  {
    var n, t := SetCount(cl.tiers[at]), cl.tiers[at].name;
    var item := SetKeys(cl.id, t);
    forall i: nat, j: nat | 1 <= i < j <= n
      ensures item(i) != item(j)
    {
      if item(i) == item(j) {
        SetNameInjective(cl.id, t, i, t, j);
      }
    }
    forall k
      ensures k in keys <==> Numbered(item, n, k)
    {
      if i: nat :| IsOwnSet(cl, at, k, i) {
        assert item(i) == k;
      }
      if Numbered(item, n, k) {
        var i: nat :| 1 <= i <= n && item(i) == k;
        assert IsOwnSet(cl, at, k, i);
      }
    }
  }

  lemma ListedCount(e: Env, cl: Cluster, at: nat, call: nat, keys: seq<Key>)
    requires at < |cl.tiers|
    requires ListsNumbered(keys, SetKeys(cl.id, cl.tiers[at].name), SetCount(cl.tiers[at]))
    ensures ReadySum(e, call, keys)
         == Wrap32(ReportedPods(e, call, cl.id, cl.tiers[at].name, SetCount(cl.tiers[at])))
  {
    var item, report, n := SetKeys(cl.id, cl.tiers[at].name), Reports(e, call), SetCount(cl.tiers[at]);
    ReadySumIsSum(e, call, keys);
    SumWraps(Mapped(keys, report));
    var g := SetReports(e, call, cl.id, cl.tiers[at].name);
    forall i: nat | 1 <= i <= n
      ensures g(i) == report(item(i))
    {
    }
    TotalOfNumbered(keys, report, item, g, n);
  }

  /** After a successful tier reconciliation the status counts what replicasets 1..Replicas report at the
      call that lists them, in an int32, whatever the order of the list; and it names the tier and the
      number of pods waited for. */
  lemma ObservedCount(e: Env, s: Session, cl: Cluster, at: nat)
    requires Valid(e) && KeysBuilt(e) && at < |cl.tiers| && Owned(cl.id, s.world)
    requires ReconcileTier(e, s, cl, at).ok
    ensures var made, t := ReconcileTier(e, s, cl, at), cl.tiers[at];
            var ts := ObserveTier(e, made, cl, at);
            && ts.name == t.name && ts.desiredReplicas == Wrap32(t.replicas * t.replicationFactor)
            && ts.readyReplicas == Wrap32(ReportedPods(e, made.calls, cl.id, t.name, SetCount(t)))
  {
    var made, t := ReconcileTier(e, s, cl, at), cl.tiers[at];
    var sets := TierSets(made.world, cl.id, t.name);
    var keys := e.keyOrder(made.calls, sets);
    assert Lists(keys, sets);
    SuccessMeansExactSets(e, s, cl, at);
    SetsAreNumbered(cl, at, keys, sets);
    ListedCount(e, cl, at, made.calls, keys);
  }

  /** The number waited for is what the stored replicasets ask for together, exactly if that fits an int32. */
  lemma DesiredIsAskedFor(e: Env, s: Session, cl: Cluster, at: nat)
    requires Valid(e) && Built(e) && at < |cl.tiers| && ReconcileTier(e, s, cl, at).ok
    requires cl.tiers[at].replicas >= 0 && cl.tiers[at].replicationFactor >= 0
    ensures var made := ReconcileTier(e, s, cl, at);
            ObserveTier(e, made, cl, at).desiredReplicas
            == PodsAskedFor(cl.id, cl.tiers[at].name, SetCount(cl.tiers[at]), made.world.objects)
            <==> ProductFits(cl.tiers[at])
  {
    BuiltKeys(e);
    SuccessMeansTarget(e, s, cl, at);
    PodsStored(e, cl, at, s.world.objects, ReconcileTier(e, s, cl, at).world.objects);
    ProductNotNegative(cl.tiers[at].replicas, cl.tiers[at].replicationFactor);
    if ProductFits(cl.tiers[at]) {
      WrapInRange(cl.tiers[at].replicas * cl.tiers[at].replicationFactor);
    }
  }

  lemma ProductNotNegative(x: nat, y: nat)
    ensures x * y >= 0
  {
  }

  // ---------------------------------------------------------------- when a tier counts as ready

  /** At this call no StatefulSet of the store reports more ready pods than it asks for. */
  ghost predicate HonestReports(e: Env, w: World, call: nat) {
    forall k | k in w.objects && w.objects[k].live.Replicaset? :: 0 <= e.ready(call, k) <= w.objects[k].live.replicas
  }

  /** At this call every replicaset of the tier reports all the pods it asks for in this store. */
  ghost predicate FullAt(e: Env, cl: Cluster, at: nat, w: World, call: nat)
    requires at < |cl.tiers|
  {
    forall i: nat | 1 <= i <= SetCount(cl.tiers[at]) ::
      AsksFor(cl.id, cl.tiers[at].name, i, w.objects, e.ready(call, SetKey(cl.id, cl.tiers[at].name, i)))
  }

  function InOrder(f: nat -> int, n: nat): seq<int> {
    seq(n, i requires 0 <= i < n => f(i + 1))
  }

  lemma {:induction false} InOrderTotal(f: nat -> int, n: nat)
    ensures Total(InOrder(f, n)) == SumTo(f, n)
  {
    if n > 0 {
      InOrderTotal(f, n - 1);
      assert InOrder(f, n)[..n - 1] == InOrder(f, n - 1);
    }
  }

  /** Reports within the factor pass the int32 test exactly if all of them are full. */
  lemma SumTestExact(t: Tier, f: nat -> int)
    requires t.replicas >= 1 && t.replicationFactor >= 1 && ProductFits(t)
    requires forall i: nat | 1 <= i <= SetCount(t) :: 0 <= f(i) <= t.replicationFactor
    ensures Wrap32(SumTo(f, SetCount(t))) >= DesiredPods(t)
       <==> forall i: nat | 1 <= i <= SetCount(t) :: f(i) == t.replicationFactor
  {
    var rs := InOrder(f, SetCount(t));
    InOrderTotal(f, SetCount(t));
    SumWraps(rs);
    ReadyTestExact(t, rs);
    if AllFull(rs, t.replicationFactor) {
      forall i: nat | 1 <= i <= SetCount(t)
        ensures f(i) == t.replicationFactor
      {
        assert rs[i - 1] == f(i);
      }
    }
  }

  lemma AllAskFor(e: Env, s: Session, cl: Cluster, at: nat)
    requires Valid(e) && Built(e) && at < |cl.tiers| && ReconcileTier(e, s, cl, at).ok
    ensures var t, objects := cl.tiers[at], ReconcileTier(e, s, cl, at).world.objects;
            forall i: nat | 1 <= i <= SetCount(t) :: AsksFor(cl.id, t.name, i, objects, t.replicationFactor)
  {
    BuiltKeys(e);
    SuccessMeansTarget(e, s, cl, at);
    var t, objects := cl.tiers[at], ReconcileTier(e, s, cl, at).world.objects;
    forall i: nat | 1 <= i <= SetCount(t)
      ensures AsksFor(cl.id, t.name, i, objects, t.replicationFactor)
    {
      ReplicasStored(e, cl, at, s.world.objects, ReconcileTier(e, s, cl, at).world.objects, i);
    }
  }

  /** A tier counts as ready exactly when every one of its replicasets reports all the pods it asks for. */
  lemma ReadyTierIsFull(e: Env, s: Session, cl: Cluster, at: nat)
    requires Valid(e) && Built(e) && at < |cl.tiers| && Owned(cl.id, s.world)
    requires ReconcileTier(e, s, cl, at).ok
    requires HonestReports(e, ReconcileTier(e, s, cl, at).world, ReconcileTier(e, s, cl, at).calls)
    requires cl.tiers[at].replicas >= 1 && cl.tiers[at].replicationFactor >= 1 && ProductFits(cl.tiers[at])
    ensures var made := ReconcileTier(e, s, cl, at);
            IsReady(ObserveTier(e, made, cl, at)) <==> FullAt(e, cl, at, made.world, made.calls)
  {
    BuiltKeys(e);
    ObservedCount(e, s, cl, at);
    AllAskFor(e, s, cl, at);
    CountedIsFull(e, cl, at, ReconcileTier(e, s, cl, at).world, ReconcileTier(e, s, cl, at).calls);
  }

  lemma CountedIsFull(e: Env, cl: Cluster, at: nat, w: World, call: nat)
    requires at < |cl.tiers| && HonestReports(e, w, call)
    requires forall i: nat | 1 <= i <= SetCount(cl.tiers[at]) ::
               AsksFor(cl.id, cl.tiers[at].name, i, w.objects, cl.tiers[at].replicationFactor)
    requires cl.tiers[at].replicas >= 1 && cl.tiers[at].replicationFactor >= 1 && ProductFits(cl.tiers[at])
    ensures Wrap32(ReportedPods(e, call, cl.id, cl.tiers[at].name, SetCount(cl.tiers[at]))) >= DesiredPods(cl.tiers[at])
       <==> FullAt(e, cl, at, w, call)
  {
    var f := SetReports(e, call, cl.id, cl.tiers[at].name);
    ReportsWithin(e, cl, at, w, call);
    assert forall i: nat :: f(i) == e.ready(call, SetKey(cl.id, cl.tiers[at].name, i));
    SumTestExact(cl.tiers[at], f);
  }

  lemma ReportsWithin(e: Env, cl: Cluster, at: nat, w: World, call: nat)
    requires at < |cl.tiers| && HonestReports(e, w, call)
    requires forall i: nat | 1 <= i <= SetCount(cl.tiers[at]) ::
               AsksFor(cl.id, cl.tiers[at].name, i, w.objects, cl.tiers[at].replicationFactor)
    ensures forall i: nat | 1 <= i <= SetCount(cl.tiers[at]) ::
              0 <= e.ready(call, SetKey(cl.id, cl.tiers[at].name, i)) <= cl.tiers[at].replicationFactor
    ensures FullAt(e, cl, at, w, call) <==>
              forall i: nat | 1 <= i <= SetCount(cl.tiers[at]) ::
                e.ready(call, SetKey(cl.id, cl.tiers[at].name, i)) == cl.tiers[at].replicationFactor
  {
    forall i: nat | 1 <= i <= SetCount(cl.tiers[at])
      ensures 0 <= e.ready(call, SetKey(cl.id, cl.tiers[at].name, i)) <= cl.tiers[at].replicationFactor
      ensures AsksFor(cl.id, cl.tiers[at].name, i, w.objects, e.ready(call, SetKey(cl.id, cl.tiers[at].name, i)))
         <==> e.ready(call, SetKey(cl.id, cl.tiers[at].name, i)) == cl.tiers[at].replicationFactor
    {
      assert AsksFor(cl.id, cl.tiers[at].name, i, w.objects, cl.tiers[at].replicationFactor);
    }
  }

  // ---------------------------------------------------------------- the creation loop

  /** The int32 loop variable, starting at 1, after n increments. */
  function IndexAfter(n: nat): Int32 {
    if n == 0 then 1 else Wrap32(IndexAfter(n - 1) + 1)
  }

  lemma {:induction false} IndexBelowMax(n: nat)
    requires n < MAX_INT32
    ensures IndexAfter(n) == n + 1
  {
    if n > 0 {
      IndexBelowMax(n - 1);
    }
  }

  lemma IndexWraps()
    ensures IndexAfter(MAX_INT32) == MIN_INT32
  {
    IndexBelowMax(MAX_INT32 - 1);
    IndexNext(MAX_INT32);
  }

  lemma IndexNext(n: nat)
    requires n > 0
    ensures IndexAfter(n) == Wrap32(IndexAfter(n - 1) + 1)
  {
  }

  /** The loop `for rsIndex := 1; rsIndex <= replicas; rsIndex++` over int32 ends exactly when
      replicas is below 2^31-1; it visits 1, 2, ..., replicas, and where it does not end it goes on
      with -2^31. */
  lemma CreationLoopEndsIff(replicas: Int32)
    ensures (exists n: nat :: IndexAfter(n) > replicas) <==> replicas < MAX_INT32
    ensures forall n: nat | n < replicas :: IndexAfter(n) == n + 1
    ensures IndexAfter(MAX_INT32) == MIN_INT32
  {
    IndexWraps();
    forall n: nat | n < replicas
      ensures IndexAfter(n) == n + 1
    {
      IndexBelowMax(n);
    }
    if replicas < MAX_INT32 {
      var n := if replicas < 0 then 0 else replicas;
      IndexBelowMax(n);
      assert IndexAfter(n) > replicas;
    }
  }
}
