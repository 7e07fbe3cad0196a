/** How many slots of a Maglev table each backend wins: an exact count, hence a floor that
    guarantees every backend at least its weight. */
module MaglevFairness {
  import opened Common
  import opened Primes
  import opened Maglev

  /** Turns entry v has had after t turns taken in order by n entries. */
  function Quota(t: nat, n: nat, v: nat): nat
    requires n > 0
  {
    t / n + if v < t % n then 1 else 0
  }

  lemma QuotaStep(t: nat, n: nat, v: nat)
    requires n > 0 && v < n
    ensures Quota(t + 1, n, v) == Quota(t, n, v) + if v == t % n then 1 else 0
  {
    var q, r := t / n, t % n;
    if r + 1 < n {
      DivModUnique(t + 1, n, q, r + 1);
    } else {
      assert t + 1 == n * (q + 1) + 0;
      DivModUnique(t + 1, n, q + 1, 0);
    }
  }

  /** Exact fairness between entries: after t turns entry v owns Quota(t, |vs|, v) slots. */
  lemma {:induction false} EntryWins(vs: seq<Virtual>, m: nat, backends: nat, t: nat, v: nat)
    requires IsPrime(m) && |vs| > 0 && ValidVirtuals(vs, m, backends) && t <= m && v < |vs|
    ensures multiset(Populate(vs, m, backends, t))[v] == Quota(t, |vs|, v)
  {
    hide Visit, IsPrime, ValidVirtuals, Populate, Quota;
    if t == 0 {
      NoneWonYet(vs, m, backends, v);
    } else {
      EntryWins(vs, m, backends, t - 1, v);
      QuotaStep(t - 1, |vs|, v);
      TurnAddsOne(vs, m, backends, t - 1, v);
    }
  }

  lemma NoneWonYet(vs: seq<Virtual>, m: nat, backends: nat, v: nat)
    requires IsPrime(m) && |vs| > 0 && ValidVirtuals(vs, m, backends) && v < |vs|
    ensures multiset(Populate(vs, m, backends, 0))[v] == 0 == Quota(0, |vs|, v)
  {
    hide IsPrime, ValidVirtuals;
    DivModUnique(0, |vs|, 0, 0);
    var tab := Populate(vs, m, backends, 0);
    assert v !in tab;
    assert v !in multiset(tab);
  }

  lemma TurnAddsOne(vs: seq<Virtual>, m: nat, backends: nat, t: nat, v: nat)
    requires IsPrime(m) && |vs| > 0 && ValidVirtuals(vs, m, backends) && t < m && v < |vs|
    ensures multiset(Populate(vs, m, backends, t + 1))[v]
            == multiset(Populate(vs, m, backends, t))[v] + if v == t % |vs| then 1 else 0
  {
    hide Visit, IsPrime;
    var tab := Populate(vs, m, backends, t);
    var u := t % |vs|;
    SomeFreeWhilePartial(vs, m, backends, t, u);
    var slot := Probe(vs[u], m, FirstFree(tab, vs[u], 0));
    assert tab[slot] == EMPTY;
    assert multiset(tab[slot := u]) == multiset(tab) - multiset{EMPTY} + multiset{u};
  }

  /** Entries of backend b among the first n. */
  ghost function EntriesOf(vs: seq<Virtual>, b: nat, n: nat): nat
    requires n <= |vs|
  {
    if n == 0 then 0 else EntriesOf(vs, b, n - 1) + if vs[n - 1].backendIdx == b then 1 else 0
  }

  /** Slots won by backend b's entries among the first n. */
  ghost function SlotsOf(vs: seq<Virtual>, tab: seq<int>, b: nat, n: nat): nat
    requires n <= |vs|
  {
    if n == 0 then 0
    else SlotsOf(vs, tab, b, n - 1) + if vs[n - 1].backendIdx == b then multiset(tab)[n - 1] else 0
  }

  lemma {:induction false} SlotsOfAppend(vs: seq<Virtual>, tab: seq<int>, x: int, b: nat, n: nat)
    requires n <= |vs|
    ensures SlotsOf(vs, tab + [x], b, n)
            == SlotsOf(vs, tab, b, n) + if 0 <= x < n && vs[x].backendIdx == b then 1 else 0
  {
    if n > 0 {
      SlotsOfAppend(vs, tab, x, b, n - 1);
    }
  }

  lemma {:induction false} SlotsOfNothing(vs: seq<Virtual>, b: nat, n: nat)
    requires n <= |vs|
    ensures SlotsOf(vs, [], b, n) == 0
  {
    if n > 0 {
      SlotsOfNothing(vs, b, n - 1);
    }
  }

  /** Counting slots by backend is counting them by entry and adding up. */
  lemma {:induction false} SlotsByEntry(vs: seq<Virtual>, tab: seq<int>, b: nat)
    requires forall s :: 0 <= s < |tab| ==> tab[s] == EMPTY || 0 <= tab[s] < |vs|
    ensures multiset(Owners(tab, vs))[b] == SlotsOf(vs, tab, b, |vs|)
  {
    if tab == [] {
      SlotsOfNothing(vs, b, |vs|);
      assert Owners(tab, vs) == [];
    } else {
      var init, last := tab[..|tab| - 1], tab[|tab| - 1];
      SlotsByEntry(vs, init, b);
      SlotsOfAppend(vs, init, last, b, |vs|);
      assert tab == init + [last];
      assert Owners(tab, vs) == Owners(init, vs) + [if last == EMPTY then EMPTY else vs[last].backendIdx];
    }
  }

  lemma {:induction false} EntriesOfPrefix(vs: seq<Virtual>, more: seq<Virtual>, b: nat, n: nat)
    requires n <= |vs|
    ensures EntriesOf(vs + more, b, n) == EntriesOf(vs, b, n)
  {
    if n > 0 {
      EntriesOfPrefix(vs, more, b, n - 1);
    }
  }

  lemma {:induction false} EntriesOfBlock(vs: seq<Virtual>, b: nat, idx: nat, lo: nat, n: nat)
    requires lo <= n <= |vs|
    requires forall v :: lo <= v < n ==> vs[v].backendIdx == idx
    ensures EntriesOf(vs, b, n) == EntriesOf(vs, b, lo) + if b == idx then n - lo else 0
  {
    if lo < n {
      EntriesOfBlock(vs, b, idx, lo, n - 1);
    }
  }

  /** A backend has one entry per unit of normalised weight. */
  lemma {:induction false} EntriesAreWeight<N>(m: nat, hash: Hash<N>, backends: seq<Backend<N>>, b: nat)
    requires 2 <= m
    ensures EntriesOf(Virtuals(m, hash, backends), b, TotalWeight(backends))
            == if b < |backends| then NormalizeWeight(backends[b].weight) else 0
  {
    if backends != [] {
      var last := |backends| - 1;
      EntriesAreWeight(m, hash, backends[..last], b);
      var front := Virtuals(m, hash, backends[..last]);
      var block := Copies(m, hash, backends[last].name, NormalizeWeight(backends[last].weight), last);
      EntriesOfPrefix(front, block, b, |front|);
      EntriesOfBlock(front + block, b, last, |front|, |front| + |block|);
    }
  }

  lemma MulSucc(x: int, q: int)
    ensures (x + 1) * q == x * q + q
  {
  }

  lemma {:induction false} SlotsOfExact(vs: seq<Virtual>, tab: seq<int>, b: nat, n: nat, q: nat, r: nat)
    requires n <= |vs| && r <= |vs|
    requires forall v: nat :: v < n ==> multiset(tab)[v] == q + if v < r then 1 else 0
    ensures SlotsOf(vs, tab, b, n) == EntriesOf(vs, b, n) * q + EntriesOf(vs, b, if n < r then n else r)
  {
    if n > 0 {
      SlotsOfExact(vs, tab, b, n - 1, q, r);
      assert multiset(tab)[n - 1] == q + if n - 1 < r then 1 else 0;
      MulSucc(EntriesOf(vs, b, n - 1), q);
    }
  }

  /** Exact weighted fairness: with total weight T, backend b holds (m / T) slots per unit of
      weight, plus one for each of its entries that had a turn in the last, partial round. */
  lemma BackendShare<N>(m: nat, hash: Hash<N>, backends: seq<Backend<N>>, b: nat)
    requires IsPrime(m) && b < |backends|
    ensures TotalWeight(backends) > 0
    ensures m % TotalWeight(backends) <= TotalWeight(backends)
    ensures multiset(Table(m, hash, backends))[b]
            == NormalizeWeight(backends[b].weight) * (m / TotalWeight(backends))
               + EntriesOf(Virtuals(m, hash, backends), b, m % TotalWeight(backends))
  {
    assert 2 <= m;
    hide Visit, IsPrime, Populate, Owners;
    WeightPositive(backends);
    var vs := Virtuals(m, hash, backends);
    var tab := Populate(vs, m, |backends|, m);
    forall v: nat | v < |vs|
      ensures multiset(tab)[v] == Quota(m, |vs|, v)
    {
      EntryWins(vs, m, |backends|, m, v);
    }
    SlotsByEntry(vs, tab, b);
    SlotsOfExact(vs, tab, b, |vs|, m / |vs|, m % |vs|);
    EntriesAreWeight(m, hash, backends, b);
  }

  lemma {:induction false} EntriesMonotone(vs: seq<Virtual>, b: nat, n: nat, k: nat)
    requires k <= n <= |vs|
    ensures EntriesOf(vs, b, k) <= EntriesOf(vs, b, n)
    ensures k == 0 ==> EntriesOf(vs, b, k) == 0
  {
    if k < n {
      EntriesMonotone(vs, b, n - 1, k);
    }
  }

  lemma ShareParts<N>(m: nat, hash: Hash<N>, backends: seq<Backend<N>>, b: nat) returns (extra: nat)
    requires IsPrime(m) && b < |backends|
    ensures TotalWeight(backends) > 0
    ensures multiset(Table(m, hash, backends))[b]
            == NormalizeWeight(backends[b].weight) * (m / TotalWeight(backends)) + extra
    ensures extra <= NormalizeWeight(backends[b].weight)
    ensures m % TotalWeight(backends) == 0 ==> extra == 0
  {
    assert 2 <= m;
    hide Visit, IsPrime, Populate, Owners, Table, Virtuals, EntriesOf, NormalizeWeight;
    BackendShare(m, hash, backends, b);
    var t := TotalWeight(backends);
    var vs := Virtuals(m, hash, backends);
    extra := EntriesOf(vs, b, m % t);
    EntriesMonotone(vs, b, t, m % t);
    EntriesAreWeight(m, hash, backends, b);
  }

  /** Weighted fairness as bounds: w * floor(m / T) to w * ceil(m / T) slots, and at least w. */
  lemma BackendShareBounds<N>(m: nat, hash: Hash<N>, backends: seq<Backend<N>>, b: nat)
    requires IsPrime(m) && b < |backends| && TotalWeight(backends) < m
    ensures var t := TotalWeight(backends);
            var w := NormalizeWeight(backends[b].weight);
            var share := multiset(Table(m, hash, backends))[b];
            t > 0 && w * (m / t) <= share <= w * ((m + t - 1) / t) && w <= share
  {
    hide Visit, IsPrime, Populate, Owners, Table, Virtuals, NormalizeWeight, TotalWeight;
    var extra := ShareParts(m, hash, backends, b);
    ShareArithmetic(m, TotalWeight(backends), NormalizeWeight(backends[b].weight), extra);
  }

  lemma ShareArithmetic(m: nat, t: nat, w: nat, extra: nat)
    requires 0 < t < m && extra <= w && (m % t == 0 ==> extra == 0)
    ensures w * (m / t) <= w * (m / t) + extra <= w * ((m + t - 1) / t)
    ensures w <= w * (m / t) + extra
  {
    var q := m / t;
    QuotientPositive(m, t);
    CeilOf(m, t);
    MulMonotone(1, q, w);
    assert w * (q + 1) == w * q + w;
  }

  lemma QuotientPositive(m: nat, t: nat)
    requires 0 < t < m
    ensures m / t >= 1
  {
    MulMonotone(m / t, 0, t);
  }

  lemma CeilOf(m: nat, t: nat)
    requires t > 0
    ensures (m + t - 1) / t == m / t + if m % t == 0 then 0 else 1
  {
    var q, r := m / t, m % t;
    if r == 0 {
      DivModUnique(m + t - 1, t, q, t - 1);
    } else {
      assert m + t - 1 == t * (q + 1) + (r - 1);
      DivModUnique(m + t - 1, t, q + 1, r - 1);
    }
  }

  // ---- The same in the weights as they are configured.

  ghost predicate AllWeighted<N>(backends: seq<Backend<N>>) {
    forall b :: 0 <= b < |backends| ==> backends[b].weight >= 1
  }

  ghost function SumOfWeights<N>(backends: seq<Backend<N>>): nat {
    if backends == [] then 0 else SumOfWeights(backends[..|backends| - 1]) + backends[|backends| - 1].weight
  }

  lemma {:induction false} TotalIsSum<N>(backends: seq<Backend<N>>)
    requires AllWeighted(backends)
    ensures TotalWeight(backends) == SumOfWeights(backends)
  {
    if backends != [] {
      TotalIsSum(backends[..|backends| - 1]);
    }
  }

  /** How much of the block [lo, lo + w) lies below n. */
  ghost function Below(lo: nat, w: nat, n: nat): nat {
    if n <= lo then 0 else if n < lo + w then n - lo else w
  }

  /** Of the first n entries, those of backend b are the ones that come after all entries of the
      backends before it. */
  lemma {:induction false} EntriesOfFirst<N>(m: nat, hash: Hash<N>, backends: seq<Backend<N>>, b: nat, n: nat)
    requires 2 <= m && b < |backends| && n <= TotalWeight(backends) && AllWeighted(backends)
    ensures EntriesOf(Virtuals(m, hash, backends), b, n) == Below(SumOfWeights(backends[..b]), backends[b].weight, n)
  {
    var last := |backends| - 1;
    var init := backends[..last];
    var front := Virtuals(m, hash, init);
    var block := Copies(m, hash, backends[last].name, backends[last].weight, last);
    TotalIsSum(init);
    EntriesAreWeight(m, hash, init, b);
    if n <= |front| {
      EntriesOfPrefix(front, block, b, n);
    } else {
      EntriesOfPrefix(front, block, b, |front|);
      EntriesOfBlock(front + block, b, last, |front|, n);
    }
    if b < last {
      assert init[..b] == backends[..b];
      EntriesOfFirst(m, hash, init, b, if n <= |front| then n else |front|);
      SumOfMore(init, b);
    } else if n <= |front| {
      EntriesMonotone(front, b, |front|, n);
    }
  }

  lemma {:induction false} SumOfMore<N>(backends: seq<Backend<N>>, b: nat)
    requires b < |backends|
    ensures SumOfWeights(backends[..b]) + backends[b].weight <= SumOfWeights(backends)
  {
    var last := |backends| - 1;
    if b < last {
      assert backends[..last][..b] == backends[..b];
      SumOfMore(backends[..last], b);
    }
  }

  lemma WeightedAt<N>(backends: seq<Backend<N>>, b: nat)
    requires AllWeighted(backends) && b < |backends|
    ensures NormalizeWeight(backends[b].weight) == backends[b].weight
  {
  }

  /** How many slots each backend gets, in the numbers of the configuration: with T the sum of the
      weights, (m / T) per unit of weight, and the m % T slots left over one by one to the units of
      weight in the order of the list. */
  lemma ConfiguredShare<N>(m: nat, hash: Hash<N>, backends: seq<Backend<N>>, b: nat)
    requires IsPrime(m) && b < |backends| && AllWeighted(backends)
    ensures SumOfWeights(backends) > 0
    ensures multiset(Table(m, hash, backends))[b]
            == backends[b].weight * (m / SumOfWeights(backends))
               + Below(SumOfWeights(backends[..b]), backends[b].weight, m % SumOfWeights(backends))
  {
    assert 2 <= m;
    hide Visit, IsPrime, Populate, Owners, Table, Virtuals, EntriesOf, Below, AllWeighted, SumOfWeights,
      NormalizeWeight, TotalWeight;
    TotalIsSum(backends);
    WeightedAt(backends, b);
    BackendShare(m, hash, backends, b);
    EntriesOfFirst(m, hash, backends, b, m % TotalWeight(backends));
  }

  /** So a share is within one slot per unit of weight of what the weights ask for. */
  lemma ConfiguredBounds<N>(m: nat, hash: Hash<N>, backends: seq<Backend<N>>, b: nat)
    requires IsPrime(m) && b < |backends| && AllWeighted(backends) && SumOfWeights(backends) < m
    ensures var t, w := SumOfWeights(backends), backends[b].weight;
            var share := multiset(Table(m, hash, backends))[b];
            0 < t && w * (m / t) <= share <= w * ((m + t - 1) / t) && w <= share
  {
    hide Visit, IsPrime, Populate, Owners, Table, Virtuals, AllWeighted, SumOfWeights, NormalizeWeight, TotalWeight;
    TotalIsSum(backends);
    WeightedAt(backends, b);
    BackendShareBounds(m, hash, backends, b);
  }

  /** A backend without a weight counts as one of weight 1: the table is the same. */
  lemma {:induction false} UnweightedIsOne<N>(m: nat, hash: Hash<N>, backends: seq<Backend<N>>, b: nat)
    requires IsPrime(m) && b < |backends| && backends[b].weight == 0
    ensures TotalWeight(backends[b := backends[b].(weight := 1)]) == TotalWeight(backends)
    ensures Table(m, hash, backends[b := backends[b].(weight := 1)]) == Table(m, hash, backends)
  {
    assert 2 <= m;
    hide Visit, IsPrime, Populate, Owners;
    SameVirtuals(m, hash, backends, b);
  }

  lemma {:induction false} SameVirtuals<N>(m: nat, hash: Hash<N>, backends: seq<Backend<N>>, b: nat)
    requires 2 <= m && b < |backends| && backends[b].weight == 0
    ensures TotalWeight(backends[b := backends[b].(weight := 1)]) == TotalWeight(backends)
    ensures Virtuals(m, hash, backends[b := backends[b].(weight := 1)]) == Virtuals(m, hash, backends)
  {
    var last, one := |backends| - 1, backends[b].(weight := 1);
    if b < last {
      SameVirtuals(m, hash, backends[..last], b);
      assert backends[b := one][..last] == backends[..last][b := one];
    } else {
      assert backends[b := one][..last] == backends[..last];
    }
  }

  /** Every slot names a backend of the list, and every backend of the list is named. */
  lemma TableCoversBackends<N>(m: nat, hash: Hash<N>, backends: seq<Backend<N>>)
    requires IsPrime(m) && backends != [] && TotalWeight(backends) < m
    ensures forall s :: 0 <= s < m ==> 0 <= Table(m, hash, backends)[s] < |backends|
    ensures forall b :: 0 <= b < |backends| ==> b in Table(m, hash, backends)
  {
    hide Visit, IsPrime, Populate;
    WeightPositive(backends);
    var vs := Virtuals(m, hash, backends);
    PopulateFills(vs, m, |backends|);
    var table := Table(m, hash, backends);
    forall s | 0 <= s < m
      ensures 0 <= table[s] < |backends|
    {
      var v := Populate(vs, m, |backends|, m)[s];
      assert ValidVirtual(vs[v], m, |backends|);
    }
    forall b | 0 <= b < |backends|
      ensures b in table
    {
      BackendShareBounds(m, hash, backends, b);
      assert b in multiset(table);
    }
  }
}
