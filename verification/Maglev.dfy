/** Weighted Maglev lookup tables (internal/maglev). The hash is a parameter: everything here
    holds for every hash function. */
module Maglev {
  import opened Common
  import opened Primes

  datatype Backend<N> = Backend(name: N, weight: nat)

  /** One entry of the permutation table; a backend has one per unit of weight. */
  datatype Virtual = Virtual(offset: nat, skip: nat, backendIdx: nat)

  datatype BuildError = NoBackends | TableTooSmall

  function NormalizeWeight(w: nat): nat {
    if w == 0 then 1 else w
  }

  /** The hash of a backend's c-th virtual entry, once for the offset and once for the skip, and the
      place of its name in the order of names. */
  datatype Hash<!N> = Hash(offset: (N, nat) -> nat, skip: (N, nat) -> nat, rank: N -> nat)

  ghost predicate ValidVirtual(ve: Virtual, m: nat, backends: nat) {
    ve.offset < m && 1 <= ve.skip < m && ve.backendIdx < backends
  }

  ghost predicate ValidVirtuals(vs: seq<Virtual>, m: nat, backends: nat) {
    forall v :: 0 <= v < |vs| ==> ValidVirtual(vs[v], m, backends)
  }

  function VirtualOf<N>(m: nat, hash: Hash<N>, name: N, c: nat, idx: nat): Virtual
    requires 2 <= m
  {
    Virtual(hash.offset(name, c) % m, hash.skip(name, c) % (m - 1) + 1, idx)
  }

  function Copies<N>(m: nat, hash: Hash<N>, name: N, n: nat, idx: nat): (vs: seq<Virtual>)
    requires 2 <= m
    ensures |vs| == n
    ensures forall v :: 0 <= v < n ==> vs[v] == VirtualOf(m, hash, name, v, idx)
  {
    if n == 0 then [] else Copies(m, hash, name, n - 1, idx) + [VirtualOf(m, hash, name, n - 1, idx)]
  }

  /** The permutation table: backend after backend, each as often as its weight says. */
  function Virtuals<N>(m: nat, hash: Hash<N>, backends: seq<Backend<N>>): (vs: seq<Virtual>)
    requires 2 <= m
    ensures |vs| == TotalWeight(backends)
    ensures ValidVirtuals(vs, m, |backends|)
  {
    if backends == [] then
      []
    else
      var last := |backends| - 1;
      Virtuals(m, hash, backends[..last])
      + Copies(m, hash, backends[last].name, NormalizeWeight(backends[last].weight), last)
  }

  function TotalWeight<N>(backends: seq<Backend<N>>): nat {
    if backends == [] then 0
    else TotalWeight(backends[..|backends| - 1]) + NormalizeWeight(backends[|backends| - 1].weight)
  }

  function Probe(ve: Virtual, m: nat, i: nat): nat
    requires m > 0
  {
    Visit(m, ve.offset, ve.skip, i)
  }

  /** The slots a backend's c-th entry prefers: from one hash of its name, in steps of another. */
  lemma Preference<N>(m: nat, hash: Hash<N>, name: N, c: nat, idx: nat, i: nat)
    requires 2 <= m
    ensures Probe(VirtualOf(m, hash, name, c, idx), m, i)
            == (hash.offset(name, c) % m + i * (hash.skip(name, c) % (m - 1) + 1)) % m
  {
  }

  // ---- The reference: turn by turn, each entry takes the first free slot of its own preference list.

  const EMPTY := -1

  ghost predicate FreeAt(tab: seq<int>, ve: Virtual, i: nat)
    requires |tab| > 0
  {
    tab[Probe(ve, |tab|, i)] == EMPTY
  }

  /** The first free position at or after j in ve's preference list. */
  ghost function FirstFree(tab: seq<int>, ve: Virtual, j: nat): (i: nat)
    requires |tab| > 0
    requires exists k: nat :: j <= k < |tab| && FreeAt(tab, ve, k)
    ensures j <= i < |tab| && FreeAt(tab, ve, i)
    ensures forall k: nat :: j <= k < i ==> !FreeAt(tab, ve, k)
    decreases |tab| - j
  {
    if FreeAt(tab, ve, j) then j else FirstFree(tab, ve, j + 1)
  }

  /** As long as a slot is empty, every entry's preference list reaches an empty slot. */
  lemma SomeFree(tab: seq<int>, ve: Virtual, backends: nat)
    requires IsPrime(|tab|) && ValidVirtual(ve, |tab|, backends)
    requires EMPTY in tab
    ensures exists k: nat :: 0 <= k < |tab| && FreeAt(tab, ve, k)
  {
    var slot :| 0 <= slot < |tab| && tab[slot] == EMPTY;
    var k := PrimeWalkReaches(|tab|, ve.offset, ve.skip, slot);
    assert FreeAt(tab, ve, k);
  }

  /** The table of entry numbers after t turns; entries take turns in order. */
  ghost function Populate(vs: seq<Virtual>, m: nat, backends: nat, t: nat): (tab: seq<int>)
    requires IsPrime(m) && |vs| > 0 && ValidVirtuals(vs, m, backends) && t <= m
    ensures |tab| == m
    ensures multiset(tab)[EMPTY] == m - t
    ensures forall s :: 0 <= s < m ==> tab[s] == EMPTY || 0 <= tab[s] < |vs|
  {
    if t == 0 then
      var tab := seq(m, _ => EMPTY);
      AllEmpty(tab);
      tab
    else
      var tab := Populate(vs, m, backends, t - 1);
      var v := (t - 1) % |vs|;
      SomeFree(tab, vs[v], backends);
      var slot := Probe(vs[v], m, FirstFree(tab, vs[v], 0));
      tab[slot := v]
  }

  lemma {:induction false} AllEmpty(tab: seq<int>)
    requires forall s :: 0 <= s < |tab| ==> tab[s] == EMPTY
    ensures multiset(tab)[EMPTY] == |tab|
  {
    if tab != [] {
      var init := tab[..|tab| - 1];
      AllEmpty(init);
      assert tab == init + [EMPTY];
    }
  }

  /** Once every turn is played the table is full. */
  lemma PopulateFills(vs: seq<Virtual>, m: nat, backends: nat)
    requires IsPrime(m) && |vs| > 0 && ValidVirtuals(vs, m, backends)
    ensures forall s :: 0 <= s < m ==> 0 <= Populate(vs, m, backends, m)[s] < |vs|
  {
    var tab := Populate(vs, m, backends, m);
    assert EMPTY !in multiset(tab);
    forall s | 0 <= s < m
      ensures 0 <= tab[s] < |vs|
    {
      assert tab[s] in multiset(tab);
    }
  }

  /** The backend of every slot of a full table of entry numbers. */
  ghost function Owners(tab: seq<int>, vs: seq<Virtual>): (owners: seq<int>)
    requires forall s :: 0 <= s < |tab| ==> tab[s] == EMPTY || 0 <= tab[s] < |vs|
    ensures |owners| == |tab|
  {
    seq(|tab|, s requires 0 <= s < |tab| => if tab[s] == EMPTY then EMPTY else vs[tab[s]].backendIdx)
  }

  /** The lookup table the reference algorithm gives for a backend list. */
  ghost function Table<N>(m: nat, hash: Hash<N>, backends: seq<Backend<N>>): (table: seq<int>)
    requires IsPrime(m) && backends != []
    ensures |table| == m
  {
    WeightPositive(backends);
    var vs := Virtuals(m, hash, backends);
    Owners(Populate(vs, m, |backends|, m), vs)
  }

  lemma WeightPositive<N>(backends: seq<Backend<N>>)
    requires backends != []
    ensures TotalWeight(backends) > 0
  {
  }

  // ---- The implementation.

  method BuildVirtuals<N>(m: nat, hash: Hash<N>, backends: seq<Backend<N>>) returns (vs: seq<Virtual>)
    requires 2 <= m
    ensures vs == Virtuals(m, hash, backends)
  {
    vs := [];
    for i := 0 to |backends|
      invariant vs == Virtuals(m, hash, backends[..i])
    {
      var b := backends[i];
      var w := NormalizeWeight(b.weight);
      ghost var before := vs;
      for c := 0 to w
        invariant vs == before + Copies(m, hash, b.name, c, i)
      {
        vs := vs + [VirtualOf(m, hash, b.name, c, i)];
      }
      assert backends[..i + 1][..i] == backends[..i];
    }
    assert backends[..|backends|] == backends;
  }

  /** Everything before next[v] in entry v's preference list is taken, so resuming there is
      the same search as starting over. */
  ghost predicate Resumable(tab: seq<int>, ve: Virtual, next: int)
    requires |tab| > 0
  {
    0 <= next <= |tab| && forall k: nat :: 0 <= k < next ==> !FreeAt(tab, ve, k)
  }

  lemma FirstFreeFrom(tab: seq<int>, ve: Virtual, j: nat, i: nat)
    requires |tab| > 0 && i < |tab| && FreeAt(tab, ve, i)
    requires forall k: nat :: 0 <= k < i ==> !FreeAt(tab, ve, k)
    ensures FirstFree(tab, ve, 0) == i
  {
    assert 0 <= i < |tab| && FreeAt(tab, ve, i);
    var f := FirstFree(tab, ve, 0);
    assert FreeAt(tab, ve, f);
  }

  /** The fill loop's state after t turns: table holds the owners the reference has placed, and
      every entry may resume its search where it stopped. */
  ghost predicate InStep(vs: seq<Virtual>, m: nat, n: nat, t: nat, table: seq<int>, next: seq<nat>)
    requires IsPrime(m) && |vs| > 0 && ValidVirtuals(vs, m, n) && t <= m
  {
    && table == Owners(Populate(vs, m, n, t), vs)
    && |next| == |vs|
    && forall u :: 0 <= u < |vs| ==> Resumable(Populate(vs, m, n, t), vs[u], next[u])
  }

  /** The inner loop: advances entry v along its preference list to a free slot. */
  method NextFree(vs: seq<Virtual>, m: nat, table: array<int>, next: array<nat>, v: nat, ghost tab: seq<int>)
    returns (slot: nat)
    requires m > 0 && v < |vs| == next.Length && |tab| == m && table as object != next as object
    requires forall s :: 0 <= s < m ==> tab[s] == EMPTY || 0 <= tab[s] < |vs|
    requires table[..] == Owners(tab, vs) && Resumable(tab, vs[v], next[v])
    requires forall u :: 0 <= u < |vs| ==> vs[u].backendIdx >= 0
    requires exists k: nat :: k < m && FreeAt(tab, vs[v], k)
    modifies next
    ensures next[..] == old(next[..])[v := next[v]] && Resumable(tab, vs[v], next[v])
    ensures next[v] < m && slot == Probe(vs[v], m, next[v]) && FreeAt(tab, vs[v], next[v])
  {
    hide Visit;
    var ve := vs[v];
    ghost var goal: nat :| goal < m && FreeAt(tab, ve, goal);
    slot := Probe(ve, m, next[v]);
    while table[slot] != EMPTY
      invariant next[v] <= goal && slot == Probe(ve, m, next[v])
      invariant next[..] == old(next[..])[v := next[v]]
      invariant Resumable(tab, ve, next[v])
      decreases goal - next[v]
    {
      assert table[slot] == table[..][slot] == Owners(tab, vs)[slot];
      assert !FreeAt(tab, ve, next[v]);
      next[v] := next[v] + 1;
      slot := Probe(ve, m, next[v]);
    }
    assert table[slot] == table[..][slot] == Owners(tab, vs)[slot];
  }

  /** Entry v's turn: walk its preference list from where it stopped to a free slot and take it. */
  method TakeTurn(vs: seq<Virtual>, m: nat, table: array<int>, next: array<nat>, v: nat, ghost n: nat, ghost t: nat)
    requires IsPrime(m) && |vs| > 0 && ValidVirtuals(vs, m, n)
    requires t < m && v < |vs| && t % |vs| == v && table as object != next as object
    requires InStep(vs, m, n, t, table[..], next[..])
    modifies table, next
    ensures InStep(vs, m, n, t + 1, table[..], next[..])
  {
    hide Visit, IsPrime;
    ghost var tab := Populate(vs, m, n, t);
    var ve := vs[v];
    SomeFreeWhilePartial(vs, m, n, t, v);
    var slot := NextFree(vs, m, table, next, v, tab);
    FirstFreeFrom(tab, ve, 0, next[v]);
    table[slot] := ve.backendIdx;
    KeepsResumable(vs, tab, tab[slot := v], slot, v, next[..]);
    assert Populate(vs, m, n, t + 1) == tab[slot := v];
    next[v] := next[v] + 1;
    assert table[..] == Owners(tab[slot := v], vs);
  }

  lemma InStepAtStart(vs: seq<Virtual>, m: nat, n: nat, table: seq<int>, next: seq<nat>)
    requires IsPrime(m) && |vs| > 0 && ValidVirtuals(vs, m, n)
    requires |table| == m && forall s :: 0 <= s < m ==> table[s] == EMPTY
    requires |next| == |vs| && forall u :: 0 <= u < |vs| ==> next[u] == 0
    ensures InStep(vs, m, n, 0, table, next)
  {
    assert table == Owners(Populate(vs, m, n, 0), vs);
  }

  /** Rounds of turns, in entry order, until no slot is left. */
  method FillTable(vs: seq<Virtual>, m: nat, ghost n: nat) returns (result: seq<int>)
    requires IsPrime(m) && |vs| > 0 && ValidVirtuals(vs, m, n)
    ensures result == Owners(Populate(vs, m, n, m), vs)
  {
    hide Visit, IsPrime, ValidVirtuals, Populate, Owners, Resumable;
    var total := |vs|;
    var table := new int[m](_ => EMPTY);
    var next := new nat[total](_ => 0);
    InStepAtStart(vs, m, n, table[..], next[..]);
    var filled := 0;
    while filled < m
      invariant filled <= m && (filled < m ==> filled % total == 0)
      invariant InStep(vs, m, n, filled, table[..], next[..])
    {
      var v := 0;
      ghost var start := filled;
      while v < total && filled < m
        invariant 0 <= v <= total && filled == start + v <= m
        invariant InStep(vs, m, n, filled, table[..], next[..])
        decreases total - v
      {
        TurnOf(start, v, total);
        TakeTurn(vs, m, table, next, v, n, filled);
        filled := filled + 1;
        v := v + 1;
      }
      TurnOfRound(start, total);
    }
    result := table[..];
  }

  /** The Maglev table of size m for backends, for any prime m. */
  method BuildTable<N>(m: nat, hash: Hash<N>, backends: seq<Backend<N>>) returns (r: Result<seq<int>, BuildError>)
    requires IsPrime(m)
    ensures r == Err(NoBackends) <==> backends == []
    ensures r == Err(TableTooSmall) <==> backends != [] && m <= TotalWeight(backends)
    ensures r.Ok? ==> r.value == Table(m, hash, backends)
  {
    if |backends| == 0 {
      return Err(NoBackends);
    }
    WeightPositive(backends);
    var vs := BuildVirtuals(m, hash, backends);
    if m <= |vs| {
      return Err(TableTooSmall);
    }
    var table := FillTable(vs, m, |backends|);
    r := Ok(table);
  }

  lemma SomeFreeWhilePartial(vs: seq<Virtual>, m: nat, backends: nat, t: nat, v: nat)
    requires IsPrime(m) && |vs| > 0 && ValidVirtuals(vs, m, backends) && t < m && v < |vs|
    ensures exists k: nat :: 0 <= k < m && FreeAt(Populate(vs, m, backends, t), vs[v], k)
  {
    assert EMPTY in multiset(Populate(vs, m, backends, t));
    SomeFree(Populate(vs, m, backends, t), vs[v], backends);
  }

  lemma KeepsResumable(vs: seq<Virtual>, tab: seq<int>, tab': seq<int>, slot: nat, v: nat, next: seq<nat>)
    requires v < |vs| == |next| && slot < |tab| && tab' == tab[slot := v]
    requires forall u :: 0 <= u < |vs| ==> Resumable(tab, vs[u], next[u])
    requires next[v] < |tab| && slot == Probe(vs[v], |tab|, next[v])
    ensures forall u :: 0 <= u < |vs| ==> Resumable(tab', vs[u], if u == v then next[u] + 1 else next[u])
  {
    forall u | 0 <= u < |vs|
      ensures Resumable(tab', vs[u], if u == v then next[u] + 1 else next[u])
    {
      assert Resumable(tab, vs[u], next[u]);
      forall k: nat | 0 <= k < next[u]
        ensures !FreeAt(tab', vs[u], k)
      {
        assert !FreeAt(tab, vs[u], k);
      }
    }
  }

  lemma TurnOf(start: nat, v: nat, total: nat)
    requires 0 < total && start % total == 0 && v < total
    ensures (start + v) % total == v && (start + v) / total == start / total
  {
    DivModUnique(start + v, total, start / total, v);
  }

  lemma TurnOfRound(start: nat, total: nat)
    requires 0 < total && start % total == 0
    ensures (start + total) % total == 0
  {
    assert start + total == total * (start / total + 1) + 0;
    DivModUnique(start + total, total, start / total + 1, 0);
  }
}
