/** What the weights of a VIP's configuration come to in the kernel: how many slots of its extent
    name each of its backends. */
module TableShares {
  import opened Common
  import opened Types
  import opened Primes
  import opened BpfMaps
  import opened ExtentAllocation
  import opened Maglev
  import opened MaglevFairness
  import opened DataplaneState
  import opened MapAgreement
  import opened UpsertConditions

  /** Two backends weighing 10 and 1 share the smallest table as 938 and 93. */
  lemma TenToOne<N>(hash: Hash<N>, x: N, y: N)
    ensures IsPrime(1031)
    ensures var table := multiset(Table(1031, hash, [Backend(x, 10), Backend(y, 1)]));
            table[0] == 938 && table[1] == 93
  {
    ClassesArePrime(1031);
    hide IsPrime, Table;
    var backends := [Backend(x, 10), Backend(y, 1)];
    assert backends[..0] == [] && backends[..1] == [Backend(x, 10)] && backends[..1][..0] == [];
    assert SumOfWeights(backends[..1]) == 10 && SumOfWeights(backends) == 11;
    ConfiguredShare(1031, hash, backends, 0);
    ConfiguredShare(1031, hash, backends, 1);
  }

  // ---- The weights of a VIP's backend list.

  /** No later entry of the list is for the same backend. */
  ghost predicate IsLast(backends: seq<BackendSpec>, i: nat) {
    i < |backends| && forall j :: i < j < |backends| ==> backends[j].ep != backends[i].ep
  }

  /** An entry without a weight weighs 1. */
  ghost function Weight(b: BackendSpec): nat {
    if b.weight == 0 then 1 else b.weight
  }

  /** The weights of the list added up, of several entries for one backend the last. */
  ghost function ListWeight(backends: seq<BackendSpec>): nat {
    if backends == [] then 0
    else (if IsLast(backends, 0) then Weight(backends[0]) else 0) + ListWeight(backends[1..])
  }

  lemma {:induction false} WeightsFromFront(backends: seq<BackendSpec>)
    requires backends != []
    ensures WeightsOf(backends) == map[backends[0].ep := Weight(backends[0])] + WeightsOf(backends[1..])
  {
    var last, first := |backends| - 1, map[backends[0].ep := Weight(backends[0])];
    if last > 0 {
      var init, rest := backends[..last], backends[1..];
      WeightsFromFront(init);
      assert rest[..last - 1] == init[1..] && rest[last - 1] == backends[last];
      LastOfMerged(first, WeightsOf(init[1..]), backends[last].ep, Weight(backends[last]));
    } else {
      assert backends[..0] == [] && backends[1..] == [];
    }
  }

  lemma LastOfMerged(a: map<Endpoint, nat>, b: map<Endpoint, nat>, ep: Endpoint, w: nat)
    ensures (a + b)[ep := w] == a + b[ep := w]
  {
  }

  /** The weight recorded for a backend is that of its last entry. */
  lemma {:induction false} WeightIsLast(backends: seq<BackendSpec>, i: nat)
    requires IsLast(backends, i)
    ensures backends[i].ep in WeightsOf(backends) && WeightsOf(backends)[backends[i].ep] == Weight(backends[i])
  {
    WeightsFromFront(backends);
    if i > 0 {
      assert IsLast(backends[1..], i - 1);
      WeightIsLast(backends[1..], i - 1);
    } else {
      assert forall b :: b in backends[1..] ==> b.ep != backends[0].ep;
    }
  }

  /** So is the hardware address. */
  lemma {:induction false} MacIsLast(backends: seq<BackendSpec>, i: nat)
    requires IsLast(backends, i)
    ensures backends[i].ep in MacsOf(backends) && MacsOf(backends)[backends[i].ep] == backends[i].mac
  {
    var last := |backends| - 1;
    if i < last {
      assert IsLast(backends[..last], i);
      MacIsLast(backends[..last], i);
    }
  }

  lemma {:induction false} LoadIsListWeight(backends: seq<BackendSpec>)
    ensures Load(WeightsOf(backends)) == ListWeight(backends)
  {
    hide Load;
    if backends == [] {
      NoLoad();
    } else {
      LoadIsListWeight(backends[1..]);
      WeightsFromFront(backends);
      LastIffNew(backends);
      hide WeightsOf, IsLast;
      LoadMerged(backends[0].ep, Weight(backends[0]), WeightsOf(backends[1..]));
    }
  }

  lemma LoadMerged(ep: Endpoint, w: nat, rest: map<Endpoint, nat>)
    requires w >= 1
    ensures Load(map[ep := w] + rest) == (if ep in rest then 0 else w) + Load(rest)
  {
    hide Load;
    var weights := map[ep := w] + rest;
    if ep in rest {
      assert weights == rest;
    } else {
      LoadWithout(weights, ep);
      assert weights - {ep} == rest;
    }
  }

  lemma LastIffNew(backends: seq<BackendSpec>)
    requires backends != []
    ensures IsLast(backends, 0) <==> backends[0].ep !in WeightsOf(backends[1..])
  {
    var rest := backends[1..];
    if IsLast(backends, 0) {
      assert forall b :: b in rest ==> b.ep != backends[0].ep;
    } else {
      var j :| 0 < j < |backends| && backends[j].ep == backends[0].ep;
      assert rest[j - 1] in rest;
    }
  }

  // ---- The slots of its extent.

  /** How many slots of the extent name an ID. */
  ghost function SlotsNaming(m: Maps, ext: Extent, id: nat): nat
    requires ext.End() <= |m.maglev|
  {
    multiset(m.maglev[ext.offset..ext.End()])[id]
  }

  lemma {:induction false} SameCount(slice: seq<nat>, table: seq<int>, id: nat, b: nat)
    requires |slice| == |table| && forall s :: 0 <= s < |slice| ==> (slice[s] == id <==> table[s] == b)
    ensures multiset(slice)[id] == multiset(table)[b]
  {
    if slice != [] {
      var last := |slice| - 1;
      SameCount(slice[..last], table[..last], id, b);
      assert slice == slice[..last] + [slice[last]] && table == table[..last] + [table[last]];
    }
  }

  lemma CountById(hash: Hash<Endpoint>, slice: seq<nat>, names: seq<Endpoint>, backends: map<Endpoint, nat>,
      weights: map<Endpoint, nat>, b: nat)
    requires TableOf(hash, slice, names, backends, weights) && b < |names|
    requires forall x, y :: x in backends && y in backends && backends[x] == backends[y] ==> x == y
    ensures multiset(slice)[backends[names[b]]] == multiset(Table(|slice|, hash, Listed(names, weights)))[b]
  {
    hide IsPrime, Table, Listed;
    var table := Table(|slice|, hash, Listed(names, weights));
    forall s | 0 <= s < |slice|
      ensures slice[s] == backends[names[b]] <==> table[s] == b
    {
      assert names[table[s]] in names && names[b] in names;
    }
    SameCount(slice, table, backends[names[b]], b);
  }

  /** Of size slots, a backend that weighs w out of t gets share. */
  ghost predicate Proportional(size: nat, t: nat, w: nat, share: nat) {
    0 < t < size && w * (size / t) <= share <= w * ((size + t - 1) / t) && w <= share
  }

  lemma ListedShare(hash: Hash<Endpoint>, size: nat, names: seq<Endpoint>, weights: map<Endpoint, nat>, b: nat)
    requires IsPrime(size) && b < |names| && (forall ep :: ep in names ==> ep in weights)
    requires TotalWeight(Listed(names, weights)) < size && weights[names[b]] >= 1
    ensures Proportional(size, TotalWeight(Listed(names, weights)), weights[names[b]],
        multiset(Table(size, hash, Listed(names, weights)))[b])
  {
    hide IsPrime, Table, TotalWeight;
    BackendShareBounds(size, hash, Listed(names, weights), b);
  }

  /** A table of a backend list gives each backend its weighted share. */
  lemma TableShare(hash: Hash<Endpoint>, slice: seq<nat>, names: seq<Endpoint>, backends: map<Endpoint, nat>,
      list: seq<BackendSpec>, i: nat)
    requires TableOf(hash, slice, names, backends, WeightsOf(list)) && IsLast(list, i)
    requires forall x, y :: x in backends && y in backends && backends[x] == backends[y] ==> x == y
    ensures list[i].ep in backends
    ensures Proportional(|slice|, ListWeight(list), Weight(list[i]), multiset(slice)[backends[list[i].ep]])
  {
    hide IsPrime, Table, Load, Proportional, Listed, WeightsOf, ListWeight, TotalWeight;
    var weights, ep := WeightsOf(list), list[i].ep;
    WeightIsLast(list, i);
    assert ep in names;
    var b :| 0 <= b < |names| && names[b] == ep;
    CountById(hash, slice, names, backends, weights, b);
    TotalIsLoad(names, weights);
    LoadIsListWeight(list);
    ListedShare(hash, |slice|, names, weights, b);
  }

  /** At rest, the slots of a VIP's extent are shared out by the weights in its configuration: a
      backend whose last entry weighs w, out of T in all, has between w * floor(size / T) and
      w * ceil(size / T) of them, and never fewer than w. */
  lemma SlotsFollowWeights(hash: Hash<Endpoint>, m: Maps, services: Services, states: States, ids: map<Endpoint, nat>,
      v: VipId, i: nat)
    requires Agree(hash, m, services, states) && Named(services, states, ids)
    requires v in services && services[v].spec.Some? && IsLast(services[v].vip.backends, i)
    ensures services[v].ext.End() <= |m.maglev| && services[v].vip.backends[i].ep in services[v].backends
    ensures var e := services[v];
            Proportional(e.ext.size, ListWeight(e.vip.backends), Weight(e.vip.backends[i]),
              SlotsNaming(m, e.ext, e.backends[e.vip.backends[i].ep]))
  {
    hide Base, Installed, TableOf, AllNamed, SlotsHold, ListWeight, IsLast, WeightsOf, Proportional, Named, ClassFor,
      Outgrown;
    var e := services[v];
    assert Settled(hash, m, v, e);
    var slice := m.maglev[e.ext.offset..e.ext.End()];
    var names :| TableOf(hash, slice, names, e.backends, WeightsOf(e.vip.backends));
    IdsDiffer(services, states, ids, v);
    TableShare(hash, slice, names, e.backends, e.vip.backends, i);
  }

  lemma IdsDiffer(services: Services, states: States, ids: map<Endpoint, nat>, v: VipId)
    requires Named(services, states, ids) && v in services
    ensures forall x, y ::
        x in services[v].backends && y in services[v].backends && services[v].backends[x] == services[v].backends[y]
        ==> x == y
  {
    var backends := services[v].backends;
    forall x, y | x in backends && y in backends && backends[x] == backends[y]
      ensures x == y
    {
      assert ids[x] == backends[x] && ids[y] == backends[y];
      assert states[ids[x]].ep == x && states[ids[y]].ep == y;
    }
  }

  // ---- The same backends and weights give the same table.

  /** No two names sort as equal. */
  ghost predicate NamesDiffer(hash: Hash<Endpoint>) {
    forall x, y :: hash.rank(x) == hash.rank(y) ==> x == y
  }

  lemma {:induction false} OneOrder(hash: Hash<Endpoint>, names: seq<Endpoint>, names': seq<Endpoint>)
    requires NamesDiffer(hash) && Distinct(names) && Distinct(names') && InOrder(hash, names) && InOrder(hash, names')
    requires forall ep :: ep in names <==> ep in names'
    ensures names == names'
    decreases |names|
  {
    if names == [] {
      SomeName(names');
    } else {
      assert names[0] in names';
      assert names'[0] in names;
      LeastFirst(hash, names, names'[0]);
      LeastFirst(hash, names', names[0]);
      forall ep
        ensures ep in names[1..] <==> ep in names'[1..]
      {
        RestHas(names, ep);
        RestHas(names', ep);
      }
      OneOrder(hash, names[1..], names'[1..]);
      assert names == [names[0]] + names[1..] && names' == [names'[0]] + names'[1..];
    }
  }

  lemma SomeName(names: seq<Endpoint>)
    ensures names != [] ==> exists ep :: ep in names
  {
    if names != [] {
      assert names[0] in names;
    }
  }

  lemma LeastFirst(hash: Hash<Endpoint>, names: seq<Endpoint>, ep: Endpoint)
    requires InOrder(hash, names) && ep in names
    ensures hash.rank(names[0]) <= hash.rank(ep)
  {
    var i :| 0 <= i < |names| && names[i] == ep;
  }

  lemma RestHas(names: seq<Endpoint>, ep: Endpoint)
    requires names != [] && Distinct(names)
    ensures ep in names[1..] <==> ep in names && ep != names[0]
  {
    var rest := names[1..];
    if ep in rest {
      var i :| 0 <= i < |rest| && rest[i] == ep;
      assert names[i + 1] == ep;
    }
    if ep in names && ep != names[0] {
      var i :| 0 <= i < |names| && names[i] == ep;
      assert rest[i - 1] == ep;
    }
  }

  lemma OneTable(hash: Hash<Endpoint>, slice: seq<nat>, slice': seq<nat>, names: seq<Endpoint>, names': seq<Endpoint>,
      backends: map<Endpoint, nat>, weights: map<Endpoint, nat>)
    requires NamesDiffer(hash) && |slice| == |slice'|
    requires TableOf(hash, slice, names, backends, weights) && TableOf(hash, slice', names', backends, weights)
    ensures slice == slice'
  {
    hide IsPrime, Table, TotalWeight, Listed;
    assert forall ep :: ep in names <==> ep in names';
    OneOrder(hash, names, names');
  }

  /** Whatever happened in between, a restart included: when a VIP again has the backends, IDs and weights it
      had, in a table of the size it had, slot by slot it is the table it had, so that new flows go
      where they went. */
  lemma SameTableAgain(hash: Hash<Endpoint>, m: Maps, services: Services, states: States, m': Maps, services': Services,
      states': States, v: VipId)
    requires NamesDiffer(hash) && Agree(hash, m, services, states) && Agree(hash, m', services', states')
    requires v in services && v in services' && services[v].spec.Some? && services'[v].spec.Some?
    requires services[v].backends == services'[v].backends && services[v].ext.size == services'[v].ext.size
    requires WeightsOf(services[v].vip.backends) == WeightsOf(services'[v].vip.backends)
    ensures var e, e' := services[v], services'[v];
            && e.ext.End() <= |m.maglev| && e'.ext.End() <= |m'.maglev|
            && m.maglev[e.ext.offset..e.ext.End()] == m'.maglev[e'.ext.offset..e'.ext.End()]
  {
    hide Base, Installed, TableOf, AllNamed, SlotsHold, WeightsOf, NamesDiffer, ClassFor, Outgrown;
    var e, e' := services[v], services'[v];
    assert Settled(hash, m, v, e) && Settled(hash, m', v, e');
    var slice, slice' := m.maglev[e.ext.offset..e.ext.End()], m'.maglev[e'.ext.offset..e'.ext.End()];
    var names :| TableOf(hash, slice, names, e.backends, WeightsOf(e.vip.backends));
    var names' :| TableOf(hash, slice', names', e'.backends, WeightsOf(e'.vip.backends));
    OneTable(hash, slice, slice', names, names', e.backends, WeightsOf(e.vip.backends));
  }
}
