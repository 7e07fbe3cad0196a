/** When an upsert succeeds, in terms of what a caller can see before it. */
module UpsertConditions {
  import opened Common
  import opened Types
  import opened BpfMaps
  import opened ExtentAllocation
  import opened IdAllocation
  import opened Maglev
  import opened DataplaneState
  import opened MapAgreement

  // ---- Backend IDs.

  /** There is an ID for ep: the one it has, or one that nobody has. */
  ghost predicate HasRoom(ids: map<Endpoint, nat>, ep: Endpoint) {
    ep in ids || |ids| < MAX_BACKENDS
  }

  /** There are IDs for the known backends and the wanted ones together. */
  ghost predicate RoomFor(known: set<Endpoint>, wanted: set<Endpoint>) {
    |known + wanted| <= MAX_BACKENDS
  }

  /** Whether dropping v's reference would free the backend's ID. */
  ghost predicate Frees(states: States, ids: map<Endpoint, nat>, ep: Endpoint) {
    ep in ids && ids[ep] in states && states[ids[ep]].refCount <= 1
  }

  /** The backends known after v has dropped those that are not wanted. */
  ghost function KnownAfter(services: Services, states: States, ids: map<Endpoint, nat>, v: VipId,
      wanted: set<Endpoint>): set<Endpoint> {
    set ep | ep in ids && !(v in services && ep in services[v].backends && ep !in wanted && Frees(states, ids, ep))
  }

  lemma KnownBefore(services: Services, states: States, ids: map<Endpoint, nat>, v: VipId, wanted: set<Endpoint>)
    ensures KnownAfter(services, states, ids, v, wanted) <= ids.Keys
  {
    hide Frees;
  }

  /** Taking up wanted one by one runs out of IDs if and only if all together are too many. */
  lemma TooMany(ids: set<Endpoint>, now: set<Endpoint>, wanted: set<Endpoint>, ep: Endpoint)
    requires ids <= now <= ids + wanted && |now| == MAX_BACKENDS && ep in wanted && ep !in now
    ensures !RoomFor(ids, wanted)
  {
    assert now + {ep} <= ids + wanted;
    SubsetCardinality(now + {ep}, ids + wanted);
  }

  // ---- Hardware addresses.

  ghost predicate MacsParse(macs: map<Endpoint, Mac>) {
    forall ep :: ep in macs ==> !macs[ep].Malformed?
  }

  // ---- The table.

  /** The sum of the weights, however they are listed. */
  ghost function Load(weights: map<Endpoint, nat>): nat {
    if weights == map[] then 0
    else
      var ep :| ep in weights;
      NormalizeWeight(weights[ep]) + Load(weights - {ep})
  }

  lemma {:induction false} LoadWithout(weights: map<Endpoint, nat>, ep: Endpoint)
    requires ep in weights
    ensures Load(weights) == NormalizeWeight(weights[ep]) + Load(weights - {ep})
    decreases |weights|
  {
    var x :| x in weights && Load(weights) == NormalizeWeight(weights[x]) + Load(weights - {x});
    if x != ep {
      assert weights - {x} - {ep} == weights - {ep} - {x};
      assert |weights - {x}| < |weights| && |weights - {ep}| < |weights|;
      LoadWithout(weights - {x}, ep);
      LoadWithout(weights - {ep}, x);
    }
  }

  lemma {:induction false} TotalIsLoad(names: seq<Endpoint>, weights: map<Endpoint, nat>)
    requires Distinct(names) && forall ep :: ep in names <==> ep in weights
    ensures TotalWeight(Listed(names, weights)) == Load(weights)
    decreases |names|
  {
    hide Load;
    if names == [] {
      assert weights == map[];
      NoLoad();
    } else {
      var init, last := names[..|names| - 1], names[|names| - 1];
      NamesWithout(names, weights);
      ListedWithout(names, weights);
      hide Distinct, Listed;
      TotalIsLoad(init, weights - {last});
      LoadWithout(weights, last);
    }
  }

  lemma NoLoad()
    ensures Load(map[]) == 0
  {
  }

  lemma ListedWithout(names: seq<Endpoint>, weights: map<Endpoint, nat>)
    requires names != [] && names[|names| - 1] in weights && names[|names| - 1] !in names[..|names| - 1]
    requires forall ep :: ep in names ==> ep in weights
    ensures var init, last := names[..|names| - 1], names[|names| - 1];
            TotalWeight(Listed(names, weights)) == NormalizeWeight(weights[last]) + TotalWeight(Listed(init,
              weights - {last}))
  {
    var init, last := names[..|names| - 1], names[|names| - 1];
    assert Listed(names, weights)[..|names| - 1] == Listed(init, weights - {last});
  }

  lemma NamesWithout(names: seq<Endpoint>, weights: map<Endpoint, nat>)
    requires names != [] && Distinct(names) && forall ep :: ep in names <==> ep in weights
    ensures var init, last := names[..|names| - 1], names[|names| - 1];
            last in weights && last !in init && Distinct(init) && forall ep :: ep in init <==> ep in weights - {last}
  {
    var init, last := names[..|names| - 1], names[|names| - 1];
    assert last in names && last !in init;
    forall ep
      ensures ep in init <==> ep in weights - {last}
    {
      assert ep in names <==> ep in init || ep == last by { assert names == init + [last]; }
    }
  }

  /** Some listed backend's weight is new or different. */
  ghost predicate Reweighted(was: map<Endpoint, nat>, now: map<Endpoint, nat>) {
    exists ep :: ep in now && (ep !in was || was[ep] != now[ep])
  }

  ghost predicate FitsFree(free: seq<Extent>, size: nat) {
    exists i :: 0 <= i < |free| && free[i].size >= size
  }

  /** A table for these weights can be built where it has to go: in the extent there is, or, when
      that is outgrown, in one that is free. */
  ghost predicate CanBuild(free: seq<Extent>, ext: Extent, weights: map<Endpoint, nat>) {
    var size := ClassFor(|weights|);
    && weights != map[]
    && if Outgrown(ext, size) then FitsFree(free, size) && Load(weights) < size else Load(weights) < ext.size
  }

  // ---- The whole upsert.

  /** The VIP's entry, or the one it starts with. */
  function EntryOf(services: Services, v: VipId): Service {
    if v in services then services[v] else Service(0, None, Vip(v, DSR, AffinityNone, []), map[], NO_EXTENT)
  }

  /** The table has to be rebuilt. */
  ghost predicate Rebuilds(services: Services, spec: Vip) {
    var e := EntryOf(services, spec.id);
    || spec.id !in services
    || e.backends.Keys != WeightsOf(spec.backends).Keys
    || Reweighted(WeightsOf(e.vip.backends), WeightsOf(spec.backends))
  }

  /** The specification can be met: there are IDs for the service and its backends, every hardware
      address parses, and if the table must be rebuilt it can be. */
  ghost predicate Acceptable(services: Services, states: States, ids: map<Endpoint, nat>, free: seq<Extent>,
      spec: Vip) {
    var v, weights := spec.id, WeightsOf(spec.backends);
    && (v in services || |services| < MAX_VIPS)
    && MacsParse(MacsOf(spec.backends))
    && RoomFor(KnownAfter(services, states, ids, v, weights.Keys), weights.Keys)
    && (Rebuilds(services, spec) ==> CanBuild(free, EntryOf(services, v).ext, weights))
  }

  // ---- A specification whose table fits where the VIP's table is.

  ghost predicate Refits(services: Services, spec: Vip) {
    var v, weights := spec.id, WeightsOf(spec.backends);
    && v in services && weights != map[] && MacsParse(MacsOf(spec.backends))
    && !Outgrown(services[v].ext, ClassFor(|weights|)) && Load(weights) < services[v].ext.size
  }

  lemma RefitsIsAcceptable(services: Services, states: States, ids: map<Endpoint, nat>, free: seq<Extent>, spec: Vip)
    requires Refits(services, spec) && RoomFor(ids.Keys, WeightsOf(spec.backends).Keys)
    ensures Acceptable(services, states, ids, free, spec)
  {
    hide WeightsOf, MacsOf, MacsParse, Outgrown, ClassFor, Load, KnownAfter, Reweighted, FitsFree, RoomFor;
    KnownBefore(services, states, ids, spec.id, WeightsOf(spec.backends).Keys);
    LessRoom(KnownAfter(services, states, ids, spec.id, WeightsOf(spec.backends).Keys), ids.Keys,
      WeightsOf(spec.backends).Keys, WeightsOf(spec.backends).Keys);
  }

  lemma LessRoom(known: set<Endpoint>, ids: set<Endpoint>, wanted: set<Endpoint>, all: set<Endpoint>)
    requires RoomFor(ids, all) && known <= ids + all && wanted <= all
    ensures RoomFor(known, wanted)
  {
    SubsetCardinality(known + wanted, ids + all);
  }

  lemma KnownWithin(services: Services, states: States, ids: map<Endpoint, nat>, v: VipId, wanted: set<Endpoint>)
    requires wanted <= ids.Keys && |ids| <= MAX_BACKENDS
    ensures RoomFor(KnownAfter(services, states, ids, v, wanted), wanted)
  {
    hide Frees;
    var known := KnownAfter(services, states, ids, v, wanted) + wanted;
    assert known <= ids.Keys;
    hide KnownAfter;
    SubsetCardinality(known, ids.Keys);
    assert |ids.Keys| == |ids|;
  }

  /** The kernel accepts everything. */
  ghost predicate AllAccepted(answers: nat -> bool) {
    forall n :: answers(n)
  }

  lemma AcceptedIsSmooth(answers: nat -> bool, from: nat, to: nat)
    requires AllAccepted(answers)
    ensures Smooth(answers, from, to)
  {
  }

  /** From this upsert on all tables fit where they are, and there are IDs for all backends together. */
  ghost predicate AllRefit(services: Services, ids: map<Endpoint, nat>, upserts: seq<Vip>, from: nat,
      all: set<Endpoint>) {
    && RoomFor(ids.Keys, all)
    && forall i :: from <= i < |upserts| ==> Refits(services, upserts[i]) && WeightsOf(upserts[i].backends).Keys <= all
  }

  lemma RefitOn(before: Services, ids: map<Endpoint, nat>, services: Services, ids': map<Endpoint, nat>,
      upserts: seq<Vip>, i: nat, all: set<Endpoint>)
    requires i < |upserts| && AllRefit(before, ids, upserts, i, all)
    requires forall j, k :: 0 <= j < k < |upserts| ==> upserts[j].id != upserts[k].id
    requires forall w :: w in before && w != upserts[i].id ==> w in services && services[w] == before[w]
    requires ids'.Keys <= ids.Keys + WeightsOf(upserts[i].backends).Keys
    ensures AllRefit(services, ids', upserts, i + 1, all)
  {
    hide WeightsOf, RoomFor, Refits;
    LessRoom(ids'.Keys, ids.Keys, all, all);
    forall j | i + 1 <= j < |upserts|
      ensures Refits(services, upserts[j])
    {
      assert Refits(before, upserts[j]) && upserts[j].id != upserts[i].id;
      RefitsSame(before, services, upserts[j]);
    }
  }

  lemma RefitsSame(before: Services, services: Services, spec: Vip)
    requires Refits(before, spec)
    ensures spec.id in before
    ensures spec.id in services && services[spec.id] == before[spec.id] ==> Refits(services, spec)
  {
    hide WeightsOf, MacsOf, MacsParse, Outgrown, ClassFor, Load;
  }
}
