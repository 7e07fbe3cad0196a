/** Rebuilding the in-memory state from pinned maps (adoptLocked in internal/dataplane/adopt.go),
    and why a restart loses nothing. */
module Adoption {
  import opened Common
  import opened Types
  import opened Primes
  import opened PortRange
  import opened VipLookup
  import opened BpfMaps
  import opened ExtentAllocation
  import opened IdAllocation
  import opened Maglev
  import opened DataplaneState
  import opened MapAgreement
  import opened Watching
  import opened UpsertConditions
  import opened UpsertSteps
  import opened ReloadSteps
  import opened DataplaneControl
  import opened AdoptScan
  import opened ReloadPlanning

  // ---- Claiming backend IDs.

  ghost predicate CanReserve<K>(ids: map<K, nat>, key: K, id: nat, max: nat) {
    id < max && if key in ids then ids[key] == id else forall k :: k in ids ==> ids[k] != id
  }

  ghost predicate AllReservable(ids: map<Endpoint, nat>, backends: map<Endpoint, nat>, max: nat) {
    forall ep :: ep in backends ==> CanReserve(ids, ep, backends[ep], max)
  }

  function Part(backends: map<Endpoint, nat>, done: set<Endpoint>): map<Endpoint, nat> {
    map ep | ep in backends && ep in done :: backends[ep]
  }

  lemma ReserveStep(ids: map<Endpoint, nat>, backends: map<Endpoint, nat>, done: set<Endpoint>, ep: Endpoint, max: nat)
    requires OneToOne(backends) && done <= backends.Keys && ep in backends && ep !in done
    requires forall x :: x in done && x in ids ==> ids[x] == backends[x]
    ensures CanReserve(ids + Part(backends, done), ep, backends[ep], max) ==> CanReserve(ids, ep, backends[ep], max)
    ensures CanReserve(ids, ep, backends[ep], max) ==> CanReserve(ids + Part(backends, done), ep, backends[ep], max)
    ensures (ids + Part(backends, done))[ep := backends[ep]] == ids + Part(backends, done + {ep})
  {
    var now := ids + Part(backends, done);
    if CanReserve(now, ep, backends[ep], max) && ep !in ids {
      forall k | k in ids
        ensures ids[k] != backends[ep]
      {
        assert k in now;
        assert k in done ==> now[k] == backends[k];
      }
    }
  }

  /** Claims every backend ID, or none: claims made on the way are undone on a conflict. */
  method ReserveBackends(ids: IdAllocator<Endpoint>, backends: map<Endpoint, nat>) returns (ok: bool)
    requires ids.Valid() && OneToOne(backends)
    modifies ids
    ensures ids.Valid()
    ensures ok <==> AllReservable(old(ids.ids), backends, ids.max)
    ensures ids.ids == if ok then old(ids.ids) + backends else old(ids.ids)
  {
    hide PoolValid, CanReserve;
    ghost var was := ids.ids;
    var todo := backends.Keys;
    var claimed: set<Endpoint> := {};
    assert was + Part(backends, {}) == was;
    while todo != {}
      invariant ids.Valid() && todo <= backends.Keys
      invariant ids.ids == was + Part(backends, backends.Keys - todo)
      invariant claimed == backends.Keys - todo - was.Keys
      invariant forall ep :: ep in backends && ep !in todo ==> CanReserve(was, ep, backends[ep], ids.max)
      invariant forall ep :: ep in backends && ep !in todo && ep in was ==> was[ep] == backends[ep]
    {
      var ep :| ep in todo;
      ReserveStep(was, backends, backends.Keys - todo, ep, ids.max);
      var already := ids.Get(ep);
      var r := ids.Reserve(ep, backends[ep]);
      ReserveIff(was, backends, backends.Keys - todo, ep, ids.max, r.Ok?);
      HeldIsSame(was, ep, backends[ep], ids.max);
      if r.Err? {
        Unclaim(ids, claimed);
        RolledBack(was, backends, backends.Keys - todo, claimed);
        return false;
      }
      if already.None? {
        claimed := claimed + {ep};
      }
      assert backends.Keys - todo + {ep} == backends.Keys - (todo - {ep});
      todo := todo - {ep};
    }
    assert Part(backends, backends.Keys) == backends;
    assert backends.Keys - {} == backends.Keys;
    return true;
  }

  lemma HeldIsSame(ids: map<Endpoint, nat>, ep: Endpoint, id: nat, max: nat)
    ensures CanReserve(ids, ep, id, max) && ep in ids ==> ids[ep] == id
  {
  }

  lemma ReserveIff(was: map<Endpoint, nat>, backends: map<Endpoint, nat>, done: set<Endpoint>, ep: Endpoint, max: nat,
      ok: bool)
    requires ep in backends
    requires ok <==>
        backends[ep] < max && if ep in was + Part(backends, done) then (was + Part(backends, done))[ep] == backends[ep]
                                          else forall k :: k in was + Part(backends, done) ==>
                                              (was + Part(backends, done))[k] != backends[ep]
    ensures ok <==> CanReserve(was + Part(backends, done), ep, backends[ep], max)
  {
  }

  lemma RolledBack(was: map<Endpoint, nat>, backends: map<Endpoint, nat>, done: set<Endpoint>, claimed: set<Endpoint>)
    requires claimed == done - was.Keys && done <= backends.Keys
    requires forall ep :: ep in done && ep in was ==> was[ep] == backends[ep]
    ensures (was + Part(backends, done)) - claimed == was
  {
  }

  method Unclaim(ids: IdAllocator<Endpoint>, claimed: set<Endpoint>)
    requires ids.Valid()
    modifies ids
    ensures ids.Valid() && ids.ids == old(ids.ids) - claimed
  {
    hide PoolValid;
    var todo := claimed;
    while todo != {}
      invariant ids.Valid() && todo <= claimed && ids.ids == old(ids.ids) - (claimed - todo)
    {
      var ep :| ep in todo;
      ids.Release(ep);
      assert claimed - todo + {ep} == claimed - (todo - {ep});
      todo := todo - {ep};
    }
  }

  lemma RecordedOneToOne(m: Maps, ext: Extent, backends: map<Endpoint, nat>)
    requires Records(m, ext, backends)
    ensures OneToOne(backends)
  {
  }

  // ---- One VIP.

  function ExtentOf(cfg: ServiceConfig): Extent {
    Extent(cfg.offset, cfg.size)
  }

  /** The entry adoption recreates: everything but the caller's specification. */
  function AdoptedEntry(v: VipId, sid: nat, cfg: ServiceConfig, backends: map<Endpoint, nat>): Service {
    Service(sid, None, Vip(v, cfg.mode, cfg.affinity, []), backends, ExtentOf(cfg))
  }

  /** Every adopted VIP has the extent its published configuration names. */
  ghost predicate AdoptedFrom(services: Services, svc: seq<ServiceConfig>) {
    forall v :: v in services ==>
      services[v].sid < |svc| && services[v].ext == ExtentOf(svc[services[v].sid]) && services[v].ext.size > 0
  }

  /** Probed healthy and not drained: the flags adoption gives every backend. */
  ghost predicate AllFresh(states: States) {
    forall id :: id in states ==> states[id].probeHealthy && !states[id].draining && !states[id].adminDraining
  }

  /** Counts the new VIP's references, one backend at a time. */
  method TakeReferences(d: Dataplane, v: VipId, e: Service, ghost ids: map<Endpoint, nat>)
    requires v !in d.services && BackendsAgree(d.services, d.states, ids) && OneToOne(e.backends)
    requires AllReservable(ids, e.backends, MAX_BACKENDS)
    modifies d`states
    ensures BackendsAgree(d.services[v := e], d.states, ids + e.backends)
    ensures old(AllFresh(d.states)) ==> AllFresh(d.states)
  {
    hide Counted, AllReservable;
    var services := d.services;
    var todo := e.backends.Keys;
    RegisterBackends(services, d.states, ids, multiset{}, v, e.(backends := map[]));
    assert Part(e.backends, {}) == map[] && ids + map[] == ids;
    while todo != {}
      invariant todo <= e.backends.Keys
      invariant BackendsAgree(services[v := e.(backends := Part(e.backends, e.backends.Keys - todo))], d.states,
          ids + Part(e.backends, e.backends.Keys - todo))
      invariant old(AllFresh(d.states)) ==> AllFresh(d.states)
    {
      var ep :| ep in todo;
      var id := e.backends[ep];
      ReferenceStep(services, d.states, ids, v, e, e.backends.Keys - todo, ep);
      var st := if id in d.states then d.states[id] else FreshState(ep);
      d.states := d.states[id := st.(refCount := st.refCount + 1)];
      assert e.backends.Keys - todo + {ep} == e.backends.Keys - (todo - {ep});
      todo := todo - {ep};
    }
    assert Part(e.backends, e.backends.Keys - {}) == e.backends;
    assert e.(backends := e.backends) == e;
  }

  lemma ReferenceStep(services: Services, states: States, ids: map<Endpoint, nat>, v: VipId, e: Service,
      done: set<Endpoint>, ep: Endpoint)
    requires OneToOne(e.backends) && AllReservable(ids, e.backends, MAX_BACKENDS)
    requires done <= e.backends.Keys && ep in e.backends && ep !in done
    requires BackendsAgree(services[v := e.(backends := Part(e.backends, done))], states, ids + Part(e.backends, done))
    ensures BackendsAgree(services[v := e.(backends := Part(e.backends, done + {ep}))],
        Acquired(states, e.backends[ep], ep), ids + Part(e.backends, done + {ep}))
  {
    hide Counted;
    var id := e.backends[ep];
    var was, now := e.(backends := Part(e.backends, done)), e.(backends := Part(e.backends, done + {ep}));
    var mid := ids + Part(e.backends, done);
    MayReserve(ids, e.backends, done, ep);
    ReserveStep(ids, e.backends, done, ep, MAX_BACKENDS);
    assert now.backends == was.backends[ep := id];
    assert services[v := was][v := now] == services[v := now];
    hide AllReservable, Part;
    AcquireKeeps(services[v := was], states, mid, multiset{}, v, now, ep, id);
  }

  lemma MayReserve(ids: map<Endpoint, nat>, backends: map<Endpoint, nat>, done: set<Endpoint>, ep: Endpoint)
    requires AllReservable(ids, backends, MAX_BACKENDS) && done <= backends.Keys && ep in backends
    ensures CanReserve(ids, ep, backends[ep], MAX_BACKENDS) && forall x :: x in done && x in ids ==>
        ids[x] == backends[x]
  {
    forall x | x in done && x in ids
      ensures ids[x] == backends[x]
    {
      assert CanReserve(ids, x, backends[x], MAX_BACKENDS);
    }
  }

  /** A VIP joins with an extent carved out of the free space. */
  lemma ExtentJoins(services: Services, free: seq<Extent>, v: VipId, e: Service, after: seq<Extent>)
    requires ExtentsAgree(services, free) && v !in services
    requires e.ext.End() <= MAGLEV_M && ExtentSlots(e.ext) <= Slots(free)
        && Slots(after) == Slots(free) - ExtentSlots(e.ext)
    ensures ExtentsAgree(services[v := e], after)
  {
    hide ExtentsAgree, Slots;
    var bare := e.(ext := NO_EXTENT);
    SameExtents(services, free, v, bare);
    assert ExtentSlots(NO_EXTENT) == {};
    assert services[v := bare][v := e] == services[v := e];
    MoveKeeps(services[v := bare], free, v, e, after, after);
  }

  /** m with every backend in ids marked with the health its state amounts to. */
  ghost predicate HealthRefreshed(m: Maps, m': Maps, states: States, ids: set<nat>) {
    && m' == m.(health := m'.health) && |m'.health| == |m.health|
    && forall id :: 0 <= id < |m.health| ==>
         m'.health[id] == if id in ids && id in states then HealthOf(states[id]) else m.health[id]
  }

  method RefreshHealth(d: Dataplane, ids: set<nat>)
    requires Shaped(d.maps) && forall id :: id in ids ==> id < MAX_BACKENDS
    modifies d`maps, d`log
    ensures Shaped(d.maps) && HealthRefreshed(old(d.maps), d.maps, d.states, ids)
    ensures old(d.log) <= d.log
    ensures forall i :: |old(d.log)| <= i < |d.log| ==> SameButHealth(old(d.maps), d.log[i])
  {
    var todo := ids;
    while todo != {}
      invariant todo <= ids && Shaped(d.maps) && HealthRefreshed(old(d.maps), d.maps, d.states, ids - todo)
      invariant old(d.log) <= d.log
      invariant forall i :: |old(d.log)| <= i < |d.log| ==> SameButHealth(old(d.maps), d.log[i])
    {
      var id :| id in todo;
      if id in d.states {
        d.Write(WithHealth(d.maps, id, HealthOf(d.states[id])));
      }
      todo := todo - {id};
    }
  }

  ghost predicate SameButHealth(m: Maps, m': Maps) {
    m' == m.(health := m'.health) && |m'.health| == |m.health|
  }

  /** Claims the extent, the service ID and the backend IDs, or nothing at all: after a conflict
      the allocated IDs are the same and the free list is the same, entry by entry. */
  method Claim(d: Dataplane, v: VipId, sid: nat, ext: Extent, backends: map<Endpoint, nat>) returns (ok: bool)
    requires d.Mem() && OneToOne(backends) && ext.End() <= MAGLEV_M && ext.size > 0
    requires v in d.services && d.services[v].sid == sid ==> !(ExtentSlots(ext) <= Slots(d.maglev.free))
    modifies d.serviceIds, d.backendIds, d.maglev
    ensures d.Parts()
    ensures ok <==> && ExtentSlots(ext) <= old(Slots(d.maglev.free))
                    && CanReserve(old(d.serviceIds.ids), v, sid, MAX_VIPS)
                    && AllReservable(old(d.backendIds.ids), backends, MAX_BACKENDS)
    ensures !ok ==>
        && d.serviceIds.ids == old(d.serviceIds.ids) && d.backendIds.ids == old(d.backendIds.ids)
        && d.maglev.free == old(d.maglev.free)
    ensures ok ==> && v !in d.services
                   && d.serviceIds.ids == old(d.serviceIds.ids)[v := sid]
                   && d.backendIds.ids == old(d.backendIds.ids) + backends
                   && Slots(d.maglev.free) == old(Slots(d.maglev.free)) - ExtentSlots(ext)
  {
    hide PoolValid, Slots, ExtentSlots, Counted, ExtentsAgree, AllReservable;
    ghost var before := d.maglev.free;
    var r := d.maglev.Reserve(ext);
    if r.Err? {
      return false;
    }
    ghost var taken := d.maglev.free;
    var s := d.serviceIds.Reserve(v, sid);
    if s.Err? {
      d.maglev.Free(ext);
      FreeRestores(before, taken, d.maglev.free, ext, MAGLEV_M);
      return false;
    }
    var b := ReserveBackends(d.backendIds, backends);
    if !b {
      d.serviceIds.Release(v);
      d.maglev.Free(ext);
      FreeRestores(before, taken, d.maglev.free, ext, MAGLEV_M);
      assert v !in old(d.serviceIds.ids);
      assert d.serviceIds.ids == old(d.serviceIds.ids);
      return false;
    }
    return true;
  }

  /** adoptOneLocked: recreates one VIP's entry from what the maps record about it. */
  method AdoptOne(d: Dataplane, v: VipId, sid: nat) returns (ok: bool, ghost backends: map<Endpoint, nat>)
    requires d.Mem() && d.lost == multiset{} && AdoptedFrom(d.services, d.maps.svc)
    modifies d`services, d`states, d`maps, d`log, d.serviceIds, d.backendIds, d.maglev
    ensures d.Mem() && AdoptedFrom(d.services, d.maps.svc)
    ensures Understood(old(d.maps), v, sid) ==> Records(old(d.maps), ExtentOf(old(d.maps).svc[sid]), backends)
    ensures ok <==> && Understood(old(d.maps), v, sid)
                    && ExtentSlots(ExtentOf(old(d.maps).svc[sid])) <= old(Slots(d.maglev.free))
                    && CanReserve(old(d.serviceIds.ids), v, sid, MAX_VIPS)
                    && AllReservable(old(d.backendIds.ids), backends, MAX_BACKENDS)
    ensures !ok ==> && d.services == old(d.services) && d.states == old(d.states)
                    && d.maps == old(d.maps) && d.log == old(d.log)
                    && d.backendIds.ids == old(d.backendIds.ids) && d.maglev.free == old(d.maglev.free)
    ensures ok ==> && v !in old(d.services)
                   && d.services == old(d.services)[v := AdoptedEntry(v, sid, old(d.maps).svc[sid], backends)]
                   && d.backendIds.ids == old(d.backendIds.ids) + backends
                   && HealthRefreshed(old(d.maps), d.maps, d.states, backends.Values)
    ensures old(AllFresh(d.states)) ==> AllFresh(d.states)
    ensures LogSameButHealth(old(d.maps), old(d.log), d.log)
  {
    hide PoolValid, FreeListValid, Slots, ExtentSlots, Counted, ExtentsAgree, AllReservable, AllFresh, CanReserve,
      Records, Understood, HealthRefreshed, LogSameButHealth, AdoptedFrom;
    LogNotChanged(d.maps, d.log);
    backends := map[];
    var read := ReadService(d.maps, v, sid);
    if read.None? {
      return false, map[];
    }
    var (cfg, found) := read.value;
    backends := found;
    UnderstoodExtent(d.maps, v, sid);
    RecordedOneToOne(d.maps, ExtentOf(cfg), found);
    var e := AdoptedEntry(v, sid, cfg, found);
    TakenExtent(d.services, d.serviceIds.ids, d.maps.svc, d.maglev.free, v, sid, e.ext);
    ok := Claim(d, v, sid, e.ext, found);
    if !ok {
      return;
    }
    Enter(d, v, e, old(d.serviceIds.ids), old(d.backendIds.ids), old(d.maglev.free));
    AdoptedMore(old(d.services), d.maps.svc, v, e);
  }

  /** The VIP's entry, once everything it needs is claimed. */
  method Enter(d: Dataplane, v: VipId, e: Service, ghost sids: map<VipId, nat>, ghost ids: map<Endpoint, nat>,
      ghost free: seq<Extent>)
    requires d.Parts() && d.lost == multiset{} && v !in d.services && OneToOne(e.backends)
    requires sids == SidsOf(d.services) && BackendsAgree(d.services, d.states, ids) && ExtentsAgree(d.services, free)
    requires d.serviceIds.ids == sids[v := e.sid] && d.backendIds.ids == ids + e.backends
        && AllReservable(ids, e.backends, MAX_BACKENDS)
    requires e.ext.End() <= MAGLEV_M && ExtentSlots(e.ext) <= Slots(free)
        && Slots(d.maglev.free) == Slots(free) - ExtentSlots(e.ext)
    modifies d`services, d`states, d`maps, d`log
    ensures d.Mem() && d.services == old(d.services)[v := e] && d.maps.svc == old(d.maps.svc)
    ensures HealthRefreshed(old(d.maps), d.maps, d.states, e.backends.Values)
    ensures old(AllFresh(d.states)) ==> AllFresh(d.states)
    ensures LogSameButHealth(old(d.maps), old(d.log), d.log)
  {
    hide PoolValid, FreeListValid, Slots, ExtentSlots, Counted, ExtentsAgree, AllReservable, AllFresh, HealthRefreshed,
      SameButHealth, Shaped;
    TakeReferences(d, v, e, ids);
    ExtentJoins(d.services, free, v, e, d.maglev.free);
    d.services := d.services[v := e];
    assert SidsOf(d.services) == d.serviceIds.ids;
    BackendsInTable(d.backendIds, ids, e.backends);
    RefreshHealth(d, e.backends.Values);
    RefreshedShape(old(d.maps), d.maps, d.states, e.backends.Values);
  }

  lemma AdoptedMore(services: Services, svc: seq<ServiceConfig>, v: VipId, e: Service)
    requires AdoptedFrom(services, svc) && e.sid < |svc| && e.ext == ExtentOf(svc[e.sid]) && e.ext.size > 0
    ensures AdoptedFrom(services[v := e], svc)
  {
  }

  ghost predicate LogSameButHealth(m: Maps, was: seq<Maps>, log: seq<Maps>) {
    was <= log && forall i :: |was| <= i < |log| ==> SameButHealth(m, log[i])
  }

  lemma LogNotChanged(m: Maps, log: seq<Maps>)
    ensures LogSameButHealth(m, log, log)
  {
  }

  lemma UnderstoodExtent(m: Maps, v: VipId, sid: nat)
    requires Understood(m, v, sid)
    ensures sid < |m.svc| && ExtentOf(m.svc[sid]).size > 0 && ExtentOf(m.svc[sid]).End() <= |m.maglev|
  {
  }

  lemma RefreshedShape(m: Maps, m': Maps, states: States, ids: set<nat>)
    requires HealthRefreshed(m, m', states, ids)
    ensures m'.svc == m.svc
  {
  }

  /** An ID table that holds all of found has room for it. */
  lemma BackendsInTable(ids: IdAllocator<Endpoint>, was: map<Endpoint, nat>, found: map<Endpoint, nat>)
    requires ids.Valid() && ids.max == MAX_BACKENDS && ids.ids == was + found
    ensures forall id :: id in found.Values ==> id < MAX_BACKENDS
  {
    forall id | id in found.Values
      ensures id < MAX_BACKENDS
    {
      var ep :| ep in found && found[ep] == id;
      assert ids.ids[ep] == id;
    }
  }

  /** A key that is already adopted under the same service ID already holds that extent. */
  lemma TakenExtent(services: Services, sids: map<VipId, nat>, svc: seq<ServiceConfig>, free: seq<Extent>, v: VipId,
      sid: nat, ext: Extent)
    requires ExtentsAgree(services, free) && AdoptedFrom(services, svc) && sids == SidsOf(services)
    requires sid < |svc| && ext == ExtentOf(svc[sid]) && ext.size > 0
    ensures v in services && services[v].sid == sid ==> !(ExtentSlots(ext) <= Slots(free))
  {
    if v in services && services[v].sid == sid {
      OutsideFree(services, free, v);
      assert ext.offset in ExtentSlots(ext);
    }
  }

  // ---- All VIPs.

  /** Every VIP map entry still to be judged, or leading to an adopted VIP. */
  ghost predicate Judged(m0: Maps, m: Maps, services: Services, todo: set<Raw>) {
    && (forall k :: k in m.vip ==> k in m0.vip && m.vip[k] == m0.vip[k])
    && (forall k :: k in m.ranges ==> k in m0.ranges && m.ranges[k] == m0.ranges[k])
    && (forall k :: k in m.vip ==>
        RawExact(k, m.vip[k]) in todo || (ExactVip(k) in services && services[ExactVip(k)].sid == m.vip[k]))
    && (forall k :: k in m.ranges ==>
        (exists r :: r in todo && r.RawRange? && GroupOf(r) == KeyGroup(m, k)) || Led(m, services, k))
  }

  function KeyGroup(m: Maps, k: RangeKey): Group
    requires k in m.ranges
  {
    Group(m.ranges[k], k.addr, k.proto)
  }

  ghost predicate Led(m: Maps, services: Services, k: RangeKey)
    requires k in m.ranges
  {
    exists v :: v in services && Owns(v, k) && m.ranges[k] == services[v].sid
  }

  lemma NothingJudged(m: Maps, exact: set<Raw>, ranges: set<Raw>, groups: set<Group>, services: Services)
    requires ExactScanned(m, exact) && RangesScanned(m, ranges, groups) && AllGroups(m, groups)
    ensures Judged(m, m, services, exact + ranges)
  {
    hide GroupRaw, Owns;
    forall k | k in m.ranges
      ensures exists r :: r in exact + ranges && r.RawRange? && GroupOf(r) == KeyGroup(m, k)
    {
      var r :| r in ranges && r.RawRange? && GroupOf(r) == KeyGroup(m, k);
      assert r in exact + ranges;
    }
  }

  lemma AllJudged(m0: Maps, m: Maps, services: Services)
    requires Judged(m0, m, services, {})
    ensures Reachable(m, services)
  {
    hide Owns;
  }

  /** An adopted record leads its entries to the new VIP. */
  lemma JudgeAdopted(m0: Maps, m: Maps, m': Maps, services: Services, todo: set<Raw>, r: Raw, v: VipId, e: Service)
    requires Judged(m0, m, services, todo) && m' == m.(health := m'.health)
    requires v !in services && VipOf(r) == Some(v) && e.sid == r.sid && (r.RawRange? ==> GroupRaw(m0, r))
    ensures Judged(m0, m', services[v := e], todo - {r})
  {
    var services' := services[v := e];
    forall k | k in m'.ranges
      ensures (exists q :: q in todo - {r} && q.RawRange? && GroupOf(q) == KeyGroup(m', k)) || Led(m', services', k)
    {
      if Led(m, services, k) {
        var w :| w in services && Owns(w, k) && m.ranges[k] == services[w].sid;
        assert w in services' && services'[w] == services[w];
      } else {
        var q :| q in todo && q.RawRange? && GroupOf(q) == KeyGroup(m, k);
        if q == r {
          OwnsGroup(m0, r, v, k);
          assert v in services' && Owns(v, k);
        } else {
          assert q in todo - {r};
        }
      }
    }
    forall k | k in m'.vip
      ensures RawExact(k, m'.vip[k]) in todo - {r}
          || (ExactVip(k) in services' && services'[ExactVip(k)].sid == m'.vip[k])
    {
    }
  }

  lemma OwnsGroup(m0: Maps, r: Raw, v: VipId, k: RangeKey)
    requires r.RawRange? && GroupRaw(m0, r) && VipOf(r) == Some(v)
    requires k in m0.ranges && GroupOf(r) == Group(m0.ranges[k], k.addr, k.proto)
    ensures Owns(v, k)
  {
    hide Tiling;
    assert RangeKey(k.addr, k.proto, k.block) == k;
    assert InGroup(m0.ranges, m0.ranges.Keys, Group(r.sid, r.addr, r.proto), k.block);
    assert k.block in r.blocks;
    assert k.block in multiset(r.blocks);
    assert k.block in multiset(Tiling(v.port, v.portEnd));
  }

  /** dropRawVIP: deletes the entries of a record that cannot be trusted. */
  method DropRaw(d: Dataplane, r: Raw)
    requires Shaped(d.maps)
    modifies d`maps, d`log
    ensures Shaped(d.maps) && old(d.log) <= d.log
    ensures r.RawExact? ==> d.maps == WithoutVip(old(d.maps), r.key)
    ensures r.RawRange? ==> d.maps == old(d.maps).(ranges := old(d.maps).ranges - BlockKeys(r))
  {
    match r
    case RawExact(key, _) =>
      d.Write(WithoutVip(d.maps, key));
    case RawRange(addr, proto, _, blocks, _) =>
      assert blocks[..0] == [];
      for i := 0 to |blocks|
        invariant Shaped(d.maps) && old(d.log) <= d.log
        invariant d.maps == old(d.maps).(ranges := old(d.maps).ranges - (set b | b in blocks[..i] ::
            RangeKey(addr, proto, b)))
      {
        var k := RangeKey(addr, proto, blocks[i]);
        assert blocks[..i + 1] == blocks[..i] + [blocks[i]];
        ghost var before := d.maps.ranges;
        d.Write(WithoutRange(d.maps, k));
        assert d.maps.ranges == old(d.maps).ranges - (set b | b in blocks[..i + 1] :: RangeKey(addr, proto, b));
      }
      assert blocks[..|blocks|] == blocks;
  }

  function BlockKeys(r: Raw): set<RangeKey>
    requires r.RawRange?
  {
    set b | b in r.blocks :: RangeKey(r.addr, r.proto, b)
  }

  /** A dropped record leaves no entry behind. */
  lemma JudgeDropped(m0: Maps, m: Maps, m': Maps, services: Services, todo: set<Raw>, r: Raw)
    requires Judged(m0, m, services, todo)
    requires r.RawExact? ==> m' == WithoutVip(m, r.key)
    requires r.RawRange? ==> GroupRaw(m0, r) && m' == m.(ranges := m.ranges - BlockKeys(r))
    ensures Judged(m0, m', services, todo - {r})
  {
    hide Owns;
    forall k | k in m'.ranges
      ensures (exists q :: q in todo - {r} && q.RawRange? && GroupOf(q) == KeyGroup(m', k)) || Led(m', services, k)
    {
      if Led(m, services, k) {
        assert Led(m', services, k);
      } else {
        var q :| q in todo && q.RawRange? && GroupOf(q) == KeyGroup(m, k);
        if q == r {
          InBlockKeys(m0, r, k);
        }
        assert q in todo - {r};
      }
    }
  }

  lemma InBlockKeys(m0: Maps, r: Raw, k: RangeKey)
    requires r.RawRange? && GroupRaw(m0, r) && k in m0.ranges && GroupOf(r) == Group(m0.ranges[k], k.addr, k.proto)
    ensures k in BlockKeys(r)
  {
    assert RangeKey(k.addr, k.proto, k.block) == k;
    assert InGroup(m0.ranges, m0.ranges.Keys, Group(r.sid, r.addr, r.proto), k.block);
  }

  // ---- Maps left by successful operations are restored in full.

  /** The entry as adoption recreates it. */
  function Forgotten(v: VipId, e: Service): Service {
    e.(spec := None, vip := Vip(v, e.vip.mode, e.vip.affinity, []))
  }

  function Restored(services: Services, done: set<VipId>): Services {
    map v | v in services && v in done :: Forgotten(v, services[v])
  }

  /** What the previous process knew when it stopped. */
  ghost predicate Pinned(hash: Hash<Endpoint>, m: Maps, services: Services, states: States, ids: map<Endpoint, nat>,
      free: seq<Extent>) {
    && Agree(hash, m, services, states) && BackendsAgree(services, states, ids) && ExtentsAgree(services, free)
    && forall ep :: ep in ids ==> ids[ep] < MAX_BACKENDS
  }

  ghost predicate SubMap<K, V>(a: map<K, V>, b: map<K, V>) {
    forall k :: k in a ==> k in b && a[k] == b[k]
  }

  /** Each VIP of agreeing maps can be understood, and its backends are the recorded ones. */
  lemma PinnedIsUnderstood(hash: Hash<Endpoint>, m: Maps, m': Maps, services: Services, states: States,
      ids: map<Endpoint, nat>, free: seq<Extent>, v: VipId)
    requires Pinned(hash, m, services, states, ids, free) && v in services && SameButHealth(m, m')
    ensures Understood(m', v, services[v].sid)
    ensures m'.svc[services[v].sid] == ConfigOf(v, services[v]) && ExtentOf(m'.svc[services[v].sid]) == services[v].ext
    ensures forall backends :: Records(m', services[v].ext, backends) ==> backends == services[v].backends
  {
    AgreeParts(hash, m, services, states, v);
    hide Agree, Named, CountsMatch, ExtentsAgree, Understood, Records, SlotsHold, AllNamed;
    var e := services[v];
    KnownBackends(m, services, states, ids, v);
    SlotsUnderstood(m, m', v, e);
    NamedSame(m, m', e);
    forall backends | Records(m', e.ext, backends)
      ensures backends == e.backends
    {
      RecordsIsUnique(m', e, backends);
    }
  }

  lemma AgreeParts(hash: Hash<Endpoint>, m: Maps, services: Services, states: States, v: VipId)
    requires Agree(hash, m, services, states) && v in services
    ensures var e := services[v];
            && BackendMapOk(m, states, {})
            && e.sid < |m.svc| && m.svc[e.sid] == ConfigOf(v, e) && e.ext.size > 0 && e.ext.End() <= |m.maglev|
            && SlotsHold(m, e) && AllNamed(m, e)
  {
    hide Installed, Compatible, Reachable;
    SettledFacts(hash, m, v, services[v]);
  }

  lemma SlotsUnderstood(m: Maps, m': Maps, v: VipId, e: Service)
    requires SameButHealth(m, m') && SlotsHold(m, e)
    requires e.sid < |m.svc| && m.svc[e.sid] == ConfigOf(v, e) && e.ext.size > 0 && e.ext.End() <= |m.maglev|
    requires forall ep :: ep in e.backends ==> e.backends[ep] in m.backend && m.backend[e.backends[ep]] == ep
    ensures Understood(m', v, e.sid)
  {
    assert ExtentOf(m'.svc[e.sid]) == e.ext;
    forall s: nat | Within(e.ext, s) && s < |m'.maglev|
      ensures m'.maglev[s] in m'.backend
    {
      assert m.maglev[s] in e.backends.Values;
      var ep :| ep in e.backends && e.backends[ep] == m.maglev[s];
    }
  }

  lemma SettledFacts(hash: Hash<Endpoint>, m: Maps, v: VipId, e: Service)
    requires Settled(hash, m, v, e)
    ensures e.sid < |m.svc| && m.svc[e.sid] == ConfigOf(v, e) && e.ext.size > 0 && e.ext.End() <= |m.maglev|
    ensures SlotsHold(m, e) && AllNamed(m, e)
  {
    hide Balanced;
  }

  lemma KnownBackends(m: Maps, services: Services, states: States, ids: map<Endpoint, nat>, v: VipId)
    requires BackendMapOk(m, states, {}) && Named(services, states, ids) && v in services
    ensures forall ep :: ep in services[v].backends ==>
        services[v].backends[ep] in m.backend && m.backend[services[v].backends[ep]] == ep
  {
    forall ep | ep in services[v].backends
      ensures services[v].backends[ep] in m.backend && m.backend[services[v].backends[ep]] == ep
    {
      assert ids[ep] == services[v].backends[ep];
    }
  }

  lemma NamedSame(m: Maps, m': Maps, e: Service)
    requires SameButHealth(m, m') && SlotsHold(m, e) && AllNamed(m, e)
    ensures SlotsHold(m', e) && AllNamed(m', e)
  {
    forall ep | ep in e.backends
      ensures NamedIn(m', e.ext, e.backends[ep])
    {
      assert NamedIn(m, e.ext, e.backends[ep]);
      var s: nat :| Within(e.ext, s) && s < |m.maglev| && m.maglev[s] == e.backends[ep];
      assert m'.maglev[s] == e.backends[ep];
    }
  }

  /** Nothing adopted so far stands in the way of the next VIP. */
  lemma NextIsFree(services: Services, states: States, ids: map<Endpoint, nat>, free0: seq<Extent>, done: set<VipId>,
      free: seq<Extent>, sids: map<VipId, nat>, part: map<Endpoint, nat>, v: VipId)
    requires Named(services, states, ids) && ExtentsAgree(services, free0) && SidsDistinct(services)
    requires forall ep :: ep in ids ==> ids[ep] < MAX_BACKENDS
    requires v in services && v !in done && ExtentsAgree(Restored(services, done), free)
        && sids == SidsOf(Restored(services, done))
    requires SubMap(part, ids)
    ensures ExtentSlots(services[v].ext) <= Slots(free)
    ensures CanReserve(sids, v, services[v].sid, MAX_VIPS)
    ensures AllReservable(part, services[v].backends, MAX_BACKENDS)
  {
    FreeForNext(services, free0, done, free, v);
    hide ExtentsAgree;
    SidIsFree(services, done, sids, v);
    hide SidsDistinct, SidsOf, Restored;
    forall ep | ep in services[v].backends
      ensures CanReserve(part, ep, services[v].backends[ep], MAX_BACKENDS)
    {
      IdIsFree(services, states, ids, part, v, ep);
    }
  }

  lemma SidIsFree(services: Services, done: set<VipId>, sids: map<VipId, nat>, v: VipId)
    requires SidsDistinct(services) && v in services && v !in done && sids == SidsOf(Restored(services, done))
    ensures CanReserve(sids, v, services[v].sid, MAX_VIPS)
  {
  }

  lemma IdIsFree(services: Services, states: States, ids: map<Endpoint, nat>, part: map<Endpoint, nat>, v: VipId,
      ep: Endpoint)
    requires Named(services, states, ids) && v in services && ep in services[v].backends && SubMap(part, ids)
    requires forall ep :: ep in ids ==> ids[ep] < MAX_BACKENDS
    ensures CanReserve(part, ep, services[v].backends[ep], MAX_BACKENDS)
  {
    assert ids[ep] == services[v].backends[ep];
    forall k | k in part && k != ep
      ensures part[k] != ids[ep]
    {
      assert part[k] == ids[k];
    }
  }

  lemma FreeForNext(services: Services, free0: seq<Extent>, done: set<VipId>, free: seq<Extent>, v: VipId)
    requires ExtentsAgree(services, free0) && v in services && v !in done
        && ExtentsAgree(Restored(services, done), free)
    ensures ExtentSlots(services[v].ext) <= Slots(free)
  {
    hide Slots, ExtentSlots;
    forall s | s in ExtentSlots(services[v].ext)
      ensures s in Slots(free)
    {
      HeldOnce(services, free0, v, s);
      LiveAmongRest(services, done, v, s);
    }
  }

  lemma LiveAmongRest(services: Services, done: set<VipId>, v: VipId, s: int)
    requires v !in done
    ensures Live(Restored(services, done), s) ==> Live(services - {v}, s)
  {
    if Live(Restored(services, done), s) {
      var w :| w in Restored(services, done) && s in ExtentSlots(Restored(services, done)[w].ext);
      assert w in services - {v} && s in ExtentSlots((services - {v})[w].ext);
    }
  }

  lemma RestoredNext(services: Services, done: set<VipId>, v: VipId)
    requires v in services
    ensures Restored(services, done)[v := Forgotten(v, services[v])] == Restored(services, done + {v})
  {
  }

  /** The backends of an adopted VIP keep within the old ID table. */
  lemma SubMapNext(services: Services, states: States, ids: map<Endpoint, nat>, part: map<Endpoint, nat>, v: VipId)
    requires Named(services, states, ids) && v in services && SubMap(part, ids)
    ensures SubMap(part + services[v].backends, ids)
  {
  }

  /** What is left to adopt: one record for each VIP not done yet, and nothing else. */
  ghost predicate Remaining(services: Services, todo: set<Raw>, done: set<VipId>) {
    && done <= services.Keys
    && (forall r :: r in todo ==>
        && VipOf(r).Some? && VipOf(r).value in services && VipOf(r).value !in done
        && services[VipOf(r).value].sid == r.sid)
    && (forall r, q :: r in todo && q in todo && VipOf(r) == VipOf(q) ==> r == q)
    && (forall v :: v in services && v !in done ==> exists r :: r in todo && VipOf(r) == Some(v))
  }

  lemma RemainingNext(services: Services, todo: set<Raw>, done: set<VipId>, r: Raw)
    requires Remaining(services, todo, done) && r in todo
    ensures Remaining(services, todo - {r}, done + {VipOf(r).value})
  {
    forall v | v in services && v !in done + {VipOf(r).value}
      ensures exists q :: q in todo - {r} && VipOf(q) == Some(v)
    {
      var q :| q in todo && VipOf(q) == Some(v);
      assert q in todo - {r};
    }
  }

  lemma AllRemaining(hash: Hash<Endpoint>, m: Maps, services: Services, states: States, exact: set<Raw>,
      ranges: set<Raw>, groups: set<Group>)
    requires Agree(hash, m, services, states)
    requires ExactScanned(m, exact) && RangesScanned(m, ranges, groups) && AllGroups(m, groups)
    ensures Remaining(services, exact + ranges, {})
  {
    hide Agree, GroupRaw, VipOf;
    forall r | r in exact + ranges
      ensures VipOf(r).Some? && VipOf(r).value in services && services[VipOf(r).value].sid == r.sid
      ensures VipOf(r).value.IsRange() <==> r.RawRange?
    {
      RawIsVip(hash, m, services, states, r);
    }
    forall r, q | r in exact + ranges && q in exact + ranges && VipOf(r) == VipOf(q)
      ensures r == q
    {
      VipTellsRaw(r, q);
    }
    forall v | v in services
      ensures exists r :: r in exact + ranges && VipOf(r) == Some(v)
    {
      var r := VipHasRaw(hash, m, services, states, exact, ranges, groups, v);
    }
  }

  /** Records of one VIP and one service ID are of one kind and one group. */
  lemma VipTellsRaw(r: Raw, q: Raw)
    requires VipOf(r) == VipOf(q) && VipOf(r).Some? && r.sid == q.sid
    requires (VipOf(r).value.IsRange() <==> r.RawRange?) && (VipOf(q).value.IsRange() <==> q.RawRange?)
    ensures r.RawRange? == q.RawRange? && (r.RawRange? ==> GroupOf(r) == GroupOf(q)) && (r.RawExact? ==> r == q)
  {
  }

  ghost predicate HealthSoFar(m0: Maps, m: Maps, states: States) {
    |m.health| == |m0.health| && forall id :: 0 <= id < |m.health| ==>
      m.health[id] == if id in states then Healthy else m0.health[id]
  }

  lemma HealthNext(m0: Maps, m: Maps, m': Maps, states: States, states': States, ids: map<Endpoint, nat>,
      backends: map<Endpoint, nat>)
    requires HealthSoFar(m0, m, states) && HealthRefreshed(m, m', states', backends.Values) && AllFresh(states')
    requires IdsMatch(states, ids) && IdsMatch(states', ids + backends)
    requires forall ep :: ep in backends && ep in ids ==> backends[ep] == ids[ep]
    ensures HealthSoFar(m0, m', states')
  {
    forall id | id in states
      ensures id in states'
    {
      var ep := states[id].ep;
      assert (ids + backends)[ep] == id;
    }
    forall id | id in states' && id !in backends.Values
      ensures id in states
    {
      var ep := states'[id].ep;
      assert (ids + backends)[ep] == id;
      assert ep !in backends;
    }
    forall id | id in backends.Values
      ensures id in states'
    {
      var ep :| ep in backends && backends[ep] == id;
      assert (ids + backends)[ep] == id;
    }
  }

  /** The in-memory state of the process that wrote the maps. */
  datatype Past = Past(services: Services, states: States, ids: map<Endpoint, nat>, free: seq<Extent>)

  /** Half-way through adopting agreeing maps: everything met so far was taken over as it was. */
  ghost predicate Restoring(m0: Maps, past: Past, todo: set<Raw>, done: set<VipId>, m: Maps, services: Services,
      states: States, ids: map<Endpoint, nat>) {
    && Remaining(past.services, todo, done)
    && services == Restored(past.services, done) && SubMap(ids, past.ids)
    && SameButHealth(m0, m) && HealthSoFar(m0, m, states)
  }

  ghost predicate RestoringNext(m0: Maps, past: Past, todo: set<Raw>, r: Raw, done: set<VipId>, m: Maps,
      services: Services, states: States, ids: map<Endpoint, nat>) {
    VipOf(r).Some? && Restoring(m0, past, todo - {r}, done + {VipOf(r).value}, m, services, states, ids)
  }

  method PickLowest(todo: set<Raw>) returns (r: Raw)
    requires todo != {}
    ensures r in todo && forall q :: q in todo ==> r.sid <= q.sid
  {
    r :| r in todo;
    var rest := todo - {r};
    while rest != {}
      invariant rest <= todo && r in todo && forall q :: q in todo && q !in rest ==> r.sid <= q.sid
    {
      var q :| q in rest;
      if q.sid < r.sid {
        r := q;
      }
      rest := rest - {q};
    }
  }

  /** Every record of agreeing maps passes all of adoption's tests. */
  lemma WillAdopt(hash: Hash<Endpoint>, m0: Maps, m: Maps, past: Past, todo: set<Raw>, done: set<VipId>,
      services: Services, sids: map<VipId, nat>, states: States, ids: map<Endpoint, nat>, free: seq<Extent>, r: Raw)
    requires Pinned(hash, m0, past.services, past.states, past.ids, past.free) && r in todo
    requires Restoring(m0, past, todo, done, m, services, states, ids)
    requires ExtentsAgree(services, free) && sids == SidsOf(services)
    ensures VipOf(r).Some? && Understood(m, VipOf(r).value, r.sid)
    ensures ExtentSlots(ExtentOf(m.svc[r.sid])) <= Slots(free) && CanReserve(sids, VipOf(r).value, r.sid, MAX_VIPS)
    ensures forall backends :: Records(m, ExtentOf(m.svc[r.sid]), backends) ==>
        AllReservable(ids, backends, MAX_BACKENDS)
  {
    hide Agree, Named, CountsMatch, ExtentsAgree, Understood, Records, CanReserve, AllReservable, Slots, ExtentSlots,
      SubMap, HealthSoFar, SameButHealth;
    var v := VipOf(r).value;
    PinnedIsUnderstood(hash, m0, m, past.services, past.states, past.ids, past.free, v);
    AgreedSids(hash, m0, past.services, past.states);
    NextIsFree(past.services, past.states, past.ids, past.free, done, free, sids, ids, v);
  }

  lemma AgreedSids(hash: Hash<Endpoint>, m: Maps, services: Services, states: States)
    requires Agree(hash, m, services, states)
    ensures SidsDistinct(services)
  {
    hide Settled, Installed, Reachable, Compatible, HealthOk, BackendMapOk;
  }

  lemma DidAdopt(hash: Hash<Endpoint>, m0: Maps, m: Maps, m': Maps, past: Past, todo: set<Raw>, done: set<VipId>,
      services: Services, states: States, states': States, ids: map<Endpoint, nat>, r: Raw,
      backends: map<Endpoint, nat>)
    requires Pinned(hash, m0, past.services, past.states, past.ids, past.free) && r in todo && VipOf(r).Some?
    requires Restoring(m0, past, todo, done, m, services, states, ids) && r.sid < |m.svc|
    requires Records(m, ExtentOf(m.svc[r.sid]), backends) && HealthRefreshed(m, m', states', backends.Values)
        && AllFresh(states')
    requires IdsMatch(states, ids) && IdsMatch(states', ids + backends)
    ensures Restoring(m0, past, todo - {r}, done + {VipOf(r).value}, m',
        services[VipOf(r).value := AdoptedEntry(VipOf(r).value, r.sid, m.svc[r.sid], backends)], states',
        ids + backends)
  {
    hide Agree, ListedMatch, CountsMatch, ExtentsAgree, Understood, Records, HealthSoFar, AllFresh, SameButHealth,
      HealthRefreshed, IdsMatch, Remaining, VipOf;
    var v := VipOf(r).value;
    RemainingHas(past.services, todo, done, r);
    PinnedIsUnderstood(hash, m0, m, past.services, past.states, past.ids, past.free, v);
    assert AdoptedEntry(v, r.sid, m.svc[r.sid], backends) == Forgotten(v, past.services[v]);
    RestoredNext(past.services, done, v);
    SubMapNext(past.services, past.states, past.ids, ids, v);
    RemainingNext(past.services, todo, done, r);
    assert forall ep :: ep in backends && ep in ids ==> (ids + backends)[ep] == past.ids[ep] == ids[ep];
    HealthNext(m0, m, m', states, states', ids, backends);
    SameThrough(m0, m, m', states', backends.Values);
  }

  lemma RemainingHas(services: Services, todo: set<Raw>, done: set<VipId>, r: Raw)
    requires Remaining(services, todo, done) && r in todo
    ensures VipOf(r).Some? && VipOf(r).value in services && services[VipOf(r).value].sid == r.sid
  {
  }

  lemma SameThrough(m0: Maps, m: Maps, m': Maps, states: States, ids: set<nat>)
    requires SameButHealth(m0, m) && HealthRefreshed(m, m', states, ids)
    ensures SameButHealth(m0, m')
  {
  }

  lemma LogFrom(m0: Maps, m: Maps, was: seq<Maps>, log: seq<Maps>)
    requires SameButHealth(m0, m) && LogSameButHealth(m, was, log)
    ensures LogSameButHealth(m0, was, log)
  {
  }

  lemma RefreshedFrame(m: Maps, m': Maps, states: States, ids: set<nat>)
    requires HealthRefreshed(m, m', states, ids)
    ensures m' == m.(health := m'.health)
  {
  }

  lemma SameSoFar(m0: Maps, past: Past, todo: set<Raw>, done: set<VipId>, m: Maps, services: Services, states: States,
      ids: map<Endpoint, nat>)
    requires Restoring(m0, past, todo, done, m, services, states, ids)
    ensures SameButHealth(m0, m)
  {
  }

  lemma AfterAdopt(hash: Hash<Endpoint>, m0: Maps, m: Maps, m': Maps, past: Past, todo: set<Raw>, done: set<VipId>,
      services: Services, services': Services, states: States, states': States, ids: map<Endpoint, nat>, r: Raw,
      backends: map<Endpoint, nat>, good: bool, log: seq<Maps>, log': seq<Maps>)
    requires r in todo && VipOf(r).Some? && Judged(m0, m, services, todo) && (r.RawRange? ==> GroupRaw(m0, r))
    requires good ==> Pinned(hash, m0, past.services, past.states, past.ids, past.free)
    requires good ==> Restoring(m0, past, todo, done, m, services, states, ids)
    requires Understood(m, VipOf(r).value, r.sid) && Records(m, ExtentOf(m.svc[r.sid]), backends)
    requires HealthRefreshed(m, m', states', backends.Values) && AllFresh(states') && VipOf(r).value !in services
    requires services' == services[VipOf(r).value := AdoptedEntry(VipOf(r).value, r.sid, m.svc[r.sid], backends)]
    requires BackendsAgree(services, states, ids) && BackendsAgree(services', states', ids + backends)
    requires LogSameButHealth(m, log, log')
    ensures Judged(m0, m', services', todo - {r}) && |services'| == |services| + 1 && log <= log'
    ensures good ==>
        && RestoringNext(m0, past, todo, r, done, m', services', states', ids + backends)
        && LogSameButHealth(m0, log, log')
  {
    hide Judged, GroupRaw, Pinned, Restoring, AllFresh, Understood, Records, HealthRefreshed, SameButHealth, VipOf;
    assert IdsMatch(states, ids) && IdsMatch(states', ids + backends);
    hide BackendsAgree, IdsMatch;
    var v := VipOf(r).value;
    UnderstoodExtent(m, v, r.sid);
    RefreshedFrame(m, m', states', backends.Values);
    JudgeAdopted(m0, m, m', services, todo, r, v, services'[v]);
    if good {
      DidAdopt(hash, m0, m, m', past, todo, done, services, states, states', ids, r, backends);
      SameSoFar(m0, past, todo, done, m, services, states, ids);
      LogFrom(m0, m, log, log');
    }
  }

  /** Judges one record: adopted when it can be, deleted otherwise. */
  method AdoptRaw(d: Dataplane, r: Raw, ghost m0: Maps, ghost todo: set<Raw>, ghost good: bool, ghost past: Past,
      ghost done: set<VipId>)
    returns (ok: bool)
    requires d.Mem() && d.lost == multiset{} && AdoptedFrom(d.services, d.maps.svc) && AllFresh(d.states)
    requires r in todo && Judged(m0, d.maps, d.services, todo) && (r.RawRange? ==> GroupRaw(m0, r))
    requires good ==> Pinned(d.hash, m0, past.services, past.states, past.ids, past.free)
    requires good ==> Restoring(m0, past, todo, done, d.maps, d.services, d.states, d.backendIds.ids)
    modifies d`services, d`states, d`maps, d`log, d.serviceIds, d.backendIds, d.maglev
    ensures d.Mem() && AdoptedFrom(d.services, d.maps.svc) && AllFresh(d.states)
    ensures Judged(m0, d.maps, d.services, todo - {r})
    ensures |d.services| == |old(d.services)| + if ok then 1 else 0
    ensures old(d.log) <= d.log
    ensures good ==> ok && RestoringNext(m0, past, todo, r, done, d.maps, d.services, d.states, d.backendIds.ids)
    ensures good ==> LogSameButHealth(m0, old(d.log), d.log)
  {
    hide Judged, GroupRaw, Pinned, Restoring, RestoringNext, AllFresh, AdoptedFrom, Understood, Records, CanReserve,
      AllReservable, HealthRefreshed, Slots, ExtentSlots, SameButHealth, LogSameButHealth, PoolValid, FreeListValid,
      ExtentsAgree, Counted, VipOf, Shaped, SidsOf, AdoptedEntry, ExtentOf;
    ok := false;
    var v := VipOf(r);
    ghost var m, services, ids, states, log := d.maps, d.services, d.backendIds.ids, d.states, d.log;
    if good {
      WillAdopt(d.hash, m0, m, past, todo, done, services, d.serviceIds.ids, states, ids, d.maglev.free, r);
    }
    if v.Some? {
      ghost var backends;
      ok, backends := AdoptOne(d, v.value, r.sid);
      if ok {
        AfterAdopt(d.hash, m0, m, d.maps, past, todo, done, services, d.services, states, d.states, ids, r, backends,
          good, log, d.log);
        return;
      }
    }
    Discard(d, r, m0, todo);
  }

  /** A record that could not be adopted is deleted. */
  method Discard(d: Dataplane, r: Raw, ghost m0: Maps, ghost todo: set<Raw>)
    requires d.Mem() && AdoptedFrom(d.services, d.maps.svc) && Judged(m0, d.maps, d.services, todo)
        && (r.RawRange? ==> GroupRaw(m0, r))
    modifies d`maps, d`log
    ensures d.Mem() && AdoptedFrom(d.services, d.maps.svc) && Judged(m0, d.maps, d.services, todo - {r})
        && old(d.log) <= d.log
  {
    hide Judged, GroupRaw, AdoptedFrom, PoolValid, FreeListValid, ExtentsAgree, Counted, SidsOf;
    ghost var m := d.maps;
    DropRaw(d, r);
    JudgeDropped(m0, m, d.maps, d.services, todo, r);
  }

  // ---- The end of adoption.

  /** Same backends, same IDs and same reference counts: what a restart keeps of the states. */
  ghost predicate SameBackends(was: States, states: States) {
    states.Keys == was.Keys && forall id :: id in was ==>
      states[id].ep == was[id].ep && states[id].refCount == was[id].refCount
  }

  lemma RestoredBackends(past: Past, services: Services, states: States, ids: map<Endpoint, nat>)
    requires services == Restored(past.services, past.services.Keys) && SubMap(ids, past.ids)
    requires BackendsAgree(past.services, past.states, past.ids) && BackendsAgree(services, states, ids)
    ensures ids == past.ids && SameBackends(past.states, states)
  {
    RestoredIds(past, services, states, ids);
    hide SubMap, Restored, ListedMatch;
    forall id | id in past.states
      ensures id in states && states[id].ep == past.states[id].ep && states[id].refCount == past.states[id].refCount
    {
      var ep := past.states[id].ep;
      assert ids[ep] == id;
      RestoredUsers(past.services, ep);
    }
    forall id | id in states
      ensures id in past.states
    {
      assert ids[states[id].ep] == id;
    }
  }

  lemma RestoredIds(past: Past, services: Services, states: States, ids: map<Endpoint, nat>)
    requires services == Restored(past.services, past.services.Keys) && SubMap(ids, past.ids)
    requires BackendsAgree(past.services, past.states, past.ids) && BackendsAgree(services, states, ids)
    ensures ids == past.ids
  {
    hide CountsMatch, IdsMatch;
    forall ep | ep in past.ids
      ensures ep in ids && ids[ep] == past.ids[ep]
    {
      var v := SomeUser(past.services, past.states, past.ids, ep);
      assert v in services && services[v].backends == past.services[v].backends;
    }
  }

  lemma SomeUser(services: Services, states: States, ids: map<Endpoint, nat>, ep: Endpoint) returns (v: VipId)
    requires BackendsAgree(services, states, ids) && ep in ids
    ensures v in services && ep in services[v].backends
  {
    assert states[ids[ep]].ep == ep;
    assert |Users(services, ep)| > 0;
    v :| v in Users(services, ep);
  }

  lemma RestoredUsers(services: Services, ep: Endpoint)
    ensures Users(Restored(services, services.Keys), ep) == Users(services, ep)
  {
  }

  /** Adopted maps agree with what was rebuilt from them. */
  lemma RestoredAgrees(hash: Hash<Endpoint>, m0: Maps, m: Maps, past: Past, services: Services, states: States,
      ids: map<Endpoint, nat>)
    requires Pinned(hash, m0, past.services, past.states, past.ids, past.free)
    requires services == Restored(past.services, past.services.Keys) && SameBackends(past.states, states)
        && AllFresh(states)
    requires SameButHealth(m0, m) && HealthSoFar(m0, m, states)
    ensures Agree(hash, m, services, states)
  {
    hide BackendsAgree, ExtentsAgree, AllFresh, SameBackends, HealthSoFar, SameButHealth, Base, Settled, Installed,
      Restored;
    RestoredAllSettle(hash, m0, m, past.services, past.states);
    RestoredBase(m0, m, past.services, services, past.states, states);
  }

  lemma RestoredAllSettle(hash: Hash<Endpoint>, m0: Maps, m: Maps, was: Services, states: States)
    requires Agree(hash, m0, was, states) && SameButHealth(m0, m)
    ensures var services := Restored(was, was.Keys); forall v :: v in services ==>
        Settled(hash, m, v, services[v]) && Installed(m, v)
  {
    hide Settled, Installed, Base, SameButHealth;
    var services := Restored(was, was.Keys);
    forall v | v in services
      ensures Settled(hash, m, v, services[v]) && Installed(m, v)
    {
      RestoredSettles(hash, m0, m, v, was[v]);
      InstalledSame(m0, m, v);
    }
  }

  lemma RestoredSettles(hash: Hash<Endpoint>, m0: Maps, m: Maps, v: VipId, e: Service)
    requires Settled(hash, m0, v, e) && SameButHealth(m0, m)
    ensures Settled(hash, m, v, Forgotten(v, e))
  {
    NamedSame(m0, m, e);
    NamedBoth(m, e, Forgotten(v, e));
  }

  lemma NamedBoth(m: Maps, e: Service, f: Service)
    requires SlotsHold(m, e) && AllNamed(m, e) && f.ext == e.ext && f.backends == e.backends
    ensures SlotsHold(m, f) && AllNamed(m, f)
  {
  }

  lemma InstalledSame(m0: Maps, m: Maps, v: VipId)
    requires Installed(m0, v) && SameButHealth(m0, m)
    ensures Installed(m, v)
  {
  }

  lemma RestoredBase(m0: Maps, m: Maps, was: Services, services: Services, wasStates: States, states: States)
    requires Base(m0, was, wasStates, {}) && services == Restored(was, was.Keys) && SameBackends(wasStates, states)
        && AllFresh(states)
    requires SameButHealth(m0, m) && HealthSoFar(m0, m, states)
    ensures Base(m, services, states, {})
  {
    assert services.Keys == was.Keys;
    hide Compatible, Owns;
    forall k | k in m.ranges
      ensures exists v :: v in services && Owns(v, k) && m.ranges[k] == services[v].sid
    {
      var v :| v in was && Owns(v, k) && m0.ranges[k] == was[v].sid;
      assert v in services;
    }
    assert forall sid :: SidUsed(services, sid) <==> SidUsed(was, sid);
  }

  lemma HealthServes(hash: Hash<Endpoint>, m0: Maps, m: Maps, services: Services, states: States,
      ids: map<Endpoint, nat>, w: VipId)
    requires w in services && Settled(hash, m0, w, services[w]) && BackendMapOk(m0, states, {})
        && Named(services, states, ids) && SameButHealth(m0, m)
    ensures ServesOnly(m, services[w].sid, services[w].backends.Keys)
  {
    hide Settled, Named;
    SettledAllows(hash, m0, services, states, ids, w);
    AllowedServes(m, states, {}, services[w].sid, services[w].backends.Keys);
  }

  lemma ServedConfined(m: Maps, services: Services)
    requires Reachable(m, services) && forall w :: w in services ==>
        ServesOnly(m, services[w].sid, services[w].backends.Keys)
    ensures Confined(m, Current(services))
  {
    hide ServesOnly, Owns;
    var allowed := Current(services);
    forall k | k in m.ranges
      ensures exists w :: w in allowed && Owns(w, k) && ServesOnly(m, m.ranges[k], allowed[w])
    {
      var w :| w in services && Owns(w, k) && m.ranges[k] == services[w].sid;
      assert w in allowed && ServesOnly(m, m.ranges[k], allowed[w]);
    }
  }

  lemma ReachableSame(m0: Maps, m: Maps, services: Services)
    requires Reachable(m0, services) && SameButHealth(m0, m)
    ensures Reachable(m, services)
  {
    hide Owns;
  }

  /** While adoption rewrites health, packets keep to the backends their VIP had. */
  lemma HealthStaysConfined(hash: Hash<Endpoint>, m0: Maps, m: Maps, services: Services, states: States,
      ids: map<Endpoint, nat>)
    requires Agree(hash, m0, services, states) && Named(services, states, ids) && SameButHealth(m0, m)
    ensures Confined(m, Current(services))
  {
    hide Compatible, Settled, Named, ServesOnly, Reachable, Installed, HealthOk, BackendMapOk, SameButHealth, Confined;
    forall w | w in services
      ensures ServesOnly(m, services[w].sid, services[w].backends.Keys)
    {
      HealthServes(hash, m0, m, services, states, ids, w);
    }
    ReachableSame(m0, m, services);
    ServedConfined(m, services);
  }

  /** What adoption keeps to: everything but health stays as it is. */
  ghost function AdoptGuard(past: Past, m0: Maps): Guard {
    Guard(Current(past.services), past.services.Keys, map id | id in past.states :: past.states[id].ep, map[],
      map s: nat | s < |m0.maglev| :: m0.maglev[s])
  }

  lemma SameButHealthSafe(hash: Hash<Endpoint>, m0: Maps, m: Maps, past: Past)
    requires Agree(hash, m0, past.services, past.states) && Named(past.services, past.states, past.ids)
        && SameButHealth(m0, m)
    ensures Safe(m, AdoptGuard(past, m0))
  {
    hide Agree, Named, Confined, Current, Owns;
    HealthStaysConfined(hash, m0, m, past.services, past.states, past.ids);
    AgreeFacts(hash, m0, past.services, past.states);
  }

  lemma LogGuarded(hash: Hash<Endpoint>, m0: Maps, past: Past, was: seq<Maps>, log: seq<Maps>)
    requires Pinned(hash, m0, past.services, past.states, past.ids, past.free) && LogSameButHealth(m0, was, log)
    ensures SafeSince(was, log, AdoptGuard(past, m0))
  {
    hide Agree, Named, CountsMatch, ExtentsAgree, Safe, SameButHealth, AdoptGuard;
    forall i | |was| <= i < |log|
      ensures Safe(log[i], AdoptGuard(past, m0))
    {
      SameButHealthSafe(hash, m0, log[i], past);
    }
  }

  /** What a restart on maps left by successful operations amounts to. */
  ghost predicate TakenOver(hash: Hash<Endpoint>, past: Past, m0: Maps, m: Maps, services: Services, states: States,
      ids: map<Endpoint, nat>) {
    && services == Restored(past.services, past.services.Keys)
    && ids == past.ids && SameBackends(past.states, states) && AllFresh(states)
    && SameButHealth(m0, m) && Agree(hash, m, services, states)
  }

  lemma AllRestored(hash: Hash<Endpoint>, past: Past, m0: Maps, done: set<VipId>, m: Maps, services: Services,
      states: States, ids: map<Endpoint, nat>)
    requires Pinned(hash, m0, past.services, past.states, past.ids, past.free)
    requires Restoring(m0, past, {}, done, m, services, states, ids) && AllFresh(states)
        && BackendsAgree(services, states, ids)
    ensures TakenOver(hash, past, m0, m, services, states, ids)
  {
    hide Agree, BackendsAgree, ExtentsAgree, SameButHealth, HealthSoFar, AllFresh, SameBackends;
    NothingLeft(past.services, done);
    RestoredBackends(past, services, states, ids);
    RestoredAgrees(hash, m0, m, past, services, states, ids);
  }

  lemma NothingLeft(services: Services, done: set<VipId>)
    requires Remaining(services, {}, done)
    ensures done == services.Keys
  {
  }

  lemma NothingRestored(hash: Hash<Endpoint>, m0: Maps, past: Past, exact: set<Raw>, ranges: set<Raw>,
      groups: set<Group>)
    requires Pinned(hash, m0, past.services, past.states, past.ids, past.free)
    requires ExactScanned(m0, exact) && RangesScanned(m0, ranges, groups) && AllGroups(m0, groups)
    ensures Restoring(m0, past, exact + ranges, {}, m0, map[], map[], map[])
  {
    hide Agree, BackendsAgree, ExtentsAgree, Remaining, ExactScanned, RangesScanned, AllGroups;
    AllRemaining(hash, m0, past.services, past.states, exact, ranges, groups);
  }

  lemma LogOn(m0: Maps, was: seq<Maps>, mid: seq<Maps>, log: seq<Maps>)
    requires LogSameButHealth(m0, was, mid) && LogSameButHealth(m0, mid, log)
    ensures LogSameButHealth(m0, was, log)
  {
    hide SameButHealth;
    forall i | |was| <= i < |log|
      ensures SameButHealth(m0, log[i])
    {
      if i < |mid| {
        assert log[i] == mid[i];
      }
    }
  }

  lemma RawIsGroup(m0: Maps, exact: set<Raw>, ranges: set<Raw>, groups: set<Group>, r: Raw)
    requires ExactScanned(m0, exact) && RangesScanned(m0, ranges, groups) && r in exact + ranges
    ensures r.RawRange? ==> GroupRaw(m0, r)
  {
    hide GroupRaw;
  }

  lemma NothingKnown(services: Services, states: States, ids: map<Endpoint, nat>)
    requires BackendsAgree(services, states, ids) && states == map[]
    ensures ids == map[]
  {
  }

  /** adoptLocked: judges every record, lowest service ID first. Whatever the maps held, no entry
      is left that does not lead to an adopted VIP; maps left by successful operations are taken
      over in full, nothing dropped, and no packet strays meanwhile. */
  method AdoptAll(d: Dataplane, ghost good: bool, ghost past: Past) returns (adopted: nat, dropped: nat)
    requires d.Mem() && d.lost == multiset{} && d.services == map[] && d.states == map[]
    requires forall k :: k in d.maps.ranges ==> k.block.port < 0x1_0000
    requires good ==> Pinned(d.hash, d.maps, past.services, past.states, past.ids, past.free)
    modifies d`services, d`states, d`maps, d`log, d.serviceIds, d.backendIds, d.maglev
    ensures d.Mem() && Reachable(d.maps, d.services) && AllFresh(d.states) && AdoptedFrom(d.services, d.maps.svc)
    ensures adopted == |d.services| && old(d.log) <= d.log
    ensures good ==>
        dropped == 0 && TakenOver(d.hash, past, old(d.maps), d.maps, d.services, d.states, d.backendIds.ids)
    ensures good ==> SafeSince(old(d.log), d.log, AdoptGuard(past, old(d.maps)))
  {
    hide Judged, GroupRaw, Pinned, Restoring, AllFresh, AdoptedFrom, LogSameButHealth, Remaining, ExactScanned,
      RangesScanned, AllGroups, TakenOver, Safe, AdoptGuard, Counted, PoolValid, FreeListValid, ExtentsAgree, Slots,
      SameButHealth, Reachable;
    ghost var m0, was := d.maps, d.log;
    var exact := ScanExact(d.maps);
    var ranges := ScanRanges(d.maps);
    ghost var groups := GroupsIn(d.maps);
    var todo := exact + ranges;
    adopted, dropped := 0, 0;
    ghost var done: set<VipId> := {};
    Fresh(d.states, d.maps.svc, m0, was);
    NothingJudged(m0, exact, ranges, groups, d.services);
    NothingKnown(d.services, d.states, d.backendIds.ids);
    if good {
      NothingRestored(d.hash, m0, past, exact, ranges, groups);
    }
    while todo != {}
      invariant d.Mem() && AdoptedFrom(d.services, d.maps.svc) && AllFresh(d.states)
      invariant todo <= exact + ranges && Judged(m0, d.maps, d.services, todo) && was <= d.log
      invariant adopted == |d.services|
      invariant good ==> dropped == 0 && Restoring(m0, past, todo, done, d.maps, d.services, d.states, d.backendIds.ids)
      invariant good ==> LogSameButHealth(m0, was, d.log)
    {
      var r := PickLowest(todo);
      RawIsGroup(m0, exact, ranges, groups, r);
      ghost var log := d.log;
      var ok := AdoptRaw(d, r, m0, todo, good, past, done);
      if good {
        LogOn(m0, was, log, d.log);
        done := done + {VipOf(r).value};
      }
      if ok {
        adopted := adopted + 1;
      } else {
        dropped := dropped + 1;
      }
      todo := todo - {r};
    }
    AllJudged(m0, d.maps, d.services);
    if good {
      AllRestored(d.hash, past, m0, done, d.maps, d.services, d.states, d.backendIds.ids);
      LogGuarded(d.hash, m0, past, was, d.log);
    }
  }

  lemma Fresh(states: States, svc: seq<ServiceConfig>, m0: Maps, log: seq<Maps>)
    ensures states == map[] ==> AllFresh(states)
    ensures AdoptedFrom(map[], svc) && LogSameButHealth(m0, log, log)
  {
  }

  // ---- A whole restart.

  lemma InSyncPinned(d: Dataplane)
    requires d.Mem() && d.InSync() && d.lost == multiset{}
    ensures Pinned(d.hash, d.maps, d.services, d.states, d.backendIds.ids, d.maglev.free)
    ensures forall k :: k in d.maps.ranges ==> k.block.port < 0x1_0000
  {
    hide Counted, ExtentsAgree, FreeListValid, Slots;
    RangePorts(d.hash, d.maps, d.services, d.states);
  }

  lemma RangePorts(hash: Hash<Endpoint>, m: Maps, services: Services, states: States)
    requires Agree(hash, m, services, states)
    ensures forall k :: k in m.ranges ==> k.block.port < 0x1_0000
  {
    ReachableOf(hash, m, services, states);
    hide Agree, Owns;
    forall k | k in m.ranges
      ensures k.block.port < 0x1_0000
    {
      var v :| v in services && Owns(v, k) && m.ranges[k] == services[v].sid;
      OwnedPort(v, k);
    }
  }

  lemma ReachableOf(hash: Hash<Endpoint>, m: Maps, services: Services, states: States)
    requires Agree(hash, m, services, states)
    ensures Reachable(m, services)
  {
    hide Settled, Installed, Reachable, Compatible;
  }

  lemma OwnedPort(v: VipId, k: RangeKey)
    requires Owns(v, k)
    ensures k.block.port < 0x1_0000
  {
    TilingTiles(v.port, v.portEnd);
    hide Tiling, Size;
  }

  ghost predicate SameIds(was: Services, services: Services) {
    was.Keys == services.Keys && forall v :: v in was ==>
      services[v].sid == was[v].sid && services[v].backends == was[v].backends
  }

  lemma TakenOverFacts(hash: Hash<Endpoint>, past: Past, m0: Maps, m: Maps, services: Services, states: States,
      ids: map<Endpoint, nat>)
    requires TakenOver(hash, past, m0, m, services, states, ids) && Sized(past.services)
    ensures Agree(hash, m, services, states) && Sized(services) && |services| == |past.services|
        && SameIds(past.services, services)
    ensures SameBackends(past.states, states) && ids == past.ids
  {
    hide Agree, SameButHealth, SameBackends, AllFresh;
    assert services.Keys == past.services.Keys && |services| == |services.Keys|;
  }

  lemma SameScope(was: Services, services: Services, want: map<VipId, Vip>)
    requires SameIds(was, services)
    ensures ReloadScope(services, want) == ReloadScope(was, want) && Staying(services, want) == Staying(was, want)
  {
    hide WeightsOf;
    forall ep
      ensures ep in Staying(services, want) <==> ep in Staying(was, want)
    {
      assert forall w :: StaysListed(services, want, w, ep) <==> StaysListed(was, want, w, ep);
    }
  }

  lemma KeptThrough(was: Services, services: Services, now: Services, want: map<VipId, Vip>)
    requires SameIds(was, services) && KeepsIds(services, now, want)
    ensures KeepsIds(was, now, want)
  {
    hide WeightsOf;
  }

  /** What a restart keeps to: as a reload, but for health. */
  ghost function RestartGuard(services: Services, states: States, want: map<VipId, Vip>): Guard {
    ReloadGuard(services, states, want).(health := map[])
  }

  lemma AdoptionWeaker(past: Past, m0: Maps, want: map<VipId, Vip>)
    ensures Weaker(RestartGuard(past.services, past.states, want), AdoptGuard(past, m0))
  {
    hide WeightsOf, Staying, HealthOf;
  }

  lemma ReloadWeaker(was: Services, wasStates: States, services: Services, states: States, want: map<VipId, Vip>)
    requires SameIds(was, services) && SameBackends(wasStates, states)
    ensures Weaker(RestartGuard(was, wasStates, want), ReloadGuard(services, states, want))
  {
    hide WeightsOf, HealthOf;
    SameScope(was, services, want);
    hide ReloadScope, Staying;
  }

  lemma RestartSafe(past: Past, m0: Maps, services: Services, states: States, want: map<VipId, Vip>, mid: seq<Maps>,
      log: seq<Maps>)
    requires SameIds(past.services, services) && SameBackends(past.states, states)
    requires SafeSince([], mid, AdoptGuard(past, m0)) && SafeSince(mid, log, ReloadGuard(services, states, want))
    ensures SafeSince([], log, RestartGuard(past.services, past.states, want))
  {
    hide SafeSince, SameIds, SameBackends, Weaker, RestartGuard, ReloadGuard, AdoptGuard;
    AdoptionWeaker(past, m0, want);
    ReloadWeaker(past.services, past.states, services, states, want);
    SafeRelaxes([], mid, AdoptGuard(past, m0), RestartGuard(past.services, past.states, want));
    SafeOn([], mid, log, ReloadGuard(services, states, want), RestartGuard(past.services, past.states, want));
  }

  /** None of these backends was drained or down. */
  ghost predicate AllHealthy(states: States, ids: map<Endpoint, nat>, eps: set<Endpoint>) {
    forall ep :: ep in eps ==> ep in ids && ids[ep] in states && HealthOf(states[ids[ep]]) == Healthy
  }

  /** Fresh flags are the old ones exactly for a backend that was healthy. */
  lemma FreshIff(was: Services, wasStates: States, wasIds: map<Endpoint, nat>, want: map<VipId, Vip>, mid: States,
      ids: map<Endpoint, nat>, now: States, nowIds: map<Endpoint, nat>)
    requires Named(was, wasStates, wasIds) && ids == wasIds && SameBackends(wasStates, mid) && AllFresh(mid)
    requires FlagsHeld(mid, ids, now, nowIds, Staying(was, want))
    ensures FlagsHeld(wasStates, wasIds, now, nowIds, Staying(was, want)) <==>
        AllHealthy(wasStates, wasIds, Staying(was, want))
    ensures forall ep :: ep in Staying(was, want) ==> FlagsOf(now, nowIds, ep) == Some((true, false, false))
  {
    hide StaysListed, SameBackends, ListedMatch;
    forall ep | ep in Staying(was, want)
      ensures FlagsOf(now, nowIds, ep) == Some((true, false, false))
      ensures FlagsOf(wasStates, wasIds, ep) == FlagsOf(now, nowIds, ep) <==> HealthOf(wasStates[wasIds[ep]]) == Healthy
      ensures ep in wasIds && wasIds[ep] in wasStates
    {
      StayingKnown(was, wasStates, wasIds, want, ep);
      SameBackendsHas(wasStates, mid, wasIds[ep]);
    }
  }

  lemma StayingKnown(was: Services, states: States, ids: map<Endpoint, nat>, want: map<VipId, Vip>, ep: Endpoint)
    requires Named(was, states, ids) && ep in Staying(was, want)
    ensures ep in ids && ids[ep] in states
  {
    hide WeightsOf;
    var w :| w in was && ep in was[w].backends && StaysListed(was, want, w, ep);
  }

  lemma SameBackendsHas(was: States, states: States, id: nat)
    requires SameBackends(was, states) && id in was
    ensures id in states
  {
  }

  /** The configuration is the one the old process ran, and its hardware addresses parse. */
  ghost predicate SameConfig(services: Services, want: map<VipId, Vip>) {
    forall k :: k in want ==> k in services && services[k].spec == Some(want[k]) && MacsParse(MacsOf(want[k].backends))
  }

  /** What a process runs fits where it is. */
  lemma RunningRefits(hash: Hash<Endpoint>, m: Maps, services: Services, states: States, v: VipId, spec: Vip)
    requires Agree(hash, m, services, states) && v in services && spec.id == v
    requires services[v].spec == Some(spec) && MacsParse(MacsOf(spec.backends))
    ensures Refits(services, spec) && services[v].backends.Keys == WeightsOf(spec.backends).Keys
  {
    hide Agree, Settled, MacsParse, MacsOf, WeightsOf, Outgrown, ClassFor, TableOf, Load;
    AgreeSettles(hash, m, services, states, v);
    SettledTable(hash, m, v, services[v]);
    var e := services[v];
    var names :| TableOf(hash, m.maglev[e.ext.offset..e.ext.End()], names, e.backends, WeightsOf(e.vip.backends));
    TableHolds(hash, m.maglev[e.ext.offset..e.ext.End()], names, e.backends, WeightsOf(spec.backends));
  }

  /** A table's weights and size. */
  lemma TableHolds(hash: Hash<Endpoint>, slice: seq<nat>, names: seq<Endpoint>, backends: map<Endpoint, nat>,
      weights: map<Endpoint, nat>)
    requires TableOf(hash, slice, names, backends, weights)
    ensures weights.Keys == backends.Keys && weights != map[] && |weights| == |backends| && Load(weights) < |slice|
  {
    hide Table, IsPrime;
    TotalIsLoad(names, weights);
    assert names[0] in weights;
    assert |backends| == |backends.Keys| == |weights.Keys|;
  }

  lemma SettledTable(hash: Hash<Endpoint>, m: Maps, v: VipId, e: Service)
    requires Settled(hash, m, v, e) && e.spec.Some?
    ensures e.vip == e.spec.value && e.backends != map[] && !Outgrown(e.ext, ClassFor(|e.backends|))
        && e.ext.End() <= |m.maglev|
    ensures exists names :: TableOf(hash, m.maglev[e.ext.offset..e.ext.End()], names, e.backends,
        WeightsOf(e.vip.backends))
  {
    hide SlotsHold, AllNamed, TableOf, WeightsOf, ClassFor, Outgrown;
  }

  lemma RefitsAdopted(was: Services, services: Services, spec: Vip)
    requires Refits(was, spec) && services == Restored(was, was.Keys)
    ensures Refits(services, spec)
  {
    hide MacsParse, MacsOf, WeightsOf, Outgrown, ClassFor, Load;
  }

  lemma RunningIsKnown(services: Services, states: States, ids: map<Endpoint, nat>, want: map<VipId, Vip>, k: VipId,
      ep: Endpoint)
    requires Named(services, states, ids) && k in want && k in services && ep in WeightsOf(want[k].backends).Keys
    requires services[k].backends.Keys == WeightsOf(want[k].backends).Keys
    ensures ep in ids
  {
    hide WeightsOf, IdsMatch;
    assert ep in services[k].backends;
  }

  /** A configuration that is running needs no further IDs. */
  lemma RunningHasRoom(services: Services, states: States, ids: map<Endpoint, nat>, want: map<VipId, Vip>)
    requires Named(services, states, ids) && |ids| <= MAX_BACKENDS
    requires forall k :: k in want ==> k in services && services[k].backends.Keys == WeightsOf(want[k].backends).Keys
    ensures RoomFor(ids.Keys, AllWanted(want))
  {
    hide WeightsOf, Named, RoomFor;
    forall ep | ep in AllWanted(want)
      ensures ep in ids.Keys
    {
      var k :| k in want && ep in WeightsOf(want[k].backends);
      RunningIsKnown(services, states, ids, want, k, ep);
    }
    NoMoreRoom(ids, AllWanted(want));
  }

  lemma NoMoreRoom(ids: map<Endpoint, nat>, wanted: set<Endpoint>)
    requires wanted <= ids.Keys && |ids| <= MAX_BACKENDS
    ensures RoomFor(ids.Keys, wanted)
  {
    assert ids.Keys + wanted == ids.Keys;
    assert |ids.Keys| == |ids|;
  }

  lemma RestartRefits(hash: Hash<Endpoint>, past: Past, m0: Maps, m: Maps, services: Services, states: States,
      ids: map<Endpoint, nat>, want: map<VipId, Vip>)
    requires TakenOver(hash, past, m0, m, services, states, ids) && Agree(hash, m0, past.services, past.states)
    requires Named(past.services, past.states, past.ids) && |ids| <= MAX_BACKENDS
    requires SameConfig(past.services, want) && forall k :: k in want ==> want[k].id == k
    ensures FitsWhereItIs(services, ids, want)
  {
    hide Agree, SameButHealth, SameBackends, AllFresh, MacsParse, MacsOf, Refits, Restored, WeightsOf, Named, RoomFor,
      AllWanted;
    forall k | k in want
      ensures Refits(services, want[k]) && past.services[k].backends.Keys == WeightsOf(want[k].backends).Keys
    {
      RunningRefits(hash, m0, past.services, past.states, k, want[k]);
      RefitsAdopted(past.services, services, want[k]);
    }
    RunningHasRoom(past.services, past.states, past.ids, want);
  }

  /** A control plane stops in agreement with its maps, and a new one starts on those maps,
      adopts them and loads its configuration. If that reports no error, exactly the configured
      VIPs are left; those that were there keep their service ID and the IDs of the backends they
      keep, and in every snapshot of the maps on the way each packet went to a backend its VIP
      had or is to have, through its own VIP, under IDs that meant what they had meant. Drains are
      not kept: backends that stay listed have the flags they had if and only if none of them was
      drained or down. With the configuration the old process ran, and a kernel that accepts
      everything, it cannot fail. */
  method Restart(d: Dataplane, answers: nat -> bool, desired: seq<Vip>)
    returns (n: Dataplane, adopted: nat, dropped: nat, ok: bool)
    requires d.Mem() && d.InSync() && d.lost == multiset{} && Sized(d.services)
    ensures fresh(n) && n.Mem() && n.answers == answers && n.hash == d.hash && adopted == |d.services| && dropped == 0
    ensures KeepsIds(d.services, n.services, Want(desired))
    ensures FlagsHeld(d.states, d.backendIds.ids, n.states, n.backendIds.ids, Staying(d.services, Want(desired))) <==>
              AllHealthy(d.states, d.backendIds.ids, Staying(d.services, Want(desired)))
    ensures forall ep :: ep in Staying(d.services, Want(desired)) ==>
              FlagsOf(n.states, n.backendIds.ids, ep) == Some((true, false, false))
    ensures SameConfig(d.services, Want(desired)) && AllAccepted(answers) ==> ok
    ensures ok ==> n.services.Keys == Want(desired).Keys && forall k :: k in n.services ==>
        n.services[k].spec == Some(Want(desired)[k])
    ensures ok && Compatible(Want(desired).Keys) ==>
              n.InSync() && SafeSince([], n.log, RestartGuard(d.services, d.states, Want(desired)))
  {
    hide Agree, Pinned, Counted, ExtentsAgree, PoolValid, FreeListValid, Slots, TakenOver, Sized, Want, WeightsOf, Safe,
      SafeSince, Compatible, KeepsIds, Reachable, AllFresh, AdoptedFrom, RestartGuard, ReloadGuard, AdoptGuard, SameIds,
      SameBackends, Staying, FlagsHeld, FlagsOf, AllHealthy, Named, SameConfig, Refits, AllAccepted, FitsWhereItIs;
    ghost var past := Past(d.services, d.states, d.backendIds.ids, d.maglev.free);
    InSyncPinned(d);
    d.Matched();
    n := new Dataplane.Pinned(d.hash, answers, d.maps);
    adopted, dropped := AdoptAll(n, true, past);
    ghost var mid, now, st, ids := n.log, n.services, n.states, n.backendIds.ids;
    TakenOverFacts(n.hash, past, d.maps, n.maps, n.services, n.states, n.backendIds.ids);
    SameScope(d.services, now, Want(desired));
    n.TableFits();
    if SameConfig(d.services, Want(desired)) {
      RestartRefits(n.hash, past, d.maps, n.maps, now, st, ids, Want(desired));
    }
    var plan;
    ok, plan := n.Reload(desired);
    KeptThrough(d.services, now, n.services, Want(desired));
    FreshIff(d.services, d.states, d.backendIds.ids, Want(desired), st, ids, n.states, n.backendIds.ids);
    if ok && Compatible(Want(desired).Keys) {
      RestartSafe(past, d.maps, now, st, Want(desired), mid, n.log);
    }
  }
}
