/** Executions that show two of the control plane's promises failing: a reference that is counted
    and never given back, and a drain that a restart forgets. */
module Scenarios {
  import opened Common
  import opened Types
  import opened VipLookup
  import opened BpfMaps
  import opened ExtentAllocation
  import opened IdAllocation
  import opened Maglev
  import opened DataplaneState
  import opened MapAgreement
  import opened Watching
  import opened UpsertConditions
  import opened UpsertSteps
  import opened ReloadPlanning
  import opened ReloadSteps
  import opened DataplaneControl
  import opened Adoption

  const WEB := VipId(V4(0x0a00, 0x0001), 80, 0, TCP)
  const SERVER := Endpoint(V4(0x0a00, 0x0002), 8080)

  /** A full-NAT VIP with one backend; only direct server return checks the hardware address when
      the configuration is read. */
  function Single(mac: Mac): Vip {
    Vip(WEB, NAT, AffinityNone, [BackendSpec(SERVER, 1, mac)])
  }

  function Always(n: nat): bool {
    true
  }

  lemma SingleIs(mac: Mac)
    ensures WeightsOf(Single(mac).backends) == map[SERVER := 1] && MacsOf(Single(mac).backends) == map[SERVER := mac]
    ensures Load(map[SERVER := 1]) == 1 && ClassFor(1) == 1031
  {
    var bs := Single(mac).backends;
    assert bs[..0] == [];
    var one: map<Endpoint, nat> := map[SERVER := 1];
    LoadWithout(one, SERVER);
    assert one - {SERVER} == map[];
  }

  lemma AllSmooth(from: nat, to: nat)
    ensures Smooth(Always, from, to)
  {
  }

  /** There is room for the VIP's table as long as nothing else has one. */
  lemma SingleFits(services: Services, states: States, ids: map<Endpoint, nat>, mac: Mac)
    requires !mac.Malformed? && services.Keys <= {WEB} && SameExtent(map[], services, WEB)
    requires (SERVER in ids && |ids| <= MAX_BACKENDS) || ids == map[]
    ensures Acceptable(services, states, ids, [Extent(0, MAGLEV_M)], Single(mac))
  {
    hide WeightsOf, MacsOf, Load, ClassFor, Reweighted, KnownAfter;
    SingleIs(mac);
    var free := [Extent(0, MAGLEV_M)];
    assert free[0].size >= 1031;
    assert EntryOf(services, WEB).ext == NO_EXTENT;
    var one: map<Endpoint, nat> := map[SERVER := 1];
    assert |one| == 1 && one != map[] && one.Keys == {SERVER};
    assert CanBuild(free, NO_EXTENT, one);
    assert MacsParse(map[SERVER := mac]);
    assert |services| < MAX_VIPS by { FewServices(services); }
    assert RoomFor(KnownAfter(services, states, ids, WEB, {SERVER}), {SERVER}) by {
      if ids == map[] {
        NoneKnown(services, states, ids);
      } else {
        KnownWithin(services, states, ids, WEB, {SERVER});
      }
    }
  }

  lemma FewServices(services: Services)
    requires services.Keys <= {WEB}
    ensures |services| <= 1
  {
    SubsetCardinality(services.Keys, {WEB});
    assert |services.Keys| == |services|;
  }

  lemma NoneKnown(services: Services, states: States, ids: map<Endpoint, nat>)
    requires ids == map[]
    ensures |KnownAfter(services, states, ids, WEB, {SERVER}) + {SERVER}| == 1
  {
    assert KnownAfter(services, states, ids, WEB, {SERVER}) + {SERVER} == {SERVER};
  }

  // ---- A lost reference.

  /** With a hardware address that does not parse, the only way to fail is after counting. */
  lemma MalformedWhy(e: UpsertError, text: string)
    requires Why(e, map[], map[], map[], [Extent(0, MAGLEV_M)], Single(Malformed(text)), true)
    ensures e == NotAcquired(SERVER)
  {
    hide WeightsOf, MacsOf, Load, ClassFor, CanBuild, Rebuilds, KnownAfter;
    SingleIs(Malformed(text));
    NoneKnown(map[], map[], map[]);
    assert map[SERVER := Malformed(text)].Keys == {SERVER};
    assert SERVER in map[SERVER := Malformed(text)];
  }

  lemma MalformedFails(text: string)
    ensures !Acceptable(map[], map[], map[], [Extent(0, MAGLEV_M)], Single(Malformed(text)))
  {
    hide WeightsOf, MacsOf, CanBuild, Rebuilds, KnownAfter;
    SingleIs(Malformed(text));
    assert SERVER in map[SERVER := Malformed(text)];
  }

  /** Counted once, listed by nobody. */
  ghost predicate Orphaned(services: Services, states: States, ids: map<Endpoint, nat>) {
    && SERVER in ids && ids[SERVER] in states && states[ids[SERVER]].refCount == 1
    && forall v :: v in services ==> SERVER !in services[v].backends
  }

  lemma OrphanedIs(services: Services, states: States, ids: map<Endpoint, nat>, lost: multiset<Endpoint>)
    requires Counted(services, states, ids, lost) && lost[SERVER] == 1 && forall v :: v in services ==>
        SERVER !in services[v].backends
    ensures Orphaned(services, states, ids)
  {
    assert SERVER in lost;
    assert Users(services, SERVER) == {};
    assert states[ids[SERVER]].ep == SERVER;
  }

  /** Upserting the VIP with a malformed hardware address fails, and the backend has an ID and a
      reference though no VIP lists it. */
  method LoseReference(hash: Hash<Endpoint>, text: string) returns (d: Dataplane, r: Result<(), UpsertError>)
    ensures fresh(d) && fresh(d.serviceIds) && fresh(d.backendIds) && fresh(d.maglev) && d.answers == Always
    ensures d.Mem() && Sized(d.services) && d.services.Keys <= {WEB} && SameExtent(map[], d.services, WEB)
    ensures d.maglev.free == [Extent(0, MAGLEV_M)]
    ensures r == Err(NotAcquired(SERVER)) && d.lost == multiset{SERVER}
        && Orphaned(d.services, d.states, d.backendIds.ids)
  {
    hide Why, Counted, ExtentsAgree, PoolValid, FreeListValid, Agree, SidsOf, Acceptable, Upserted, FlagsKept,
      AgreeBut, HealsIff, LooseAfter, Written, StaleBy, UpsertGuard, Wider, Foreseen, NewMacsParse, Spares, TableLeft,
      Peaks, SafeSince, BackendsAgree, Slots, Orphaned, Sized;
    d := new Dataplane(hash, Always);
    MalformedFails(text);
    r := d.Upsert(Single(Malformed(text)));
    AllSmooth(0, d.calls);
    MalformedWhy(r.error, text);
    OnlyWeb(d.services, Malformed(text));
    d.BackendsInMem();
    OrphanedIs(d.services, d.states, d.backendIds.ids, d.lost);
  }

  lemma OnlyWeb(services: Services, mac: Mac)
    requires Upserted(map[], services, Single(mac), false)
    ensures services.Keys <= {WEB} && (WEB in services ==> services[WEB].backends.Keys <= {SERVER})
  {
    SingleIs(mac);
    hide WeightsOf, NewExtent, ClassFor;
  }

  lemma TwiceCounted(services: Services, states: States, ids: map<Endpoint, nat>)
    requires Counted(services, states, ids, multiset{SERVER})
    requires services.Keys == {WEB} && services[WEB].backends.Keys == {SERVER}
    ensures SERVER in ids && ids[SERVER] in states && states[ids[SERVER]].refCount == 2
  {
    assert SERVER in services[WEB].backends;
    assert Users(services, SERVER) == {WEB};
    assert states[ids[SERVER]].ep == SERVER;
  }

  lemma WebUpserted(was: Services, services: Services, mac: Mac)
    requires Upserted(was, services, Single(mac), true) && was.Keys <= {WEB}
    ensures services.Keys == {WEB} && services[WEB].backends.Keys == {SERVER} && services[WEB].spec == Some(Single(mac))
  {
    SingleIs(mac);
    hide WeightsOf, NewExtent, ClassFor;
    assert forall w :: w in services <==> w == WEB;
  }

  /** Correcting the address does not help: the backend is then counted twice for one VIP, and it
      keeps its ID and its state when that VIP is removed. */
  method LostForGood(hash: Hash<Endpoint>, text: string)
    returns (d: Dataplane, corrected: Result<(), UpsertError>, count: int)
    ensures fresh(d) && d.Mem() && corrected.Ok? && count == 2
    ensures d.services == map[] && Orphaned(d.services, d.states, d.backendIds.ids)
  {
    hide Why, Counted, ExtentsAgree, PoolValid, FreeListValid, Agree, SidsOf, Acceptable, Upserted, FlagsKept,
      AgreeBut, HealsIff, LooseAfter, Written, StaleBy, UpsertGuard, Wider, Foreseen, NewMacsParse, Spares, TableLeft,
      Peaks, SafeSince, BackendsAgree, Slots, Orphaned, Sized, SameExtent, WatchOf;
    var first;
    d, first := LoseReference(hash, text);
    OrphanKnown(d.services, d.states, d.backendIds.ids);
    d.TableFits();
    SingleFits(d.services, d.states, d.backendIds.ids, NoMac);
    ghost var was, calls := d.services, d.calls;
    corrected := d.Upsert(Single(NoMac));
    AllSmooth(calls, d.calls);
    WebUpserted(was, d.services, NoMac);
    d.BackendsInMem();
    TwiceCounted(d.services, d.states, d.backendIds.ids);
    count := d.states[d.backendIds.ids[SERVER]].refCount;
    ghost var lost := d.lost;
    d.Remove(WEB);
    d.BackendsInMem();
    OrphanedIs(d.services, d.states, d.backendIds.ids, lost);
  }

  lemma OrphanKnown(services: Services, states: States, ids: map<Endpoint, nat>)
    requires Orphaned(services, states, ids)
    ensures SERVER in ids
  {
  }

  // ---- A forgotten drain.

  /** A packet of a VIP whose only backend is healthy goes to that backend, whatever its hash. */
  lemma SoleBackendChosen(hash: Hash<Endpoint>, m: Maps, services: Services, states: States, ids: map<Endpoint, nat>,
      v: VipId, ep: Endpoint, h: nat)
    requires Agree(hash, m, services, states) && Named(services, states, ids) && v in services && !v.IsRange()
    requires services[v].backends.Keys == {ep} && SameFamily(ep.addr, v.addr)
    requires FlagsOf(states, ids, ep) == FRESH_FLAGS
    ensures SelectNew(m, v.addr, v.port, v.proto, h) == Chosen(ids[ep], ep)
  {
    hide Agree, Named, Settled, Reachable, Installed, PickFrom, ServiceOf, FlagsOf, SelectNew, HealthOk, BackendMapOk;
    AgreeSettles(hash, m, services, states, v);
    AgreeFacts(hash, m, services, states);
    ReachableOf(hash, m, services, states);
    KnownAs(services, states, ids, v, ep);
    FreshIsHealthy(m, states, ids, ep);
    var sid := SoleService(m, services, v);
    SoleSlots(hash, m, v, services[v], ep);
    SettledConfig(hash, m, v, services[v]);
    PickedIs(m, services[v].ext, ids[ep], h);
    ChosenFrom(m, v.addr, v.port, v.proto, h, sid, ids[ep], ep);
  }

  lemma FreshIsHealthy(m: Maps, states: States, ids: map<Endpoint, nat>, ep: Endpoint)
    requires BackendMapOk(m, states, {}) && HealthOk(m, states, {}) && FlagsOf(states, ids, ep) == FRESH_FLAGS
    requires (forall id :: id in states ==> id < |m.health|)
        && (ep in ids && ids[ep] in states ==> states[ids[ep]].ep == ep)
    ensures ep in ids && ids[ep] < |m.health| && m.health[ids[ep]] == Healthy && ids[ep] in m.backend
        && m.backend[ids[ep]] == ep
  {
  }

  lemma ChosenFrom(m: Maps, addr: Addr, port: Word, proto: Proto, h: nat, sid: nat, id: nat, ep: Endpoint)
    requires ServiceOf(m.vip, m.ranges, addr, port, proto) == Some(sid) && sid < |m.svc| && m.svc[sid].count > 0
        && m.svc[sid].size > 0
    requires PickFrom(m, m.svc[sid].offset, m.svc[sid].size, h % m.svc[sid].size, 0) == Some(id)
    requires id in m.backend && m.backend[id] == ep && SameFamily(ep.addr, addr)
    ensures SelectNew(m, addr, port, proto, h) == Chosen(id, ep)
  {
    hide ServiceOf, PickFrom;
  }

  lemma KnownAs(services: Services, states: States, ids: map<Endpoint, nat>, v: VipId, ep: Endpoint)
    requires Named(services, states, ids) && v in services && ep in services[v].backends
    ensures ep in ids && ids[ep] in states && states[ids[ep]].ep == ep && services[v].backends[ep] == ids[ep]
  {
  }

  lemma SoleService(m: Maps, services: Services, v: VipId) returns (sid: nat)
    requires Reachable(m, services) && Installed(m, v) && v in services && !v.IsRange()
    ensures sid == services[v].sid && ServiceOf(m.vip, m.ranges, v.addr, v.port, v.proto) == Some(sid)
  {
    hide Owns, Longest;
    sid := services[v].sid;
    assert ExactVip(ExactKey(v.addr, v.port, v.proto)) == v;
  }

  lemma SettledConfig(hash: Hash<Endpoint>, m: Maps, v: VipId, e: Service)
    requires Settled(hash, m, v, e)
    ensures e.sid < |m.svc| && m.svc[e.sid].count == |e.backends| > 0 && m.svc[e.sid].offset == e.ext.offset
    ensures m.svc[e.sid].size == e.ext.size > 0
  {
    hide SlotsHold, AllNamed, Balanced, ClassFor, Outgrown;
    var ep :| ep in e.backends;
    assert |e.backends| > 0;
  }

  lemma SoleSlots(hash: Hash<Endpoint>, m: Maps, v: VipId, e: Service, ep: Endpoint)
    requires Settled(hash, m, v, e) && e.backends.Keys == {ep}
    ensures e.ext.End() <= |m.maglev| && forall s: nat :: Within(e.ext, s) ==> m.maglev[s] == e.backends[ep]
  {
    hide AllNamed, Balanced, ClassFor, Outgrown;
  }

  lemma PickedIs(m: Maps, ext: Extent, id: nat, h: nat)
    requires ext.size > 0 && ext.End() <= |m.maglev| && id < |m.health| && m.health[id] == Healthy
    requires forall s: nat :: Within(ext, s) ==> m.maglev[s] == id
    ensures PickFrom(m, ext.offset, ext.size, h % ext.size, 0) == Some(id)
  {
    var s := ext.offset + (h % ext.size + 0) % ext.size;
    assert Within(ext, s) && HealthyAt(m, s) == Some(id);
  }

  lemma WebAlone()
    ensures Compatible({WEB}) && Compatible(Want([Single(NoMac)]).Keys)
        && Want([Single(NoMac)]) == map[WEB := Single(NoMac)]
  {
    assert [Single(NoMac)][..0] == [];
  }

  lemma SameExtentHere()
    ensures SameExtent(map[], map[], WEB)
  {
  }

  /** A drained backend that is the only one leaves nothing to choose. */
  lemma DrainedAlone(hash: Hash<Endpoint>, m: Maps, services: Services, states: States, ids: map<Endpoint, nat>,
      v: VipId, ep: Endpoint, h: nat)
    requires Agree(hash, m, services, states) && Named(services, states, ids)
    requires v in services && !v.IsRange() && services[v].backends.Keys == {ep}
    requires ep in ids && ids[ep] in states && states[ids[ep]].adminDraining
    ensures !SelectNew(m, v.addr, v.port, v.proto, h).Chosen?
  {
    hide Agree, Named, Settled, Reachable, Installed, PickFrom, ServiceOf, BackendMapOk;
    AgreeSettles(hash, m, services, states, v);
    AgreeFacts(hash, m, services, states);
    ReachableOf(hash, m, services, states);
    KnownAs(services, states, ids, v, ep);
    assert m.health[ids[ep]] != Healthy;
    hide HealthOk;
    var sid := SoleService(m, services, v);
    SoleSlots(hash, m, v, services[v], ep);
    SettledConfig(hash, m, v, services[v]);
    NonePicked(m, services[v].ext, ids[ep], h);
  }

  lemma NonePicked(m: Maps, ext: Extent, id: nat, h: nat)
    requires ext.size > 0 && ext.End() <= |m.maglev| && id < |m.health| && m.health[id] != Healthy
    requires forall s: nat :: Within(ext, s) ==> m.maglev[s] == id
    ensures PickFrom(m, ext.offset, ext.size, h % ext.size, 0).None?
  {
    hide PickFrom;
    forall s: nat | ext.offset <= s < ext.offset + ext.size
      ensures HealthyAt(m, s).None?
    {
      assert Within(ext, s);
    }
  }

  lemma RunsAsConfigured(services: Services)
    requires services.Keys == {WEB} && services[WEB].spec == Some(Single(NoMac))
        && services[WEB].backends.Keys == {SERVER}
    ensures SameConfig(services, Want([Single(NoMac)])) && SERVER in Staying(services, Want([Single(NoMac)]))
  {
    WebAlone();
    SingleIs(NoMac);
    hide Want, WeightsOf, MacsOf;
    var want := Want([Single(NoMac)]);
    assert StaysListed(services, want, WEB, SERVER);
    assert WEB in services && SERVER in services[WEB].backends;
  }

  lemma WebBackends(hash: Hash<Endpoint>, m: Maps, services: Services, states: States)
    requires Agree(hash, m, services, states) && WEB in services && services[WEB].spec == Some(Single(NoMac))
    ensures services[WEB].backends.Keys == {SERVER}
  {
    hide Agree;
    AgreeSettles(hash, m, services, states, WEB);
    hide Settled;
    SettledTable(hash, m, WEB, services[WEB]);
    SettledKnown(hash, m, WEB, services[WEB]);
    SettledLists(hash, m, services[WEB]);
    SingleIs(NoMac);
  }

  lemma SameServer(was: Services, hash: Hash<Endpoint>, m: Maps, services: Services, states: States,
      ids: map<Endpoint, nat>)
    requires WEB in was && was[WEB].backends.Keys == {SERVER} && KeepsIds(was, services, Want([Single(NoMac)]))
    requires Agree(hash, m, services, states) && Named(services, states, ids)
    requires services.Keys == {WEB} && services[WEB].spec == Some(Single(NoMac))
    ensures services[WEB].backends.Keys == {SERVER} && SERVER in ids && ids[SERVER] == was[WEB].backends[SERVER]
  {
    WebBackends(hash, m, services, states);
    WebAlone();
    SingleIs(NoMac);
    hide Agree, Named, Want, WeightsOf;
    assert SERVER in was[WEB].backends && SERVER in services[WEB].backends;
    KnownAs(services, states, ids, WEB, SERVER);
  }

  /** The configuration, one VIP with one backend, is loaded, and the operator drains the backend. */
  method DrainWeb(hash: Hash<Endpoint>) returns (d: Dataplane, id: nat)
    ensures fresh(d) && d.Mem() && Sized(d.services) && d.InSync() && d.lost == multiset{}
    ensures d.services.Keys == {WEB} && d.services[WEB].spec == Some(Single(NoMac))
        && d.services[WEB].backends.Keys == {SERVER}
    ensures SERVER in d.backendIds.ids && d.backendIds.ids[SERVER] == id == d.services[WEB].backends[SERVER]
    ensures id in d.states && d.states[id].ep == SERVER && d.states[id].adminDraining
  {
    hide Why, Counted, ExtentsAgree, PoolValid, FreeListValid, Agree, SidsOf, Acceptable, Upserted, FlagsKept,
      AgreeBut, HealsIff, LooseAfter, Written, StaleBy, UpsertGuard, Wider, Foreseen, NewMacsParse, Spares, TableLeft,
      Peaks, SafeSince, BackendsAgree, Slots, Sized, SameExtent, WatchOf, Compatible, Named, RestGuard;
    d := new Dataplane(hash, Always);
    WebAlone();
    SameExtentHere();
    SingleFits(d.services, d.states, d.backendIds.ids, NoMac);
    assert d.services.Keys + {WEB} == {WEB};
    d.InSyncIff();
    var r := d.Upsert(Single(NoMac));
    AllSmooth(0, d.calls);
    WebUpserted(map[], d.services, NoMac);
    d.Matched();
    KnownAs(d.services, d.states, d.backendIds.ids, WEB, SERVER);
    id := d.backendIds.ids[SERVER];
    var drained := d.SetBackendAdminDraining(id, true);
  }

  /** The process then restarts with the same configuration, which succeeds. Before the restart the
      drained backend gets no new flow, after it every one. */
  method ForgetDrain(hash: Hash<Endpoint>) returns (d: Dataplane, n: Dataplane, id: nat)
    ensures fresh(d) && fresh(n) && d.InSync() && n.InSync()
    ensures id in d.states && d.states[id].ep == SERVER && d.states[id].adminDraining
    ensures forall h :: !SelectNew(d.maps, WEB.addr, WEB.port, WEB.proto, h).Chosen?
    ensures forall h :: SelectNew(n.maps, WEB.addr, WEB.port, WEB.proto, h) == Chosen(id, SERVER)
  {
    hide Counted, ExtentsAgree, PoolValid, FreeListValid, Agree, SidsOf, SafeSince, BackendsAgree, Slots, Sized,
      Compatible, Want, SelectNew, Named, SameConfig, KeepsIds, FlagsHeld, AllHealthy, RestartGuard, Staying, FlagsOf;
    d, id := DrainWeb(hash);
    d.Matched();
    forall h
      ensures !SelectNew(d.maps, WEB.addr, WEB.port, WEB.proto, h).Chosen?
    {
      DrainedAlone(d.hash, d.maps, d.services, d.states, d.backendIds.ids, WEB, SERVER, h);
    }
    WebAlone();
    RunsAsConfigured(d.services);
    var adopted, dropped, ok;
    n, adopted, dropped, ok := Restart(d, Always, [Single(NoMac)]);
    n.Matched();
    SameServer(d.services, n.hash, n.maps, n.services, n.states, n.backendIds.ids);
    forall h
      ensures SelectNew(n.maps, WEB.addr, WEB.port, WEB.proto, h) == Chosen(id, SERVER)
    {
      SoleBackendChosen(n.hash, n.maps, n.services, n.states, n.backendIds.ids, WEB, SERVER, h);
    }
  }
}
