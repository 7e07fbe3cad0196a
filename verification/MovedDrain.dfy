/** Two executions of a reload that moves a drained backend from one VIP to another: listed giver first,
    the backend is fresh afterwards and gets every new flow; listed taker first, it gets none. */
module MovedDrain {
  import opened Common
  import opened Types
  import opened VipLookup
  import opened BpfMaps
  import opened ExtentAllocation
  import opened IdAllocation
  import opened Maglev
  import opened DataplaneState
  import opened MapAgreement
  import opened Watching
  import opened UpsertConditions
  import opened UpsertSteps
  import opened ReloadPlanning
  import opened ReloadSteps
  import opened DataplaneControl
  import opened Adoption
  import opened Scenarios
  import opened FailedUpserts

  /** A VIP with one backend. */
  function One(v: VipId, ep: Endpoint): Vip {
    Vip(v, NAT, AffinityNone, [BackendSpec(ep, 1, NoMac)])
  }

  lemma OneIs(v: VipId, ep: Endpoint)
    ensures WeightsOf(One(v, ep).backends) == map[ep := 1] && MacsOf(One(v, ep).backends) == map[ep := NoMac]
    ensures Load(map[ep := 1]) == 1 && ClassFor(1) == 1031
  {
    assert One(v, ep).backends[..0] == [];
    var one: map<Endpoint, nat> := map[ep := 1];
    LoadWithout(one, ep);
    assert one - {ep} == map[];
  }

  /** The configuration in which WEB and API have swapped their backends, in either order. */
  function Swapped(giverFirst: bool): seq<Vip> {
    if giverFirst then [One(WEB, WORKER), One(API, SERVER)] else [One(API, SERVER), One(WEB, WORKER)]
  }

  /** A configuration of two VIPs, both changed. */
  lemma TwoWanted(x: Vip, y: Vip)
    requires x.id != y.id
    ensures Want([x, y]) == map[x.id := x, y.id := y] && OrderOf([x, y]) == [x.id, y.id]
  {
    assert [x, y][..1] == [x] && [x][..0] == [];
    assert Want([x]) == map[x.id := x] && OrderOf([x]) == [x.id];
  }

  lemma TwoUpserts(current: map<VipId, Option<Vip>>, x: Vip, y: Vip)
    requires x.id != y.id && !Same(current, x) && !Same(current, y)
    ensures UpsertsOf(current, map[x.id := x, y.id := y], [x.id, y.id]) == [x, y]
  {
    hide Same;
    var want, order := map[x.id := x, y.id := y], [x.id, y.id];
    assert order[..1] == [x.id] && [x.id][..0] == [];
    assert UpsertsOf(current, want, [x.id]) == [x];
  }

  lemma SwappedWant(giverFirst: bool)
    ensures Want(Swapped(giverFirst)) == map[WEB := One(WEB, WORKER), API := One(API, SERVER)]
    ensures Compatible(Want(Swapped(giverFirst)).Keys)
  {
    hide Want, Compatible, One;
    var web, api := One(WEB, WORKER), One(API, SERVER);
    OneHasId(WEB, WORKER);
    OneHasId(API, SERVER);
    TwoWanted(web, api);
    TwoWanted(api, web);
    assert map[API := api, WEB := web] == map[WEB := web, API := api];
    WebCompatible();
    assert map[WEB := web, API := api].Keys == {WEB, API};
  }

  lemma OneHasId(v: VipId, ep: Endpoint)
    ensures One(v, ep).id == v
  {
  }

  lemma NobodyRemoved(removes: seq<VipId>)
    ensures (forall k :: k !in removes) ==> removes == []
  {
    assert removes != [] ==> removes[0] in removes;
  }

  lemma SwapPlan(services: Services, giverFirst: bool, plan: ReloadPlan)
    requires services.Keys == {WEB, API} && PlanOk(SpecsOf(services), Swapped(giverFirst), plan)
    requires services[WEB].spec == Some(One(WEB, SERVER)) && services[API].spec == Some(One(API, WORKER))
    ensures plan.removes == [] && plan.upserts == Swapped(giverFirst)
  {
    var x, y := Swapped(giverFirst)[0], Swapped(giverFirst)[1];
    assert !Same(SpecsOf(services), x) && !Same(SpecsOf(services), y);
    hide Want, OrderOf, UpsertsOf, Same;
    SwappedWant(giverFirst);
    TwoWanted(x, y);
    TwoUpserts(SpecsOf(services), x, y);
    NobodyRemoved(plan.removes);
  }

  // ---- WEB has SERVER, API has WORKER, and SERVER is drained.

  ghost predicate Apiece(services: Services, web: Endpoint, api: Endpoint) {
    && services.Keys == {WEB, API} && services[WEB].spec == Some(One(WEB, web))
        && services[API].spec == Some(One(API, api))
    && services[WEB].backends.Keys == {web} && services[API].backends.Keys == {api}
  }

  ghost predicate Small(services: Services) {
    forall v :: v in services ==> services[v].ext.size == 1031
  }

  lemma WebFirst(services: Services)
    requires Upserted(map[], services, One(WEB, SERVER), true)
    ensures services.Keys == {WEB} && services[WEB].spec == Some(One(WEB, SERVER))
        && services[WEB].backends.Keys == {SERVER}
    ensures services[WEB].ext.size > 0 ==> services[WEB].ext.size == 1031
  {
    OneIs(WEB, SERVER);
    hide WeightsOf, ClassFor;
    assert forall w :: w in services <==> w == WEB;
    assert |services[WEB].backends| == |services[WEB].backends.Keys| == 1;
  }

  lemma ApiSecond(was: Services, services: Services)
    requires Upserted(was, services, OTHER, true) && was.Keys == {WEB} && was[WEB].ext.size == 1031
    requires was[WEB].spec == Some(One(WEB, SERVER)) && was[WEB].backends.Keys == {SERVER}
    ensures Apiece(services, SERVER, WORKER) && (services[API].ext.size > 0 ==> Small(services))
  {
    OtherUpserted(was, services);
    OtherIs();
    hide WeightsOf, ClassFor;
    assert |services[API].backends| == |services[API].backends.Keys| == 1;
  }

  method SetUp(hash: Hash<Endpoint>) returns (d: Dataplane)
    ensures fresh(d) && fresh(d.serviceIds) && fresh(d.backendIds) && fresh(d.maglev) && d.answers == Always
    ensures d.Mem() && Sized(d.services) && d.InSync() && d.lost == multiset{}
    ensures Apiece(d.services, SERVER, WORKER) && Small(d.services) && |d.backendIds.ids| == 2
  {
    hide Why, Counted, ExtentsAgree, PoolValid, FreeListValid, Agree, SidsOf, Acceptable, Upserted, FlagsKept, AgreeBut,
      HealsIff, LooseAfter, Written, StaleBy, UpsertGuard, Wider, Foreseen, NewMacsParse, Spares, TableLeft, SafeSince,
      BackendsAgree, Slots, Sized, SameExtent, Compatible, Named, Settled, FitsFree, Peaks, Apiece, Small;
    d := new Dataplane(hash, Always);
    SameExtentHere();
    SingleFits(d.services, d.states, d.backendIds.ids, NoMac);
    WebCompatible();
    assert d.services.Keys + {WEB} == {WEB};
    d.InSyncIff();
    var r := d.Upsert(Single(NoMac));
    AllSmooth(0, d.calls);
    WebFirst(d.services);
    AgreeSettles(d.hash, d.maps, d.services, d.states, WEB);
    SettledConfig(d.hash, d.maps, WEB, d.services[WEB]);
    AddApi(d);
  }

  method AddApi(d: Dataplane)
    requires d.Mem() && Sized(d.services) && d.InSync() && d.lost == multiset{} && d.answers == Always
    requires d.services.Keys == {WEB} && d.services[WEB].spec == Some(One(WEB, SERVER))
        && d.services[WEB].ext.size == 1031
        && d.services[WEB].backends.Keys == {SERVER}
    modifies d`services, d`states, d`maps, d`log, d`calls, d`lost, d`loose, d`stale, d.serviceIds, d.backendIds,
      d.maglev
    ensures d.Mem() && Sized(d.services) && d.InSync() && d.lost == multiset{}
    ensures Apiece(d.services, SERVER, WORKER) && Small(d.services) && |d.backendIds.ids| == 2
  {
    hide Why, Counted, ExtentsAgree, PoolValid, FreeListValid, Agree, SidsOf, Acceptable, Upserted, FlagsKept, AgreeBut,
      HealsIff, LooseAfter, Written, StaleBy, UpsertGuard, Wider, Foreseen, NewMacsParse, Spares, TableLeft, SafeSince,
      BackendsAgree, Slots, Sized, SameExtent, Compatible, Named, Settled, FitsFree, Peaks, Small;
    d.InSyncIff();
    d.BackendsInMem();
    SoleLists(d.services, d.states, d.backendIds.ids, WEB);
    assert |d.backendIds.ids| == |d.backendIds.ids.Keys| == 1;
    RoomInTable(d.services, d.maglev.free);
    OtherFits(d.services, d.states, d.backendIds.ids, d.maglev.free);
    WebCompatible();
    assert d.services.Keys + {API} == {WEB, API};
    ghost var was, calls := d.services, d.calls;
    var r := d.Upsert(OTHER);
    AllSmooth(calls, d.calls);
    ApiSecond(was, d.services);
    AgreeSettles(d.hash, d.maps, d.services, d.states, API);
    SettledConfig(d.hash, d.maps, API, d.services[API]);
    d.BackendsInMem();
    BothKnown(d.services, d.states, d.backendIds.ids);
  }

  // ---- The reload.

  /** Both tables fit where they are, and no further IDs are needed. */
  lemma SwapFits(services: Services, ids: map<Endpoint, nat>, giverFirst: bool)
    requires Apiece(services, SERVER, WORKER) && Small(services) && |ids| == 2
    ensures FitsWhereItIs(services, ids, Want(Swapped(giverFirst)))
  {
    SwappedWant(giverFirst);
    OneIs(WEB, WORKER);
    OneIs(API, SERVER);
    hide Want, WeightsOf, MacsOf, Load, ClassFor, RoomFor;
    var want := Want(Swapped(giverFirst));
    assert |map[WORKER := 1]| == 1 && |map[SERVER := 1]| == 1;
    SwapRoom(ids, want);
  }

  lemma SwapRoom(ids: map<Endpoint, nat>, want: map<VipId, Vip>)
    requires want == map[WEB := One(WEB, WORKER), API := One(API, SERVER)] && |ids| == 2
    ensures RoomFor(ids.Keys, AllWanted(want))
  {
    OneIs(WEB, WORKER);
    OneIs(API, SERVER);
    hide WeightsOf;
    assert AllWanted(want) <= {WORKER, SERVER};
    SubsetCardinality(AllWanted(want), {WORKER, SERVER});
    assert |ids.Keys| == |ids|;
    UnionBound(ids.Keys, AllWanted(want));
  }

  lemma UnionBound(a: set<Endpoint>, b: set<Endpoint>)
    ensures |a + b| <= |a| + |b|
  {
    assert a + b == a + (b - a);
    SubsetCardinality(b - a, b);
  }

  /** Whether SERVER is listed throughout depends on the order. */
  lemma SwapThroughout(services: Services, plan: ReloadPlan, giverFirst: bool)
    requires Apiece(services, SERVER, WORKER) && plan.removes == [] && plan.upserts == Swapped(giverFirst)
    ensures Throughout(Current(Without(services, plan.removes)), plan.upserts, |plan.upserts|, SERVER) <==> !giverFirst
  {
    OneIs(WEB, WORKER);
    OneIs(API, SERVER);
    MoveDependsOnOrder(WEB, API, SERVER, WORKER, One(WEB, WORKER), One(API, SERVER));
    hide WeightsOf, Throughout, AfterUpserts;
    assert Without(services, []) == services;
    assert Current(services) == map[WEB := {SERVER}, API := {WORKER}];
  }

  lemma SwapDone(hash: Hash<Endpoint>, m: Maps, services: Services, states: States, giverFirst: bool)
    requires Agree(hash, m, services, states) && services.Keys == Want(Swapped(giverFirst)).Keys
    requires forall k :: k in services ==> services[k].spec == Some(Want(Swapped(giverFirst))[k])
    ensures Apiece(services, WORKER, SERVER) && Lists(Current(services), SERVER)
  {
    SwappedWant(giverFirst);
    hide Want, Agree;
    assert services.Keys == {WEB, API};
    OneBackend(hash, m, services, states, WEB, WORKER);
    OneBackend(hash, m, services, states, API, SERVER);
    assert API in Current(services) && SERVER in Current(services)[API];
  }

  lemma OneBackend(hash: Hash<Endpoint>, m: Maps, services: Services, states: States, v: VipId, ep: Endpoint)
    requires Agree(hash, m, services, states) && v in services && services[v].spec == Some(One(v, ep))
    ensures services[v].backends.Keys == {ep}
  {
    hide Agree;
    AgreeSettles(hash, m, services, states, v);
    hide Settled;
    SettledTable(hash, m, v, services[v]);
    SettledKnown(hash, m, v, services[v]);
    SettledLists(hash, m, services[v]);
    OneIs(v, ep);
  }

  /** SERVER's fate: fresh if the VIP that gives it up comes first, drained as before otherwise. */
  lemma SwapFlags(was: Services, wasStates: States, wasIds: map<Endpoint, nat>, plan: ReloadPlan, services: Services,
      states: States, ids: map<Endpoint, nat>, giverFirst: bool)
    requires FlagsReloaded(was, wasStates, wasIds, plan, services, states, ids) && Lists(Current(services), SERVER)
    requires Throughout(Current(Without(was, plan.removes)), plan.upserts, |plan.upserts|, SERVER) <==> !giverFirst
    requires FlagsOf(wasStates, wasIds, SERVER).Some? && FlagsOf(wasStates, wasIds, SERVER).value.2
    ensures giverFirst ==> FlagsOf(states, ids, SERVER) == FRESH_FLAGS
    ensures !giverFirst ==> SERVER in ids && ids[SERVER] in states && states[ids[SERVER]].adminDraining
  {
    hide Throughout, Current, Without, Lists;
  }

  ghost predicate ServedBy(m: Maps, v: VipId, id: nat, ep: Endpoint, h: nat) {
    SelectNew(m, v.addr, v.port, v.proto, h) == Chosen(id, ep)
  }

  /** Every new flow of the VIP goes to this backend. */
  ghost predicate AllServedBy(m: Maps, v: VipId, id: nat, ep: Endpoint) {
    forall h :: ServedBy(m, v, id, ep, h)
  }

  /** No new flow of the VIP goes anywhere. */
  ghost predicate NoneServed(m: Maps, v: VipId) {
    forall h :: !SelectNew(m, v.addr, v.port, v.proto, h).Chosen?
  }

  /** SERVER is drained and gets no new flow. Then a reload, without error, moves it from WEB to API. If WEB comes
      first in the configuration, every new flow of API goes to SERVER afterwards; if API does, none. */
  method MoveDrained(hash: Hash<Endpoint>, giverFirst: bool) returns (d: Dataplane, ok: bool, ghost m: Maps)
    ensures fresh(d) && ok && d.InSync() && Apiece(d.services, WORKER, SERVER)
    ensures NoneServed(m, WEB) && SERVER in d.backendIds.ids
    ensures if giverFirst then AllServedBy(d.maps, API, d.backendIds.ids[SERVER], SERVER) else NoneServed(d.maps, API)
  {
    hide Counted, ExtentsAgree, PoolValid, FreeListValid, Agree, AgreeBut, SidsOf, SafeSince, BackendsAgree, Slots,
      Sized,
      Compatible, Want, SelectNew, Named, KeepsIds, FlagsHeld, Staying, FlagsOf, FlagsReloaded, PlanOk, SpecsOf,
      FitsWhereItIs, Small, RestGuard, ReloadGuard, FlagsStale;
    d := SetUp(hash);
    DrainServer(d);
    m := d.maps;
    d.Matched();
    forall h
      ensures !SelectNew(m, WEB.addr, WEB.port, WEB.proto, h).Chosen?
    {
      DrainedAlone(d.hash, m, d.services, d.states, d.backendIds.ids, WEB, SERVER, h);
    }
    SwappedWant(giverFirst);
    SwapFits(d.services, d.backendIds.ids, giverFirst);
    ghost var was, st, ids := d.services, d.states, d.backendIds.ids;
    var plan;
    ok, plan := d.Reload(Swapped(giverFirst));
    SwapPlan(was, giverFirst, plan);
    SwapThroughout(was, plan, giverFirst);
    SwapDone(d.hash, d.maps, d.services, d.states, giverFirst);
    DrainedFlags(st, ids);
    SwapFlags(was, st, ids, plan, d.services, d.states, d.backendIds.ids, giverFirst);
    d.Matched();
    d.ListedHasId(API, SERVER);
    forall h
      ensures giverFirst ==> ServedBy(d.maps, API, d.backendIds.ids[SERVER], SERVER, h)
      ensures !giverFirst ==> !SelectNew(d.maps, API.addr, API.port, API.proto, h).Chosen?
    {
      if giverFirst {
        SoleBackendChosen(d.hash, d.maps, d.services, d.states, d.backendIds.ids, API, SERVER, h);
      } else {
        DrainedAlone(d.hash, d.maps, d.services, d.states, d.backendIds.ids, API, SERVER, h);
      }
    }
  }

  lemma DrainedFlags(states: States, ids: map<Endpoint, nat>)
    requires SERVER in ids && ids[SERVER] in states && states[ids[SERVER]].adminDraining
    ensures FlagsOf(states, ids, SERVER).Some? && FlagsOf(states, ids, SERVER).value.2
  {
  }

  method DrainServer(d: Dataplane)
    requires d.Mem() && Sized(d.services) && d.InSync() && d.lost == multiset{} && d.answers == Always
    requires Apiece(d.services, SERVER, WORKER)
    modifies d`states, d`maps, d`log, d`calls, d`stale
    ensures d.Mem() && d.InSync()
    ensures SERVER in d.backendIds.ids && d.backendIds.ids[SERVER] in d.states
        && d.states[d.backendIds.ids[SERVER]].adminDraining
  {
    hide Counted, ExtentsAgree, PoolValid, FreeListValid, Agree, AgreeBut, SidsOf, SafeSince, Slots, Sized, RestGuard,
      FlagsStale, Named;
    d.Matched();
    d.ListedHasId(WEB, SERVER);
    KnownAs(d.services, d.states, d.backendIds.ids, WEB, SERVER);
    var drained := d.SetBackendAdminDraining(d.backendIds.ids[SERVER], true);
  }
}
