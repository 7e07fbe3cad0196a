/** An execution that shows what a failed upsert can leave behind. A VIP loses a backend in an upsert
    that fails; the next one succeeds, and so does everything after it, but the VIP's table still names
    the backend's ID, and when another VIP's backend gets that ID, it gets the VIP's packets. */
module FailedUpserts {
  import opened Common
  import opened Types
  import opened VipLookup
  import opened BpfMaps
  import opened ExtentAllocation
  import opened IdAllocation
  import opened Maglev
  import opened DataplaneState
  import opened MapAgreement
  import opened Watching
  import opened UpsertConditions
  import opened UpsertSteps
  import opened ReloadSteps
  import opened DataplaneControl
  import opened Scenarios

  const SPARE := Endpoint(V4(0x0a00, 0x0003), 8080)
  const API := VipId(V4(0x0a00, 0x0001), 443, 0, TCP)
  const WORKER := Endpoint(V4(0x0a00, 0x0004), 8443)

  /** WEB with both backends, and API with its one. */
  const BOTH := Vip(WEB, NAT, AffinityNone, [BackendSpec(SERVER, 1, NoMac), BackendSpec(SPARE, 1, NoMac)])
  const OTHER := Vip(API, NAT, AffinityNone, [BackendSpec(WORKER, 1, NoMac)])

  lemma BothIs()
    ensures WeightsOf(BOTH.backends) == map[SERVER := 1, SPARE := 1]
    ensures MacsOf(BOTH.backends) == map[SERVER := NoMac, SPARE := NoMac]
    ensures Load(map[SERVER := 1, SPARE := 1]) == 2 && ClassFor(2) == 1031
  {
    var bs := BOTH.backends;
    assert bs[..1] == [BackendSpec(SERVER, 1, NoMac)] && bs[..1][..0] == [];
    assert WeightsOf(bs[..1]) == map[SERVER := 1];
    var two: map<Endpoint, nat> := map[SERVER := 1, SPARE := 1];
    LoadWithout(two, SPARE);
    assert two - {SPARE} == map[SERVER := 1];
    SingleIs(NoMac);
  }

  lemma OtherIs()
    ensures WeightsOf(OTHER.backends) == map[WORKER := 1] && MacsOf(OTHER.backends) == map[WORKER := NoMac]
    ensures Load(map[WORKER := 1]) == 1 && ClassFor(1) == 1031
  {
    assert OTHER.backends[..0] == [];
    var one: map<Endpoint, nat> := map[WORKER := 1];
    LoadWithout(one, WORKER);
    assert one - {WORKER} == map[];
  }

  lemma BothFits()
    ensures Acceptable(map[], map[], map[], [Extent(0, MAGLEV_M)], BOTH)
  {
    hide WeightsOf, MacsOf, Load, ClassFor, Reweighted, KnownAfter;
    BothIs();
    var free := [Extent(0, MAGLEV_M)];
    assert free[0].size >= 1031;
    var none: map<Endpoint, nat> := map[];
    var two: map<Endpoint, nat> := map[SERVER := 1, SPARE := 1];
    assert two.Keys == {SERVER, SPARE} && |two| == 2 && two != map[];
    assert CanBuild(free, NO_EXTENT, two);
    assert MacsParse(map[SERVER := NoMac, SPARE := NoMac]);
    KnownBefore(map[], map[], none, WEB, two.Keys);
    LessRoom(KnownAfter(map[], map[], none, WEB, two.Keys), {}, two.Keys, two.Keys);
  }

  /** Without lost references the known backends are the listed ones, under the IDs they are listed with. */
  lemma SoleLists(services: Services, states: States, ids: map<Endpoint, nat>, v: VipId)
    requires Counted(services, states, ids, multiset{}) && services.Keys == {v}
    ensures ids == services[v].backends
  {
    hide IdsMatch;
    forall ep
      ensures ep in ids <==> ep in services[v].backends
    {
      ListedIffKnown(services, states, ids, ep);
      assert ep in services[v].backends ==> v in services;
    }
  }

  lemma ListedIffKnown(services: Services, states: States, ids: map<Endpoint, nat>, ep: Endpoint)
    requires Counted(services, states, ids, multiset{})
    ensures ep in ids <==> exists v :: v in services && ep in services[v].backends
  {
    if ep in ids {
      assert states[ids[ep]].ep == ep && |Users(services, ep)| > 0;
      var v :| v in Users(services, ep);
      assert v in services && ep in services[v].backends;
    }
  }

  // ---- WEB is configured.

  lemma BothUpserted(services: Services)
    requires Upserted(map[], services, BOTH, true)
    ensures services.Keys == {WEB} && services[WEB].vip == BOTH && services[WEB].backends.Keys == {SERVER, SPARE}
    ensures services[WEB].ext.size > 0 ==> services[WEB].ext.size == 1031
  {
    BothIs();
    hide WeightsOf, ClassFor;
    assert forall w :: w in services <==> w == WEB;
    assert |services[WEB].backends| == |services[WEB].backends.Keys| == 2;
  }

  lemma BelowNext(d: Dataplane)
    requires d.Mem()
    ensures forall ep :: ep in d.backendIds.ids ==> d.backendIds.ids[ep] < d.backendIds.next
    ensures forall x, y :: x in d.backendIds.ids && y in d.backendIds.ids && x != y ==>
        d.backendIds.ids[x] != d.backendIds.ids[y]
  {
  }

  lemma WebCompatible()
    ensures Compatible({WEB}) && Compatible({WEB, API})
  {
  }

  method Configure(hash: Hash<Endpoint>) returns (d: Dataplane)
    ensures fresh(d) && fresh(d.serviceIds) && fresh(d.backendIds) && fresh(d.maglev) && d.answers == Always
    ensures d.Mem() && Sized(d.services) && d.InSync() && d.lost == multiset{}
    ensures d.services.Keys == {WEB} && d.services[WEB].vip == BOTH && d.services[WEB].ext.size == 1031
    ensures d.services[WEB].backends.Keys == {SERVER, SPARE} && d.backendIds.ids == d.services[WEB].backends
        && d.backendIds.next == 2
  {
    hide Why, Counted, ExtentsAgree, PoolValid, FreeListValid, Agree, SidsOf, Acceptable, Upserted, FlagsKept, AgreeBut,
      HealsIff, LooseAfter, Written, StaleBy, UpsertGuard, Wider, Foreseen, NewMacsParse, Spares, TableLeft, SafeSince,
      BackendsAgree, Slots, Sized, SameExtent, Compatible, Named, Settled;
    d := new Dataplane(hash, Always);
    BothFits();
    WebCompatible();
    assert d.services.Keys + {WEB} == {WEB};
    d.InSyncIff();
    var r := d.Upsert(BOTH);
    AllSmooth(0, d.calls);
    BothUpserted(d.services);
    AgreeSettles(d.hash, d.maps, d.services, d.states, WEB);
    SettledConfig(d.hash, d.maps, WEB, d.services[WEB]);
    d.BackendsInMem();
    SoleLists(d.services, d.states, d.backendIds.ids, WEB);
    assert |d.backendIds.ids| == |d.backendIds.ids.Keys| == 2;
  }

  // ---- SPARE is dropped by an upsert that fails.

  /** SERVER's hardware address does not parse, and SERVER is listed already. */
  lemma BadWhy(e: UpsertError, services: Services, states: States, ids: map<Endpoint, nat>, free: seq<Extent>,
      text: string)
    requires Why(e, services, states, ids, free, Single(Malformed(text)), true)
    requires WEB in services && SERVER in services[WEB].backends && SERVER in ids && |ids| <= MAX_BACKENDS
    ensures e == NotRefreshed
  {
    hide WeightsOf, MacsOf, Load, ClassFor, CanBuild, Rebuilds, KnownAfter, RoomFor;
    SingleIs(Malformed(text));
    var macs := map[SERVER := Malformed(text)];
    assert macs.Keys == {SERVER} && SERVER in macs && map[SERVER := 1].Keys == {SERVER};
    KnownWithin(services, states, ids, WEB, {SERVER});
  }

  lemma BadFails(services: Services, states: States, ids: map<Endpoint, nat>, free: seq<Extent>, text: string)
    ensures !Acceptable(services, states, ids, free, Single(Malformed(text)))
  {
    hide WeightsOf, CanBuild, Rebuilds, KnownAfter, RoomFor;
    SingleIs(Malformed(text));
    assert SERVER in map[SERVER := Malformed(text)];
  }

  lemma SpareDropped(was: Services, services: Services, mac: Mac, ok: bool)
    requires Upserted(was, services, Single(mac), ok) && was.Keys == {WEB} && SERVER in was[WEB].backends
    ensures services.Keys == {WEB} && services[WEB].sid == was[WEB].sid
    ensures services[WEB].backends == map[SERVER := was[WEB].backends[SERVER]]
    ensures services[WEB].vip == if ok then Single(mac) else was[WEB].vip
    ensures ok ==> services[WEB].spec == Some(Single(mac))
  {
    SingleIs(mac);
    hide WeightsOf, NewExtent, ClassFor;
    assert forall w :: w in services <==> w == WEB;
    assert services[WEB].backends.Keys == {SERVER};
  }

  method LoseSpare(d: Dataplane, text: string) returns (r: Result<(), UpsertError>)
    requires d.Mem() && Sized(d.services) && d.InSync() && d.lost == multiset{} && d.answers == Always
    requires d.services.Keys == {WEB} && SERVER in d.services[WEB].backends && d.backendIds.next == 2
    modifies d`services, d`states, d`maps, d`log, d`calls, d`lost, d`loose, d`stale, d.serviceIds, d.backendIds,
      d.maglev
    ensures r == Err(NotRefreshed) && d.Mem() && Sized(d.services) && d.Partly() && d.lost == multiset{}
    ensures d.services.Keys == {WEB} && d.services[WEB].vip == old(d.services)[WEB].vip
        && d.services[WEB].ext == old(d.services)[WEB].ext && d.services[WEB].sid == old(d.services)[WEB].sid
    ensures d.services[WEB].backends == map[SERVER := old(d.services)[WEB].backends[SERVER]] == d.backendIds.ids
    ensures d.backendIds.next == 2 && SameTables(old(d.maps), d.maps)
  {
    hide Why, Counted, ExtentsAgree, PoolValid, FreeListValid, Agree, SidsOf, Acceptable, Upserted, FlagsKept, AgreeBut,
      HealsIff, LooseAfter, Written, StaleBy, UpsertGuard, Wider, Foreseen, NewMacsParse, Spares, SafeSince,
      BackendsAgree, Slots, Sized, Compatible, Named, Settled, SameTables, Rebuilds;
    WebCompatible();
    assert d.services.Keys + {WEB} == {WEB};
    d.InSyncIff();
    d.TableFits();
    d.ListedHasId(WEB, SERVER);
    BadFails(d.services, d.states, d.backendIds.ids, d.maglev.free, text);
    r := d.Upsert(Single(Malformed(text)));
    AllSmooth(old(d.calls), d.calls);
    BadWhy(r.error, old(d.services), old(d.states), old(d.backendIds.ids), old(d.maglev.free), text);
    SpareDropped(old(d.services), d.services, Malformed(text), false);
    d.BackendsInMem();
    SoleLists(d.services, d.states, d.backendIds.ids, WEB);
    assert |d.backendIds.ids| == |d.backendIds.ids.Keys| == 1;
  }

  // ---- The next upsert succeeds.

  /** Neither the set nor a weight differs from what is recorded, so there is nothing to rebuild. */
  lemma NothingToRebuild(services: Services)
    requires WEB in services && services[WEB].backends.Keys == {SERVER} && services[WEB].vip == BOTH
    ensures !Rebuilds(services, Single(NoMac))
  {
    BothIs();
    SingleIs(NoMac);
    hide WeightsOf;
  }

  lemma CorrectedFits(services: Services, states: States, ids: map<Endpoint, nat>, free: seq<Extent>)
    requires WEB in services && !Rebuilds(services, Single(NoMac)) && SERVER in ids && |ids| <= MAX_BACKENDS
    ensures Acceptable(services, states, ids, free, Single(NoMac))
  {
    hide WeightsOf, CanBuild, Rebuilds, KnownAfter, RoomFor;
    SingleIs(NoMac);
    assert map[SERVER := 1].Keys == {SERVER} && MacsParse(map[SERVER := NoMac]);
    KnownWithin(services, states, ids, WEB, {SERVER});
  }

  method CorrectServer(d: Dataplane) returns (r: Result<(), UpsertError>)
    requires d.Mem() && Sized(d.services) && d.Partly() && d.lost == multiset{} && d.answers == Always
    requires d.services.Keys == {WEB} && d.services[WEB].vip == BOTH && d.backendIds.next == 2
    requires d.services[WEB].backends.Keys == {SERVER}
    modifies d`services, d`states, d`maps, d`log, d`calls, d`lost, d`loose, d`stale, d.serviceIds, d.backendIds,
      d.maglev
    ensures r.Ok? && d.Mem() && Sized(d.services) && d.Partly() && d.lost == multiset{}
    ensures d.services.Keys == {WEB} && d.services[WEB].spec == Some(Single(NoMac))
        && d.services[WEB].ext == old(d.services)[WEB].ext && d.services[WEB].sid == old(d.services)[WEB].sid
    ensures d.services[WEB].backends == old(d.services)[WEB].backends == d.backendIds.ids
    ensures d.backendIds.next == 2 && d.maps.maglev == old(d.maps).maglev
    ensures Published(d.maps, WEB, d.services[WEB]) && Installed(d.maps, WEB)
  {
    hide Why, Counted, ExtentsAgree, PoolValid, FreeListValid, Agree, SidsOf, Acceptable, Upserted, FlagsKept, AgreeBut,
      LooseAfter, Written, StaleBy, UpsertGuard, Wider, Foreseen, NewMacsParse, Spares, SafeSince, BackendsAgree, Slots,
      Sized, Compatible, Named, Settled, SameTables, Rebuilds, Heals, Published, Installed;
    WebCompatible();
    assert d.services.Keys + {WEB} == {WEB};
    d.TableFits();
    d.ListedHasId(WEB, SERVER);
    NothingToRebuild(d.services);
    CorrectedFits(d.services, d.states, d.backendIds.ids, d.maglev.free);
    r := d.Upsert(Single(NoMac));
    AllSmooth(old(d.calls), d.calls);
    SpareDropped(old(d.services), d.services, NoMac, true);
    d.BackendsInMem();
    SoleLists(d.services, d.states, d.backendIds.ids, WEB);
    assert |d.backendIds.ids| == |d.backendIds.ids.Keys| == 1;
  }

  // ---- API's backend gets SPARE's ID.

  /** One table of the smallest class leaves room for another, before it or after it. */
  lemma RoomInTable(services: Services, free: seq<Extent>)
    requires ExtentsAgree(services, free) && FreeListValid(free, MAGLEV_M)
    requires services.Keys == {WEB} && services[WEB].ext.size == 1031
    ensures FitsFree(free, 1031)
  {
    var ext := services[WEB].ext;
    var e := if ext.offset >= 1031 then Extent(0, 1031) else Extent(ext.End(), 1031);
    forall s | s in ExtentSlots(e)
      ensures s in Slots(free)
    {
      assert s !in ExtentSlots(ext);
      assert !Live(services, s);
    }
    hide Slots, ExtentSlots, ExtentsAgree;
    ContainedInOne(free, e);
  }

  lemma OtherFits(services: Services, states: States, ids: map<Endpoint, nat>, free: seq<Extent>)
    requires services.Keys == {WEB} && FitsFree(free, 1031) && |ids| == 1
    ensures Acceptable(services, states, ids, free, OTHER)
  {
    hide WeightsOf, MacsOf, Load, ClassFor, Reweighted, KnownAfter, FitsFree;
    OtherIs();
    var one: map<Endpoint, nat> := map[WORKER := 1];
    assert one.Keys == {WORKER} && |one| == 1 && one != map[] && |services| == |services.Keys| == 1;
    assert CanBuild(free, NO_EXTENT, one) && MacsParse(map[WORKER := NoMac]);
    KnownBefore(services, states, ids, API, {WORKER});
    assert |ids.Keys + {WORKER}| <= 2 by { assert |ids.Keys| == 1; }
    LessRoom(KnownAfter(services, states, ids, API, {WORKER}), ids.Keys, {WORKER}, {WORKER});
  }

  lemma OtherUpserted(was: Services, services: Services)
    requires Upserted(was, services, OTHER, true) && was.Keys == {WEB}
    ensures services.Keys == {WEB, API} && services[WEB] == was[WEB] && services[API].spec == Some(OTHER)
    ensures services[API].backends.Keys == {WORKER}
  {
    OtherIs();
    hide WeightsOf, NewExtent, ClassFor;
    assert forall w :: w in services <==> w in {WEB, API};
  }

  /** Two IDs are in use, and the pool has never needed more. */
  lemma GetsSpare(services: Services, states: States, ids: map<Endpoint, nat>, next: nat, a: nat, b: nat)
    requires Counted(services, states, ids, multiset{}) && services.Keys == {WEB, API} && next == 2
    requires services[WEB].backends == map[SERVER := a] && services[API].backends.Keys == {WORKER}
    requires a < 2 && b < 2 && a != b && (forall ep :: ep in ids ==> ids[ep] < next)
        && (forall x, y :: x in ids && y in ids && x != y ==> ids[x] != ids[y])
    ensures WORKER in ids && ids[WORKER] == b == services[API].backends[WORKER]
  {
    assert SERVER in services[WEB].backends && WORKER in services[API].backends;
    assert ids[SERVER] == a;
  }

  /** What is new and not behind is in the maps, healthy. */
  lemma WorkerIsHealthy(hash: Hash<Endpoint>, m: Maps, services: Services, states: States, ids: map<Endpoint, nat>,
      a: Amiss, was: States, wasIds: map<Endpoint, nat>)
    requires AgreeBut(hash, m, services, states, a) && Named(services, states, ids)
    requires WORKER in ids && ids[WORKER] !in a.stale && WORKER !in wasIds && FlagsKept(was, wasIds, states, ids)
    ensures ids[WORKER] < |m.health| && m.health[ids[WORKER]] == Healthy
    ensures ids[WORKER] in m.backend && m.backend[ids[WORKER]] == WORKER
  {
    hide AgreeBut;
    ButFacts(hash, m, services, states, a);
    assert Carried(FlagsOf(was, wasIds, WORKER), FlagsOf(states, ids, WORKER));
  }

  method AddOther(d: Dataplane, ghost b: nat) returns (r: Result<(), UpsertError>)
    requires d.Mem() && Sized(d.services) && d.Partly() && d.lost == multiset{} && d.answers == Always
    requires d.services.Keys == {WEB} && d.services[WEB].ext.size == 1031 && d.backendIds.next == 2
    requires d.services[WEB].backends.Keys == {SERVER} && d.backendIds.ids == d.services[WEB].backends
    requires d.services[WEB].backends[SERVER] != b && b < 2
    modifies d`services, d`states, d`maps, d`log, d`calls, d`lost, d`loose, d`stale, d.serviceIds, d.backendIds,
      d.maglev
    ensures r.Ok? && d.Mem() && Sized(d.services) && d.Partly() && d.lost == multiset{}
    ensures d.services.Keys == {WEB, API} && d.services[WEB] == old(d.services)[WEB]
        && d.services[API].spec == Some(OTHER)
    ensures WORKER in d.backendIds.ids && d.backendIds.ids[WORKER] == b
    ensures b < |d.maps.health| && d.maps.health[b] == Healthy && b in d.maps.backend && d.maps.backend[b] == WORKER
    ensures Spares(old(d.maps), d.maps, old(d.services) - {API}, API)
  {
    hide Why, Counted, ExtentsAgree, PoolValid, FreeListValid, Agree, SidsOf, Acceptable, Upserted, FlagsKept, AgreeBut,
      LooseAfter, StaleBy, UpsertGuard, Wider, Foreseen, NewMacsParse, Spares, SafeSince, BackendsAgree, Slots,
      Sized, Compatible, Named, Settled, SameTables, Rebuilds, HealsIff, TableLeft, FitsFree;
    WebCompatible();
    assert d.services.Keys + {API} == {WEB, API};
    BelowNext(d);
    RoomInTable(d.services, d.maglev.free);
    assert |d.backendIds.ids| == |d.backendIds.ids.Keys| == 1;
    OtherFits(d.services, d.states, d.backendIds.ids, d.maglev.free);
    r := d.Upsert(OTHER);
    AllSmooth(old(d.calls), d.calls);
    OtherUpserted(old(d.services), d.services);
    d.BackendsInMem();
    d.Matched();
    BelowNext(d);
    BothKnown(d.services, d.states, d.backendIds.ids);
    GetsSpare(d.services, d.states, d.backendIds.ids, d.backendIds.next, old(d.services)[WEB].backends[SERVER], b);
    WorkerIsHealthy(d.hash, d.maps, d.services, d.states, d.backendIds.ids, d.Wrong(), old(d.states),
      old(d.backendIds.ids));
  }

  lemma BothKnown(services: Services, states: States, ids: map<Endpoint, nat>)
    requires Counted(services, states, ids, multiset{}) && services.Keys == {WEB, API}
    requires services[WEB].backends.Keys == {SERVER} && services[API].backends.Keys == {WORKER}
    ensures |ids| == 2
  {
    hide Counted;
    forall ep
      ensures ep in ids.Keys <==> ep in {SERVER, WORKER}
    {
      ListedIffKnown(services, states, ids, ep);
      assert SERVER in services[WEB].backends && WORKER in services[API].backends;
    }
    assert ids.Keys == {SERVER, WORKER} && |ids| == |ids.Keys|;
  }

  // ---- The whole.

  lemma PickedAt(m: Maps, ext: Extent, s: nat, b: nat)
    requires Within(ext, s) && s < |m.maglev| && m.maglev[s] == b && b < |m.health| && m.health[b] == Healthy
    ensures ext.size > 0 && s >= ext.offset && PickFrom(m, ext.offset, ext.size, (s - ext.offset) % ext.size,
        0) == Some(b)
  {
    var h := s - ext.offset;
    SmallMod(h, ext.size);
    assert HealthyAt(m, s) == Some(b);
  }

  lemma SmallMod(h: nat, size: nat)
    requires h < size
    ensures h % size == h
  {
  }

  /** A slot that the published configuration points at names the ID: a packet with that hash goes there. */
  lemma Strays(m: Maps, services: Services, s: nat, b: nat)
    requires Reachable(m, services) && Installed(m, WEB) && WEB in services && Published(m, WEB, services[WEB])
    requires Within(services[WEB].ext, s) && s < |m.maglev| && m.maglev[s] == b && |services[WEB].backends| > 0
    requires b < |m.health| && m.health[b] == Healthy && b in m.backend && m.backend[b] == WORKER
    ensures s >= services[WEB].ext.offset
    ensures SelectNew(m, WEB.addr, WEB.port, WEB.proto, s - services[WEB].ext.offset) == Chosen(b, WORKER)
  {
    hide Reachable, Installed, SelectNew, ServiceOf, PickFrom;
    var sid := SoleService(m, services, WEB);
    PickedAt(m, services[WEB].ext, s, b);
    ChosenFrom(m, WEB.addr, WEB.port, WEB.proto, s - services[WEB].ext.offset, sid, b, WORKER);
  }

  lemma SparedWeb(m: Maps, m': Maps, services: Services, s: nat)
    requires Spares(m, m', services - {API}, API) && WEB in services && Published(m, WEB, services[WEB])
        && Installed(m, WEB)
    requires Within(services[WEB].ext, s) && s < |m.maglev|
    ensures Published(m', WEB, services[WEB]) && Installed(m', WEB) && s < |m'.maglev| && m'.maglev[s] == m.maglev[s]
  {
    hide Owns;
    assert WEB in services - {API} && (services - {API})[WEB] == services[WEB];
    assert ExactVip(ExactKey(WEB.addr, WEB.port, WEB.proto)) == WEB;
  }

  lemma SpareHasSlot(hash: Hash<Endpoint>, m: Maps, e: Service) returns (s: nat)
    requires Settled(hash, m, WEB, e) && SPARE in e.backends
    ensures Within(e.ext, s) && s < |m.maglev| && m.maglev[s] == e.backends[SPARE]
  {
    hide Balanced, SlotsHold, ClassFor, Outgrown;
    assert NamedIn(m, e.ext, e.backends[SPARE]);
    s :| Within(e.ext, s) && s < |m.maglev| && m.maglev[s] == e.backends[SPARE];
  }

  lemma PartlyReachable(d: Dataplane)
    requires d.Partly()
    ensures Reachable(d.maps, d.services)
  {
    hide Settled, Installed, Contained, BackendMapOk, HealthOk, UnusedZero, Reachable;
  }

  /** Some slot of WEB's table names the ID, which nobody has. */
  ghost predicate Leftover(m: Maps, services: Services, ids: map<Endpoint, nat>, id: nat, s: nat) {
    && WEB in services && Within(services[WEB].ext, s) && s < |m.maglev| && m.maglev[s] == id
    && forall ep :: ep in ids ==> ids[ep] != id
  }

  lemma LeftoverIsWrong(hash: Hash<Endpoint>, m: Maps, services: Services, ids: map<Endpoint, nat>, id: nat, s: nat)
    requires Leftover(m, services, ids, id, s) && ids == services[WEB].backends
    ensures !Settled(hash, m, WEB, services[WEB])
  {
    hide Balanced, AllNamed, ClassFor, Outgrown;
  }

  /** WEB is configured with SERVER and SPARE. An upsert to SERVER alone, with a hardware address that does
      not parse, fails after SPARE is dropped. Corrected, it succeeds, but the table is the old one. */
  method KeepOldTable(hash: Hash<Endpoint>, text: string)
    returns (d: Dataplane, failed: Result<(), UpsertError>, corrected: Result<(), UpsertError>, ghost id: nat,
      ghost s: nat)
    ensures fresh(d) && fresh(d.serviceIds) && fresh(d.backendIds) && fresh(d.maglev) && d.answers == Always
    ensures d.Mem() && Sized(d.services) && d.Partly() && d.lost == multiset{}
    ensures failed == Err(NotRefreshed) && corrected.Ok?
    ensures d.services.Keys == {WEB} && d.services[WEB].spec == Some(Single(NoMac)) && d.services[WEB].ext.size == 1031
    ensures d.services[WEB].backends.Keys == {SERVER} && d.backendIds.ids == d.services[WEB].backends
        && d.backendIds.next == 2
    ensures Published(d.maps, WEB, d.services[WEB]) && Installed(d.maps, WEB)
    ensures id < 2 && Leftover(d.maps, d.services, d.backendIds.ids, id, s)
    ensures !Settled(d.hash, d.maps, WEB, d.services[WEB])
  {
    hide Counted, ExtentsAgree, PoolValid, FreeListValid, Agree, SidsOf, AgreeBut, Slots, Sized, Settled, SameTables,
      Published, Installed;
    d := Configure(hash);
    BelowNext(d);
    id := d.backendIds.ids[SPARE];
    ghost var m := d.maps;
    AgreeSettles(d.hash, d.maps, d.services, d.states, WEB);
    s := SpareHasSlot(d.hash, d.maps, d.services[WEB]);
    failed := LoseSpare(d, text);
    SameSlots(m, d.maps);
    corrected := CorrectServer(d);
    LeftoverIsWrong(d.hash, d.maps, d.services, d.backendIds.ids, id, s);
  }

  /** Then API is added with WORKER, which succeeds too. Now there are packets of WEB that go to WORKER, which
      WEB does not list; no update was ever refused. */
  method StrayAfterCorrection(hash: Hash<Endpoint>, text: string)
    returns (d: Dataplane, failed: Result<(), UpsertError>, corrected: Result<(), UpsertError>,
      added: Result<(), UpsertError>, ghost id: nat, ghost h: nat)
    ensures fresh(d) && d.Mem() && failed == Err(NotRefreshed) && corrected.Ok? && added.Ok?
    ensures d.services.Keys == {WEB, API} && d.services[WEB].spec == Some(Single(NoMac))
        && d.services[API].spec == Some(OTHER)
    ensures WORKER !in d.services[WEB].backends
        && SelectNew(d.maps, WEB.addr, WEB.port, WEB.proto, h) == Chosen(id, WORKER)
  {
    hide Counted, ExtentsAgree, PoolValid, FreeListValid, Agree, SidsOf, AgreeBut, Spares, Slots, Sized, Published,
      Installed, SelectNew, Settled, Reachable, BackendsAgree, Shaped, Named;
    ghost var s;
    d, failed, corrected, id, s := KeepOldTable(hash, text);
    ghost var m, services := d.maps, d.services;
    added := AddOther(d, id);
    SparedWeb(m, d.maps, services, s);
    PartlyReachable(d);
    HasSome(services[WEB].backends, SERVER);
    Strays(d.maps, d.services, s, id);
    h := s - d.services[WEB].ext.offset;
  }

  lemma HasSome(backends: map<Endpoint, nat>, ep: Endpoint)
    requires ep in backends
    ensures |backends| > 0
  {
  }

  lemma SameSlots(m: Maps, m': Maps)
    requires SameTables(m, m')
    ensures m'.maglev == m.maglev
  {
  }
}
