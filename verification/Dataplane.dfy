/** The control plane of one node (internal/dataplane/dataplane.go): VIPs are upserted, removed
    and reloaded under one lock while packets read the maps between any two writes. The ghost
    log holds the maps after every single write. */
module DataplaneControl {
  import opened Common
  import opened Types
  import opened Primes
  import opened PortRange
  import opened VipLookup
  import opened BpfMaps
  import opened ExtentAllocation
  import opened IdAllocation
  import opened Maglev
  import opened MaglevFairness
  import opened DataplaneState
  import opened MapAgreement
  import opened Watching
  import opened UpsertConditions
  import opened UpsertSteps
  import opened ReloadPlanning
  import opened ReloadSteps

  lemma NothingAgrees(hash: Hash<Endpoint>, free: seq<Extent>)
    requires Slots(free) == Range(MAGLEV_M)
    ensures Agree(hash, EmptyMaps(), map[], map[])
    ensures BackendsAgree(map[], map[], map[]) && ExtentsAgree(map[], free)
  {
    hide Slots, Agree, BackendsAgree, ExtentsAgree;
    EmptyAgrees(hash);
    EmptyExtents(free);
    EmptyBackends();
  }

  lemma EmptyExtents(free: seq<Extent>)
    requires Slots(free) == Range(MAGLEV_M)
    ensures ExtentsAgree(map[], free)
  {
    hide Slots, ExtentSlots, Range;
    NothingLive();
  }

  lemma NothingLive()
    ensures forall s :: !Live(map[], s)
  {
    hide ExtentSlots;
    var none: Services := map[];
    forall s
      ensures !Live(none, s)
    {
    }
  }

  lemma EmptyBackends()
    ensures BackendsAgree(map[], map[], map[])
  {
  }

  lemma EmptyAgrees(hash: Hash<Endpoint>)
    ensures Agree(hash, EmptyMaps(), map[], map[])
  {
    hide Settled, Installed;
    var none: Services := map[];
    assert Compatible(none.Keys);
  }

  class Dataplane {
    const hash: Hash<Endpoint>
    /** Whether the kernel accepts the n-th map update that is checked for errors. */
    const answers: nat -> bool
    const serviceIds: IdAllocator<VipId>
    const backendIds: IdAllocator<Endpoint>
    const maglev: ExtentAllocator
    var services: Services
    var states: States
    var maps: Maps
    var calls: nat
    ghost var log: seq<Maps>
    /** References that were counted for a backend no VIP then came to list. */
    ghost var lost: multiset<Endpoint>
    /** The VIPs whose last upsert failed, or succeeded without mending their table, and the backends
        their packets may reach meanwhile. */
    ghost var loose: map<VipId, set<Endpoint>>
    /** The backend IDs whose map entries the kernel did not take. */
    ghost var stale: set<nat>

    ghost predicate Parts()
      reads this, serviceIds, backendIds, maglev
    {
      && serviceIds.Valid() && backendIds.Valid() && maglev.Valid()
      && serviceIds.max == MAX_VIPS && backendIds.max == MAX_BACKENDS && maglev.total == MAGLEV_M
      && serviceIds as object != backendIds as object
      && Shaped(maps)
    }

    /** What every operation keeps, failed ones included: service IDs and extents match the VIPs in
        memory, and so do the reference counts, up to the references lost. */
    ghost predicate Mem()
      reads this, serviceIds, backendIds, maglev
    {
      && Parts()
      && serviceIds.ids == SidsOf(services)
      && Counted(services, states, backendIds.ids, lost)
      && ExtentsAgree(services, maglev.free)
    }

    ghost function Wrong(): Amiss
      reads this
    {
      Amiss(loose, stale)
    }

    /** The maps agree with the memory, but for what is known to be amiss. */
    ghost predicate Partly()
      reads this
    {
      AgreeBut(hash, maps, services, states, Wrong())
    }

    /** The maps agree with the memory. */
    ghost predicate InSync()
      reads this
    {
      Agree(hash, maps, services, states) && Wrong() == NOTHING
    }

    lemma InSyncIff()
      ensures InSync() <==> Partly() && Wrong() == NOTHING
    {
      AgreeIff(hash, maps, services, states);
    }

    /** v does not clash with a range already there. */
    ghost predicate CanTake(v: VipId)
      reads this
    {
      Partly() && Compatible(services.Keys + {v})
    }

    /** The specification can be met from here. */
    ghost predicate Accepts(spec: Vip)
      reads this, backendIds, maglev
    {
      Acceptable(services, states, backendIds.ids, maglev.free, spec)
    }

    ghost predicate WentSmoothly(from: nat)
      reads this
    {
      Smooth(answers, from, calls)
    }

    constructor (hash: Hash<Endpoint>, answers: nat -> bool)
      ensures Mem() && Sized(services) && InSync() && lost == multiset{} && calls == 0
      ensures services == map[] && states == map[] && backendIds.ids == map[] && maglev.free == [Extent(0, MAGLEV_M)]
          && log == [] && backendIds.next == 0
      ensures this.hash == hash && this.answers == answers && fresh(serviceIds) && fresh(backendIds) && fresh(maglev)
    {
      hide Range, EmptyMaps, Compatible, PoolValid, FreeListValid, Slots;
      this.hash, this.answers := hash, answers;
      serviceIds := new IdAllocator<VipId>(MAX_VIPS);
      backendIds := new IdAllocator<Endpoint>(MAX_BACKENDS);
      maglev := new ExtentAllocator(MAGLEV_M);
      services, states, maps, log := map[], map[], EmptyMaps(), [];
      calls, lost, loose, stale := 0, multiset{}, map[], {};
      new;
      NothingAgrees(hash, maglev.free);
    }

    /** A process that has just started on maps pinned by an earlier one. */
    constructor Pinned(hash: Hash<Endpoint>, answers: nat -> bool, m: Maps)
      requires Shaped(m)
      ensures Mem() && services == map[] && states == map[] && maps == m && log == [] && lost == multiset{}
          && calls == 0
      ensures this.hash == hash && this.answers == answers && fresh(serviceIds) && fresh(backendIds) && fresh(maglev)
          && Wrong() == NOTHING
    {
      hide Range, EmptyMaps, Compatible, PoolValid, FreeListValid, Slots;
      this.hash, this.answers := hash, answers;
      serviceIds := new IdAllocator<VipId>(MAX_VIPS);
      backendIds := new IdAllocator<Endpoint>(MAX_BACKENDS);
      maglev := new ExtentAllocator(MAGLEV_M);
      services, states, maps, log := map[], map[], m, [];
      calls, lost, loose, stale := 0, multiset{}, map[], {};
      new;
      NothingAgrees(hash, maglev.free);
    }

    /** A deletion or zeroing, whose error the source discards. */
    method Write(m: Maps)
      requires Shaped(m)
      modifies this`maps, this`log
      ensures maps == m && log == old(log) + [m]
    {
      maps := m;
      log := log + [m];
    }

    /** An update whose error is checked: packets see the maps after it, or nothing happens. */
    method Try(m: Maps) returns (ok: bool)
      requires Shaped(m)
      modifies this`maps, this`log, this`calls
      ensures ok == answers(old(calls)) && calls == old(calls) + 1
      ensures if ok then maps == m && log == old(log) + [m] else maps == old(maps) && log == old(log)
    {
      ok := answers(calls);
      calls := calls + 1;
      if ok {
        Write(m);
      }
    }

    /** releaseBackendLocked: drops one reference; the last one removes the backend. */
    method ReleaseBackend(ep: Endpoint, id: nat)
      requires Parts() && id < MAX_BACKENDS
      requires id in states ==> states[id].ep == ep && ep in backendIds.ids && backendIds.ids[ep] == id
      modifies this`states, this`maps, this`log, this`stale, backendIds
      ensures SameTables(old(maps), maps) && backendIds.next == old(backendIds.next)
      ensures Parts()
      ensures id !in old(states) ==>
          states == old(states) && maps == old(maps) && log == old(log) && unchanged(backendIds) && stale == old(stale)
      ensures id in old(states) ==> states == Released(old(states), id)
      ensures id in old(states) && old(states)[id].refCount > 1 ==>
                maps == old(maps) && log == old(log) && backendIds.ids == old(backendIds.ids) && stale == old(stale)
      ensures id in old(states) && old(states)[id].refCount <= 1 ==>
                && maps == WithHealth(WithoutBackend(old(maps), id), id, Down)
                && log == old(log) + [WithoutBackend(old(maps), id), maps]
                && backendIds.ids == old(backendIds.ids) - {ep} && stale == old(stale) - {id}
    {
      hide PoolValid, FreeListValid;
      if id !in states {
        return;
      }
      var st := states[id];
      st := st.(refCount := st.refCount - 1);
      if st.refCount > 0 {
        states := states[id := st];
        return;
      }
      states := states - {id};
      stale := stale - {id};
      Write(WithoutBackend(maps, id));
      Write(WithHealth(maps, id, Down));
      backendIds.Release(ep);
    }

    /** The start of acquireBackendLocked: the backend's ID and one more reference to it, with fresh
        flags on first sight. */
    method CountBackend(ep: Endpoint) returns (r: Result<nat, UpsertError>)
      requires Parts()
      modifies this`states, backendIds
      ensures Parts() && Peaks(old(backendIds.next), backendIds.next, backendIds.ids)
      ensures r.Ok? <==> HasRoom(old(backendIds.ids), ep)
      ensures r.Err? ==> r.error == NoBackendId && states == old(states) && unchanged(backendIds)
      ensures r.Ok? ==> AcquiredAs(old(backendIds.ids), backendIds.ids, old(states), states, ep, r.value)
    {
      hide PoolValid, FreeListValid;
      IdsFit();
      var got := backendIds.Alloc(ep);
      if got.Err? {
        return Err(NoBackendId);
      }
      var st := if got.value in states then states[got.value] else FreshState(ep);
      states := states[got.value := st.(refCount := st.refCount + 1)];
      return Ok(got.value);
    }

    lemma IdsFit()
      requires Parts()
      ensures |backendIds.ids| <= MAX_BACKENDS
    {
      PoolCount(backendIds.ids, backendIds.free, backendIds.next, backendIds.max);
    }

    /** acquireBackendLocked: takes a reference, creating the backend on first sight. The reference
        is counted before the two writes, and not given back when one of them fails. */
    method AcquireBackend(ep: Endpoint, mac: Mac) returns (r: Result<nat, UpsertError>, ghost id: nat)
      requires Parts() && IdsMatch(states, backendIds.ids)
      modifies this`states, this`maps, this`log, this`calls, this`lost, this`stale, backendIds
      ensures Parts() && old(calls) <= calls && SameTables(old(maps), maps)
      ensures Peaks(old(backendIds.next), backendIds.next, backendIds.ids)
      ensures r.Ok? <==> HasRoom(old(backendIds.ids), ep) && !mac.Malformed? && Smooth(answers, old(calls), calls)
      ensures r.Err? ==> r.error == if HasRoom(old(backendIds.ids), ep) then NotAcquired(ep) else NoBackendId
      ensures !HasRoom(old(backendIds.ids), ep) ==>
                states == old(states) && maps == old(maps) && log == old(log) && lost == old(lost)
                  && stale == old(stale) && unchanged(backendIds)
      ensures HasRoom(old(backendIds.ids), ep) ==>
          AcquiredAs(old(backendIds.ids), backendIds.ids, old(states), states, ep, id) && id in states
      ensures HasRoom(old(backendIds.ids), ep) ==> lost == if r.Ok? then old(lost) else old(lost) + multiset{ep}
      ensures HasRoom(old(backendIds.ids), ep) ==>
          stale == if r.Ok? then old(stale) - {id} else Unwritten(old(states), old(stale), id)
      ensures r.Ok? ==>
          r.value == id && id in states && AcquireWrote(old(maps), maps, old(log), log, ep, id, HealthOf(states[id]))
      ensures r.Err? && HasRoom(old(backendIds.ids), ep) ==> AcquireStopped(old(maps), maps, old(log), log, ep, id)
    {
      hide PoolValid, FreeListValid, HealthOf, Smooth, IdsMatch, HasRoom, Acquired, AcquireWrote, AcquireStopped;
      id := 0;
      var got := CountBackend(ep);
      if got.Err? {
        return Err(NoBackendId), id;
      }
      id := got.value;
      assert id in states by { AcquiredHas(old(states), id, ep); }
      var ok := WriteAcquired(ep, got.value, mac);
      if !ok {
        lost, stale := lost + multiset{ep}, Unwritten(old(states), stale, id);
        return Err(NotAcquired(ep)), id;
      }
      stale := stale - {id};
      return Ok(got.value), id;
    }

    /** The two writes for a backend that has just been counted. */
    method WriteAcquired(ep: Endpoint, id: nat, mac: Mac) returns (ok: bool)
      requires Shaped(maps) && id < MAX_BACKENDS && id in states
      modifies this`maps, this`log, this`calls
      ensures Shaped(maps) && old(calls) <= calls && SameTables(old(maps), maps)
      ensures ok <==> !mac.Malformed? && Smooth(answers, old(calls), calls)
      ensures ok ==> AcquireWrote(old(maps), maps, old(log), log, ep, id, HealthOf(states[id]))
      ensures !ok ==> AcquireStopped(old(maps), maps, old(log), log, ep, id)
    {
      hide HealthOf, Smooth;
      SmoothNone(answers, calls);
      if mac.Malformed? {
        return false;
      }
      ok := Try(WithBackend(maps, id, ep));
      SmoothOne(answers, old(calls), old(calls), ok);
      if !ok {
        return;
      }
      ok := Try(WithHealth(maps, id, HealthOf(states[id])));
      SmoothOne(answers, old(calls), old(calls) + 1, ok);
      assert ok ==> log == old(log) + [WithBackend(old(maps), id, ep), maps];
    }

    lemma Matched()
      requires Mem()
      ensures IdsMatch(states, backendIds.ids) && Named(services, states, backendIds.ids)
    {
    }

    lemma IdInRange(ep: Endpoint, id: nat)
      requires backendIds.Valid() && backendIds.max == MAX_BACKENDS && ep in backendIds.ids && backendIds.ids[ep] == id
      ensures id < MAX_BACKENDS
    {
    }

    lemma Shape()
      requires Mem()
      ensures Shaped(maps) && forall v :: v in services ==> services[v].sid < MAX_VIPS
    {
      forall v | v in services
        ensures services[v].sid < MAX_VIPS
      {
        assert serviceIds.ids[v] == services[v].sid;
      }
    }

    // ---- The release loop of upsertVIPLocked.

    method DropBackend(ep: Endpoint, ghost good: bool, ghost w: Watch, v: VipId)
      requires Mem() && v == w.vip && v in services && ep in services[v].backends && ep !in w.wanted
      requires good ==> Under(hash, maps, services, states, stale, w)
      modifies this`services, this`states, this`maps, this`log, this`stale, backendIds
      ensures Mem() && Dropped(old(services), services, old(states), states, old(backendIds.ids), backendIds.ids, v, ep)
      ensures SameTables(old(maps), maps) && backendIds.next == old(backendIds.next) && stale <= old(stale)
      ensures forall x :: FlagsGone(old(states), old(backendIds.ids), states, backendIds.ids, x, ep)
      ensures good ==> Under(hash, maps, services, states, stale, w)
      ensures old(log) <= log && (good ==> SafeSince(old(log), log, w.guard))
    {
      hide Under, Counted, ExtentsAgree, Safe, FlagsOf, IdsMatch, PoolValid, FreeListValid, SidsOf, Released,
        WithHealth, WithoutBackend;
      Matched();
      var e := services[v];
      var id := e.backends[ep];
      var e' := e.(backends := e.backends - {ep});
      ghost var ids := backendIds.ids;
      ReleaseKeeps(services, states, ids, lost, v, e', ep, id);
      SameExtents(services, maglev.free, v, e');
      if good {
        DropUnder(hash, maps, services, states, ids, lost, stale, w, e', ep, id);
      }
      IdInRange(ep, id);
      ReleaseBackend(ep, id);
      forall x
        ensures FlagsGone(old(states), old(backendIds.ids), states, backendIds.ids, x, ep)
      {
        ReleaseFlags(old(states), ids, backendIds.ids, ep, id, x);
      }
      services := services[v := e'];
      SidsSame(old(services), v, e');
    }

    /** Backends that are no longer wanted lose the VIP's reference. */
    method DropBackends(v: VipId, ghost good: bool, ghost w: Watch, wanted: set<Endpoint>) returns (changed: bool)
      requires Mem() && v == w.vip && wanted == w.wanted && v in services
      requires good ==> Under(hash, maps, services, states, stale, w)
      modifies this`services, this`states, this`maps, this`log, this`stale, backendIds
      ensures Mem() && DroppedAll(old(services), services, v, wanted)
      ensures backendIds.ids.Keys == KnownAfter(old(services), old(states), old(backendIds.ids), v, wanted)
      ensures SameTables(old(maps), maps) && backendIds.next == old(backendIds.next) && stale <= old(stale)
      ensures FlagsDropped(old(states), old(backendIds.ids), states, backendIds.ids, wanted)
      ensures !changed <==> old(services)[v].backends.Keys <= wanted
      ensures good ==> Under(hash, maps, services, states, stale, w)
      ensures old(log) <= log && (good ==> SafeSince(old(log), log, w.guard))
    {
      hide Mem, Under, Safe, FlagsOf, Dropped, DroppedSome, FlagsDropped, FlagsGone, DroppedAll, KnownAfter, Named,
        IdsMatch;
      changed := false;
      var todo := services[v].backends.Keys - wanted;
      BackendsInMem();
      NoneDropped(services, states, backendIds.ids, v, wanted);
      FlagsUntouched(states, backendIds.ids, wanted);
      while todo != {}
        invariant SameTables(old(maps), maps) && backendIds.next == old(backendIds.next) && stale <= old(stale)
        invariant Mem() && todo <= old(services)[v].backends.Keys - wanted
        invariant DroppedSome(old(services), services, old(states), states, old(backendIds.ids), backendIds.ids, v,
            wanted, todo)
        invariant FlagsDropped(old(states), old(backendIds.ids), states, backendIds.ids, wanted)
        invariant changed <==> todo != old(services)[v].backends.Keys - wanted
        invariant good ==> Under(hash, maps, services, states, stale, w)
        invariant old(log) <= log && (good ==> SafeSince(old(log), log, w.guard))
        decreases todo
      {
        var ep :| ep in todo;
        ghost var svc1, st1, ids1, log1 := services, states, backendIds.ids, log;
        Matched();
        DropSomeHas(old(services), svc1, old(states), st1, old(backendIds.ids), ids1, v, wanted, todo, ep);
        DropBackend(ep, good, w, v);
        DropSomeNext(old(services), svc1, services, old(states), st1, states, old(backendIds.ids), ids1, backendIds.ids,
          v, wanted, todo, ep);
        FlagsDroppedNext(old(states), old(backendIds.ids), st1, ids1, states, backendIds.ids, wanted, ep);
        if good {
          SafeJoin(old(log), log1, log, w.guard);
        }
        changed := true;
        todo := todo - {ep};
      }
      MinusNothing(old(services)[v].backends.Keys, wanted);
      AllDropped(old(services), services, old(states), states, old(backendIds.ids), backendIds.ids, v, wanted);
    }

    lemma BackendsInMem()
      requires Mem()
      ensures Counted(services, states, backendIds.ids, lost)
    {
    }

    // ---- The acquire loop.

    method AddBackend(v: VipId, ep: Endpoint, mac: Mac, ghost good: bool, ghost w: Watch)
      returns (r: Result<(), UpsertError>)
      requires Mem() && v == w.vip && v in services && ep !in services[v].backends
      requires good ==> Under(hash, maps, services, states, stale, w) && Everywhere(w.loose, ep)
      modifies this`services, this`states, this`maps, this`log, this`calls, this`lost, this`stale, backendIds
      ensures Mem() && old(calls) <= calls
      ensures r.Ok? <==> HasRoom(old(backendIds.ids), ep) && !mac.Malformed? && Smooth(answers, old(calls), calls)
      ensures r.Err? ==>
          services == old(services) && r.error == if HasRoom(old(backendIds.ids), ep) then NotAcquired(ep)
          else NoBackendId
      ensures r.Ok? ==> AddedOne(old(services), services, backendIds.ids, v, ep)
      ensures r.Ok? ==> backendIds.ids.Keys == old(backendIds.ids).Keys + {ep}
      ensures old(backendIds.ids).Keys <= backendIds.ids.Keys <= old(backendIds.ids).Keys + {ep}
      ensures Peaks(old(backendIds.next), backendIds.next, backendIds.ids)
      ensures lost == LostAfter(old(lost), r)
      ensures StaleBy(old(stale), stale, backendIds.ids, r)
      ensures r.Ok? ==> v in services && ep in services[v].backends && services[v].backends[ep] !in stale
      ensures SameTables(old(maps), maps)
      ensures FlagsComeFor(old(states), old(backendIds.ids), states, backendIds.ids, ep)
      ensures good ==> Under(hash, maps, services, states, stale, w)
      ensures old(log) <= log && (good ==> SafeSince(old(log), log, w.guard))
    {
      hide Under, Counted, ExtentsAgree, Safe, IdsMatch, PoolValid, FreeListValid, WithHealth, WithBackend, Acquired,
        FlagsOf, SidsOf, HealthOf, Named, SafeSince, FlagsComeFor, Smooth, AcquireWrote, AcquireStopped, HasRoom, Peaks,
          SameTables, Unwritten, StaleBy, Everywhere;
      Matched();
      BackendsInMem();
      NothingWritten(log, w.guard);
      FlagsStayPut(states, backendIds.ids, ep);
      var got, id := AcquireBackend(ep, mac);
      StaleAdded(old(stale), old(states), backendIds.ids, ep, id);
      if HasRoom(old(backendIds.ids), ep) {
        ghost var e' := services[v].(backends := services[v].backends[ep := id]);
        AcquireKeeps(services, old(states), old(backendIds.ids), old(lost), v, e', ep, id);
        AcquireLoses(services, old(states), old(backendIds.ids), old(lost), ep, id);
        AllFlagsCome(old(states), old(backendIds.ids), states, backendIds.ids, ep, id);
        LogGrows(old(maps), maps, old(log), log, ep, id, HealthOf(states[id]), got.Ok?);
        if good {
          AddUnder(hash, old(maps), services, old(states), old(backendIds.ids), old(stale), w, e', ep, id);
          AcquireSafe(old(maps), maps, old(log), log, ep, id, HealthOf(states[id]), w.guard, got.Ok?);
        }
      }
      if got.Err? {
        return Err(got.error);
      }
      var e := services[v];
      var e' := e.(backends := e.backends[ep := got.value]);
      SameExtents(services, maglev.free, v, e');
      services := services[v := e'];
      SidsSame(old(services), v, e');
      return Ok(());
    }

    /** A backend the VIP already has: its map entry is rewritten. */
    method RefreshBackend(v: VipId, ep: Endpoint, mac: Mac, ghost good: bool, ghost w: Watch) returns (ok: bool)
      requires Mem() && v == w.vip && v in services && ep in services[v].backends
      requires good ==> Under(hash, maps, services, states, stale, w)
      modifies this`maps, this`log, this`calls
      ensures Mem() && old(calls) <= calls
      ensures ok <==> !mac.Malformed? && Smooth(answers, old(calls), calls)
      ensures SameTables(old(maps), maps)
      ensures good ==> Under(hash, maps, services, states, stale, w)
      ensures old(log) <= log && (good ==> SafeSince(old(log), log, w.guard))
    {
      hide Under, Counted, ExtentsAgree, Safe, PoolValid, FreeListValid, SidsOf, Named;
      Matched();
      if good {
        RefreshUnder(hash, maps, services, states, backendIds.ids, stale, w, ep);
      }
      if mac.Malformed? {
        return false;
      }
      ok := Try(WithBackend(maps, services[v].backends[ep], ep));
    }

    /** One turn of the acquire loop. */
    method TakeUp(v: VipId, ep: Endpoint, mac: Mac, ghost good: bool, ghost w: Watch)
      returns (r: Result<bool, UpsertError>)
      requires Mem() && v == w.vip && v in services
      requires good ==> Under(hash, maps, services, states, stale, w) && Everywhere(w.loose, ep)
      modifies this`services, this`states, this`maps, this`log, this`calls, this`lost, this`stale, backendIds
      ensures Mem() && v in services && old(calls) <= calls && TakenUp(old(services), services, v, ep, r.Ok?)
      ensures r.Ok? <==> HasRoom(old(backendIds.ids), ep) && !mac.Malformed? && Smooth(answers, old(calls), calls)
      ensures r.Ok? ==> (r.value <==> ep !in old(services)[v].backends)
      ensures r.Err? ==>
          TurnWhy(r.error, ep, ep in old(services)[v].backends, HasRoom(old(backendIds.ids), ep), mac,
          Smooth(answers, old(calls), calls))
      ensures r.Ok? ==> backendIds.ids.Keys == old(backendIds.ids).Keys + {ep}
      ensures old(backendIds.ids).Keys <= backendIds.ids.Keys <= old(backendIds.ids).Keys + {ep}
      ensures Peaks(old(backendIds.next), backendIds.next, backendIds.ids)
      ensures lost == LostAfter(old(lost), Outcome(r))
      ensures StaleBy(old(stale), stale, backendIds.ids, Outcome(r))
      ensures r.Ok? ==> Written(old(services), services, stale, v)
      ensures SameTables(old(maps), maps)
      ensures FlagsComeFor(old(states), old(backendIds.ids), states, backendIds.ids, ep)
      ensures good ==> Under(hash, maps, services, states, stale, w)
      ensures old(log) <= log && (good ==> SafeSince(old(log), log, w.guard))
    {
      hide Mem, Under, Safe, FlagsOf, Smooth, TakenUp, SafeSince, FlagsComeFor, AddedOne, HasRoom, TurnWhy;
      ListedHasId(v, ep);
      PeaksNow();
      StaysTakenUp(services, v, ep, false);
      FlagsStayPut(states, backendIds.ids, ep);
      if ep in services[v].backends {
        StaysTakenUp(services, v, ep, true);
        KnownHasRoom(backendIds.ids, ep);
        var ok := RefreshBackend(v, ep, mac, good, w);
        if !ok {
          RefusedWhy(NotRefreshed, ep, true, true, mac, Smooth(answers, old(calls), calls));
          return Err(NotRefreshed);
        }
        return Ok(false);
      }
      var added := AddBackend(v, ep, mac, good, w);
      if added.Err? {
        RefusedWhy(added.error, ep, false, HasRoom(old(backendIds.ids), ep), mac, Smooth(answers, old(calls), calls));
        return Err(added.error);
      }
      AddedIsTakenUp(old(services), services, backendIds.ids, v, ep);
      return Ok(true);
    }

    /** Every wanted backend ends up in the VIP's set. */
    method AddBackends(v: VipId, macs: map<Endpoint, Mac>, ghost good: bool, ghost w: Watch)
      returns (r: Result<bool, UpsertError>)
      requires Mem() && v == w.vip && macs.Keys == w.wanted && v in services && services[v].backends.Keys <= w.wanted
      requires good ==> Under(hash, maps, services, states, stale, w) && ReachAll(w)
      modifies this`services, this`states, this`maps, this`log, this`calls, this`lost, this`stale, backendIds
      ensures Mem() && old(calls) <= calls
      ensures Added(old(services), services, old(backendIds.ids), v, macs, r, Smooth(answers, old(calls), calls))
      ensures Wider(old(backendIds.ids), backendIds.ids, w.wanted)
      ensures Peaks(old(backendIds.next), backendIds.next, backendIds.ids)
      ensures lost == LostAfter(old(lost), Outcome(r))
      ensures StaleBy(old(stale), stale, backendIds.ids, Outcome(r))
      ensures r.Ok? ==> Written(old(services), services, stale, v)
      ensures SameTables(old(maps), maps)
      ensures FlagsAdded(old(states), old(backendIds.ids), states, backendIds.ids, w.wanted)
      ensures good ==> Under(hash, maps, services, states, stale, w)
      ensures old(log) <= log && (good ==> SafeSince(old(log), log, w.guard))
    {
      hide Mem, Under, Safe, FlagsOf, FlagsAdded, FlagsComeFor, Smooth, TakenUp, SafeSince, TakenSome, Added, TurnWhy,
        HasRoom;
      var changed := false;
      var todo := macs.Keys;
      SmoothNone(answers, calls);
      NoneTaken(services, backendIds.ids, v, macs);
      PeaksNow();
      FlagsUntouched(states, backendIds.ids, w.wanted);
      NothingWritten(log, w.guard);
      while todo != {}
        invariant SameTables(old(maps), maps)
        invariant Mem() && v in services && todo <= macs.Keys && old(calls) <= calls && lost == old(lost)
        invariant TakenSome(old(services), services, old(backendIds.ids), backendIds.ids, v, macs, todo, changed)
        invariant stale <= old(stale) && Written(old(services), services, stale, v)
        invariant Peaks(old(backendIds.next), backendIds.next, backendIds.ids)
        invariant Smooth(answers, old(calls), calls) && Wider(old(backendIds.ids), backendIds.ids, w.wanted)
        invariant FlagsAdded(old(states), old(backendIds.ids), states, backendIds.ids, w.wanted)
        invariant good ==> Under(hash, maps, services, states, stale, w)
        invariant old(log) <= log && (good ==> SafeSince(old(log), log, w.guard))
        decreases todo
      {
        var ep :| ep in todo;
        ghost var log1, svc1, st1, ids1, calls1 := log, services, states, backendIds.ids, calls;
        ghost var stale1, next1 := stale, backendIds.next;
        TableFits();
        if good {
          ReachesEach(w, ep);
        }
        var taken := TakeUp(v, ep, macs[ep], good, w);
        SmoothJoin(answers, old(calls), calls1, calls);
        StaleOn(old(stale), stale1, stale, backendIds.ids, Outcome(taken));
        PeaksOn(old(backendIds.next), next1, backendIds.next, ids1, backendIds.ids);
        FlagsAddedNext(old(states), old(backendIds.ids), st1, ids1, states, backendIds.ids, w.wanted, ep);
        if good {
          SafeJoin(old(log), log1, log, w.guard);
        }
        if taken.Err? {
          TakenSomeStops(old(services), svc1, services, old(backendIds.ids), ids1, v, macs, todo, changed, ep,
            taken.error, Smooth(answers, calls1, calls), Smooth(answers, old(calls), calls));
          return Err(taken.error);
        }
        WrittenNext(old(services), svc1, services, stale1, stale, v, ep);
        TakenSomeNext(old(services), svc1, services, old(backendIds.ids), ids1, backendIds.ids, v, macs, todo, changed,
          ep, taken.value);
        changed := changed || taken.value;
        todo := todo - {ep};
      }
      TableFits();
      AllTaken(old(services), services, old(backendIds.ids), backendIds.ids, v, macs, changed);
      return Ok(changed);
    }

    lemma PeaksNow()
      requires Mem()
      ensures Peaks(backendIds.next, backendIds.next, backendIds.ids)
    {
      PoolCount(backendIds.ids, backendIds.free, backendIds.next, backendIds.max);
    }

    lemma ListedHasId(v: VipId, ep: Endpoint)
      requires Mem() && v in services
      ensures ep in services[v].backends ==> ep in backendIds.ids
    {
    }

    lemma TableFits()
      requires Mem()
      ensures |backendIds.ids.Keys| == |backendIds.ids| <= MAX_BACKENDS
    {
      PoolCount(backendIds.ids, backendIds.free, backendIds.next, backendIds.max);
      assert |backendIds.ids.Keys| == |backendIds.ids|;
    }

    /** Brings v's backend set to wanted; reports whether it was another. */
    method Regroup(v: VipId, macs: map<Endpoint, Mac>, ghost good: bool, ghost w: Watch)
      returns (r: Result<bool, UpsertError>)
      requires Mem() && v == w.vip && macs.Keys == w.wanted && v in services
      requires good ==> Under(hash, maps, services, states, stale, w) && ReachAll(w)
      modifies this`services, this`states, this`maps, this`log, this`calls, this`lost, this`stale, backendIds
      ensures Mem() && old(calls) <= calls && Regrouped(old(services), services, v, w.wanted)
      ensures r.Ok? <==> && MacsParse(macs) && Smooth(answers, old(calls), calls)
                         && RoomFor(KnownAfter(old(services), old(states), old(backendIds.ids), v, w.wanted), w.wanted)
      ensures r.Ok? ==>
          services[v].backends.Keys == w.wanted && (r.value <==> old(services)[v].backends.Keys != w.wanted)
      ensures r.Err? ==> NotTaken(r.error, services, v)
      ensures r.Err? ==> GroupWhy(r.error, old(services)[v].backends.Keys,
                                  KnownAfter(old(services), old(states), old(backendIds.ids), v, w.wanted), macs,
                                    Smooth(answers, old(calls), calls))
      ensures lost == LostAfter(old(lost), Outcome(r))
      ensures StaleBy(old(stale), stale, backendIds.ids, Outcome(r))
      ensures r.Ok? ==> Written(old(services), services, stale, v)
      ensures Wider(old(backendIds.ids), backendIds.ids, w.wanted)
      ensures Peaks(old(backendIds.next), backendIds.next, backendIds.ids)
      ensures SameTables(old(maps), maps)
      ensures FlagsKept(old(states), old(backendIds.ids), states, backendIds.ids)
      ensures good ==> Under(hash, maps, services, states, stale, w)
      ensures old(log) <= log && (good ==> SafeSince(old(log), log, w.guard))
    {
      hide Mem, NotTaken, Under, Safe, FlagsOf, DroppedAll, AddedSome, KnownAfter, Smooth, SafeSince, MacsParse,
        Regrouped, FlagsDropped, FlagsAdded, FlagsKept, GroupWhy, Added;
      var dropped := DropBackends(v, good, w, macs.Keys);
      KnownBefore(old(services), old(states), old(backendIds.ids), v, w.wanted);
      ghost var svc1, st1, ids1, log1, stale1 := services, states, backendIds.ids, log, stale;
      DroppedFacts(old(services), services, v, w.wanted);
      var added := AddBackends(v, macs, good, w);
      AddedFacts(svc1, services, ids1, v, macs, added, Smooth(answers, old(calls), calls));
      RegroupedBy(old(services), svc1, services, v, w.wanted);
      StaleOn(old(stale), stale1, stale, backendIds.ids, Outcome(added));
      WrittenSince(old(services), svc1, services, stale, v, w.wanted);
      FlagsBoth(old(states), old(backendIds.ids), st1, ids1, states, backendIds.ids, w.wanted);
      if good {
        SafeJoin(old(log), log1, log, w.guard);
      }
      if added.Err? {
        GroupWhyOf(added.error, old(services)[v].backends.Keys, svc1[v].backends.Keys, ids1.Keys, macs,
          Smooth(answers, old(calls), calls));
        return Err(added.error);
      }
      ChangedByEither(old(services)[v].backends.Keys, svc1[v].backends.Keys, w.wanted, dropped, added.value);
      return Ok(dropped || added.value);
    }

    // ---- rebuildMaglevLocked.

    /** The slot writes. One that is refused stops them. */
    method WriteTable(v: VipId, target: Extent, table: seq<int>, names: seq<Endpoint>, ghost good: bool, ghost w: Watch)
      returns (ok: bool)
      requires Parts() && Named(services, states, backendIds.ids) && v == w.vip && v in services
      requires |table| == target.size && target.End() <= MAGLEV_M
      requires forall s :: 0 <= s < |table| ==> 0 <= table[s] < |names|
      requires forall ep :: ep in names ==> ep in services[v].backends
      requires forall u :: u in services && u != v ==> ExtentSlots(services[u].ext) !! ExtentSlots(target)
      requires good ==>
          && Under(hash, maps, services, states, stale, w) && ReachAll(w) && services[v].backends.Keys <= w.wanted
          && Untouched(target, w.guard.frozen)
      modifies this`maps, this`log, this`calls
      ensures Parts() && old(calls) <= calls && (ok <==> Smooth(answers, old(calls), calls))
      ensures ok ==> maps == WithSlice(old(maps), target.offset, Resolved(table, names, services[v].backends))
      ensures old(log) <= log && SameOutside(old(maps), maps, target)
      ensures forall i :: |old(log)| <= i < |log| ==> SameOutside(old(maps), log[i], target)
      ensures good ==> Under(hash, maps, services, states, stale, w)
      ensures good ==> SafeSince(old(log), log, w.guard)
    {
      hide Under, Named, Safe, PoolValid, FreeListValid, SameOutside, WithSlot, WithSlice, Resolved, ExtentSlots,
        Smooth;
      ghost var m := maps;
      ghost var slice := Resolved(table, names, services[v].backends);
      WithSliceNothing(m, target.offset);
      SmoothNone(answers, calls);
      assert slice[..0] == [];
      WithSliceOutside(m, target.offset, slice, 0, target.size);
      for i := 0 to |table|
        invariant Parts() && maps == WithSlice(m, target.offset, slice[..i]) && SameOutside(m, maps, target)
        invariant old(log) <= log && old(calls) <= calls && Smooth(answers, old(calls), calls)
        invariant forall j :: |old(log)| <= j < |log| ==> SameOutside(m, log[j], target)
        invariant good ==> Under(hash, maps, services, states, stale, w) && SafeSince(old(log), log, w.guard)
      {
        var ep := names[table[i]];
        assert ep in names;
        ghost var calls1 := calls;
        if good {
          OtherSlots(services, v, target, target.offset + i);
          ReachesEach(w, ep);
          SlotUnder(hash, maps, services, states, backendIds.ids, stale, w, target.offset + i, ep);
        }
        WithSliceStep(m, target.offset, slice, i);
        WithSliceOutside(m, target.offset, slice, i + 1, target.size);
        ok := Try(WithSlot(maps, target.offset + i, services[v].backends[ep]));
        SmoothOne(answers, old(calls), calls1, ok);
        if !ok {
          return;
        }
      }
      assert slice[..|table|] == slice;
      ok := true;
    }

    /** The extent a rebuild writes to: the current one while its size class still fits, else a new one. */
    method PickExtent(v: VipId, size: nat) returns (r: Result<Extent, UpsertError>)
      requires Mem() && v in services && size in SIZE_CLASSES
      modifies maglev
      ensures Parts()
      ensures r.Err? <==> Outgrown(services[v].ext, size) && !FitsFree(old(maglev.free), size)
      ensures r.Err? ==> r.error == NoExtent && unchanged(maglev)
      ensures r.Ok? ==> r.value.End() <= MAGLEV_M && NewExtent(services[v].ext, size, r.value)
      ensures r.Ok? && !Outgrown(services[v].ext, size) ==> unchanged(maglev)
      ensures r.Ok? && Outgrown(services[v].ext, size) ==>
                ExtentSlots(r.value) <= old(Slots(maglev.free))
                  && Slots(maglev.free) == old(Slots(maglev.free)) - ExtentSlots(r.value)
    {
      hide Counted, PoolValid, FreeListValid, Slots, ExtentSlots;
      var ext := services[v].ext;
      if Outgrown(ext, size) {
        var got := maglev.Alloc(size);
        if got.Err? {
          return Err(NoExtent);
        }
        return Ok(got.value);
      }
      return Ok(ext);
    }

    /** The first part of rebuildMaglevLocked: where the table goes, and the table. A new extent whose
        table cannot be built is given back. */
    method PlaceTable(v: VipId, weights: map<Endpoint, nat>) returns (r: Result<Placement, UpsertError>)
      requires Mem() && Sized(services) && v in services && weights.Keys == services[v].backends.Keys
      modifies maglev
      ensures Parts()
      ensures r.Ok? <==> CanBuild(old(maglev.free), services[v].ext, weights)
      ensures r.Err? ==> (r.error == NoExtent || r.error == BadTable) && maglev.free == old(maglev.free)
      ensures r.Ok? ==> Placed(hash, services[v], old(maglev.free), maglev.free, r.value, weights)
    {
      hide Counted, PoolValid, FreeListValid, Slots, ExtentSlots, IsPrime, Table, ExtentsAgree, SidsOf, Listed,
        TotalWeight, FitsFree, Load;
      var names := SortedNames(hash, services[v].backends.Keys);
      var size := ClassFor(|names|);
      assert |names| == |weights.Keys| == |weights|;
      TotalIsLoad(names, weights);
      NoNames(names, weights);
      var moved := Outgrown(services[v].ext, size);
      var picked := PickExtent(v, size);
      if picked.Err? {
        return Err(picked.error);
      }
      TargetIsPrime(services[v].ext, size, picked.value);
      var built := BuildTable(picked.value.size, hash, Listed(names, weights));
      if built.Err? {
        assert built.error == NoBackends || built.error == TableTooSmall;
        assert weights == map[] || picked.value.size <= Load(weights);
        ReturnExtent(picked.value, moved, old(maglev.free));
        return Err(BadTable);
      }
      TableInRange(picked.value.size, hash, names, weights);
      return Ok(Placement(picked.value, built.value, names));
    }

    /** Undoes PickExtent, leaving the free list as it was. */
    method ReturnExtent(taken: Extent, moved: bool, ghost before: seq<Extent>)
      requires maglev.Valid() && FreeListValid(before, maglev.total)
      requires !moved ==> maglev.free == before
      requires moved ==>
          && taken.End() <= maglev.total && ExtentSlots(taken) <= Slots(before)
          && Slots(maglev.free) == Slots(before) - ExtentSlots(taken)
      modifies maglev
      ensures maglev.Valid() && maglev.free == before
    {
      hide Slots, ExtentSlots, FreeListValid;
      if moved {
        ghost var during := maglev.free;
        maglev.Free(taken);
        FreeRestores(before, during, maglev.free, taken, maglev.total);
      }
    }

    /** rebuildMaglevLocked: builds the table for v's backends and weights, in its extent or, when
        that has been outgrown, in a new one; the old one is given back only afterwards. A table
        that moves leaves every slot the published configuration points at as it was. */
    method Rebuild(v: VipId, weights: map<Endpoint, nat>, ghost good: bool, ghost w: Watch)
      returns (r: Result<(), UpsertError>, target: Extent)
      requires Mem() && Sized(services) && v == w.vip && v in services
          && weights.Keys == services[v].backends.Keys == w.wanted
      requires good ==>
          Under(hash, maps, services, states, stale, w) && ReachAll(w) && FrozenLeft(services, w)
      modifies this`services, this`maps, this`log, this`calls, maglev
      ensures Mem() && Sized(services) && v in services && old(log) <= log && old(calls) <= calls
      ensures r.Ok? <==> CanBuild(old(maglev.free), old(services)[v].ext, weights) && Smooth(answers, old(calls), calls)
      ensures r.Err? ==> RebuildFailure(r.error) && services == old(services) && maglev.free == old(maglev.free)
      ensures r.Err? ==> if r.error == SlotRefused then !Smooth(answers, old(calls), calls)
                         else !CanBuild(old(maglev.free), old(services)[v].ext, weights)
      ensures r.Ok? ==> Rebuilt(hash, old(services), services, maps, v, weights) && services[v].ext == target
      ensures Outgrown(old(services)[v].ext, ClassFor(|weights|)) ==>
          ExtentSlots(target) !! ExtentSlots(old(services)[v].ext)
      ensures forall i :: |old(log)| <= i < |log| ==> SameOutside(old(maps), log[i], target)
      ensures Spares(old(maps), maps, old(services) - {v}, v)
      ensures good ==> Under(hash, maps, services, states, stale, w)
      ensures good ==> SafeSince(old(log), log, w.guard)
    {
      hide Counted, PoolValid, FreeListValid, Slots, ExtentSlots, Under, Safe, SameOutside, ExtentsAgree, SidsOf,
        Smooth, Named, FrozenLeft, CanBuild, Rebuilt, WithSlice, Resolved, SafeSince, Placed, Outgrown, ClassFor, Sized,
          Spares;
      target := NO_EXTENT;
      NoExtentSlots(services[v].ext);
      SmoothNone(answers, calls);
      NothingWritten(log, w.guard);
      TablesApart(maps, maps, services - {v}, v);
      Matched();
      ghost var e := services[v];
      assert |weights| == |weights.Keys| == |w.wanted|;
      var moved := Outgrown(services[v].ext, ClassFor(|weights|));
      var placed := PlaceTable(v, weights);
      if placed.Err? {
        return Err(placed.error), target;
      }
      target := placed.value.ext;
      PlacedFacts(hash, services, old(maglev.free), maglev.free, v, placed.value, weights);
      if good {
        TargetUntouched(services, old(maglev.free), w, target, moved);
      }
      var ok := WriteTable(v, target, placed.value.table, placed.value.names, good, w);
      SlotsApart(old(maps), maps, services, v, target);
      if !ok {
        ReturnExtent(target, moved, old(maglev.free));
        return Err(SlotRefused), target;
      }
      PlacedRebuilds(hash, services, services[v := e.(ext := target)], old(maps), v, old(maglev.free), maglev.free,
        placed.value, weights);
      if good {
        WrittenNames(old(maps), services, states, backendIds.ids, v, target, placed.value.table, placed.value.names,
          w.loose[v]);
        EntryUnder(hash, maps, services, states, stale, w, e.(ext := target));
      }
      CommitExtent(v, target, moved, old(maglev.free));
      assert Sized(services) by { ResizedIsSized(old(services), v, e.(ext := target)); }
      return Ok(()), target;
    }

    /** Points the entry at its new extent, then frees the old one. */
    method CommitExtent(v: VipId, target: Extent, moved: bool, ghost before: seq<Extent>)
      requires Parts() && serviceIds.ids == SidsOf(services) && Counted(services, states, backendIds.ids, lost)
      requires ExtentsAgree(services, before) && v in services && target.End() <= MAGLEV_M
      requires Taken(target, moved, services[v].ext, before, maglev.free)
      modifies this`services, maglev
      ensures Mem() && services == old(services)[v := old(services)[v].(ext := target)]
    {
      hide Counted, PoolValid, Slots, ExtentSlots, ExtentsAgree, SidsOf, FreeListValid;
      var e := services[v];
      var e' := e.(ext := target);
      ghost var taken := maglev.free;
      services := services[v := e'];
      if moved {
        StillHeld(old(services), before, v, target, taken);
        maglev.Free(e.ext);
      }
      ExtentMoved(old(services), before, v, e', moved, taken, maglev.free);
      BackendsKept(old(services), states, backendIds.ids, lost, v, e');
      SidsSame(old(services), v, e');
    }

    // ---- The VIP maps.

    /** vipMapWrite: packets of v find its service from here on. When the kernel refuses one block
        of a range, the blocks written before it are deleted. */
    method InstallVip(v: VipId, ghost good: bool, ghost w: Watch) returns (ok: bool)
      requires Mem() && v == w.vip && v in services && (good ==> Under(hash, maps, services, states, stale, w))
      modifies this`maps, this`log, this`calls
      ensures Mem() && old(log) <= log && old(calls) <= calls
      ensures ok <==> Smooth(answers, old(calls), calls)
      ensures maps == old(maps).(vip := maps.vip, ranges := maps.ranges)
      ensures ok ==> Installed(maps, v)
      ensures Spares(old(maps), maps, services - {v}, v)
      ensures !ok ==> maps.vip == old(maps.vip) && RolledBack(old(maps.ranges), maps.ranges, v, calls - old(calls) - 1)
      ensures good && ok ==> Under(hash, maps, services, states, stale, w) && SafeSince(old(log), log, w.guard)
      ensures good && !ok ==>
          Under(hash, maps, services, states, stale, Lax(w)) && SafeSince(old(log), log, Lax(w).guard)
    {
      hide Under, Mem, Safe, Smooth, Lax, SafeSince, RolledBack, Installed, Weaker, Spares;
      SmoothNone(answers, calls);
      NothingWritten(log, w.guard);
      if v.IsRange() {
        ok := InstallRange(v, good, w);
        return;
      }
      var k := ExactKey(v.addr, v.port, v.proto);
      Shape();
      if good {
        Matched();
        InstallExactUnder(hash, maps, services, states, backendIds.ids, stale, w, k);
        LaxWeaker(w);
        LaxUnder(hash, maps, services, states, stale, w);
      }
      ok := TryVip(WithVip(maps, k, services[v].sid));
      SmoothOne(answers, old(calls), old(calls), ok);
      ExactWritten(old(maps), v, k, services[v].sid);
      ExactApart(old(maps), services - {v}, v, k, services[v].sid);
      if good {
        OneWritten(old(maps), maps, old(log), log, ok, w.guard);
        SafeRelaxes(old(log), log, w.guard, Lax(w).guard);
      }
    }

    /** A checked update of a VIP map. */
    method TryVip(m: Maps) returns (ok: bool)
      requires Mem() && m == maps.(vip := m.vip, ranges := m.ranges)
      modifies this`maps, this`log, this`calls
      ensures Mem() && ok == answers(old(calls)) && calls == old(calls) + 1
      ensures if ok then maps == m && log == old(log) + [m] else maps == old(maps) && log == old(log)
    {
      hide Counted, ExtentsAgree, PoolValid, FreeListValid, SidsOf;
      ok := Try(m);
    }

    /** rangeMapWrite. */
    method InstallRange(v: VipId, ghost good: bool, ghost w: Watch) returns (ok: bool)
      requires Mem() && v == w.vip && v in services && v.IsRange()
          && (good ==> Under(hash, maps, services, states, stale, w))
      modifies this`maps, this`log, this`calls
      ensures Mem() && old(log) <= log && old(calls) <= calls
      ensures ok <==> Smooth(answers, old(calls), calls)
      ensures maps == old(maps).(ranges := maps.ranges)
      ensures ok ==> Installed(maps, v)
      ensures Spares(old(maps), maps, services - {v}, v)
      ensures !ok ==> RolledBack(old(maps.ranges), maps.ranges, v, calls - old(calls) - 1)
      ensures good && ok ==> Under(hash, maps, services, states, stale, w) && SafeSince(old(log), log, w.guard)
      ensures good && !ok ==>
          Under(hash, maps, services, states, stale, Lax(w)) && SafeSince(old(log), log, Lax(w).guard)
    {
      hide Under, Mem, Safe, Smooth, Lax, SafeSince, RolledBack, Installed, BlockKeys, Tiling, RangesGrown, Spares;
      SmoothNone(answers, calls);
      NothingWritten(log, w.guard);
      NoneGrown(maps.ranges, v);
      var blocks := RangeBlocks(v.port, v.portEnd);
      for i := 0 to |blocks|
        invariant Mem() && old(log) <= log && calls == old(calls) + i && Smooth(answers, old(calls), calls)
        invariant maps == old(maps).(ranges := maps.ranges) && RangesGrown(old(maps.ranges), maps.ranges, v, i)
        invariant good ==> Under(hash, maps, services, states, stale, w) && SafeSince(old(log), log, w.guard)
      {
        var k := RangeKey(v.addr, v.proto, blocks[i]);
        ghost var log1, m1 := log, maps;
        Shape();
        if good {
          Matched();
          BlockOwned(v, i);
          InstallRangeUnder(hash, maps, services, states, backendIds.ids, stale, w, k);
        }
        ok := TryVip(WithRange(maps, k, services[v].sid));
        SmoothOne(answers, old(calls), old(calls) + i, ok);
        if !ok {
          Rollback(v, blocks, i, good, w, old(log));
          GrownRollsBack(old(maps.ranges), m1.ranges, maps.ranges, v, i);
          RolledApart(old(maps), maps, services - {v}, v, calls - old(calls) - 1);
          return;
        }
        GrownNext(old(maps.ranges), m1.ranges, v, i, k, services[v].sid);
        if good {
          OneWritten(m1, maps, log1, log, ok, w.guard);
          SafeJoin(old(log), log1, log, w.guard);
        }
      }
      AllGrown(old(maps.ranges), maps, v);
      GrownApart(old(maps), maps, services - {v}, v, |blocks|);
      ok := true;
    }

    /** rangeMapDeleteBlocks on the first count blocks. */
    method Rollback(v: VipId, blocks: seq<PortBlock>, count: nat, ghost good: bool, ghost w: Watch,
        ghost from: seq<Maps>)
      requires Mem() && v == w.vip && v in services && from <= log
      requires v.IsRange() && blocks == Tiling(v.port, v.portEnd) && count <= |blocks|
      requires good ==> Under(hash, maps, services, states, stale, w) && SafeSince(from, log, w.guard)
      modifies this`maps, this`log
      ensures Mem() && old(log) <= log && maps == old(maps).(ranges := maps.ranges)
      ensures maps.ranges == old(maps.ranges) - BlockKeys(v, count)
      ensures good ==> Under(hash, maps, services, states, stale, Lax(w)) && SafeSince(from, log, Lax(w).guard)
    {
      hide Under, Counted, ExtentsAgree, Safe, PoolValid, FreeListValid, SidsOf, Named, Weaker;
      if good {
        LaxUnder(hash, maps, services, states, stale, w);
        SafeRelaxes(from, log, w.guard, Lax(w).guard);
      }
      for i := 0 to count
        invariant Mem() && old(log) <= log && maps == old(maps).(ranges := maps.ranges)
        invariant maps.ranges == old(maps.ranges) - BlockKeys(v, i)
        invariant good ==> Under(hash, maps, services, states, stale, Lax(w)) && SafeSince(from, log, Lax(w).guard)
      {
        var k := RangeKey(v.addr, v.proto, blocks[i]);
        BlockKeysNext(v, i);
        Matched();
        if good {
          UninstallRangeUnder(hash, maps, services, states, backendIds.ids, stale, Lax(w), k);
        }
        Write(WithoutRange(maps, k));
      }
    }

    /** vipMapDelete: no packet finds v's service any more. */
    method UninstallVip(v: VipId, ghost good: bool, ghost w: Watch)
      requires Mem() && v == w.vip && v in services
      requires good ==> Under(hash, maps, services, states, stale, w) && v !in w.guard.installed
      modifies this`maps, this`log
      ensures Mem() && old(log) <= log
      ensures maps == old(maps).(vip := maps.vip, ranges := maps.ranges)
      ensures forall k :: k in maps.vip ==> ExactVip(k) != v
      ensures forall k :: k in maps.ranges ==> !Owns(v, k)
      ensures good ==> Under(hash, maps, services, states, stale, w) && SafeSince(old(log), log, w.guard)
    {
      hide Under, Counted, ExtentsAgree, Safe, PoolValid, FreeListValid, SidsOf, Tiling, Named;
      Matched();
      if !v.IsRange() {
        var k := ExactKey(v.addr, v.port, v.proto);
        if good {
          UninstallExactUnder(hash, maps, services, states, backendIds.ids, stale, w, k);
        }
        Write(WithoutVip(maps, k));
        return;
      }
      var blocks := RangeBlocks(v.port, v.portEnd);
      for i := 0 to |blocks|
        invariant Mem() && old(log) <= log
        invariant maps == old(maps).(vip := maps.vip, ranges := maps.ranges) && maps.vip == old(maps.vip)
        invariant forall j :: 0 <= j < i ==> RangeKey(v.addr, v.proto, blocks[j]) !in maps.ranges
        invariant good ==> Under(hash, maps, services, states, stale, w) && SafeSince(old(log), log, w.guard)
      {
        var k := RangeKey(v.addr, v.proto, blocks[i]);
        Matched();
        if good {
          UninstallRangeUnder(hash, maps, services, states, backendIds.ids, stale, w, k);
        }
        Write(WithoutRange(maps, k));
      }
    }

    // ---- upsertVIPLocked.

    /** A VIP seen for the first time gets a service ID and an empty entry. */
    method Register(v: VipId, ghost good: bool, ghost wanted: set<Endpoint>) returns (r: Result<(), UpsertError>)
      requires Mem() && Sized(services) && v !in services && (good ==> CanTake(v))
      modifies this`services, serviceIds
      ensures Mem() && Sized(services)
      ensures r.Ok? <==> |old(services)| < MAX_VIPS
      ensures r.Err? ==> services == old(services) && r.error == NoServiceId
      ensures r.Ok? ==> Entered(old(services), services, v)
      ensures r.Ok? && good ==>
                Under(hash, maps, services, states, stale,
                  WatchOf(old(services), states, maps, Wrong(), v, wanted, false))
    {
      hide Counted, ExtentsAgree, AgreeBut, Under, PoolValid, FreeListValid, Compatible, WatchOf, Named,
        Sized, SidsOf, Entered;
      SidCount();
      Matched();
      var got := serviceIds.Alloc(v);
      if got.Err? {
        return Err(NoServiceId);
      }
      var e := EntryOf(services, v).(sid := got.value);
      EntersAs(services, v, got.value);
      FreshSid(services, old(serviceIds.ids), e.sid);
      RegisterBackends(services, states, backendIds.ids, lost, v, e);
      SameExtents(services, maglev.free, v, e);
      if good {
        UnderRegister(hash, maps, services, states, backendIds.ids, Wrong(), v, e, wanted);
      }
      services := services[v := e];
      return Ok(());
    }

    lemma OtherSids(v: VipId)
      requires Mem() && v in services
      ensures forall u :: u in services && u != v ==> services[u].sid != services[v].sid
    {
      forall u | u in services && u != v
        ensures services[u].sid != services[v].sid
      {
        assert serviceIds.ids[u] == services[u].sid && serviceIds.ids[v] == services[v].sid;
      }
    }

    lemma SidCount()
      requires Mem()
      ensures |services| == |serviceIds.ids| <= MAX_VIPS
    {
      assert |SidsOf(services)| == |services| by { assert SidsOf(services).Keys == services.Keys; }
      PoolCount(serviceIds.ids, serviceIds.free, serviceIds.next, serviceIds.max);
    }

    /** The update of the service configuration. */
    method WriteConfig(v: VipId, cfg: ServiceConfig, ghost good: bool, ghost w: Watch) returns (ok: bool)
      requires Mem() && v == w.vip && v in services && services[v].sid < MAX_VIPS
          && Extent(cfg.offset, cfg.size) == services[v].ext
      requires good ==> Under(hash, maps, services, states, stale, w)
      modifies this`maps, this`log, this`calls
      ensures Mem() && ok == answers(old(calls)) && calls == old(calls) + 1 && old(log) <= log
      ensures services[v].sid < |old(maps).svc|
      ensures maps == if ok then WithService(old(maps), services[v].sid, cfg) else old(maps)
      ensures Spares(old(maps), maps, services - {v}, v)
      ensures good ==> Under(hash, maps, services, states, stale, w) && SafeSince(old(log), log, w.guard)
    {
      hide Counted, ExtentsAgree, Safe, PoolValid, FreeListValid, SidsOf, Under, Named, Spares;
      Matched();
      if good {
        PublishUnder(hash, maps, services, states, backendIds.ids, stale, w, cfg);
      }
      OtherSids(v);
      ConfigApart(maps, services, v, cfg);
      TablesApart(maps, maps, services - {v}, v);
      ok := Try(WithService(maps, services[v].sid, cfg));
    }

    /** The end of upsertVIPLocked: the VIP counts as specified so. */
    method Record(v: VipId, spec: Vip)
      requires Mem() && Sized(services) && v in services
      modifies this`services
      ensures Mem() && Sized(services)
      ensures services == old(services)[v := old(services)[v].(spec := Some(spec), vip := spec)]
    {
      hide Counted, ExtentsAgree, PoolValid, FreeListValid, SidsOf;
      var e' := services[v].(spec := Some(spec), vip := spec);
      services := services[v := e'];
      BackendsKept(old(services), states, backendIds.ids, lost, v, e');
      SameExtents(old(services), maglev.free, v, e');
      SidsSame(old(services), v, e');
    }

    /** The writes that end an upsert: the service configuration, then the VIP map entries; only
        when both are through does the VIP count as specified so. */
    method PublishVip(v: VipId, spec: Vip, ghost good: bool, ghost w: Watch) returns (r: Result<(), UpsertError>)
      requires Mem() && Sized(services) && v == w.vip && v in services && spec.id == v && services[v].sid < MAX_VIPS
      requires good ==> Under(hash, maps, services, states, stale, w)
      modifies this`services, this`maps, this`log, this`calls
      ensures Mem() && Sized(services) && old(log) <= log && old(calls) <= calls
      ensures r.Ok? <==> Smooth(answers, old(calls), calls)
      ensures r.Err? ==> services == old(services) && PublishFailure(r.error)
      ensures r.Ok? ==> services == old(services)[v := old(services)[v].(spec := Some(spec), vip := spec)]
      ensures r.Ok? ==> v in services && Installed(maps, v)
      ensures Spares(old(maps), maps, old(services) - {v}, v) && maps.maglev == old(maps.maglev)
      ensures r.Ok? ==> Published(maps, v, services[v])
      ensures r.Ok? ==> (Settled(hash, maps, v, services[v]) <==> SettledAs(hash, old(maps), old(services)[v], spec))
      ensures good && r != Err(VipRefused) ==>
          Under(hash, maps, services, states, stale, w) && SafeSince(old(log), log, w.guard)
      ensures good && r == Err(VipRefused) ==>
          Under(hash, maps, services, states, stale, Lax(w)) && SafeSince(old(log), log, Lax(w).guard)
    {
      hide Mem, Safe, Under, Settled, TableSettled, Installed, Smooth, Lax, Weaker, RolledBack, Spares, SettledAs,
        SafeSince, Published, Sized;
      ghost var e := services[v].(spec := Some(spec), vip := spec);
      ghost var log1, m;
      SmoothNone(answers, calls);
      var ok := WriteConfig(v, ConfigOf(v, services[v].(spec := Some(spec), vip := spec)), good, w);
      SmoothOne(answers, old(calls), old(calls), ok);
      if !ok {
        return Err(ConfigRefused);
      }
      log1, m := log, maps;
      var installed := InstallVip(v, good, w);
      SmoothJoin(answers, old(calls), old(calls) + 1, calls);
      ApartThen(old(maps), m, maps, services - {v}, v);
      if !installed {
        if good {
          LaxWeaker(w);
          SafeRelaxes(old(log), log1, w.guard, Lax(w).guard);
          SafeJoin(old(log), log1, log, Lax(w).guard);
        }
        return Err(VipRefused);
      }
      Record(v, spec);
      SettledIs(hash, old(maps), m, maps, v, old(services)[v], spec);
      if good {
        SafeJoin(old(log), log1, log, w.guard);
        EntryUnder(hash, maps, old(services), states, stale, w, e);
      }
      return Ok(());
    }

    /** The weights part of upsertVIPLocked's decision to rebuild, and the rebuild. */
    method RebuildIfChanged(v: VipId, spec: Vip, changed: bool, ghost good: bool, ghost w: Watch)
      returns (r: Result<(), UpsertError>)
      requires Mem() && Sized(services) && v == w.vip && v in services
      requires WeightsOf(spec.backends).Keys == services[v].backends.Keys == w.wanted
      requires good ==>
          Under(hash, maps, services, states, stale, w) && ReachAll(w) && FrozenLeft(services, w)
      modifies this`services, this`maps, this`log, this`calls, maglev
      ensures Mem() && Sized(services) && v in services && old(log) <= log && old(calls) <= calls
      ensures Resized(old(services), services, v)
      ensures FinishVerdict(r, old(services)[v], old(maglev.free), WeightsOf(spec.backends), changed,
                Smooth(answers, old(calls), calls))
      ensures r.Err? ==> RebuildFailure(r.error) && services == old(services) && maglev.free == old(maglev.free)
      ensures r.Ok? ==>
          (SettledAs(hash, maps, services[v], spec) <==> EndsSettled(hash, old(maps), old(services)[v], spec, changed))
      ensures Spares(old(maps), maps, old(services) - {v}, v)
      ensures TableStays(old(maps), old(services)[v], spec, changed, maps, services[v])
      ensures r.Ok? ==> services[v].ext == old(services)[v].ext
                        || NewExtent(old(services)[v].ext, ClassFor(|services[v].backends|), services[v].ext)
      ensures good ==> Under(hash, maps, services, states, stale, w)
      ensures good ==> SafeSince(old(log), log, w.guard)
    {
      hide Under, Safe, Mem, TableSettled, SameOutside, WeightsOf, Sized, CanBuild, Smooth, ExtentSlots, Rebuilt,
        FrozenLeft, Outgrown, NewExtent, Spares;
      var weights := WeightsOf(spec.backends);
      var reweighted := WeightsDiffer(WeightsOf(services[v].vip.backends), weights);
      SmoothNone(answers, calls);
      TablesApart(maps, maps, services - {v}, v);
      if changed || reweighted {
        var target;
        r, target := Rebuild(v, weights, good, w);
        if r.Ok? {
          Shape();
          RebuiltSettles(hash, old(services), services, maps, v, spec);
        } else {
          SameEntry(services, v);
        }
      } else {
        SameEntry(services, v);
        r := Ok(());
      }
    }

    /** upsertVIPLocked once the backends are grouped: the table, the configuration, the VIP maps. */
    method Finish(v: VipId, spec: Vip, changed: bool, ghost good: bool, ghost w: Watch)
      returns (r: Result<(), UpsertError>)
      requires Mem() && Sized(services) && v == w.vip && v in services && spec.id == v
      requires WeightsOf(spec.backends).Keys == services[v].backends.Keys == w.wanted
      requires good ==>
          Under(hash, maps, services, states, stale, w) && ReachAll(w) && FrozenLeft(services, w)
      modifies this`services, this`maps, this`log, this`calls, maglev
      ensures Mem() && Sized(services) && old(log) <= log && old(calls) <= calls
      ensures Finished(old(services), services, spec, r.Ok?) && v in services
      ensures r.Err? && !PublishFailure(r.error) ==>
          maglev.free == old(maglev.free) && services[v].ext == old(services)[v].ext
      ensures FinishVerdict(r, old(services)[v], old(maglev.free), WeightsOf(spec.backends), changed,
                Smooth(answers, old(calls), calls))
      ensures Spares(old(maps), maps, old(services) - {v}, v)
      ensures TableStays(old(maps), old(services)[v], spec, changed, maps, services[v])
      ensures r.Ok? ==> Published(maps, v, services[v]) && Installed(maps, v)
      ensures r.Ok? ==>
          (Settled(hash, maps, v, services[v]) <==> EndsSettled(hash, old(maps), old(services)[v], spec, changed))
      ensures good && r != Err(VipRefused) ==>
          Under(hash, maps, services, states, stale, w) && SafeSince(old(log), log, w.guard)
      ensures good && r == Err(VipRefused) ==>
          Under(hash, maps, services, states, stale, Lax(w)) && SafeSince(old(log), log, Lax(w).guard)
    {
      hide Under, Safe, Mem, WeightsOf, Sized, Smooth, Lax, FrozenLeft, Weaker, SafeSince, TableChanges, CanBuild,
        Spares,
        Resized, Finished, FinishVerdict, TableStays, SettledAs, EndsSettled, Settled, Published, Installed, NewExtent,
        ReachAll;
      r := RebuildIfChanged(v, spec, changed, good, w);
      ghost var log1, built, calls1, m1, r1 := log, services, calls, maps, r;
      ResizedFacts(old(services), built, v);
      if r.Err? {
        Finishes(old(services), built, built, spec, false);
        return;
      }
      Shape();
      r := PublishVip(v, spec, good, w);
      SmoothJoin(answers, old(calls), calls1, calls);
      PublishedVerdict(r1, r, old(services)[v], old(maglev.free), WeightsOf(spec.backends), changed,
        Smooth(answers, old(calls), calls1), Smooth(answers, calls1, calls), Smooth(answers, old(calls), calls));
      ApartThen(old(maps), m1, maps, built - {v}, v);
      TableStaysOn(old(maps), m1, maps, old(services)[v], built[v], services[v], spec, changed);
      LogsGrow(old(log), log1, log);
      Finishes(old(services), built, services, spec, r.Ok?);
      if good {
        if r == Err(VipRefused) {
          LaxWeaker(w);
          SafeRelaxes(old(log), log1, w.guard, Lax(w).guard);
          SafeJoin(old(log), log1, log, Lax(w).guard);
        } else {
          SafeJoin(old(log), log1, log, w.guard);
        }
      }
    }

    /** upsertVIPLocked from the point where the VIP has an entry. */
    method Reconcile(v: VipId, spec: Vip, isNew: bool, ghost good: bool, ghost w: Watch)
      returns (r: Result<(), UpsertError>)
      requires Mem() && Sized(services) && v == w.vip && v in services && spec.id == v
          && WeightsOf(spec.backends).Keys == w.wanted
      requires good ==>
          Under(hash, maps, services, states, stale, w) && ReachAll(w) && FrozenLeft(services, w)
      modifies this`services, this`states, this`maps, this`log, this`calls, this`lost, this`stale, backendIds, maglev
      ensures Mem() && Sized(services) && old(log) <= log && old(calls) <= calls
      ensures Upserted(old(services), services, spec, r.Ok?)
      ensures FlagsKept(old(states), old(backendIds.ids), states, backendIds.ids)
      ensures lost == LostAfter(old(lost), r) && Wider(old(backendIds.ids), backendIds.ids, w.wanted)
      ensures r.Err? ==> NotTaken(r.error, services, v)
      ensures r.Err? && !PublishFailure(r.error) ==>
                maglev.free == old(maglev.free) && v in services && services[v].ext == old(services)[v].ext
      ensures Verdict(r, old(services), old(states), old(backendIds.ids), old(maglev.free), spec, isNew,
                Smooth(answers, old(calls), calls))
      ensures StaleBy(old(stale), stale, backendIds.ids, r) && (r.Ok? ==> Written(old(services), services, stale, v))
      ensures Peaks(old(backendIds.next), backendIds.next, backendIds.ids)
      ensures Spares(old(maps), maps, old(services) - {v}, v)
      ensures v in services && TableKept(old(maps), old(services)[v], spec, isNew, r, maps, services[v])
      ensures r.Ok? ==> Published(maps, v, services[v]) && Installed(maps, v)
      ensures r.Ok? ==>
          (Settled(hash, maps, v, services[v]) <==> EndsSettled(hash, old(maps), old(services)[v], spec, isNew))
      ensures good && r != Err(VipRefused) ==>
          Under(hash, maps, services, states, stale, w) && SafeSince(old(log), log, w.guard)
      ensures good && r == Err(VipRefused) ==>
          Under(hash, maps, services, states, stale, Lax(w)) && SafeSince(old(log), log, Lax(w).guard)
    {
      hide Under, Safe, Mem, WeightsOf, Upserted, FlagsOf, Sized, Smooth, Lax, FrozenLeft, FlagsKept, Weaker, SafeSince,
        GroupWhy, TableChanges, CanBuild, KnownAfter, MacsOf, MacsParse, RoomFor, Regrouped, SameTables, Finished,
        FinishVerdict, Verdict, Spares, TableKept, TableStays, Peaks, StaleBy, Written, NotTaken, LostAfter, Wider,
        Published, Installed, Settled, EndsSettled, ReachAll;
      var grouped := Regroup(v, MacsOf(spec.backends), good, w);
      ghost var mid, log1, calls1, m1 := services, log, calls, maps;
      RegroupedFacts(old(services), mid, v, w.wanted);
      assert mid - {v} == old(services) - {v};
      TablesApart(old(maps), maps, mid - {v}, v);
      GroupVerdict(grouped, old(services), old(states), old(backendIds.ids), maglev.free, spec, isNew,
        Smooth(answers, old(calls), calls));
      if grouped.Err? {
        RegroupedUpserts(old(services), mid, spec);
        TableKeptSame(old(maps), maps, old(services)[v], mid[v], spec, isNew, Err(grouped.error));
        return Err(grouped.error);
      }
      RegroupedSame(old(services), mid, v, w.wanted);
      TableFate(hash, old(maps), maps, old(services)[v], mid[v], spec, grouped.value, isNew);
      FrozenStays(old(services), mid, w);
      ChangesSame(old(services)[v], mid[v], WeightsOf(spec.backends), grouped.value, isNew);
      r := Finish(v, spec, grouped.value || isNew, good, w);
      FinishedFacts(mid, services, spec, r.Ok?);
      SmoothJoin(answers, old(calls), calls1, calls);
      LogsGrow(old(log), log1, log);
      ApartThen(old(maps), m1, maps, mid - {v}, v);
      FinishFailure(r, mid[v], old(maglev.free), WeightsOf(spec.backends), grouped.value || isNew,
        Smooth(answers, calls1, calls), Smooth(answers, old(calls), calls));
      TableKeptBy(old(maps), m1, maps, old(services)[v], mid[v], services[v], spec, isNew, grouped.value || isNew, r);
      StaleSame(old(stale), stale, backendIds.ids, r);
      NothingLost(old(lost), services, v, r);
      WrittenThen(old(services), mid, services, stale, v);
      FinishIsVerdict(r, old(services), old(states), old(backendIds.ids), old(maglev.free), spec, isNew, mid[v],
        grouped.value || isNew, Smooth(answers, old(calls), calls));
      FinishedUpserts(old(services), mid, services, spec, r.Ok?);
      SafeJoins(old(log), log1, log, w.guard);
      LaxJoins(old(log), log1, log, w);
    }

    /** upsertVIPLocked. It succeeds exactly when the specification can be met from here and the kernel
        accepts every update. A VIP keeps its service ID and a backend that stays keeps its ID and
        drains. After every single write packets reach only backends the VIP had or is getting, every
        VIP that agreed is still found, the IDs of listed backends mean what they meant, those not
        healthy stay so, and no slot changes that another VIP uses, or that this one's published
        configuration points at while its table moves. All that holds whatever was amiss before. A
        failed upsert leaves only its own VIP, and the backend it stopped at, amiss; a successful one
        leaves the VIP in agreement exactly if it rebuilds the table or finds it right already. */
    method UpsertLocked(spec: Vip) returns (r: Result<(), UpsertError>)
      requires Mem() && Sized(services)
      modifies this`services, this`states, this`maps, this`log, this`calls, this`lost, this`loose, this`stale,
        serviceIds, backendIds, maglev
      ensures Mem() && Sized(services) && old(log) <= log && old(calls) <= calls
      ensures Upserted(old(services), services, spec, r.Ok?)
      ensures FlagsKept(old(states), old(backendIds.ids), states, backendIds.ids)
      ensures r.Ok? <==> old(Accepts(spec)) && WentSmoothly(old(calls))
      ensures r.Err? ==>
                Why(r.error, old(services), old(states), old(backendIds.ids), old(maglev.free), spec,
                  WentSmoothly(old(calls)))
      ensures lost == LostAfter(old(lost), r)
      ensures Wider(old(backendIds.ids), backendIds.ids, WeightsOf(spec.backends).Keys)
      ensures r.Err? ==> NotTaken(r.error, services, spec.id)
      ensures r.Err? && !PublishFailure(r.error) ==>
          maglev.free == old(maglev.free) && SameExtent(old(services), services, spec.id)
      ensures StaleBy(old(stale), stale, backendIds.ids, r)
          && (r.Ok? ==> Written(old(services), services, stale, spec.id))
      ensures Spares(old(maps), maps, old(services) - {spec.id}, spec.id)
          && TableLeft(old(maps), old(services), spec, r, maps, services)
      ensures Peaks(old(backendIds.next), backendIds.next, backendIds.ids)
      ensures loose == LooseAfter(hash, old(maps), old(services), old(loose), spec, r)
      ensures r.Ok? ==> HealsIff(hash, old(maps), old(services), spec, maps, services)
      ensures old(CanTake(spec.id)) ==> Partly()
      ensures old(CanTake(spec.id)) ==>
          SafeSince(old(log), log, UpsertGuard(old(services), old(states), old(maps), old(Wrong()), spec, r))
    {
      hide Under, Safe, Mem, AgreeBut, WeightsOf, Upserted, FlagsKept, Compatible, WatchOf, Sized, Smooth, Acceptable,
        FrozenLeft, Met, Lax, SafeSince, Why, WhyNot, Heals, TableSettled, Settled, Installed, TableChanges,
        LooseAfter, Loosened, Written, UpsertGuard, StaleBy, NotTaken, LostAfter, EndsSettled, Wider, Spares, TableKept,
          TableLeft, Peaks, Published, Verdict;
      var v := spec.id;
      ghost var wanted := WeightsOf(spec.backends).Keys;
      ghost var w := WatchOf(services, states, maps, Wrong(), v, wanted, false);
      WatchFacts(services, states, maps, Wrong(), v, wanted, false);
      ghost var good := CanTake(v);
      SmoothNone(answers, calls);
      SidCount();
      var isNew := v !in services;
      if isNew {
        var registered := Register(v, good, wanted);
        if registered.Err? {
          NotUpserted(services, spec);
          NoIdIsWhy(services, states, backendIds.ids, maglev.free, spec, WentSmoothly(old(calls)));
          NeedsServiceId(services, states, backendIds.ids, maglev.free, spec);
          SameFlags(states, backendIds.ids);
          NothingWritten(log, w.guard);
          NoServiceEnds(lost, stale, backendIds.ids, services, v);
          PeaksNow();
          TablesApart(maps, maps, services - {v}, v);
          TableLeftAlone(maps, services, spec);
          GuardIs(services, states, maps, Wrong(), spec, Err(NoServiceId));
          NotLoosened(hash, maps, services, loose, spec);
          return Err(registered.error);
        }
      } else {
        if good {
          Matched();
          UnderStart(hash, maps, services, states, backendIds.ids, Wrong(), v, wanted, false);
        }
      }
      ghost var entered := services;
      assert Entered(old(services), entered, v);
      EnteredFacts(old(services), entered, v);
      hide Entered;
      MetOnce(old(services), entered, states, backendIds.ids, maglev.free, spec);
      FrozenLeftStart(old(services), services, states, maps, Wrong(), v, wanted);
      HealsWhenKnown(hash, maps, old(services), services, spec, isNew);
      r := Reconcile(v, spec, isNew, good, w);
      TableLeftFrom(old(maps), old(services), entered, spec, isNew, r, maps, services);
      UpsertedFrom(old(services), entered, services, spec, r.Ok?);
      WrittenFrom(old(services), entered, services, stale, v);
      VerdictFacts(r, entered, old(states), old(backendIds.ids), old(maglev.free), spec, isNew,
        WentSmoothly(old(calls)));
      WhyOnce(r, old(services), entered, old(states), old(backendIds.ids), old(maglev.free), spec,
        WentSmoothly(old(calls)));
      KnownHasId(r, entered, old(states), old(backendIds.ids), old(maglev.free), spec, isNew, WentSmoothly(old(calls)));
      GuardIs(old(services), old(states), old(maps), old(Wrong()), spec, r);
      Conclude(spec, r, old(services), old(maps), old(loose), good, w);
    }

    /** What is amiss after the upsert. */
    ghost method Conclude(spec: Vip, r: Result<(), UpsertError>, was: Services, m: Maps, wasLoose: map<VipId,
        set<Endpoint>>, good: bool, w: Watch)
      requires w.vip == spec.id && w.loose == Loosened(was, wasLoose, spec.id, WeightsOf(spec.backends).Keys)
      requires Mem() && Sized(services) && r != Err(NoServiceId)
      requires r.Ok? ==> HealsIff(hash, m, was, spec, maps, services)
      requires good && r != Err(VipRefused) ==> Under(hash, maps, services, states, stale, w)
      requires good && r == Err(VipRefused) ==> Under(hash, maps, services, states, stale, Lax(w))
      modifies this`loose
      ensures Mem() && Sized(services) && loose == LooseAfter(hash, m, was, wasLoose, spec, r) && (good ==> Partly())
    {
      hide Under, AgreeBut, Heals, Settled, Installed, Loosened, WeightsOf, Counted, ExtentsAgree, SidsOf, PoolValid,
        FreeListValid;
      loose := LooseAfter(hash, m, was, wasLoose, spec, r);
      if good {
        UnderEnds(hash, maps, services, states, stale, if r == Err(VipRefused) then Lax(w) else w);
      }
    }

    /** UpsertVIP. Reference counts are right afterwards exactly if the upsert did not fail after counting
        a new backend, which, with IDs for all and every update accepted, is exactly when the hardware
        address of a backend that is new to the VIP does not parse. When nothing but the VIP
        itself is amiss, success brings agreement exactly if the upsert rebuilds the table or finds it
        right; in agreement it always does. */
    method Upsert(spec: Vip) returns (r: Result<(), UpsertError>)
      requires Mem() && Sized(services)
      modifies this`services, this`states, this`maps, this`log, this`calls, this`lost, this`loose, this`stale,
        serviceIds, backendIds, maglev
      ensures Mem() && Sized(services) && old(log) <= log && old(calls) <= calls
      ensures Upserted(old(services), services, spec, r.Ok?)
      ensures FlagsKept(old(states), old(backendIds.ids), states, backendIds.ids)
      ensures r.Ok? <==> old(Accepts(spec)) && WentSmoothly(old(calls))
      ensures r.Err? ==>
                Why(r.error, old(services), old(states), old(backendIds.ids), old(maglev.free), spec,
                  WentSmoothly(old(calls)))
      ensures lost == LostAfter(old(lost), r)
      ensures Wider(old(backendIds.ids), backendIds.ids, WeightsOf(spec.backends).Keys)
      ensures r.Err? ==> NotTaken(r.error, services, spec.id)
      ensures r.Err? && !PublishFailure(r.error) ==>
          maglev.free == old(maglev.free) && SameExtent(old(services), services, spec.id)
      ensures old(BackendsAgree(services, states, backendIds.ids)) ==>
                (BackendsAgree(services, states, backendIds.ids) <==> r.Ok? || !r.error.NotAcquired?)
      ensures Foreseen(old(services), old(states), old(backendIds.ids), spec) && WentSmoothly(old(calls)) ==>
                (r.Err? && r.error.NotAcquired? <==> !NewMacsParse(old(services), spec))
      ensures StaleBy(old(stale), stale, backendIds.ids, r)
          && (r.Ok? ==> Written(old(services), services, stale, spec.id))
      ensures Spares(old(maps), maps, old(services) - {spec.id}, spec.id)
          && TableLeft(old(maps), old(services), spec, r, maps, services)
      ensures Peaks(old(backendIds.next), backendIds.next, backendIds.ids)
      ensures loose == LooseAfter(hash, old(maps), old(services), old(loose), spec, r)
      ensures r.Ok? ==> HealsIff(hash, old(maps), old(services), spec, maps, services)
      ensures old(CanTake(spec.id)) ==> Partly()
      ensures old(CanTake(spec.id)) ==>
          SafeSince(old(log), log, UpsertGuard(old(services), old(states), old(maps), old(Wrong()), spec, r))
      ensures old(CanTake(spec.id) && loose.Keys <= {spec.id}) && r.Ok? && stale == {} ==>
                (InSync() <==> Heals(hash, old(maps), old(services), spec))
      ensures old(InSync() && CanTake(spec.id)) && r.Ok? ==> InSync()
    {
      hide Mem, AgreeBut, WeightsOf, Upserted, FlagsKept, Compatible, Sized, Smooth, Acceptable, BackendsAgree, Counted,
        SafeSince, Why, Foreseen, NewMacsParse, Heals, TableSettled, Settled, Installed, LooseAfter, Loosened, Written,
        UpsertGuard, StaleBy, Agree, SameExtent, NotTaken, Spares, TableLeft, Peaks;
      BackendsInMem();
      ghost var synced := InSync() && CanTake(spec.id);
      r := UpsertLocked(spec);
      BackendsInMem();
      LostOrNot(old(services), old(states), old(backendIds.ids), old(lost), services, states, backendIds.ids, lost, r);
      LosesIff(old(services), old(states), old(backendIds.ids), old(maglev.free), spec, r, WentSmoothly(old(calls)));
      InSyncIff();
      if synced {
        AgreeHeals(hash, old(maps), old(services), old(states), spec);
        StillNothing(stale, backendIds.ids, r);
      }
      NothingLoose(hash, old(maps), old(services), old(loose), spec, r);
    }

    // ---- removeVIPLocked.

    /** RemoveVIP: packets stop finding the VIP, its configuration is zeroed, its backends lose
        one reference each, and its extent and service ID become free. */
    method Remove(v: VipId)
      requires Mem() && Sized(services)
      modifies this`services, this`states, this`maps, this`log, this`loose, this`stale, serviceIds, backendIds, maglev
      ensures Mem() && Sized(services) && old(log) <= log
      ensures services == old(services) - {v} && (v !in old(services) ==> log == old(log))
      ensures FlagsKept(old(states), old(backendIds.ids), states, backendIds.ids)
      ensures backendIds.ids.Keys <= old(backendIds.ids).Keys
      ensures stale <= old(stale) && loose == if v in old(services) then old(loose) - {v} else old(loose)
      ensures old(Partly()) ==> Partly()
      ensures old(Partly()) ==>
          SafeSince(old(log), log, WatchOf(old(services), old(states), old(maps), old(Wrong()), v, {}, true).guard)
      ensures old(InSync()) ==> InSync()
    {
      hide Under, Safe, Mem, Agree, AgreeBut, FlagsOf, Owns, WatchOf, Sized, KnownAfter, FlagsDropped, Loosened;
      ghost var w := WatchOf(services, states, maps, Wrong(), v, {}, true);
      WatchFacts(services, states, maps, Wrong(), v, {}, true);
      InSyncIff();
      if v !in services {
        assert services - {v} == services;
        NothingWritten(log, w.guard);
        return;
      }
      ghost var good := Partly();
      if good {
        Matched();
        UnderStart(hash, maps, services, states, backendIds.ids, Wrong(), v, {}, true);
      }
      var _ := DropBackends(v, good, w, {});
      KnownBefore(old(services), old(states), old(backendIds.ids), v, {});
      FlagsOnlyDropped(old(states), old(backendIds.ids), states, backendIds.ids);
      DroppedFacts(old(services), services, v, {});
      ghost var log1 := log;
      UninstallVip(v, good, w);
      if good {
        SafeJoin(old(log), log1, log, w.guard);
      }
      assert old(services) - {v} == services - {v};
      NothingAdded(old(services), loose, v);
      Forget(v, good, w, old(log));
      InSyncIff();
    }

    /** The end of removeVIPLocked. */
    method Forget(v: VipId, ghost good: bool, ghost w: Watch, ghost from: seq<Maps>)
      requires Mem() && Sized(services) && v == w.vip && v in services && services[v].backends == map[] && from <= log
      requires good ==> Under(hash, maps, services, states, stale, w) && SafeSince(from, log, w.guard)
      requires w.loose - {v} == loose - {v}
      requires (forall k :: k in maps.vip ==> ExactVip(k) != v) && (forall k :: k in maps.ranges ==> !Owns(v, k))
      modifies this`services, this`maps, this`log, this`loose, serviceIds, maglev
      ensures Mem() && Sized(services) && log == old(log) + [maps]
      ensures services == old(services) - {v}
      ensures loose == old(loose) - {v} && (good ==> Partly() && SafeSince(from, log, w.guard))
    {
      hide Under, Safe, AgreeBut, Owns, Mem, Named, Sized;
      Shape();
      Matched();
      ghost var m := WithService(maps, services[v].sid, ZERO_CONFIG);
      if good {
        PublishUnder(hash, maps, services, states, backendIds.ids, stale, w, ZERO_CONFIG);
        UnderRemoved(hash, m, services, states, stale, w);
      }
      Zero(services[v].sid);
      Unregister(v);
    }

    method Zero(sid: nat)
      requires Mem() && sid < MAX_VIPS
      modifies this`maps, this`log
      ensures sid < |old(maps).svc| && Mem() && maps == WithService(old(maps), sid, ZERO_CONFIG)
          && log == old(log) + [maps]
    {
      hide Counted, ExtentsAgree, PoolValid, FreeListValid, SidsOf;
      Write(WithService(maps, sid, ZERO_CONFIG));
    }

    /** The extent and the service ID are free again. */
    method Unregister(v: VipId)
      requires Mem() && Sized(services) && v in services && services[v].backends == map[]
      modifies this`services, this`loose, serviceIds, maglev
      ensures Mem() && Sized(services) && services == old(services) - {v} && loose == old(loose) - {v}
    {
      hide Counted, ExtentsAgree, PoolValid, FreeListValid, Slots, ExtentSlots;
      var e := services[v];
      ForgetBackends(services, states, backendIds.ids, lost, v);
      ExtentHeld(services, maglev.free, v);
      if e.ext.size > 0 {
        maglev.Free(e.ext);
      }
      DropKeeps(services, old(maglev.free), v, maglev.free);
      serviceIds.Release(v);
      services, loose := services - {v}, loose - {v};
      assert SidsOf(services) == SidsOf(old(services)) - {v};
    }

    // ---- Health and drains.

    /** Replaces a backend's flags and writes the health they amount to. When the kernel refuses
        that, the flags are changed all the same. */
    method StoreFlags(id: nat, st: BackendState) returns (ok: bool)
      requires Mem() && id in states
      requires st.ep == states[id].ep && st.refCount == states[id].refCount
      modifies this`states, this`maps, this`log, this`calls, this`stale
      ensures Mem() && states == old(states)[id := st]
      ensures ok == answers(old(calls)) && calls == old(calls) + 1
      ensures id < MAX_BACKENDS && old(log) <= log
      ensures ok ==> maps == WithHealth(old(maps), id, HealthOf(st)) && log == old(log) + [maps]
      ensures !ok ==> maps == old(maps) && log == old(log)
      ensures stale == FlagsStale(old(maps), old(stale), id, ok)
      ensures old(Partly()) ==> Partly()
      ensures old(Partly()) ==>
          SafeSince(old(log), log, RestGuard(services, states, old(maps), old(Wrong())))
      ensures old(InSync()) && ok ==> InSync()
    {
      hide Agree, AgreeBut, ExtentsAgree, PoolValid, FreeListValid, SidsOf, HealthOf, Counted, Named, Safe, RestGuard;
      BackendsInMem();
      Matched();
      IdInRange(states[id].ep, id);
      FlagsBackends(services, states, backendIds.ids, lost, id, st);
      InSyncIff();
      if Partly() {
        FlagsStep(hash, maps, services, states, Wrong(), id, st, answers(calls));
        FlagsSafe(hash, maps, services, states, backendIds.ids, Wrong(), id, st);
      }
      states := states[id := st];
      ok := Try(WithHealth(maps, id, HealthOf(st)));
      stale := FlagsStale(old(maps), stale, id, ok);
      InSyncIff();
    }

    /** SetBackendHealth: the probe's verdict. A backend no longer listed is ignored. */
    method SetBackendHealth(id: nat, healthy: bool) returns (ok: bool)
      requires Mem()
      modifies this`states, this`maps, this`log, this`calls, this`stale
      ensures Mem() && old(log) <= log && |log| <= |old(log)| + 1
      ensures ok <==> id !in old(states) || answers(old(calls))
      ensures states == if id in old(states) then old(states)[id := old(states)[id].(probeHealthy := healthy)]
          else old(states)
      ensures stale == if id in old(states) then FlagsStale(old(maps), old(stale), id, ok) else old(stale)
      ensures old(Partly()) ==> Partly()
      ensures old(Partly()) ==>
          SafeSince(old(log), log, RestGuard(services, states, old(maps), old(Wrong())))
      ensures old(InSync()) && ok ==> InSync()
    {
      hide Mem, Agree, AgreeBut, Safe, RestGuard, FlagsStale;
      if id !in states {
        NothingWritten(log, RestGuard(services, states, maps, Wrong()));
        return true;
      }
      ok := StoreFlags(id, states[id].(probeHealthy := healthy));
    }

    /** SetBackendDraining: Kubernetes' drain, apart from the operator's. */
    method SetBackendDraining(id: nat, draining: bool) returns (ok: bool)
      requires Mem()
      modifies this`states, this`maps, this`log, this`calls, this`stale
      ensures Mem() && old(log) <= log && |log| <= |old(log)| + 1
      ensures ok <==> id !in old(states) || answers(old(calls))
      ensures states == if id in old(states) then old(states)[id := old(states)[id].(draining := draining)]
          else old(states)
      ensures stale == if id in old(states) then FlagsStale(old(maps), old(stale), id, ok) else old(stale)
      ensures old(Partly()) ==> Partly()
      ensures old(Partly()) ==>
          SafeSince(old(log), log, RestGuard(services, states, old(maps), old(Wrong())))
      ensures old(InSync()) && ok ==> InSync()
    {
      hide Mem, Agree, AgreeBut, Safe, RestGuard, FlagsStale;
      if id !in states {
        NothingWritten(log, RestGuard(services, states, maps, Wrong()));
        return true;
      }
      ok := StoreFlags(id, states[id].(draining := draining));
    }

    /** SetBackendAdminDraining: the operator's drain; fails when no VIP lists the backend. */
    method SetBackendAdminDraining(id: nat, draining: bool) returns (ok: bool)
      requires Mem()
      modifies this`states, this`maps, this`log, this`calls, this`stale
      ensures Mem() && old(log) <= log && |log| <= |old(log)| + 1
      ensures ok <==> id in old(states) && answers(old(calls))
      ensures states == if id in old(states) then old(states)[id := old(states)[id].(adminDraining := draining)]
          else old(states)
      ensures ok ==> id < |old(maps).health| && maps == WithHealth(old(maps), id, HealthOf(states[id]))
      ensures stale == if id in old(states) then FlagsStale(old(maps), old(stale), id, ok) else old(stale)
      ensures old(Partly()) ==> Partly()
      ensures old(Partly()) ==>
          SafeSince(old(log), log, RestGuard(services, states, old(maps), old(Wrong())))
      ensures old(InSync()) && ok ==> InSync()
    {
      hide Mem, Agree, AgreeBut, Safe, RestGuard, FlagsStale;
      if id !in states {
        NothingWritten(log, RestGuard(services, states, maps, Wrong()));
        return false;
      }
      Shape();
      ok := StoreFlags(id, states[id].(adminDraining := draining));
    }

    // ---- ReloadVIPs.

    /** The removals of a reload. */
    method RemoveAll(removes: seq<VipId>, ghost want: map<VipId, Vip>, ghost keep: set<Endpoint>, ghost good: bool,
        ghost g: Guard)
      requires Mem() && Sized(services) && Distinct(removes)
      requires forall k :: k in removes ==> k in services && k !in want
      requires Stays(services, want, keep) && InScope(services, g.allowed)
      requires good ==> InSync() && StillMet(services, states, want, g)
      modifies this`services, this`states, this`maps, this`log, this`loose, this`stale, serviceIds, backendIds, maglev
      ensures Mem() && Sized(services) && services == Without(old(services), removes)
      ensures Stays(services, want, keep) && FlagsHeld(old(states), old(backendIds.ids), states, backendIds.ids, keep)
      ensures old(log) <= log && backendIds.ids.Keys <= old(backendIds.ids).Keys
      ensures old(Partly()) ==> Partly()
      ensures lost == multiset{} ==>
          FlagsWhileListed(old(states), old(backendIds.ids), states, backendIds.ids, Current(services))
      ensures good ==> InSync() && StillMet(services, states, want, g) && SafeSince(old(log), log, g)
    {
      hide Mem, Agree, AgreeBut, Safe, FlagsKept, Without, Sized, Stays, FlagsOf, StillMet, InScope, WatchOf, Weaker,
        SafeSince,
        Named, FlagsWhileListed, Current, Counted;
      WithoutNone(services);
      NothingWritten(log, g);
      ListedStart(states, backendIds.ids, Current(services), []);
      for i := 0 to |removes|
        invariant Mem() && Sized(services) && services == Without(old(services), removes[..i])
        invariant Stays(services, want, keep) && FlagsHeld(old(states), old(backendIds.ids), states, backendIds.ids,
            keep)
        invariant old(log) <= log && backendIds.ids.Keys <= old(backendIds.ids).Keys && (old(Partly()) ==> Partly())
        invariant lost == multiset{} ==>
            FlagsWhileListed(old(states), old(backendIds.ids), states, backendIds.ids, Current(services))
        invariant good ==> InSync() && StillMet(services, states, want, g) && SafeSince(old(log), log, g)
      {
        var v := removes[i];
        ghost var log1, before, st, ids, m, a := log, services, states, backendIds.ids, maps, Wrong();
        WithoutNext(old(services), removes, i, g.allowed);
        Matched();
        InSyncIff();
        BackendsInMem();
        Remove(v);
        Matched();
        BackendsInMem();
        if lost == multiset{} {
          WhileListedNext(before, services, old(states), old(backendIds.ids), st, ids, states, backendIds.ids, v);
        }
        StaysWithout(before, v, want, keep);
        FlagsHeldNext(before, services, want, keep, old(states), old(backendIds.ids), st, ids, states, backendIds.ids);
        if good {
          MetAfterRemove(before, st, ids, states, backendIds.ids, want, g, v);
          StepWeaker(before, st, ids, m, want, g, v, {}, true);
          assert a == NOTHING;
          SafeOn(old(log), log1, log, WatchOf(before, st, m, NOTHING, v, {}, true).guard, g);
        }
      }
      assert removes[..|removes|] == removes;
    }

    ghost function Known(): Memory
      reads this, backendIds
    {
      Memory(services, states, backendIds.ids, lost)
    }

    /** The upserts of a reload; one that fails does not stop the others. */
    method UpsertAll(upserts: seq<Vip>, ghost want: map<VipId, Vip>, ghost keep: set<Endpoint>, ghost good: bool,
        ghost g: Guard)
      returns (ok: bool)
      requires Mem() && Sized(services) && services.Keys <= want.Keys
      requires forall i :: 0 <= i < |upserts| ==> upserts[i].id in want && want[upserts[i].id] == upserts[i]
      requires forall i, j :: 0 <= i < j < |upserts| ==> upserts[i].id != upserts[j].id
      requires InScope(services, g.allowed) && WantInScope(want, g.allowed) && Stays(services, want, keep)
      requires good ==> InSync() && Compatible(want.Keys) && StillMet(services, states, want, g)
      modifies this`services, this`states, this`maps, this`log, this`calls, this`lost, this`loose, this`stale,
        serviceIds, backendIds, maglev
      ensures Mem() && Sized(services) && old(log) <= log && old(calls) <= calls
      ensures UpsertsDone(old(Known()), Known(), upserts, |upserts|, want, keep, g.allowed, ok)
      ensures AllAccepted(answers) && AllRefit(old(services), old(backendIds.ids), upserts, 0, AllWanted(want)) ==> ok
      ensures old(Partly()) && Compatible(want.Keys) ==> Partly()
      ensures good && ok ==> InSync() && SafeSince(old(log), log, g)
    {
      hide Mem, Agree, AgreeBut, AllWanted, Safe, Compatible, Sized, Stays, StillMet, InScope, WantInScope, WatchOf,
        Weaker, SafeSince,
        Named, Upserted, FlagsKept, Acceptable, Smooth, Lax, Refits, AllRefit, Why, NotTaken, SameExtent, Counted,
        WeightsOf, UpsertsDone, Unbroken, BackendsAgree;
      ok := true;
      NothingWritten(log, g);
      NoneDone(Known(), upserts, want, keep, g.allowed);
      for i := 0 to |upserts|
        invariant Mem() && Sized(services) && old(log) <= log && old(calls) <= calls
        invariant UpsertsDone(old(Known()), Known(), upserts, i, want, keep, g.allowed, ok)
        invariant AllAccepted(answers) && AllRefit(old(services), old(backendIds.ids), upserts, 0, AllWanted(want)) ==>
            ok && AllRefit(services, backendIds.ids, upserts, i, AllWanted(want))
        invariant old(Partly()) && Compatible(want.Keys) ==> Partly()
        invariant good && ok ==> InSync() && StillMet(services, states, want, g) && SafeSince(old(log), log, g)
      {
        ghost var log1, before, m, calls1, a := log, Known(), maps, calls, Wrong();
        KeysDone(old(Known()), before, upserts, i, want, keep, g.allowed, ok);
        UpsertTurn(upserts, i, want, good && ok);
        Whole();
        var r := Upsert(upserts[i]);
        Whole();
        MoreDone(old(Known()), before, Known(), upserts, i, want, keep, g.allowed, ok, r.Ok?);
        if AllAccepted(answers) && AllRefit(before.services, before.ids, upserts, i, AllWanted(want)) {
          AcceptedIsSmooth(answers, calls1, calls);
          UpsertKeepsRefits(before, Known(), upserts, i, r.Ok?, AllWanted(want));
        }
        if good && ok && r.Ok? {
          UpsertSafe(before, Known(), m, upserts, i, want, g, old(log), log1, log);
        }
        ok := ok && r.Ok?;
      }
    }

    lemma Whole()
      requires Mem()
      ensures Unbroken(Known())
    {
    }

    /** What is known before a turn of that loop. */
    lemma UpsertTurn(upserts: seq<Vip>, i: nat, want: map<VipId, Vip>, good: bool)
      requires Mem() && i < |upserts| && services.Keys <= want.Keys && upserts[i].id in want
          && (good ==> InSync() && Compatible(want.Keys))
      ensures Partly() && Compatible(want.Keys) ==> CanTake(upserts[i].id)
      ensures good ==> Partly()
      ensures AllRefit(services, backendIds.ids, upserts, i, AllWanted(want)) ==> Accepts(upserts[i])
    {
      hide Mem, Agree, AgreeBut, Compatible, Acceptable, Refits, AllWanted, RoomFor, WeightsOf;
      Matched();
      TableFits();
      InSyncIff();
      if Compatible(want.Keys) {
        SubsetCompatible(services.Keys + {upserts[i].id}, want.Keys);
      }
      if AllRefit(services, backendIds.ids, upserts, i, AllWanted(want)) {
        LessRoom(backendIds.ids.Keys, backendIds.ids.Keys, WeightsOf(upserts[i].backends).Keys, AllWanted(want));
        RefitsIsAcceptable(services, states, backendIds.ids, maglev.free, upserts[i]);
      }
    }

    /** ReloadVIPs: when it reports no error, exactly the configured VIPs are left, each as
        configured, and those that were there before kept their service IDs. Errors or not, only
        what is known to be amiss does not agree. It cannot fail when the kernel accepts everything,
        every table fits where the VIP's table is, and there are IDs for all backends, old and new. */
    method Reload(desired: seq<Vip>) returns (ok: bool, plan: ReloadPlan)
      requires Mem() && Sized(services)
      modifies this`services, this`states, this`maps, this`log, this`calls, this`lost, this`loose, this`stale,
        serviceIds, backendIds, maglev
      ensures Mem() && Sized(services) && old(log) <= log && old(calls) <= calls
      ensures KeepsIds(old(services), services, Want(desired))
      ensures FlagsHeld(old(states), old(backendIds.ids), states, backendIds.ids, Staying(old(services), Want(desired)))
      ensures ok ==> services.Keys == Want(desired).Keys && forall k :: k in services ==>
          services[k].spec == Some(Want(desired)[k])
      ensures services.Keys <= Want(desired).Keys && (ok ==> lost == old(lost))
      ensures PlanOk(SpecsOf(old(services)), desired, plan)
      ensures ok && old(lost) == multiset{} ==>
                FlagsReloaded(old(services), old(states), old(backendIds.ids), plan, services, states, backendIds.ids)
      ensures AllAccepted(answers) && FitsWhereItIs(old(services), old(backendIds.ids), Want(desired)) ==> ok
      ensures old(Partly()) && Compatible(Want(desired).Keys) ==> Partly()
      ensures ok && old(InSync()) && Compatible(Want(desired).Keys) ==>
                InSync() && SafeSince(old(log), log, ReloadGuard(old(services), old(states), Want(desired)))
    {
      hide Mem, Agree, AgreeBut, FitsWhereItIs, AllWanted, Safe, Compatible, Sized, Want, Without, Stays, Staying,
        FlagsOf, StillMet, ReloadGuard,
        SafeSince, Named, InScope, WantInScope, KeepsIds, FlagsHeld, Programmed, PlanOk, OthersSame, Smooth, Refits,
        AllRefit, FlagsReloaded, FlagsFollow, FlagsWhileListed, Current, AfterUpserts, SpecsOf, UpsertsDone;
      var current := SpecsOf(services);
      plan := PlanReload(current, desired);
      ghost var want := Want(desired);
      ghost var g := ReloadGuard(services, states, want);
      ghost var good := InSync() && Compatible(want.Keys);
      Matched();
      MetAtStart(services, states, backendIds.ids, want);
      GuardScope(services, states, want);
      ghost var keep := Staying(services, want);
      StayingStays(services, want);
      PlanFacts(current, desired, plan);
      RemoveAll(plan.removes, want, keep, good, g);
      ghost var log1, kept, st, ids := log, services, states, backendIds.ids;
      RemovedOthers(old(services), want, plan.removes, g.allowed);
      if FitsWhereItIs(old(services), old(backendIds.ids), want) {
        RefitAfterRemovals(old(services), old(backendIds.ids), backendIds.ids, want, plan.removes, plan.upserts);
      }
      ghost var before := Known();
      ok := UpsertAll(plan.upserts, want, keep, good, g);
      DoneFacts(before, Known(), plan.upserts, |plan.upserts|, want, keep, g.allowed, ok);
      HeldOn(old(states), old(backendIds.ids), st, ids, states, backendIds.ids, keep);
      if ok {
        if lost == multiset{} {
          ReloadedFlags(old(services), old(states), old(backendIds.ids), kept, st, ids, plan, services, states,
            backendIds.ids);
        }
        ReloadDone(old(services), kept, services, current, want, plan);
      }
      ReloadIds(old(services), kept, services, plan.removes, want);
      if ok && good {
        SafeJoin(old(log), log1, log, g);
      }
    }
  }
}
