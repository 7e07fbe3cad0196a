/** The control plane's in-memory state (internal/dataplane/dataplane.go) as values: what it
    must keep about itself, and how it must agree with the maps. */
module DataplaneState {
  import opened Common
  import opened Types
  import opened Primes
  import opened PortRange
  import opened VipLookup
  import opened BpfMaps
  import opened ExtentAllocation
  import opened IdAllocation
  import opened Maglev
  import opened MaglevFairness

  /** A backend's hardware address as configured: absent, parsed, or text that does not parse. */
  datatype Mac = NoMac | Hardware(bits: nat) | Malformed(text: string)

  datatype BackendSpec = BackendSpec(ep: Endpoint, weight: nat, mac: Mac)

  datatype Vip = Vip(id: VipId, mode: Mode, affinity: Affinity, backends: seq<BackendSpec>)

  /** serviceEntry. spec is what the caller last asked for, absent on an adopted entry. */
  datatype Service = Service(sid: nat, spec: Option<Vip>, vip: Vip, backends: map<Endpoint, nat>, ext: Extent)

  /** backendState, shared by every VIP that lists the backend. */
  datatype BackendState = BackendState(ep: Endpoint, probeHealthy: bool, draining: bool, adminDraining: bool,
    refCount: int)

  type Services = map<VipId, Service>
  type States = map<nat, BackendState>

  const NO_EXTENT := Extent(0, 0)

  /** writeHealthLocked: a failed probe wins over a drain, and either drain suffices. */
  function HealthOf(st: BackendState): Health {
    if !st.probeHealthy then Down
    else if st.draining || st.adminDraining then Draining
    else Healthy
  }

  function FreshState(ep: Endpoint): BackendState {
    BackendState(ep, true, false, false, 0)
  }

  /** The effective weight of each listed backend; a later entry for the same backend wins. */
  function WeightsOf(backends: seq<BackendSpec>): (weights: map<Endpoint, nat>)
    ensures weights.Keys == set b | b in backends :: b.ep
  {
    if backends == [] then
      map[]
    else
      var last := backends[|backends| - 1];
      assert backends == backends[..|backends| - 1] + [last];
      WeightsOf(backends[..|backends| - 1])[last.ep := NormalizeWeight(last.weight)]
  }

  /** The hardware address of each listed backend; again a later entry wins. */
  function MacsOf(backends: seq<BackendSpec>): (macs: map<Endpoint, Mac>)
    ensures macs.Keys == WeightsOf(backends).Keys
  {
    if backends == [] then
      map[]
    else
      var last := backends[|backends| - 1];
      MacsOf(backends[..|backends| - 1])[last.ep := last.mac]
  }

  function SidsOf(services: Services): (sids: map<VipId, nat>)
    ensures sids.Keys == services.Keys
  {
    map v | v in services :: services[v].sid
  }

  // ---- Memory: IDs, reference counts and extents.

  /** The VIPs that list a backend. */
  ghost function Users(services: Services, ep: Endpoint): set<VipId> {
    set v | v in services && ep in services[v].backends
  }

  /** Backend names and IDs correspond one to one, and every allocated ID has a state. */
  ghost predicate IdsMatch(states: States, ids: map<Endpoint, nat>) {
    && (forall id :: id in states ==> states[id].ep in ids && ids[states[id].ep] == id)
    && (forall ep :: ep in ids ==> ids[ep] in states && states[ids[ep]].ep == ep)
  }

  ghost predicate ListedMatch(services: Services, ids: map<Endpoint, nat>) {
    forall v, ep :: v in services && ep in services[v].backends ==> ep in ids && services[v].backends[ep] == ids[ep]
  }

  ghost predicate CountsMatch(services: Services, states: States, lost: multiset<Endpoint>) {
    forall id :: id in states ==>
      states[id].refCount == |Users(services, states[id].ep)| + lost[states[id].ep] && states[id].refCount > 0
  }

  /** Every backend a VIP lists is known under the ID the VIP has for it. */
  ghost predicate Named(services: Services, states: States, ids: map<Endpoint, nat>) {
    IdsMatch(states, ids) && ListedMatch(services, ids)
  }

  /** A backend's reference count is the number of VIPs listing it, plus the references that were
      counted for it and then lost by a failed upsert; its ID is allocated, and its state kept,
      exactly while that is positive. */
  ghost predicate Counted(services: Services, states: States, ids: map<Endpoint, nat>, lost: multiset<Endpoint>) {
    Named(services, states, ids) && CountsMatch(services, states, lost) && forall ep :: ep in lost ==> ep in ids
  }

  /** What the counts are for: a backend's ID is allocated, and its state kept, exactly while some
      VIP lists it, and its reference count is the number of those VIPs. */
  ghost predicate BackendsAgree(services: Services, states: States, ids: map<Endpoint, nat>) {
    Counted(services, states, ids, multiset{})
  }

  /** The counts are right if and only if no reference was ever lost. */
  lemma AgreeIffNothingLost(services: Services, states: States, ids: map<Endpoint, nat>, lost: multiset<Endpoint>)
    requires Counted(services, states, ids, lost)
    ensures BackendsAgree(services, states, ids) <==> lost == multiset{}
  {
    if ep :| ep in lost {
      var id := ids[ep];
      assert id in states && states[id].ep == ep;
      var none: multiset<Endpoint> := multiset{};
      assert none[ep] == 0 && lost[ep] > 0;
      assert states[id].refCount != |Users(services, ep)| + none[ep];
    }
  }

  lemma UsersWith(services: Services, v: VipId, e: Service, ep: Endpoint, other: Endpoint)
    requires v in services && ep !in services[v].backends
    requires e.backends.Keys == services[v].backends.Keys + {ep}
    ensures other != ep ==> Users(services[v := e], other) == Users(services, other)
    ensures |Users(services[v := e], ep)| == |Users(services, ep)| + 1
  {
    var services' := services[v := e];
    assert Users(services', ep) == Users(services, ep) + {v};
    if other != ep {
      assert Users(services', other) == Users(services, other);
    }
  }

  lemma UsersWithout(services: Services, v: VipId, e: Service, ep: Endpoint, other: Endpoint)
    requires v in services && ep in services[v].backends
    requires e.backends.Keys == services[v].backends.Keys - {ep}
    ensures other != ep ==> Users(services[v := e], other) == Users(services, other)
    ensures |Users(services[v := e], ep)| == |Users(services, ep)| - 1
  {
    var services' := services[v := e];
    assert Users(services', ep) == Users(services, ep) - {v};
    if other != ep {
      assert Users(services', other) == Users(services, other);
    }
  }

  function Acquired(states: States, id: nat, ep: Endpoint): States {
    var st := if id in states then states[id] else FreshState(ep);
    states[id := st.(refCount := st.refCount + 1)]
  }

  function Released(states: States, id: nat): States
    requires id in states
  {
    var st := states[id];
    if st.refCount - 1 > 0 then states[id := st.(refCount := st.refCount - 1)] else states - {id}
  }

  /** Taking a reference for a VIP that then lists the backend keeps the counts. */
  lemma AcquireKeeps(services: Services, states: States, ids: map<Endpoint, nat>, lost: multiset<Endpoint>, v: VipId,
      e: Service, ep: Endpoint, id: nat)
    requires Counted(services, states, ids, lost) && v in services && ep !in services[v].backends
    requires ep in ids ==> ids[ep] == id
    requires ep !in ids ==> forall x :: x in ids ==> ids[x] != id
    requires e.backends == services[v].backends[ep := id]
    ensures Counted(services[v := e], Acquired(states, id, ep), ids[ep := id], lost)
  {
    hide CountsMatch, IdsMatch;
    AcquireIds(states, ids, ep, id);
    NewHasNone(services, states, ids, lost, ep);
    AcquireListed(services, ids, v, e, ep, id);
    hide ListedMatch;
    AcquireCounts(services, states, ids, lost, v, e, ep, id);
  }

  lemma AcquireListed(services: Services, ids: map<Endpoint, nat>, v: VipId, e: Service, ep: Endpoint, id: nat)
    requires ListedMatch(services, ids) && v in services && e.backends == services[v].backends[ep := id]
    requires ep in ids ==> ids[ep] == id
    ensures ListedMatch(services[v := e], ids[ep := id])
  {
  }

  lemma AcquireCounts(services: Services, states: States, ids: map<Endpoint, nat>, lost: multiset<Endpoint>, v: VipId,
      e: Service, ep: Endpoint, id: nat)
    requires CountsMatch(services, states, lost) && IdsMatch(states, ids) && v in services
        && ep !in services[v].backends
    requires (ep in ids ==> ids[ep] == id) && (ep !in ids ==> forall x :: x in ids ==> ids[x] != id)
    requires ep !in ids ==> Users(services, ep) == {} && lost[ep] == 0
    requires e.backends == services[v].backends[ep := id]
    ensures CountsMatch(services[v := e], Acquired(states, id, ep), lost)
  {
    var services', states' := services[v := e], Acquired(states, id, ep);
    UsersWith(services, v, e, ep, ep);
    forall i | i in states'
      ensures states'[i].refCount == |Users(services', states'[i].ep)| + lost[states'[i].ep] && states'[i].refCount > 0
    {
      UsersWith(services, v, e, ep, states'[i].ep);
      assert i != id ==> i in states && ids[states[i].ep] == i;
    }
  }

  lemma NewHasNone(services: Services, states: States, ids: map<Endpoint, nat>, lost: multiset<Endpoint>, ep: Endpoint)
    requires Counted(services, states, ids, lost)
    ensures ep !in ids ==> Users(services, ep) == {} && lost[ep] == 0
  {
    if ep !in ids {
      assert forall v :: v in services ==> ep !in services[v].backends;
    }
  }

  /** Taking one for a VIP that then fails to list the backend loses it. */
  lemma AcquireLoses(services: Services, states: States, ids: map<Endpoint, nat>, lost: multiset<Endpoint>,
      ep: Endpoint, id: nat)
    requires Counted(services, states, ids, lost)
    requires ep in ids ==> ids[ep] == id
    requires ep !in ids ==> forall x :: x in ids ==> ids[x] != id
    ensures Counted(services, Acquired(states, id, ep), ids[ep := id], lost + multiset{ep})
  {
    AcquireIds(states, ids, ep, id);
    NewHasNone(services, states, ids, lost, ep);
    LoseListed(services, ids, ep, id);
    LoseCounts(services, states, lost, ep, id);
    hide IdsMatch, ListedMatch, CountsMatch;
    forall x | x in lost + multiset{ep}
      ensures x in ids[ep := id]
    {
      assert x == ep || x in lost;
    }
  }

  lemma LoseListed(services: Services, ids: map<Endpoint, nat>, ep: Endpoint, id: nat)
    requires ListedMatch(services, ids) && (ep in ids ==> ids[ep] == id)
    ensures ListedMatch(services, ids[ep := id])
  {
  }

  lemma LoseCounts(services: Services, states: States, lost: multiset<Endpoint>, ep: Endpoint, id: nat)
    requires CountsMatch(services, states, lost) && Acquired(states, id, ep)[id].ep == ep
    requires id !in states ==> Users(services, ep) == {} && lost[ep] == 0
    requires forall i :: i in states && i != id ==> states[i].ep != ep
    ensures CountsMatch(services, Acquired(states, id, ep), lost + multiset{ep})
  {
    var states', lost' := Acquired(states, id, ep), lost + multiset{ep};
    assert lost'[ep] == lost[ep] + 1 && forall x :: x != ep ==> lost'[x] == lost[x];
    hide Users;
    forall i | i in states'
      ensures states'[i].refCount == |Users(services, states'[i].ep)| + lost'[states'[i].ep] && states'[i].refCount > 0
    {
      assert i != id ==> i in states && states'[i] == states[i];
    }
  }

  lemma AcquireIds(states: States, ids: map<Endpoint, nat>, ep: Endpoint, id: nat)
    requires IdsMatch(states, ids)
    requires ep in ids ==> ids[ep] == id
    requires ep !in ids ==> forall x :: x in ids ==> ids[x] != id
    ensures IdsMatch(Acquired(states, id, ep), ids[ep := id])
    ensures id in states <==> ep in ids
    ensures Acquired(states, id, ep)[id].ep == ep
    ensures forall i :: i in states && i != id ==> states[i].ep != ep
  {
  }

  /** Dropping a reference does too; the last one frees the ID. */
  lemma ReleaseKeeps(services: Services, states: States, ids: map<Endpoint, nat>, lost: multiset<Endpoint>, v: VipId,
      e: Service, ep: Endpoint, id: nat)
    requires Counted(services, states, ids, lost) && v in services && ep in services[v].backends
    requires id == services[v].backends[ep]
    requires e.backends == services[v].backends - {ep}
    ensures id in states && states[id].ep == ep && ep in ids && ids[ep] == id
    ensures Counted(services[v := e], Released(states, id), if states[id].refCount - 1 > 0 then ids
        else ids - {ep}, lost)
  {
    assert ep in ids && ids[ep] == id;
    var ids' := if states[id].refCount - 1 > 0 then ids else ids - {ep};
    assert IdsMatch(Released(states, id), ids');
    UsersWithout(services, v, e, ep, ep);
    ReleaseListed(services, ids, ids', v, e, ep);
    ReleaseCounts(services, states, lost, v, e, ep, id);
  }

  lemma ReleaseListed(services: Services, ids: map<Endpoint, nat>, ids': map<Endpoint, nat>, v: VipId, e: Service,
      ep: Endpoint)
    requires ListedMatch(services, ids) && v in services && e.backends == services[v].backends - {ep}
    requires ids' == ids || (ids' == ids - {ep} && |Users(services[v := e], ep)| == 0)
    ensures ListedMatch(services[v := e], ids')
  {
    var services' := services[v := e];
    forall w, x | w in services' && x in services'[w].backends
      ensures x in ids' && services'[w].backends[x] == ids'[x]
    {
      if x == ep {
        assert w in Users(services', ep);
      }
    }
  }

  lemma ReleaseCounts(services: Services, states: States, lost: multiset<Endpoint>, v: VipId, e: Service, ep: Endpoint,
      id: nat)
    requires CountsMatch(services, states, lost) && v in services && ep in services[v].backends
    requires id in states && states[id].ep == ep && forall i :: i in states && i != id ==> states[i].ep != ep
    requires e.backends == services[v].backends - {ep}
    ensures CountsMatch(services[v := e], Released(states, id), lost)
  {
    var services' := services[v := e];
    var states' := Released(states, id);
    forall i | i in states'
      ensures states'[i].refCount == |Users(services', states'[i].ep)| + lost[states'[i].ep] && states'[i].refCount > 0
    {
      UsersWithout(services, v, e, ep, states'[i].ep);
    }
  }

  /** Probe result, Kubernetes drain and operator drain of a backend, while some VIP lists it. */
  ghost function FlagsOf(states: States, ids: map<Endpoint, nat>, ep: Endpoint): Option<(bool, bool, bool)> {
    if ep in ids && ids[ep] in states
    then Some((states[ids[ep]].probeHealthy, states[ids[ep]].draining, states[ids[ep]].adminDraining)) else None
  }

  /** Probed healthy, drained by nobody. */
  const FRESH_FLAGS: Option<(bool, bool, bool)> := Some((true, false, false))

  /** Dropping a reference leaves the flags of every other backend alone. */
  lemma ReleaseFlags(states: States, ids: map<Endpoint, nat>, ids': map<Endpoint, nat>, ep: Endpoint, id: nat,
      other: Endpoint)
    requires IdsMatch(states, ids) && ep in ids && ids[ep] == id && id in states
    requires ids' == (if states[id].refCount - 1 > 0 then ids else ids - {ep})
    ensures other != ep ==> FlagsOf(Released(states, id), ids', other) == FlagsOf(states, ids, other)
    ensures FlagsOf(Released(states, id), ids', ep).Some? ==>
        FlagsOf(Released(states, id), ids', ep) == FlagsOf(states, ids, ep)
  {
  }

  /** Taking a reference changes no flags; a backend without any gets fresh ones. */
  lemma AcquireFlags(states: States, ids: map<Endpoint, nat>, ep: Endpoint, id: nat, other: Endpoint)
    requires IdsMatch(states, ids)
    requires ep in ids ==> ids[ep] == id
    requires ep !in ids ==> forall x :: x in ids ==> ids[x] != id
    ensures FlagsOf(states, ids, other).Some? || other != ep
            ==> FlagsOf(Acquired(states, id, ep), ids[ep := id], other) == FlagsOf(states, ids, other)
    ensures FlagsOf(states, ids, ep).None? ==> FlagsOf(Acquired(states, id, ep), ids[ep := id], ep) == FRESH_FLAGS
  {
  }

  /** A slot some VIP holds. */
  ghost predicate Live(services: Services, s: int) {
    exists v :: v in services && s in ExtentSlots(services[v].ext)
  }

  /** The VIPs' extents and the free list partition the table. */
  ghost predicate ExtentsAgree(services: Services, free: seq<Extent>) {
    && (forall v :: v in services ==> services[v].ext.End() <= MAGLEV_M)
    && (forall v, w :: v in services && w in services && v != w ==>
        ExtentSlots(services[v].ext) !! ExtentSlots(services[w].ext))
    && (forall s :: s in Slots(free) <==> 0 <= s < MAGLEV_M && !Live(services, s))
  }

  lemma LiveAfter(services: Services, v: VipId, e: Service, s: int)
    ensures Live(services[v := e], s) <==> s in ExtentSlots(e.ext) || Live(services - {v}, s)
  {
    var services' := services[v := e];
    if s in ExtentSlots(e.ext) {
      assert s in ExtentSlots(services'[v].ext);
    }
    if Live(services - {v}, s) {
      var w :| w in services - {v} && s in ExtentSlots((services - {v})[w].ext);
      assert s in ExtentSlots(services'[w].ext);
    }
    if Live(services', s) {
      var w :| w in services' && s in ExtentSlots(services'[w].ext);
      assert w != v ==> w in services - {v} && s in ExtentSlots((services - {v})[w].ext);
    }
  }

  lemma LiveWithout(services: Services, v: VipId, s: int)
    requires v in services
    ensures Live(services, s) <==> s in ExtentSlots(services[v].ext) || Live(services - {v}, s)
  {
    LiveAfter(services, v, services[v], s);
    assert services[v := services[v]] == services;
  }

  /** A VIP's extent does not overlap the others'. */
  lemma HeldOnce(services: Services, free: seq<Extent>, v: VipId, s: int)
    requires ExtentsAgree(services, free) && v in services && s in ExtentSlots(services[v].ext)
    ensures !Live(services - {v}, s) && 0 <= s < MAGLEV_M && s !in Slots(free)
  {
    hide Slots;
    assert Live(services, s);
  }

  /** Replacing one VIP's extent by one carved out of the free space. */
  lemma MoveKeeps(services: Services, free: seq<Extent>, v: VipId, e: Service, taken: seq<Extent>, after: seq<Extent>)
    requires ExtentsAgree(services, free) && v in services
    requires e.ext.End() <= MAGLEV_M && ExtentSlots(e.ext) <= Slots(free)
    requires Slots(taken) == Slots(free) - ExtentSlots(e.ext)
    requires Slots(after) == Slots(taken) + ExtentSlots(services[v].ext)
    ensures ExtentsAgree(services[v := e], after)
    ensures ExtentSlots(services[v].ext) !! Slots(taken)
  {
    hide Slots, ExtentSlots, Live;
    forall s | s in ExtentSlots(services[v].ext)
      ensures s !in Slots(taken)
    {
      HeldOnce(services, free, v, s);
    }
    forall s
      ensures s in Slots(after) <==> 0 <= s < MAGLEV_M && !Live(services[v := e], s)
    {
      LiveAfter(services, v, e, s);
      LiveWithout(services, v, s);
      if s in ExtentSlots(services[v].ext) {
        HeldOnce(services, free, v, s);
      }
    }
    forall w | w in services && w != v
      ensures ExtentSlots(services[w].ext) !! ExtentSlots(e.ext)
    {
      OutsideFree(services, free, w);
    }
  }

  lemma OutsideFree(services: Services, free: seq<Extent>, v: VipId)
    requires ExtentsAgree(services, free) && v in services
    ensures ExtentSlots(services[v].ext) !! Slots(free)
  {
    hide Slots, ExtentSlots;
    forall s | s in ExtentSlots(services[v].ext)
      ensures s !in Slots(free)
    {
      HeldOnce(services, free, v, s);
    }
  }

  /** Dropping a VIP and giving its extent back. */
  lemma DropKeeps(services: Services, free: seq<Extent>, v: VipId, after: seq<Extent>)
    requires ExtentsAgree(services, free) && v in services
    requires Slots(after) == Slots(free) + ExtentSlots(services[v].ext)
    ensures ExtentsAgree(services - {v}, after)
  {
    hide Slots, ExtentSlots, Live;
    forall s
      ensures s in Slots(after) <==> 0 <= s < MAGLEV_M && !Live(services - {v}, s)
    {
      LiveWithout(services, v, s);
      if s in ExtentSlots(services[v].ext) {
        HeldOnce(services, free, v, s);
      }
    }
  }

  /** Changing anything but a VIP's extent, or adding one that has none. */
  lemma SameExtents(services: Services, free: seq<Extent>, v: VipId, e: Service)
    requires ExtentsAgree(services, free)
    requires if v in services then e.ext == services[v].ext else e.ext == NO_EXTENT
    ensures ExtentsAgree(services[v := e], free)
  {
    assert ExtentSlots(NO_EXTENT) == {};
    hide Slots, ExtentSlots, Live;
    forall s
      ensures Live(services[v := e], s) <==> Live(services, s)
    {
      LiveAfter(services, v, e, s);
      if v in services {
        LiveWithout(services, v, s);
      } else {
        assert services - {v} == services;
      }
    }
  }

  // ---- Size classes.

  const SIZE_CLASSES: seq<nat> := [1031, 4099, 16411, 65537]

  /** maglevClassFor: the smallest class a hundred times the backend count, or the largest there is. */
  function ClassFor(count: nat): (size: nat)
    ensures size in SIZE_CLASSES
    ensures size < 65537 ==> 100 * count <= size
    ensures forall c :: c in SIZE_CLASSES && c < size ==> c < 100 * count
  {
    var want := if count * 100 < 1024 then 1024 else count * 100;
    if 1031 >= want then 1031
    else if 4099 >= want then 4099
    else if 16411 >= want then 16411
    else 65537
  }

  predicate Outgrown(ext: Extent, size: nat) {
    ext.size == 0 || size > ext.size
  }

  /** Where a VIP's table goes: it moves only to a larger class. */
  predicate NewExtent(was: Extent, size: nat, ext: Extent) {
    if Outgrown(was, size) then ext.size == size else ext == was
  }

  /** Every size class is prime, so every table can be built. */
  lemma ClassesArePrime(size: nat)
    requires size in SIZE_CLASSES
    ensures IsPrime(size)
  {
    forall d | 2 <= d < RootOf(size)
      ensures !Divides(d, size)
    {
      if Divides(d, size) {
        assert size == d * (size / d);
        NoFactors(d, size / d);
      }
    }
    TrialDivision(size, RootOf(size));
  }

  function RootOf(size: nat): (r: nat)
    requires size in SIZE_CLASSES
    ensures size < r * r && r >= 2
  {
    if size == 1031 then 33 else if size == 4099 then 65 else if size == 16411 then 129 else 257
  }

  lemma NoFactors(d: int, q: int)
    requires d >= 2
    ensures d < 33 ==> d * q != 1031
    ensures d < 65 ==> d * q != 4099
    ensures d < 129 ==> d * q != 16411
    ensures d < 257 ==> d * q != 65537
  {
  }
}
