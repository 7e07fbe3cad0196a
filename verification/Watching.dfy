/** What every single write of an operation on one VIP must leave true of the maps, and why each
    kind of write does. */
module Watching {
  import opened Common
  import opened Types
  import opened PortRange
  import opened VipLookup
  import opened BpfMaps
  import opened ExtentAllocation
  import opened IdAllocation
  import opened Maglev
  import opened DataplaneState
  import opened MapAgreement

  /** What a snapshot of the maps must keep to: packets of each VIP reach only allowed; the VIPs in
      installed are where packets find them; the IDs in pins mean these backends; those in health are
      in one of these states; and the slots in frozen name these IDs. */
  datatype Guard = Guard(
    allowed: map<VipId, set<Endpoint>>,
    installed: set<VipId>,
    pins: map<nat, Endpoint>,
    health: map<nat, set<Health>>,
    frozen: map<nat, nat>)

  /** An operation on vip, which is to have the backends in wanted; loose are the VIPs that need not
      agree with the memory meanwhile, vip among them, and guard is what it keeps to. */
  datatype Watch = Watch(vip: VipId, wanted: set<Endpoint>, loose: map<VipId, set<Endpoint>>, guard: Guard)

  ghost predicate Pinned(m: Maps, pins: map<nat, Endpoint>) {
    forall id :: id in pins ==> id in m.backend && m.backend[id] == pins[id]
  }

  ghost predicate HealthIn(m: Maps, health: map<nat, set<Health>>) {
    forall id :: id in health ==> id < |m.health| && m.health[id] in health[id]
  }

  ghost predicate Frozen(m: Maps, frozen: map<nat, nat>) {
    forall s :: s in frozen ==> s < |m.maglev| && m.maglev[s] == frozen[s]
  }

  ghost predicate AllInstalled(m: Maps, vips: set<VipId>) {
    forall v :: v in vips ==> Installed(m, v)
  }

  /** One snapshot of the maps keeps to the guard. */
  ghost predicate Safe(m: Maps, g: Guard) {
    Confined(m, g.allowed) && AllInstalled(m, g.installed) && Pinned(m, g.pins) && HealthIn(m, g.health)
      && Frozen(m, g.frozen)
  }

  /** g asks no more than g'. */
  ghost predicate Weaker(g: Guard, g': Guard) {
    && (forall v :: v in g'.allowed ==> v in g.allowed && g'.allowed[v] <= g.allowed[v])
    && g.installed <= g'.installed
    && (forall id :: id in g.health ==> id in g'.health && g'.health[id] <= g.health[id])
    && (forall id :: id in g.pins ==> id in g'.pins && g'.pins[id] == g.pins[id])
    && (forall s :: s in g.frozen ==> s in g'.frozen && g'.frozen[s] == g.frozen[s])
  }

  lemma SafeWidens(m: Maps, g': Guard, g: Guard)
    requires Safe(m, g') && Weaker(g, g')
    ensures Safe(m, g)
  {
    hide Confined, Installed;
    ConfinedWidens(m, g'.allowed, g.allowed);
  }

  // ---- The state behind it.

  ghost predicate ListsToo(services: Services, v: VipId, u: VipId, ep: Endpoint) {
    u != v && u in services && ep in services[u].backends
  }

  /** Some VIP lists ep, and will after the operation on v. */
  ghost predicate Anchored(services: Services, v: VipId, wanted: set<Endpoint>, ep: Endpoint) {
    (v in services && ep in wanted && ep in services[v].backends) || exists u :: ListsToo(services, v, u, ep)
  }

  ghost predicate PinsHold(services: Services, states: States, stale: set<nat>, w: Watch) {
    forall id :: id in w.guard.pins ==>
      && id in states && id !in stale && states[id].ep == w.guard.pins[id]
      && Anchored(services, w.vip, w.wanted, w.guard.pins[id])
  }

  ghost predicate HealthHolds(states: States, w: Watch) {
    forall id :: id in w.guard.health ==>
      id in w.guard.pins && id in states && HealthOf(states[id]) in w.guard.health[id]
  }

  /** Packets are confined as watched, in the middle of the operation. */
  ghost predicate Spanned(hash: Hash<Endpoint>, m: Maps, services: Services, states: States, stale: set<nat>,
      w: Watch) {
    && w.vip in services && w.vip in w.loose && AgreeBut(hash, m, services, states, Amiss(w.loose, stale))
    && w.guard.allowed == Allowed(services, w.loose)
  }

  /** What the watch asks beside that. */
  ghost predicate Keeping(m: Maps, services: Services, states: States, stale: set<nat>, w: Watch) {
    && w.guard.installed <= services.Keys && w.guard.installed * w.loose.Keys <= {w.vip}
    && (w.vip in w.guard.installed ==> Installed(m, w.vip))
    && PinsHold(services, states, stale, w) && HealthHolds(states, w) && Frozen(m, w.guard.frozen)
  }

  /** In the middle of the watched operation. */
  ghost predicate Under(hash: Hash<Endpoint>, m: Maps, services: Services, states: States, stale: set<nat>, w: Watch) {
    Spanned(hash, m, services, states, stale, w) && Keeping(m, services, states, stale, w)
  }

  lemma UnderSafe(hash: Hash<Endpoint>, m: Maps, services: Services, states: States, ids: map<Endpoint, nat>,
      stale: set<nat>, w: Watch)
    requires Under(hash, m, services, states, stale, w) && Named(services, states, ids)
    ensures Safe(m, w.guard)
  {
    hide Confined, Allowed, Named, AgreeBut, Keeping, Installed, Pinned, HealthIn, Frozen;
    ButConfined(hash, m, services, states, ids, Amiss(w.loose, stale));
    ButFacts(hash, m, services, states, Amiss(w.loose, stale));
    KeepingSafe(m, services, states, stale, w);
  }

  lemma KeepingSafe(m: Maps, services: Services, states: States, stale: set<nat>, w: Watch)
    requires Keeping(m, services, states, stale, w) && BackendMapOk(m, states, stale) && HealthOk(m, states, stale)
    requires forall id :: id in states ==> id < |m.health|
    requires forall u :: u in services && u !in w.loose ==> Installed(m, u)
    ensures AllInstalled(m, w.guard.installed) && Pinned(m, w.guard.pins) && HealthIn(m, w.guard.health)
        && Frozen(m, w.guard.frozen)
  {
    hide Installed, Anchored, HealthOf;
    forall v | v in w.guard.installed
      ensures Installed(m, v)
    {
      assert v in w.loose ==> v in w.guard.installed * w.loose.Keys;
    }
  }

  // ---- Beginning.

  /** Slots the operation on v leaves alone: the other VIPs', and v's own when its table moves. */
  ghost predicate LeftAlone(services: Services, v: VipId, wanted: set<Endpoint>, s: int) {
    Live(services - {v}, s)
    || (v in services && s in ExtentSlots(services[v].ext) && Outgrown(services[v].ext, ClassFor(|wanted|)))
  }

  /** The IDs of the backends that stay listed, and what they stand for. */
  ghost function PinsOf(services: Services, states: States, stale: set<nat>, v: VipId, wanted: set<Endpoint>):
      map<nat, Endpoint> {
    map id | id in states && id !in stale && Anchored(services, v, wanted, states[id].ep) :: states[id].ep
  }

  /** What the packets of VIPs that need not agree may reach while v comes to have the backends in wanted. */
  ghost function Loosened(services: Services, loose: map<VipId, set<Endpoint>>, v: VipId, wanted: set<Endpoint>):
      map<VipId, set<Endpoint>> {
    map u | u in loose.Keys + {v} ::
      (if u in loose then loose[u] else if u in services then services[u].backends.Keys else {}) + wanted
  }

  /** The backends each VIP's packets may reach while v's set changes to wanted. */
  ghost function During(services: Services, loose: map<VipId, set<Endpoint>>, v: VipId, wanted: set<Endpoint>):
      map<VipId, set<Endpoint>> {
    map w | w in services.Keys + {v} ::
      if w in loose || w == v then Loosened(services, loose, v, wanted)[w] else services[w].backends.Keys
  }

  ghost function WatchOf(services: Services, states: States, m: Maps, a: Amiss, v: VipId, wanted: set<Endpoint>,
      removing: bool): Watch {
    var pins := PinsOf(services, states, a.stale, v, wanted);
    Watch(v, wanted, Loosened(services, a.loose, v, wanted),
      Guard(During(services, a.loose, v, wanted), services.Keys - a.loose.Keys - (if removing then {v} else {}), pins,
        map id | id in pins && id in states :: {HealthOf(states[id])},
        map s: nat | s < |m.maglev| && LeftAlone(services, v, wanted, s) :: m.maglev[s]))
  }

  lemma UnderStart(hash: Hash<Endpoint>, m: Maps, services: Services, states: States, ids: map<Endpoint, nat>, a: Amiss,
      v: VipId, wanted: set<Endpoint>, removing: bool)
    requires AgreeBut(hash, m, services, states, a) && Named(services, states, ids) && v in services
    ensures Under(hash, m, services, states, a.stale, WatchOf(services, states, m, a, v, wanted, removing))
  {
    hide AgreeBut, Spanned, LeftAlone, Anchored, HealthOf, During, Named, Keeping, PinsOf, Loosened, Installed;
    var w := WatchOf(services, states, m, a, v, wanted, removing);
    SpansStart(hash, m, services, states, ids, a, w);
    ButFacts(hash, m, services, states, a);
    KeepingStart(m, services, states, a, v, wanted, removing);
  }

  lemma KeepingStart(m: Maps, services: Services, states: States, a: Amiss, v: VipId, wanted: set<Endpoint>,
      removing: bool)
    requires v in services && v !in a.loose ==> Installed(m, v)
    ensures Keeping(m, services, states, a.stale, WatchOf(services, states, m, a, v, wanted, removing))
  {
    hide LeftAlone, Anchored, HealthOf, During, Installed;
  }

  lemma SpansStart(hash: Hash<Endpoint>, m: Maps, services: Services, states: States, ids: map<Endpoint, nat>, a: Amiss,
      w: Watch)
    requires AgreeBut(hash, m, services, states, a) && Named(services, states, ids) && w.vip in services
    requires w.guard.allowed == During(services, a.loose, w.vip, w.wanted)
        && w.loose == Loosened(services, a.loose, w.vip, w.wanted)
    ensures Spanned(hash, m, services, states, a.stale, w)
  {
    LooseAreKnown(hash, m, services, states, a);
    hide AgreeBut, Named, Looser, During, Allowed, Loosened, Everywhere;
    DuringKnown(services, a.loose, w.vip, w.wanted);
    LoosenedKeys(services, a.loose, w.vip, w.wanted);
    LoosenedIs(services, a.loose, w.vip, w.wanted);
    Loosen(hash, m, services, states, ids, a, w.loose);
  }

  lemma DuringIsAllowed(services: Services, e: Service, loose: map<VipId, set<Endpoint>>, v: VipId,
      wanted: set<Endpoint>)
    requires loose.Keys <= services.Keys
    ensures During(services, loose, v, wanted) == Allowed(services[v := e], Loosened(services, loose, v, wanted))
  {
    hide Loosened;
    assert services[v := e].Keys == services.Keys + {v};
    assert Loosened(services, loose, v, wanted).Keys == loose.Keys + {v} by { LoosenedKeys(services, loose, v,
        wanted); }
  }

  lemma DuringKnown(services: Services, loose: map<VipId, set<Endpoint>>, v: VipId, wanted: set<Endpoint>)
    requires loose.Keys <= services.Keys && v in services
    ensures During(services, loose, v, wanted) == Allowed(services, Loosened(services, loose, v, wanted))
  {
    hide During, Allowed, Loosened;
    DuringIsAllowed(services, services[v], loose, v, wanted);
    assert services[v := services[v]] == services;
  }

  lemma LoosenedKeys(services: Services, loose: map<VipId, set<Endpoint>>, v: VipId, wanted: set<Endpoint>)
    ensures Loosened(services, loose, v, wanted).Keys == loose.Keys + {v}
  {
  }

  lemma LoosenedIs(services: Services, loose: map<VipId, set<Endpoint>>, v: VipId, wanted: set<Endpoint>)
    requires loose.Keys <= services.Keys
    ensures v in services ==> Looser(services, loose, Loosened(services, loose, v, wanted))
    ensures v !in services ==>
        && Looser(services, loose, Loosened(services, loose, v, wanted) - {v})
        && Loosened(services, loose, v, wanted) == (Loosened(services, loose, v, wanted) - {v})[v := wanted]
    ensures forall ep :: ep in wanted ==> Everywhere(Loosened(services, loose, v, wanted), ep)
  {
    var l := Loosened(services, loose, v, wanted);
    if v !in services {
      assert l[v] == {} + wanted == wanted;
      assert l.Keys == (l - {v})[v := wanted].Keys;
    }
  }

  lemma LooseAreKnown(hash: Hash<Endpoint>, m: Maps, services: Services, states: States, a: Amiss)
    requires AgreeBut(hash, m, services, states, a)
    ensures a.loose.Keys <= services.Keys
  {
    hide Settled, Installed, Base, Contained;
  }

  lemma UnderRegister(hash: Hash<Endpoint>, m: Maps, services: Services, states: States, ids: map<Endpoint, nat>,
      a: Amiss, v: VipId, e: Service, wanted: set<Endpoint>)
    requires AgreeBut(hash, m, services, states, a) && Compatible(services.Keys + {v})
        && Named(services, states, ids)
    requires v !in services && e.sid < MAX_VIPS && !SidUsed(services, e.sid) && e.backends == map[]
        && e.ext == NO_EXTENT
    ensures Under(hash, m, services[v := e], states, a.stale, WatchOf(services, states, m, a, v, wanted, false))
  {
    hide AgreeBut, Spanned, LeftAlone, HealthOf, During, Compatible, SidUsed, Anchored, Keeping, PinsOf, Named,
      Loosened;
    var w := WatchOf(services, states, m, a, v, wanted, false);
    RegisterSpans(hash, m, services, states, ids, a, v, e, w);
    KeepingStart(m, services, states, a, v, wanted, false);
    RegisterKeeping(m, services, states, a.stale, w, e);
  }

  lemma RegisterKeeping(m: Maps, services: Services, states: States, stale: set<nat>, w: Watch, e: Service)
    requires Keeping(m, services, states, stale, w) && w.vip !in services
    ensures Keeping(m, services[w.vip := e], states, stale, w)
  {
    hide Anchored, HealthOf, Installed;
    forall id | id in w.guard.pins
      ensures Anchored(services[w.vip := e], w.vip, w.wanted, w.guard.pins[id])
    {
      AnchoredEntry(services, w.vip, w.wanted, w.guard.pins[id], e);
    }
  }

  lemma RegisterSpans(hash: Hash<Endpoint>, m: Maps, services: Services, states: States, ids: map<Endpoint, nat>,
      a: Amiss, v: VipId, e: Service, w: Watch)
    requires AgreeBut(hash, m, services, states, a) && Compatible(services.Keys + {v})
        && Named(services, states, ids)
    requires v !in services && e.sid < MAX_VIPS && !SidUsed(services, e.sid) && e.ext == NO_EXTENT
    requires w.vip == v && w.guard.allowed == During(services, a.loose, v, w.wanted)
        && w.loose == Loosened(services, a.loose, v, w.wanted)
    ensures Spanned(hash, m, services[v := e], states, a.stale, w)
  {
    LooseAreKnown(hash, m, services, states, a);
    hide AgreeBut, Compatible, SidUsed, Named, Looser, During, Allowed, Loosened;
    DuringIsAllowed(services, e, a.loose, v, w.wanted);
    LoosenedIs(services, a.loose, v, w.wanted);
    LoosenedKeys(services, a.loose, v, w.wanted);
    Loosen(hash, m, services, states, ids, a, w.loose - {v});
    RegisterBut(hash, m, services, states, v, e, Amiss(w.loose - {v}, a.stale), w.wanted);
  }

  /** Whether another VIP lists a backend does not depend on v's entry. */
  lemma AnchoredEntry(services: Services, v: VipId, wanted: set<Endpoint>, ep: Endpoint, e: Service)
    requires Anchored(services, v, wanted, ep)
    requires v in services && ep in wanted && ep in services[v].backends ==> ep in e.backends
    ensures Anchored(services[v := e], v, wanted, ep)
  {
    if u :| ListsToo(services, v, u, ep) {
      assert ListsToo(services[v := e], v, u, ep);
    }
  }

  // ---- Steps.

  /** v's entry changes, its service ID does not, no wanted backend is dropped, and if its extent
      changes the new one names only what the VIP's packets may reach. */
  lemma EntryUnder(hash: Hash<Endpoint>, m: Maps, services: Services, states: States, stale: set<nat>, w: Watch,
      e: Service)
    requires Under(hash, m, services, states, stale, w) && e.sid == services[w.vip].sid
    requires e.ext == services[w.vip].ext || NamesOnly(m, states, e.ext, w.loose[w.vip])
    requires forall ep :: ep in w.wanted && ep in services[w.vip].backends ==> ep in e.backends
    ensures Under(hash, m, services[w.vip := e], states, stale, w)
  {
    hide Keeping, AgreeBut, Allowed, NamesOnly;
    EntryBut(hash, m, services, states, w.vip, e, Amiss(w.loose, stale));
    EntryKeeping(m, services, states, stale, w, e);
  }

  lemma EntryKeeping(m: Maps, services: Services, states: States, stale: set<nat>, w: Watch, e: Service)
    requires Keeping(m, services, states, stale, w) && w.vip in services
    requires forall ep :: ep in w.wanted && ep in services[w.vip].backends ==> ep in e.backends
    ensures Keeping(m, services[w.vip := e], states, stale, w)
  {
    hide Anchored, HealthOf, Installed;
    forall id | id in w.guard.pins
      ensures Anchored(services[w.vip := e], w.vip, w.wanted, w.guard.pins[id])
    {
      AnchoredEntry(services, w.vip, w.wanted, w.guard.pins[id], e);
    }
  }

  /** Backends come and go, as far as they are not pinned, and nothing else in the maps changes. */
  ghost predicate PinsKept(states: States, states': States, w: Watch) {
    forall id :: id in w.guard.pins && id in states ==>
      id in states' && states'[id].ep == states[id].ep && HealthOf(states'[id]) == HealthOf(states[id])
  }

  lemma StatesKeeping(m: Maps, m': Maps, services: Services, states: States, stale: set<nat>, states': States,
      stale': set<nat>, w: Watch)
    requires Keeping(m, services, states, stale, w) && PinsKept(states, states', w)
    requires forall id :: id in w.guard.pins && id !in stale ==> id !in stale'
    requires m'.vip == m.vip && m'.ranges == m.ranges && m'.maglev == m.maglev
    ensures Keeping(m', services, states', stale', w)
  {
    hide Anchored, HealthOf, Owns;
  }

  /** A snapshot that differs from a safe one in backends and health only. */
  lemma BackendsSafe(m: Maps, m': Maps, w: Watch)
    requires Safe(m, w.guard) && Confined(m', w.guard.allowed)
    requires m'.vip == m.vip && m'.ranges == m.ranges && m'.maglev == m.maglev && |m'.health| == |m.health|
    requires forall id :: id in w.guard.pins && id in m.backend ==> id in m'.backend && m'.backend[id] == m.backend[id]
    requires forall id :: id in w.guard.health && id < |m.health| && m.health[id] in w.guard.health[id] ==>
        m'.health[id] in w.guard.health[id]
    ensures Safe(m', w.guard)
  {
    hide Confined, Owns;
  }

  /** A pinned backend v drops is listed by another VIP, so its last reference does not go. */
  lemma PinnedIsShared(services: Services, states: States, ids: map<Endpoint, nat>, lost: multiset<Endpoint>,
      stale: set<nat>, w: Watch, ep: Endpoint, id: nat)
    requires Counted(services, states, ids, lost) && PinsHold(services, states, stale, w) && w.vip in services
    requires ep in services[w.vip].backends && services[w.vip].backends[ep] == id && ep !in w.wanted
    ensures id in w.guard.pins ==> id in states && states[id].refCount > 1
  {
    if id in w.guard.pins {
      assert ids[ep] == id && states[id].ep == ep;
      var u :| ListsToo(services, w.vip, u, ep);
      assert {u, w.vip} <= Users(services, ep);
      SubsetCardinality({u, w.vip}, Users(services, ep));
    }
  }

  /** Dropping a reference of a backend that is not wanted. */
  lemma DropUnder(hash: Hash<Endpoint>, m: Maps, services: Services, states: States, ids: map<Endpoint, nat>,
      lost: multiset<Endpoint>, stale: set<nat>, w: Watch, e: Service, ep: Endpoint, id: nat)
    requires Under(hash, m, services, states, stale, w) && Counted(services, states, ids, lost)
    requires ep in services[w.vip].backends && id == services[w.vip].backends[ep] && ep !in w.wanted
    requires e == services[w.vip].(backends := services[w.vip].backends - {ep})
    ensures id in states && id < |m.health|
    ensures states[id].refCount > 1 ==> Under(hash, m, services[w.vip := e], Released(states, id), stale, w)
    ensures var m' := WithHealth(WithoutBackend(m, id), id, Down);
            states[id].refCount <= 1 ==>
              && Under(hash, m', services[w.vip := e], Released(states, id), stale - {id}, w)
              && Safe(WithoutBackend(m, id), w.guard) && Safe(m', w.guard)
  {
    hide Keeping, Named, CountsMatch, AgreeBut, Allowed, Confined, Safe;
    var v := w.vip;
    UnderSafe(hash, m, services, states, ids, stale, w);
    DropStep(hash, m, services, states, ids, v, e, Amiss(w.loose, stale), ep, id);
    DropPins(m, services, states, ids, lost, stale, w, ep, id);
    var m' := WithHealth(WithoutBackend(m, id), id, Down);
    if states[id].refCount > 1 {
      StatesKeeping(m, m, services, states, stale, Released(states, id), stale, w);
      EntryKeeping(m, services, Released(states, id), stale, w, e);
    } else {
      BackendsSafe(m, WithoutBackend(m, id), w);
      BackendsSafe(m, m', w);
      StatesKeeping(m, m', services, states, stale, Released(states, id), stale - {id}, w);
      EntryKeeping(m', services, Released(states, id), stale - {id}, w, e);
    }
  }

  lemma DropPins(m: Maps, services: Services, states: States, ids: map<Endpoint, nat>, lost: multiset<Endpoint>,
      stale: set<nat>, w: Watch, ep: Endpoint, id: nat)
    requires Keeping(m, services, states, stale, w) && Counted(services, states, ids, lost) && w.vip in services
        && id in states
    requires ep in services[w.vip].backends && id == services[w.vip].backends[ep] && ep !in w.wanted
    ensures PinsKept(states, Released(states, id), w) && (states[id].refCount <= 1 ==> id !in w.guard.pins)
    ensures states[id].refCount <= 1 ==> id !in w.guard.health
  {
    PinnedIsShared(services, states, ids, lost, stale, w, ep, id);
    hide Anchored, Counted;
  }

  /** Adding a reference: it is counted, then come the two writes, then the VIP lists the backend. */
  lemma AddUnder(hash: Hash<Endpoint>, m: Maps, services: Services, states: States, ids: map<Endpoint, nat>,
      stale: set<nat>, w: Watch, e: Service, ep: Endpoint, id: nat)
    requires Under(hash, m, services, states, stale, w) && Named(services, states, ids)
    requires ep !in services[w.vip].backends && Everywhere(w.loose, ep) && id < |m.health|
    requires ep in ids ==> ids[ep] == id
    requires ep !in ids ==> forall x :: x in ids ==> ids[x] != id
    requires e == services[w.vip].(backends := services[w.vip].backends[ep := id])
    ensures var states', stale' := Acquired(states, id, ep), Unwritten(states, stale, id);
            var m' := WithHealth(WithBackend(m, id, ep), id, HealthOf(states'[id]));
            && Under(hash, m, services, states', stale', w)
            && Under(hash, WithBackend(m, id, ep), services, states', stale', w)
            && Under(hash, m', services[w.vip := e], states', stale - {id}, w)
            && Safe(WithBackend(m, id, ep), w.guard) && Safe(m', w.guard)
  {
    hide Keeping, AgreeBut, Allowed, Confined, IdsMatch, ListedMatch, Safe, HealthOf, Everywhere;
    var v := w.vip;
    AcquireIds(states, ids, ep, id);
    SameMeaning(states, ids, ep, id);
    UnderSafe(hash, m, services, states, ids, stale, w);
    AddStep(hash, m, services, states, ids, v, e, Amiss(w.loose, stale), ep, id);
    AddPins(m, services, states, stale, w, ep, id);
    var states', stale' := Acquired(states, id, ep), Unwritten(states, stale, id);
    var m' := WithHealth(WithBackend(m, id, ep), id, HealthOf(states'[id]));
    BackendsSafe(m, WithBackend(m, id, ep), w);
    BackendsSafe(m, m', w);
    StatesKeeping(m, m, services, states, stale, states', stale', w);
    StatesKeeping(m, WithBackend(m, id, ep), services, states, stale, states', stale', w);
    StatesKeeping(m, m', services, states, stale, states', stale - {id}, w);
    EntryKeeping(m', services, states', stale - {id}, w, e);
  }

  lemma SameMeaning(states: States, ids: map<Endpoint, nat>, ep: Endpoint, id: nat)
    requires IdsMatch(states, ids) && (ep in ids ==> ids[ep] == id)
        && (ep !in ids ==> forall x :: x in ids ==> ids[x] != id)
    ensures id in states ==> states[id].ep == ep
  {
  }

  lemma AddPins(m: Maps, services: Services, states: States, stale: set<nat>, w: Watch, ep: Endpoint, id: nat)
    requires Keeping(m, services, states, stale, w) && Safe(m, w.guard) && (id in states ==> states[id].ep == ep)
    ensures PinsKept(states, Acquired(states, id, ep), w)
    ensures id in w.guard.pins && id in m.backend ==> m.backend[id] == ep
    ensures id in w.guard.health ==> HealthOf(Acquired(states, id, ep)[id]) in w.guard.health[id]
    ensures forall x :: x in w.guard.pins && x !in stale ==> x !in Unwritten(states, stale, id)
  {
    hide Anchored, Confined, Installed;
  }

  /** Rewriting the entry of a backend the VIP has already. */
  lemma RefreshUnder(hash: Hash<Endpoint>, m: Maps, services: Services, states: States, ids: map<Endpoint, nat>,
      stale: set<nat>, w: Watch, ep: Endpoint)
    requires Under(hash, m, services, states, stale, w) && Named(services, states, ids)
        && ep in services[w.vip].backends
    ensures var m' := WithBackend(m, services[w.vip].backends[ep], ep);
            Under(hash, m', services, states, stale, w) && Safe(m', w.guard)
  {
    hide Keeping, Safe, AgreeBut, Allowed, Named;
    var m' := WithBackend(m, services[w.vip].backends[ep], ep);
    RefreshStep(hash, m, services, states, ids, w.vip, Amiss(w.loose, stale), ep);
    SameKeeping(m, m', services, states, stale, w);
    UnderSafe(hash, m', services, states, ids, stale, w);
  }

  /** One slot of a table being written, outside the frozen ones. */
  lemma SlotUnder(hash: Hash<Endpoint>, m: Maps, services: Services, states: States, ids: map<Endpoint, nat>,
      stale: set<nat>, w: Watch, slot: nat, ep: Endpoint)
    requires Under(hash, m, services, states, stale, w) && Named(services, states, ids)
    requires slot < |m.maglev| && ep in services[w.vip].backends && Everywhere(w.loose, ep)
        && slot !in w.guard.frozen
    requires forall u :: u in services && u != w.vip ==> !Within(services[u].ext, slot)
    ensures var m' := WithSlot(m, slot, services[w.vip].backends[ep]);
            Under(hash, m', services, states, stale, w) && Safe(m', w.guard)
  {
    hide Keeping, AgreeBut, Allowed, Confined, Named, Safe, Everywhere;
    var m' := WithSlot(m, slot, services[w.vip].backends[ep]);
    SlotStep(hash, m, services, states, ids, w.vip, Amiss(w.loose, stale), slot, ep);
    SlotKeeping(m, m', services, states, stale, w, slot);
    UnderSafe(hash, m', services, states, ids, stale, w);
  }

  lemma SlotKeeping(m: Maps, m': Maps, services: Services, states: States, stale: set<nat>, w: Watch, slot: nat)
    requires Keeping(m, services, states, stale, w) && slot !in w.guard.frozen && m'.vip == m.vip
        && m'.ranges == m.ranges
    requires |m'.maglev| == |m.maglev| && forall s :: 0 <= s < |m.maglev| && s != slot ==> m'.maglev[s] == m.maglev[s]
    ensures Keeping(m', services, states, stale, w)
  {
    hide Anchored, HealthOf, Owns;
  }

  lemma SameKeeping(m: Maps, m': Maps, services: Services, states: States, stale: set<nat>, w: Watch)
    requires Keeping(m, services, states, stale, w) && m'.vip == m.vip && m'.ranges == m.ranges && m'.maglev == m.maglev
    ensures Keeping(m', services, states, stale, w)
  {
    hide Anchored, HealthOf, Owns;
  }

  /** Publishing a configuration that points at the VIP's extent, or at nothing. */
  lemma PublishUnder(hash: Hash<Endpoint>, m: Maps, services: Services, states: States, ids: map<Endpoint, nat>,
      stale: set<nat>, w: Watch, cfg: ServiceConfig)
    requires Under(hash, m, services, states, stale, w) && Named(services, states, ids)
    requires cfg == ZERO_CONFIG || Extent(cfg.offset, cfg.size) == services[w.vip].ext
    ensures services[w.vip].sid < |m.svc|
    ensures var m' := WithService(m, services[w.vip].sid, cfg);
            Under(hash, m', services, states, stale, w) && Safe(m', w.guard)
  {
    hide Keeping, Named, Safe, AgreeBut, Allowed;
    LooseIsKnown(hash, m, services, states, w.vip, Amiss(w.loose, stale));
    ConfigBut(hash, m, services, states, w.vip, Amiss(w.loose, stale), cfg);
    var m' := WithService(m, services[w.vip].sid, cfg);
    SameKeeping(m, m', services, states, stale, w);
    UnderSafe(hash, m', services, states, ids, stale, w);
  }

  /** VIP map entries change; if packets are to go on finding the VIP, none goes. */
  lemma VipMapsKeeping(m: Maps, m': Maps, services: Services, states: States, stale: set<nat>, w: Watch)
    requires Keeping(m, services, states, stale, w) && m'.maglev == m.maglev
    requires w.vip in w.guard.installed ==>
        (forall k :: k in m.vip ==> k in m'.vip) && (forall k :: k in m.ranges ==> k in m'.ranges)
    ensures Keeping(m', services, states, stale, w)
  {
    hide Anchored, HealthOf, Owns;
  }

  lemma InstallExactUnder(hash: Hash<Endpoint>, m: Maps, services: Services, states: States, ids: map<Endpoint, nat>,
      stale: set<nat>, w: Watch, k: ExactKey)
    requires Under(hash, m, services, states, stale, w) && Named(services, states, ids) && ExactVip(k) == w.vip
    ensures var m' := WithVip(m, k, services[w.vip].sid);
            Under(hash, m', services, states, stale, w) && Safe(m', w.guard)
  {
    hide Keeping, Named, Safe, AgreeBut, Allowed;
    var m' := WithVip(m, k, services[w.vip].sid);
    InstallExactBut(hash, m, services, states, w.vip, Amiss(w.loose, stale), k);
    VipMapsKeeping(m, m', services, states, stale, w);
    UnderSafe(hash, m', services, states, ids, stale, w);
  }

  lemma InstallRangeUnder(hash: Hash<Endpoint>, m: Maps, services: Services, states: States, ids: map<Endpoint, nat>,
      stale: set<nat>, w: Watch, k: RangeKey)
    requires Under(hash, m, services, states, stale, w) && Named(services, states, ids) && Owns(w.vip, k)
    ensures var m' := WithRange(m, k, services[w.vip].sid);
            Under(hash, m', services, states, stale, w) && Safe(m', w.guard)
  {
    hide Keeping, Named, Safe, Owns, AgreeBut, Allowed;
    var m' := WithRange(m, k, services[w.vip].sid);
    InstallRangeBut(hash, m, services, states, w.vip, Amiss(w.loose, stale), k);
    VipMapsKeeping(m, m', services, states, stale, w);
    UnderSafe(hash, m', services, states, ids, stale, w);
  }

  lemma UninstallExactUnder(hash: Hash<Endpoint>, m: Maps, services: Services, states: States, ids: map<Endpoint, nat>,
      stale: set<nat>, w: Watch, k: ExactKey)
    requires Under(hash, m, services, states, stale, w) && Named(services, states, ids) && ExactVip(k) == w.vip
        && w.vip !in w.guard.installed
    ensures Under(hash, WithoutVip(m, k), services, states, stale, w) && Safe(WithoutVip(m, k), w.guard)
  {
    hide Keeping, Named, Safe, AgreeBut, Allowed;
    UninstallExactBut(hash, m, services, states, w.vip, Amiss(w.loose, stale), k);
    VipMapsKeeping(m, WithoutVip(m, k), services, states, stale, w);
    UnderSafe(hash, WithoutVip(m, k), services, states, ids, stale, w);
  }

  lemma UninstallRangeUnder(hash: Hash<Endpoint>, m: Maps, services: Services, states: States, ids: map<Endpoint, nat>,
      stale: set<nat>, w: Watch, k: RangeKey)
    requires Under(hash, m, services, states, stale, w) && Named(services, states, ids) && Owns(w.vip, k)
        && w.vip !in w.guard.installed
    ensures Under(hash, WithoutRange(m, k), services, states, stale, w) && Safe(WithoutRange(m, k), w.guard)
  {
    hide Keeping, Named, Safe, Owns, AgreeBut, Allowed;
    UninstallRangeBut(hash, m, services, states, w.vip, Amiss(w.loose, stale), k);
    VipMapsKeeping(m, WithoutRange(m, k), services, states, stale, w);
    UnderSafe(hash, WithoutRange(m, k), services, states, ids, stale, w);
  }

  /** The same watch without the demand that packets go on finding the VIP itself. */
  function Lax(w: Watch): Watch {
    w.(guard := w.guard.(installed := w.guard.installed - {w.vip}))
  }

  lemma LaxUnder(hash: Hash<Endpoint>, m: Maps, services: Services, states: States, stale: set<nat>, w: Watch)
    requires Under(hash, m, services, states, stale, w)
    ensures Under(hash, m, services, states, stale, Lax(w)) && Weaker(Lax(w).guard, w.guard)
  {
    hide AgreeBut, Allowed, Anchored, HealthOf, Installed;
  }

  // ---- A whole log.

  ghost predicate AllSafe(log: seq<Maps>, from: nat, g: Guard) {
    forall i :: from <= i < |log| ==> Safe(log[i], g)
  }

  /** What was written since keeps to the guard. */
  ghost predicate SafeSince(was: seq<Maps>, log: seq<Maps>, g: Guard) {
    was <= log && AllSafe(log, |was|, g)
  }

  lemma SafeJoin(log0: seq<Maps>, log1: seq<Maps>, log: seq<Maps>, g: Guard)
    requires SafeSince(log0, log1, g) && SafeSince(log1, log, g)
    ensures SafeSince(log0, log, g)
  {
    hide Safe;
    forall i | |log0| <= i < |log|
      ensures Safe(log[i], g)
    {
      if i < |log1| {
        assert log[i] == log1[i];
      }
    }
  }

  lemma LogsGrow(log0: seq<Maps>, log1: seq<Maps>, log: seq<Maps>)
    requires log0 <= log1 <= log
    ensures log0 <= log
  {
  }

  lemma SafeJoins(log0: seq<Maps>, log1: seq<Maps>, log: seq<Maps>, g: Guard)
    ensures SafeSince(log0, log1, g) && SafeSince(log1, log, g) ==> SafeSince(log0, log, g)
  {
    hide SafeSince;
    if SafeSince(log0, log1, g) && SafeSince(log1, log, g) {
      SafeJoin(log0, log1, log, g);
    }
  }

  lemma SafeOn(log0: seq<Maps>, log1: seq<Maps>, log: seq<Maps>, g': Guard, g: Guard)
    requires SafeSince(log0, log1, g) && SafeSince(log1, log, g') && Weaker(g, g')
    ensures SafeSince(log0, log, g)
  {
    hide Safe, Weaker;
    forall i | |log1| <= i < |log|
      ensures Safe(log[i], g)
    {
      SafeWidens(log[i], g', g);
    }
    SafeJoin(log0, log1, log, g);
  }
}
