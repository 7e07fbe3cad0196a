/** How the maps agree with the control plane's memory, at rest and in the middle of an
    operation on one VIP, and why every packet stays confined in between. */
module MapAgreement {
  import opened Common
  import opened Types
  import opened Primes
  import opened PortRange
  import opened VipLookup
  import opened BpfMaps
  import opened ExtentAllocation
  import opened IdAllocation
  import opened Maglev
  import opened MaglevFairness
  import opened DataplaneState

  // ---- One VIP's extent.

  function ConfigOf(v: VipId, e: Service): ServiceConfig {
    ServiceConfig(|e.backends|, e.ext.offset, e.ext.size, e.vip.mode, e.vip.affinity, v.IsRange())
  }

  /** Every slot of the extent names one of the VIP's backends. */
  ghost predicate SlotsHold(m: Maps, e: Service) {
    e.ext.End() <= |m.maglev| && forall s: nat :: Within(e.ext, s) ==> m.maglev[s] in e.backends.Values
  }

  ghost predicate NamedIn(m: Maps, ext: Extent, id: nat) {
    exists s: nat :: Within(ext, s) && s < |m.maglev| && m.maglev[s] == id
  }

  /** Every backend of the VIP is named by some slot: the extent records the whole backend set. */
  ghost predicate AllNamed(m: Maps, e: Service) {
    forall ep :: ep in e.backends ==> NamedIn(m, e.ext, e.backends[ep])
  }

  /** The backend list handed to BuildTable. */
  function Listed(names: seq<Endpoint>, weights: map<Endpoint, nat>): (bs: seq<Maglev.Backend<Endpoint>>)
    requires forall ep :: ep in names ==> ep in weights
    ensures |bs| == |names|
  {
    seq(|names|, i requires 0 <= i < |names| => assert names[i] in names; Maglev.Backend(names[i], weights[names[i]]))
  }

  ghost predicate InOrder(hash: Hash<Endpoint>, names: seq<Endpoint>) {
    forall i, j :: 0 <= i < j < |names| ==> hash.rank(names[i]) <= hash.rank(names[j])
  }

  /** The slice is the Maglev table of the weighted backends in the order of their names, with IDs for
      backends. */
  ghost predicate TableOf(hash: Hash<Endpoint>, slice: seq<nat>, names: seq<Endpoint>, backends: map<Endpoint, nat>,
      weights: map<Endpoint, nat>) {
    && IsPrime(|slice|) && names != [] && Distinct(names) && InOrder(hash, names)
    && (forall ep :: ep in names <==> ep in backends)
    && weights.Keys == backends.Keys
    && TotalWeight(Listed(names, weights)) < |slice|
    && var table := Table(|slice|, hash, Listed(names, weights));
       forall s :: 0 <= s < |slice| ==> 0 <= table[s] < |names| && slice[s] == backends[names[table[s]]]
  }

  /** A VIP whose specification is known has the table of exactly those weights. */
  ghost predicate Balanced(hash: Hash<Endpoint>, m: Maps, e: Service) {
    e.spec.Some? ==>
      && e.spec.value == e.vip
      && e.ext.End() <= |m.maglev|
      && exists names :: TableOf(hash, m.maglev[e.ext.offset..e.ext.End()], names, e.backends,
          WeightsOf(e.vip.backends))
  }

  ghost predicate TableSettled(hash: Hash<Endpoint>, m: Maps, e: Service) {
    && e.ext.size in SIZE_CLASSES && e.ext.End() <= MAGLEV_M
    && e.backends != map[] && !Outgrown(e.ext, ClassFor(|e.backends|))
    && SlotsHold(m, e) && AllNamed(m, e) && Balanced(hash, m, e)
  }

  ghost predicate Settled(hash: Hash<Endpoint>, m: Maps, v: VipId, e: Service) {
    && e.vip.id == v && (e.spec.None? ==> e.vip.backends == [])
    && e.sid < |m.svc| && m.svc[e.sid] == ConfigOf(v, e)
    && TableSettled(hash, m, e)
  }

  /** What a VIP's agreement depends on. */
  lemma SettledFrame(hash: Hash<Endpoint>, m: Maps, m': Maps, v: VipId, e: Service)
    requires Settled(hash, m, v, e)
    requires |m'.svc| == |m.svc| && |m'.maglev| == |m.maglev| && m'.svc[e.sid] == m.svc[e.sid]
    requires forall s: nat :: Within(e.ext, s) && s < |m.maglev| ==> m'.maglev[s] == m.maglev[s]
    ensures Settled(hash, m', v, e)
  {
    TableFrame(hash, m, m', e);
  }

  lemma TableFrame(hash: Hash<Endpoint>, m: Maps, m': Maps, e: Service)
    requires TableSettled(hash, m, e) && |m'.maglev| == |m.maglev|
    requires forall s: nat :: Within(e.ext, s) && s < |m.maglev| ==> m'.maglev[s] == m.maglev[s]
    ensures TableSettled(hash, m', e)
  {
    hide TableOf, AllNamed, ClassFor, Outgrown;
    SliceSame(m, m', e.ext);
    NamedFrame(m, m', e);
  }

  lemma SliceSame(m: Maps, m': Maps, ext: Extent)
    requires ext.End() <= |m.maglev| == |m'.maglev|
    requires forall s: nat :: Within(ext, s) && s < |m.maglev| ==> m'.maglev[s] == m.maglev[s]
    ensures m.maglev[ext.offset..ext.End()] == m'.maglev[ext.offset..ext.End()]
  {
    forall i | 0 <= i < ext.size
      ensures m.maglev[ext.offset..ext.End()][i] == m'.maglev[ext.offset..ext.End()][i]
    {
      assert Within(ext, ext.offset + i);
    }
  }

  lemma NamedFrame(m: Maps, m': Maps, e: Service)
    requires AllNamed(m, e) && |m'.maglev| == |m.maglev|
    requires forall s: nat :: Within(e.ext, s) && s < |m.maglev| ==> m'.maglev[s] == m.maglev[s]
    ensures AllNamed(m', e)
  {
    forall ep | ep in e.backends
      ensures NamedIn(m', e.ext, e.backends[ep])
    {
      assert NamedIn(m, e.ext, e.backends[ep]);
      var s: nat :| Within(e.ext, s) && s < |m.maglev| && m.maglev[s] == e.backends[ep];
      assert m'.maglev[s] == e.backends[ep];
    }
  }

  // ---- The maps as a whole.

  /** Every entry is of a backend that is known, and every backend has its entry but for those that
      may be behind. */
  ghost predicate BackendMapOk(m: Maps, states: States, stale: set<nat>) {
    && (forall id :: id in m.backend ==> id in states && m.backend[id] == states[id].ep)
    && (forall id :: id in states && id !in stale ==> id in m.backend)
  }

  ghost predicate HealthOk(m: Maps, states: States, stale: set<nat>) {
    forall id :: 0 <= id < |m.health| && id !in stale ==>
      m.health[id] == if id in states then HealthOf(states[id]) else Down
  }

  ghost predicate SidUsed(services: Services, sid: nat) {
    exists v :: v in services && services[v].sid == sid
  }

  ghost predicate UnusedZero(m: Maps, services: Services) {
    forall sid :: 0 <= sid < |m.svc| && !SidUsed(services, sid) ==> m.svc[sid] == ZERO_CONFIG
  }

  ghost predicate SidsDistinct(services: Services) {
    && (forall v :: v in services ==> services[v].sid < MAX_VIPS)
    && (forall v, w :: v in services && w in services && v != w ==> services[v].sid != services[w].sid)
  }

  /** A VIP map entry leads to a known VIP's service. */
  ghost predicate Reachable(m: Maps, services: Services) {
    && (forall k :: k in m.vip ==> ExactVip(k) in services && m.vip[k] == services[ExactVip(k)].sid)
    && (forall k :: k in m.ranges ==> exists v :: v in services && Owns(v, k) && m.ranges[k] == services[v].sid)
  }

  /** Every packet of the VIP finds it. */
  ghost predicate Installed(m: Maps, v: VipId) {
    if v.IsRange() then forall k :: Owns(v, k) ==> k in m.ranges
    else ExactKey(v.addr, v.port, v.proto) in m.vip
  }

  ghost predicate Base(m: Maps, services: Services, states: States, stale: set<nat>) {
    && Shaped(m) && Compatible(services.Keys) && SidsDistinct(services)
    && Reachable(m, services) && BackendMapOk(m, states, stale) && HealthOk(m, states, stale) && UnusedZero(m, services)
    && (forall id :: id in states ==> id < MAX_BACKENDS) && stale <= states.Keys
  }

  /** At rest: the maps say exactly what the memory says. */
  ghost predicate Agree(hash: Hash<Endpoint>, m: Maps, services: Services, states: States) {
    Base(m, services, states, {}) && forall v :: v in services ==> Settled(hash, m, v, services[v]) && Installed(m, v)
  }

  /** The slots of the extent name only backends in eps. */
  ghost predicate NamesOnly(m: Maps, states: States, ext: Extent, eps: set<Endpoint>) {
    forall s: nat :: Within(ext, s) && s < |m.maglev| && m.maglev[s] in states ==> states[m.maglev[s]].ep in eps
  }

  /** So do the slots the published configuration points at. */
  ghost predicate SlotsAllowed(m: Maps, states: States, sid: nat, eps: set<Endpoint>) {
    sid < |m.svc| && NamesOnly(m, states, Extent(m.svc[sid].offset, m.svc[sid].size), eps)
  }

  /** A VIP of which no more is known than what its packets may reach, now or once its extent is published. */
  ghost predicate Contained(m: Maps, states: States, e: Service, eps: set<Endpoint>) {
    SlotsAllowed(m, states, e.sid, eps) && NamesOnly(m, states, e.ext, eps)
  }

  /** What may be amiss: VIPs that an operation is under way on, or has failed on, with the backends
      their packets may reach meanwhile; and backend IDs whose entries the kernel did not take. */
  datatype Amiss = Amiss(loose: map<VipId, set<Endpoint>>, stale: set<nat>)

  const NOTHING := Amiss(map[], {})

  /** The maps say what the memory says, but for what is amiss. */
  ghost predicate AgreeBut(hash: Hash<Endpoint>, m: Maps, services: Services, states: States, a: Amiss) {
    && Base(m, services, states, a.stale) && a.loose.Keys <= services.Keys
    && (forall w :: w in services && w !in a.loose ==> Settled(hash, m, w, services[w]) && Installed(m, w))
    && (forall u :: u in a.loose ==> u in services && Contained(m, states, services[u], a.loose[u]))
  }

  /** The backends each VIP's packets may reach. */
  ghost function Allowed(services: Services, loose: map<VipId, set<Endpoint>>): map<VipId, set<Endpoint>> {
    map w | w in services :: if w in loose then loose[w] else services[w].backends.Keys
  }

  lemma AgreeIff(hash: Hash<Endpoint>, m: Maps, services: Services, states: States)
    ensures Agree(hash, m, services, states) <==> AgreeBut(hash, m, services, states, NOTHING)
  {
    hide Base, Settled, Installed;
  }

  lemma SettledAllows(hash: Hash<Endpoint>, m: Maps, services: Services, states: States, ids: map<Endpoint, nat>,
      v: VipId)
    requires Named(services, states, ids) && v in services && Settled(hash, m, v, services[v])
    ensures Contained(m, states, services[v], services[v].backends.Keys)
  {
    hide Balanced, AllNamed;
    var e := services[v];
    assert Extent(m.svc[e.sid].offset, m.svc[e.sid].size) == e.ext;
    forall s: nat | Within(e.ext, s) && s < |m.maglev| && m.maglev[s] in states
      ensures states[m.maglev[s]].ep in e.backends.Keys
    {
      var ep :| ep in e.backends && e.backends[ep] == m.maglev[s];
      assert ep in ids && ids[ep] == m.maglev[s];
    }
  }

  /** One may be more careful than before. */
  ghost predicate Looser(services: Services, loose: map<VipId, set<Endpoint>>, loose': map<VipId, set<Endpoint>>) {
    && loose.Keys <= loose'.Keys <= services.Keys
    && forall u :: u in loose' && u in services ==>
         (if u in loose then loose[u] else services[u].backends.Keys) <= loose'[u]
  }

  lemma Loosen(hash: Hash<Endpoint>, m: Maps, services: Services, states: States, ids: map<Endpoint, nat>, a: Amiss,
      loose: map<VipId, set<Endpoint>>)
    requires AgreeBut(hash, m, services, states, a) && Named(services, states, ids) && Looser(services, a.loose, loose)
    ensures AgreeBut(hash, m, services, states, Amiss(loose, a.stale))
  {
    hide Settled, Installed, Base, Named, Contained;
    forall u | u in loose
      ensures Contained(m, states, services[u], loose[u])
    {
      if u in a.loose {
        ContainedWidens(m, states, services[u], a.loose[u], loose[u]);
      } else {
        SettledAllows(hash, m, services, states, ids, u);
        ContainedWidens(m, states, services[u], services[u].backends.Keys, loose[u]);
      }
    }
  }

  lemma ContainedWidens(m: Maps, states: States, e: Service, eps: set<Endpoint>, wider: set<Endpoint>)
    requires Contained(m, states, e, eps) && eps <= wider
    ensures Contained(m, states, e, wider)
  {
  }

  lemma AllowedServes(m: Maps, states: States, stale: set<nat>, sid: nat, eps: set<Endpoint>)
    requires BackendMapOk(m, states, stale) && SlotsAllowed(m, states, sid, eps)
    ensures ServesOnly(m, sid, eps)
  {
  }

  /** Whatever is amiss, every packet is confined. */
  lemma ButConfined(hash: Hash<Endpoint>, m: Maps, services: Services, states: States, ids: map<Endpoint, nat>,
      a: Amiss)
    requires AgreeBut(hash, m, services, states, a) && Named(services, states, ids)
    ensures Confined(m, Allowed(services, a.loose))
  {
    hide Settled, Installed, ServesOnly, SlotsAllowed, Named, Reachable, Compatible, UnusedZero, BackendMapOk, HealthOk;
    var allowed := Allowed(services, a.loose);
    forall w | w in services
      ensures ServesOnly(m, services[w].sid, allowed[w])
    {
      if w !in a.loose {
        SettledAllows(hash, m, services, states, ids, w);
      }
      AllowedServes(m, states, a.stale, services[w].sid, allowed[w]);
    }
    ReachesAllowed(m, services, allowed);
  }

  /** Every entry leads to a VIP, and every VIP serves only what it may. */
  lemma ReachesAllowed(m: Maps, services: Services, allowed: map<VipId, set<Endpoint>>)
    requires Reachable(m, services) && allowed.Keys == services.Keys
    requires forall w :: w in services ==> ServesOnly(m, services[w].sid, allowed[w])
    ensures Confined(m, allowed)
  {
    hide ServesOnly, Owns;
    forall k | k in m.ranges
      ensures exists w :: w in allowed && Owns(w, k) && ServesOnly(m, m.ranges[k], allowed[w])
    {
      var w :| w in services && Owns(w, k) && m.ranges[k] == services[w].sid;
      assert w in allowed && ServesOnly(m, m.ranges[k], allowed[w]);
    }
  }

  /** Taking backends away keeps packets confined. */
  lemma ConfinedShrinks(m: Maps, m': Maps, allowed: map<VipId, set<Endpoint>>)
    requires Confined(m, allowed)
    requires m'.vip == m.vip && m'.ranges == m.ranges && m'.svc == m.svc && m'.maglev == m.maglev
    requires |m'.health| == |m.health|
    requires forall id :: 0 <= id < |m.health| && m'.health[id] == Healthy && id in m'.backend ==>
               m.health[id] == Healthy && id in m.backend && m'.backend[id] == m.backend[id]
    ensures Confined(m', allowed)
  {
    forall sid: nat, eps | ServesOnly(m, sid, eps)
      ensures ServesOnly(m', sid, eps)
    {
      forall s: nat | sid < |m'.svc| && m'.svc[sid].offset <= s < m'.svc[sid].offset + m'.svc[sid].size
        && HealthyAt(m', s).Some?
                      && HealthyAt(m', s).value in m'.backend
        ensures m'.backend[HealthyAt(m', s).value] in eps
      {
        assert HealthyAt(m, s) == HealthyAt(m', s);
      }
    }
    hide ServesOnly, Owns;
    forall k | k in m'.ranges
      ensures exists w :: w in allowed && Owns(w, k) && ServesOnly(m', m'.ranges[k], allowed[w])
    {
      var w :| w in allowed && Owns(w, k) && ServesOnly(m, m.ranges[k], allowed[w]);
      assert ServesOnly(m', m'.ranges[k], allowed[w]);
    }
  }

  // ---- Steps of an operation.

  /** A VIP without packets, backends or extent joins the known ones. */
  lemma RegisterBut(hash: Hash<Endpoint>, m: Maps, services: Services, states: States, v: VipId, e: Service, a: Amiss,
      eps: set<Endpoint>)
    requires AgreeBut(hash, m, services, states, a)
    requires v !in services && e.sid < MAX_VIPS && !SidUsed(services, e.sid) && e.ext == NO_EXTENT
    requires Compatible(services.Keys + {v})
    ensures AgreeBut(hash, m, services[v := e], states, a.(loose := a.loose[v := eps]))
  {
    hide Settled, Installed, Compatible, Named, Reachable, BackendMapOk, HealthOk, SidUsed, Contained;
    var services' := services[v := e];
    assert services'.Keys == services.Keys + {v};
    assert m.svc[e.sid] == ZERO_CONFIG;
    RegisterSid(services, v, e);
    SidsKept(m, services, services');
    NothingPublished(m, states, e, eps);
  }

  lemma RegisterSid(services: Services, v: VipId, e: Service)
    requires SidsDistinct(services) && v !in services && e.sid < MAX_VIPS && !SidUsed(services, e.sid)
    ensures SidsDistinct(services[v := e])
  {
  }

  lemma NothingPublished(m: Maps, states: States, e: Service, eps: set<Endpoint>)
    requires e.sid < |m.svc| && m.svc[e.sid] == ZERO_CONFIG
    ensures SlotsAllowed(m, states, e.sid, eps) && (e.ext == NO_EXTENT ==> Contained(m, states, e, eps))
  {
  }

  lemma SidsKept(m: Maps, services: Services, services': Services)
    requires forall w :: w in services ==> w in services' && services'[w].sid == services[w].sid
    ensures Reachable(m, services) ==> Reachable(m, services')
    ensures UnusedZero(m, services) ==> UnusedZero(m, services')
  {
    hide Owns;
    forall sid | SidUsed(services, sid)
      ensures SidUsed(services', sid)
    {
      var w :| w in services && services[w].sid == sid;
      assert services'[w].sid == sid;
    }
    if Reachable(m, services) {
      forall k | k in m.ranges
        ensures exists w :: w in services' && Owns(w, k) && m.ranges[k] == services'[w].sid
      {
        var w :| w in services && Owns(w, k) && m.ranges[k] == services[w].sid;
        assert services'[w].sid == services[w].sid;
      }
    }
  }

  lemma RegisterBackends(services: Services, states: States, ids: map<Endpoint, nat>, lost: multiset<Endpoint>,
      v: VipId, e: Service)
    requires Counted(services, states, ids, lost) && v !in services && e.backends == map[]
    ensures Counted(services[v := e], states, ids, lost)
  {
    var services' := services[v := e];
    forall id | id in states
      ensures Users(services', states[id].ep) == Users(services, states[id].ep)
    {
    }
  }

  /** Changing the entry of a VIP that is loose, but not its service ID. */
  lemma EntryBut(hash: Hash<Endpoint>, m: Maps, services: Services, states: States, v: VipId, e: Service, a: Amiss)
    requires AgreeBut(hash, m, services, states, a) && v in a.loose && e.sid == services[v].sid
    requires e.ext == services[v].ext || NamesOnly(m, states, e.ext, a.loose[v])
    ensures AgreeBut(hash, m, services[v := e], states, a)
    ensures Allowed(services[v := e], a.loose) == Allowed(services, a.loose)
  {
    hide Settled, Installed, Compatible, Owns, SlotsAllowed, NamesOnly;
    var services' := services[v := e];
    assert services'.Keys == services.Keys;
    SidsKept(m, services, services');
  }

  /** Every loose VIP's packets may reach ep. */
  ghost predicate Everywhere(loose: map<VipId, set<Endpoint>>, ep: Endpoint) {
    forall u :: u in loose ==> ep in loose[u]
  }

  /** An ID keeps its meaning or gets one that loose VIPs may reach. */
  ghost predicate OnlyReachable(states: States, states': States, loose: map<VipId, set<Endpoint>>) {
    forall id :: id in states' ==>
      id < MAX_BACKENDS && (Everywhere(loose, states'[id].ep) || (id in states && states'[id].ep == states[id].ep))
  }

  /** Maps that differ only in backends and their health. */
  lemma BackendsBut(hash: Hash<Endpoint>, m: Maps, m': Maps, services: Services, states: States, states': States,
      a: Amiss, stale: set<nat>)
    requires AgreeBut(hash, m, services, states, a)
    requires m' == m.(backend := m'.backend, health := m'.health) && |m'.health| == |m.health|
    requires BackendMapOk(m', states', stale) && HealthOk(m', states', stale) && stale <= states'.Keys
    requires OnlyReachable(states, states', a.loose)
    ensures AgreeBut(hash, m', services, states', Amiss(a.loose, stale))
  {
    hide Base, Settled, Installed, Contained, BackendMapOk, HealthOk, OnlyReachable;
    BackendsBase(m, m', services, states, a.stale, states', stale, a.loose);
    forall u | u in a.loose
      ensures Contained(m', states', services[u], a.loose[u])
    {
      ContainedFollows(m, m', states, states', services[u], a.loose, u);
    }
    forall w | w in services && w !in a.loose
      ensures Settled(hash, m', w, services[w]) && Installed(m', w)
    {
      SettledHas(hash, m, w, services[w]);
      SettledFrame(hash, m, m', w, services[w]);
      InstalledFrame(m, m', w);
    }
  }

  lemma BackendsBase(m: Maps, m': Maps, services: Services, states: States, stale: set<nat>, states': States,
      stale': set<nat>, loose: map<VipId, set<Endpoint>>)
    requires Base(m, services, states, stale) && m' == m.(backend := m'.backend, health := m'.health)
        && |m'.health| == |m.health|
    requires BackendMapOk(m', states', stale') && HealthOk(m', states', stale') && stale' <= states'.Keys
    requires OnlyReachable(states, states', loose)
    ensures Base(m', services, states', stale')
  {
    hide Compatible, Owns, SidUsed, BackendMapOk, HealthOk;
  }

  lemma ContainedFollows(m: Maps, m': Maps, states: States, states': States, e: Service,
      loose: map<VipId, set<Endpoint>>, u: VipId)
    requires u in loose && Contained(m, states, e, loose[u]) && m'.svc == m.svc && m'.maglev == m.maglev
    requires OnlyReachable(states, states', loose)
    ensures Contained(m', states', e, loose[u])
  {
  }

  function WithoutBackend(m: Maps, id: nat): Maps {
    m.(backend := m.backend - {id})
  }

  function WithBackend(m: Maps, id: nat, ep: Endpoint): Maps {
    m.(backend := m.backend[id := ep])
  }

  function WithHealth(m: Maps, id: nat, h: Health): Maps
    requires id < |m.health|
  {
    m.(health := m.health[id := h])
  }

  /** releaseBackendLocked: dropping a reference, and the two writes when the last one goes. */
  lemma ReleaseBut(hash: Hash<Endpoint>, m: Maps, services: Services, states: States, a: Amiss, id: nat)
    requires AgreeBut(hash, m, services, states, a) && id in states && id < |m.health|
    ensures states[id].refCount > 1 ==> AgreeBut(hash, m, services, Released(states, id), a)
    ensures states[id].refCount <= 1 ==>
              AgreeBut(hash, WithHealth(WithoutBackend(m, id), id, Down), services, Released(states, id),
                Amiss(a.loose, a.stale - {id}))
  {
    hide Settled, Installed, Compatible, Reachable, Contained;
    var states' := Released(states, id);
    if states[id].refCount > 1 {
      BackendsBut(hash, m, m, services, states, states', a, a.stale);
    } else {
      BackendsBut(hash, m, WithHealth(WithoutBackend(m, id), id, Down), services, states, states', a, a.stale - {id});
    }
  }

  /** What may be behind once a backend has been counted and nothing is written yet. */
  function Unwritten(states: States, stale: set<nat>, id: nat): set<nat> {
    if id in states then stale else stale + {id}
  }

  /** acquireBackendLocked: the reference is counted, the entry written, and then its health. */
  lemma AcquireBut(hash: Hash<Endpoint>, m: Maps, services: Services, states: States, a: Amiss, id: nat, ep: Endpoint)
    requires AgreeBut(hash, m, services, states, a) && id < |m.health| && Everywhere(a.loose, ep)
    requires id in states ==> states[id].ep == ep
    ensures var states', stale := Acquired(states, id, ep), Unwritten(states, a.stale, id);
            && AgreeBut(hash, m, services, states', Amiss(a.loose, stale))
            && AgreeBut(hash, WithBackend(m, id, ep), services, states', Amiss(a.loose, stale))
            && AgreeBut(hash, WithHealth(WithBackend(m, id, ep), id, HealthOf(states'[id])), services, states',
                 Amiss(a.loose, a.stale - {id}))
  {
    var states', stale := Acquired(states, id, ep), Unwritten(states, a.stale, id);
    ButFacts(hash, m, services, states, a);
    AcquireMaps(m, states, a.stale, id, ep);
    hide AgreeBut, BackendMapOk, HealthOk, HealthOf, Unwritten;
    BackendsBut(hash, m, m, services, states, states', a, stale);
    BackendsBut(hash, m, WithBackend(m, id, ep), services, states, states', a, stale);
    BackendsBut(hash, m, WithHealth(WithBackend(m, id, ep), id, HealthOf(states'[id])), services, states, states', a,
      a.stale - {id});
  }

  lemma ButFacts(hash: Hash<Endpoint>, m: Maps, services: Services, states: States, a: Amiss)
    requires AgreeBut(hash, m, services, states, a)
    ensures BackendMapOk(m, states, a.stale) && HealthOk(m, states, a.stale) && a.stale <= states.Keys
    ensures (forall id :: id in states ==> id < MAX_BACKENDS) && |m.health| == MAX_BACKENDS
    ensures forall u :: u in services && u !in a.loose ==> Installed(m, u)
  {
    hide Settled, Installed, Compatible, Reachable, Contained, UnusedZero, BackendMapOk, HealthOk;
  }

  lemma AcquireMaps(m: Maps, states: States, stale: set<nat>, id: nat, ep: Endpoint)
    requires BackendMapOk(m, states, stale) && HealthOk(m, states, stale) && stale <= states.Keys && id < |m.health|
    requires id in states ==> states[id].ep == ep
    ensures var states', stale' := Acquired(states, id, ep), Unwritten(states, stale, id);
            var m1, m2 := WithBackend(m, id, ep), WithHealth(WithBackend(m, id, ep), id, HealthOf(states'[id]));
            && BackendMapOk(m, states', stale') && HealthOk(m, states', stale') && stale' <= states'.Keys
            && BackendMapOk(m1, states', stale') && HealthOk(m1, states', stale')
            && BackendMapOk(m2, states', stale - {id}) && HealthOk(m2, states', stale - {id})
            && (forall x :: x in states' ==> x == id || (x in states && states'[x].ep == states[x].ep))
            && id in states' && states'[id].ep == ep
  {
  }

  lemma ReleaseWrites(m: Maps, allowed: map<VipId, set<Endpoint>>, id: nat)
    requires Confined(m, allowed) && id < |m.health|
    ensures Confined(WithoutBackend(m, id), allowed)
    ensures Confined(WithHealth(WithoutBackend(m, id), id, Down), allowed)
  {
    hide Confined;
    ConfinedShrinks(m, WithoutBackend(m, id), allowed);
    ConfinedShrinks(m, WithHealth(WithoutBackend(m, id), id, Down), allowed);
  }

  function WithSlot(m: Maps, slot: nat, id: nat): Maps
    requires slot < |m.maglev|
  {
    m.(maglev := m.maglev[slot := id])
  }

  /** Writing one slot that only a loose VIP may hold with the ID of a backend they may all reach. */
  lemma SlotBut(hash: Hash<Endpoint>, m: Maps, services: Services, states: States, a: Amiss, slot: nat, id: nat)
    requires AgreeBut(hash, m, services, states, a) && slot < |m.maglev|
    requires id in states ==> Everywhere(a.loose, states[id].ep)
    requires forall w :: w in services && w !in a.loose ==> !Within(services[w].ext, slot)
    ensures AgreeBut(hash, WithSlot(m, slot, id), services, states, a)
  {
    hide Base, Installed, Settled, Contained;
    var m' := WithSlot(m, slot, id);
    SlotBase(m, services, states, a.stale, slot, id);
    forall u | u in a.loose
      ensures Contained(m', states, services[u], a.loose[u])
    {
      SlotContained(m, states, services[u], a.loose[u], slot, id);
    }
    forall w | w in services && w !in a.loose
      ensures Settled(hash, m', w, services[w]) && Installed(m', w)
    {
      SettledHas(hash, m, w, services[w]);
      SettledFrame(hash, m, m', w, services[w]);
      InstalledFrame(m, m', w);
    }
  }

  lemma SettledHas(hash: Hash<Endpoint>, m: Maps, w: VipId, e: Service)
    requires Settled(hash, m, w, e)
    ensures e.sid < |m.svc|
  {
    hide TableSettled;
  }

  lemma SlotBase(m: Maps, services: Services, states: States, stale: set<nat>, slot: nat, id: nat)
    requires Base(m, services, states, stale) && slot < |m.maglev|
    ensures Base(WithSlot(m, slot, id), services, states, stale)
  {
    hide Compatible, Owns, SidUsed;
  }

  lemma SlotContained(m: Maps, states: States, e: Service, eps: set<Endpoint>, slot: nat, id: nat)
    requires Contained(m, states, e, eps) && slot < |m.maglev| && (id in states ==> states[id].ep in eps)
    ensures Contained(WithSlot(m, slot, id), states, e, eps)
  {
  }

  function WithService(m: Maps, sid: nat, cfg: ServiceConfig): Maps
    requires sid < |m.svc|
  {
    m.(svc := m.svc[sid := cfg])
  }

  /** Publishing a configuration for v that points at its extent, or at nothing. */
  lemma ConfigBut(hash: Hash<Endpoint>, m: Maps, services: Services, states: States, v: VipId, a: Amiss,
      cfg: ServiceConfig)
    requires AgreeBut(hash, m, services, states, a) && v in a.loose && services[v].sid < |m.svc|
    requires cfg == ZERO_CONFIG || Extent(cfg.offset, cfg.size) == services[v].ext
    ensures AgreeBut(hash, WithService(m, services[v].sid, cfg), services, states, a)
  {
    hide Base, Installed, Contained, Settled;
    var m' := WithService(m, services[v].sid, cfg);
    PublishBase(m, services, states, a.stale, v, services[v].sid, cfg);
    PublishContained(m, states, services[v], a.loose[v], cfg);
    forall u | u in a.loose && u != v
      ensures Contained(m', states, services[u], a.loose[u])
    {
      OtherSid(m, services, states, a.stale, v, u);
      ContainedFrame(m, m', states, services[u], a.loose[u]);
    }
    forall w | w in services && w !in a.loose
      ensures Settled(hash, m', w, services[w]) && Installed(m', w)
    {
      OtherSid(m, services, states, a.stale, v, w);
      SettledFrame(hash, m, m', w, services[w]);
      InstalledFrame(m, m', w);
    }
  }

  lemma PublishContained(m: Maps, states: States, e: Service, eps: set<Endpoint>, cfg: ServiceConfig)
    requires Contained(m, states, e, eps) && (cfg == ZERO_CONFIG || Extent(cfg.offset, cfg.size) == e.ext)
    ensures Contained(WithService(m, e.sid, cfg), states, e, eps)
  {
  }

  lemma ContainedFrame(m: Maps, m': Maps, states: States, e: Service, eps: set<Endpoint>)
    requires Contained(m, states, e, eps) && m'.maglev == m.maglev && |m'.svc| == |m.svc|
        && m'.svc[e.sid] == m.svc[e.sid]
    ensures Contained(m', states, e, eps)
  {
  }

  /** Publishing v's configuration, as entry e is to have it: once its table is complete, that settles v. */
  lemma PublishSettles(hash: Hash<Endpoint>, m: Maps, v: VipId, e: Service)
    requires e.vip.id == v && e.spec.Some? && e.sid < |m.svc|
    ensures Settled(hash, WithService(m, e.sid, ConfigOf(v, e)), v, e) <==> TableSettled(hash, m, e)
  {
    hide TableSettled, ConfigOf;
    var m' := WithService(m, e.sid, ConfigOf(v, e));
    if TableSettled(hash, m, e) {
      TableFrame(hash, m, m', e);
    }
    if TableSettled(hash, m', e) {
      TableFrame(hash, m', m, e);
    }
  }

  lemma PublishBase(m: Maps, services: Services, states: States, stale: set<nat>, v: VipId, sid: nat,
      cfg: ServiceConfig)
    requires Base(m, services, states, stale) && v in services && services[v].sid == sid
    ensures sid < |m.svc| && Base(WithService(m, sid, cfg), services, states, stale)
  {
    hide Compatible, Owns;
    assert SidUsed(services, sid);
  }

  lemma OtherSid(m: Maps, services: Services, states: States, stale: set<nat>, v: VipId, w: VipId)
    requires Base(m, services, states, stale) && v in services && w in services && w != v
    ensures services[v].sid != services[w].sid && services[w].sid < |m.svc|
  {
    hide Compatible, Reachable, UnusedZero, HealthOk, BackendMapOk;
  }

  lemma InstalledFrame(m: Maps, m': Maps, w: VipId)
    requires Installed(m, w) && m'.vip == m.vip && m'.ranges == m.ranges
    ensures Installed(m', w)
  {
    hide Owns;
  }

  function WithVip(m: Maps, k: ExactKey, sid: nat): Maps {
    m.(vip := m.vip[k := sid])
  }

  function WithRange(m: Maps, k: RangeKey, sid: nat): Maps {
    m.(ranges := m.ranges[k := sid])
  }

  /** Maps that differ only in which packets find v. */
  lemma VipMapsBut(hash: Hash<Endpoint>, m: Maps, m': Maps, services: Services, states: States, v: VipId, a: Amiss)
    requires AgreeBut(hash, m, services, states, a) && v in a.loose
    requires m' == m.(vip := m'.vip, ranges := m'.ranges) && Reachable(m', services)
    requires forall k :: k in m.vip && ExactVip(k) != v ==> k in m'.vip
    requires forall k :: k in m.ranges && k !in m'.ranges ==> Owns(v, k)
    ensures AgreeBut(hash, m', services, states, a)
  {
    hide Base, Settled, Installed, Contained, Owns, Reachable;
    VipMapsBase(m, m', services, states, a.stale);
    forall u | u in a.loose
      ensures Contained(m', states, services[u], a.loose[u])
    {
      ContainedStays(m, m', states, services[u], a.loose[u]);
    }
    forall w | w in services && w !in a.loose
      ensures Settled(hash, m', w, services[w]) && Installed(m', w)
    {
      SettledHas(hash, m, w, services[w]);
      SettledFrame(hash, m, m', w, services[w]);
      StaysInstalled(m, m', services, v, w);
    }
  }

  lemma VipMapsBase(m: Maps, m': Maps, services: Services, states: States, stale: set<nat>)
    requires Base(m, services, states, stale) && m' == m.(vip := m'.vip, ranges := m'.ranges)
        && Reachable(m', services)
    ensures Base(m', services, states, stale) && Compatible(services.Keys)
  {
    hide Compatible, Reachable, SidUsed;
  }

  lemma ContainedStays(m: Maps, m': Maps, states: States, e: Service, eps: set<Endpoint>)
    requires Contained(m, states, e, eps) && m'.svc == m.svc && m'.maglev == m.maglev
    ensures Contained(m', states, e, eps)
  {
  }

  lemma StaysInstalled(m: Maps, m': Maps, services: Services, v: VipId, w: VipId)
    requires Compatible(services.Keys) && v in services && w in services && w != v && Installed(m, w)
    requires forall k :: k in m.vip && ExactVip(k) != v ==> k in m'.vip
    requires forall k :: k in m.ranges && k !in m'.ranges ==> Owns(v, k)
    ensures Installed(m', w)
  {
    if w.IsRange() {
      forall k | Owns(w, k)
        ensures k in m'.ranges
      {
        OwnedOnce(v, w, k);
        assert !Conflict(v, w);
      }
    } else {
      var k := ExactKey(w.addr, w.port, w.proto);
      assert ExactVip(k) == w;
    }
  }

  lemma OwnedOnce(v: VipId, w: VipId, k: RangeKey)
    requires ValidVip(v) && ValidVip(w)
    ensures Owns(v, k) && Owns(w, k) ==> Conflict(v, w)
  {
    if Owns(v, k) && Owns(w, k) {
      BlockInside(v, k.block, k.block.port);
      BlockInside(w, k.block, k.block.port);
    }
  }

  /** Dropping one of v's references: the writes, if any, and the state after them. */
  lemma DropStep(hash: Hash<Endpoint>, m: Maps, services: Services, states: States, ids: map<Endpoint, nat>, v: VipId,
      e: Service, a: Amiss, ep: Endpoint, id: nat)
    requires AgreeBut(hash, m, services, states, a) && Named(services, states, ids) && v in a.loose
    requires ep in services[v].backends && id == services[v].backends[ep]
    requires e == services[v].(backends := services[v].backends - {ep})
    ensures Allowed(services[v := e], a.loose) == Allowed(services, a.loose)
    ensures id in states && id < |m.health|
    ensures states[id].refCount > 1 ==> AgreeBut(hash, m, services[v := e], Released(states, id), a)
    ensures var m' := WithHealth(WithoutBackend(m, id), id, Down);
            states[id].refCount <= 1 ==>
              && AgreeBut(hash, m', services[v := e], Released(states, id), Amiss(a.loose, a.stale - {id}))
              && Confined(WithoutBackend(m, id), Allowed(services, a.loose))
              && Confined(m', Allowed(services, a.loose))
  {
    LooseIsKnown(hash, m, services, states, v, a);
    hide AgreeBut, Named, Confined, Allowed;
    DropKnown(hash, m, services, states, ids, v, a, ep, id);
    ButConfined(hash, m, services, states, ids, a);
    ReleaseWrites(m, Allowed(services, a.loose), id);
    ReleaseBut(hash, m, services, states, a, id);
    if states[id].refCount > 1 {
      EntryBut(hash, m, services, Released(states, id), v, e, a);
    } else {
      EntryBut(hash, WithHealth(WithoutBackend(m, id), id, Down), services, Released(states, id), v, e,
        Amiss(a.loose, a.stale - {id}));
    }
  }

  lemma LooseIsKnown(hash: Hash<Endpoint>, m: Maps, services: Services, states: States, v: VipId, a: Amiss)
    requires AgreeBut(hash, m, services, states, a) && v in a.loose
    ensures v in services && services[v].sid < |m.svc|
  {
    hide Settled, Installed, SlotsAllowed, Reachable, Compatible, UnusedZero, BackendMapOk, HealthOk;
  }

  lemma DropKnown(hash: Hash<Endpoint>, m: Maps, services: Services, states: States, ids: map<Endpoint, nat>, v: VipId,
      a: Amiss, ep: Endpoint, id: nat)
    requires AgreeBut(hash, m, services, states, a) && Named(services, states, ids) && v in services
    requires ep in services[v].backends && id == services[v].backends[ep]
    ensures id in states && id < MAX_BACKENDS == |m.health|
  {
    hide Settled, Installed, Contained, Reachable, Compatible, UnusedZero, BackendMapOk, HealthOk;
    assert ids[ep] == id && id in states;
  }

  /** Adding one reference: it is counted, then its two writes, then v lists the backend. */
  lemma AddStep(hash: Hash<Endpoint>, m: Maps, services: Services, states: States, ids: map<Endpoint, nat>, v: VipId,
      e: Service, a: Amiss, ep: Endpoint, id: nat)
    requires AgreeBut(hash, m, services, states, a) && Named(services, states, ids) && v in a.loose
    requires ep !in services[v].backends && Everywhere(a.loose, ep) && id < |m.health|
    requires ep in ids ==> ids[ep] == id
    requires ep !in ids ==> forall x :: x in ids ==> ids[x] != id
    requires e == services[v].(backends := services[v].backends[ep := id])
    ensures Allowed(services[v := e], a.loose) == Allowed(services, a.loose)
    ensures var states', stale := Acquired(states, id, ep), Unwritten(states, a.stale, id);
            var m' := WithHealth(WithBackend(m, id, ep), id, HealthOf(states'[id]));
            && AgreeBut(hash, m, services, states', Amiss(a.loose, stale))
            && AgreeBut(hash, WithBackend(m, id, ep), services, states', Amiss(a.loose, stale))
            && AgreeBut(hash, m', services[v := e], states', Amiss(a.loose, a.stale - {id}))
            && Confined(WithBackend(m, id, ep), Allowed(services, a.loose))
            && Confined(m', Allowed(services, a.loose))
  {
    AcquireIds(states, ids, ep, id);
    AcquireNamed(services, states, ids, v, e, ep, id);
    CountedNamed(services, states, ids, ep, id);
    hide AgreeBut, Named, Confined, Allowed, IdsMatch, Unwritten, Everywhere;
    var states', stale := Acquired(states, id, ep), Unwritten(states, a.stale, id);
    var m' := WithHealth(WithBackend(m, id, ep), id, HealthOf(states'[id]));
    AcquireBut(hash, m, services, states, a, id, ep);
    EntryBut(hash, m', services, states', v, e, Amiss(a.loose, a.stale - {id}));
    ButConfined(hash, WithBackend(m, id, ep), services, states', ids[ep := id], Amiss(a.loose, stale));
    ButConfined(hash, m', services[v := e], states', ids[ep := id], Amiss(a.loose, a.stale - {id}));
  }

  lemma CountedNamed(services: Services, states: States, ids: map<Endpoint, nat>, ep: Endpoint, id: nat)
    requires Named(services, states, ids) && (ep in ids ==> ids[ep] == id)
        && (ep !in ids ==> forall x :: x in ids ==> ids[x] != id)
    ensures Named(services, Acquired(states, id, ep), ids[ep := id])
  {
    AcquireIds(states, ids, ep, id);
  }

  lemma AcquireNamed(services: Services, states: States, ids: map<Endpoint, nat>, v: VipId, e: Service, ep: Endpoint,
      id: nat)
    requires Named(services, states, ids) && v in services
    requires ep in ids ==> ids[ep] == id
    requires ep !in ids ==> forall x :: x in ids ==> ids[x] != id
    requires e.backends == services[v].backends[ep := id]
    ensures Named(services[v := e], Acquired(states, id, ep), ids[ep := id])
  {
    AcquireIds(states, ids, ep, id);
  }

  /** Rewriting the entry of a backend that v lists already. */
  lemma RefreshStep(hash: Hash<Endpoint>, m: Maps, services: Services, states: States, ids: map<Endpoint, nat>,
      v: VipId, a: Amiss, ep: Endpoint)
    requires AgreeBut(hash, m, services, states, a) && Named(services, states, ids) && v in services
    requires ep in services[v].backends
    ensures AgreeBut(hash, WithBackend(m, services[v].backends[ep], ep), services, states, a)
  {
    hide Settled, Installed, Compatible, Reachable, Contained, UnusedZero;
    var id := services[v].backends[ep];
    assert ids[ep] == id && id in states && states[id].ep == ep;
    BackendsBut(hash, m, WithBackend(m, id, ep), services, states, states, a, a.stale);
  }

  /** One slot of a table being written. */
  lemma SlotStep(hash: Hash<Endpoint>, m: Maps, services: Services, states: States, ids: map<Endpoint, nat>, v: VipId,
      a: Amiss, slot: nat, ep: Endpoint)
    requires AgreeBut(hash, m, services, states, a) && Named(services, states, ids) && v in a.loose
    requires slot < |m.maglev| && ep in services[v].backends && Everywhere(a.loose, ep)
    requires forall w :: w in services && w != v ==> !Within(services[w].ext, slot)
    ensures AgreeBut(hash, WithSlot(m, slot, services[v].backends[ep]), services, states, a)
  {
    var id := services[v].backends[ep];
    assert ids[ep] == id && id in states && states[id].ep == ep;
    hide AgreeBut, Named, Everywhere;
    SlotBut(hash, m, services, states, a, slot, id);
  }

  /** The IDs a table of backend numbers stands for. */
  function Resolved(table: seq<int>, names: seq<Endpoint>, backends: map<Endpoint, nat>): (slice: seq<nat>)
    requires forall s :: 0 <= s < |table| ==> 0 <= table[s] < |names|
    requires forall ep :: ep in names ==> ep in backends
    ensures |slice| == |table|
    ensures forall s :: 0 <= s < |table| ==> slice[s] == backends[names[table[s]]]
  {
    seq(|table|, s requires 0 <= s < |table| => assert names[table[s]] in names; backends[names[table[s]]])
  }

  /** m with the slice written at offset. */
  function WithSlice(m: Maps, offset: nat, slice: seq<nat>): Maps
    requires offset + |slice| <= |m.maglev|
  {
    m.(maglev := m.maglev[..offset] + slice + m.maglev[offset + |slice|..])
  }

  lemma WithSliceStep(m: Maps, offset: nat, slice: seq<nat>, i: nat)
    requires offset + |slice| <= |m.maglev| && i < |slice|
    ensures WithSlot(WithSlice(m, offset, slice[..i]), offset + i, slice[i]) == WithSlice(m, offset, slice[..i + 1])
  {
    var a, b := WithSlice(m, offset, slice[..i]).maglev, WithSlice(m, offset, slice[..i + 1]).maglev;
    assert a[offset + i := slice[i]] == b;
  }

  /** The slots outside ext are the same in both. */
  ghost predicate SameOutside(m: Maps, m': Maps, ext: Extent) {
    && m' == m.(maglev := m'.maglev) && |m'.maglev| == |m.maglev|
    && forall s :: 0 <= s < |m.maglev| && !Within(ext, s) ==> m'.maglev[s] == m.maglev[s]
  }

  lemma WithSliceOutside(m: Maps, offset: nat, slice: seq<nat>, i: nat, size: nat)
    requires i <= |slice| == size && offset + size <= |m.maglev|
    ensures SameOutside(m, WithSlice(m, offset, slice[..i]), Extent(offset, size))
  {
  }

  /** A freshly written table settles the VIP, under the specification it was built for. */
  lemma TableSettles(hash: Hash<Endpoint>, m: Maps, e: Service, names: seq<Endpoint>)
    requires e.ext.size in SIZE_CLASSES && e.ext.End() <= MAGLEV_M == |m.maglev|
    requires e.spec == Some(e.vip) && !Outgrown(e.ext, ClassFor(|e.backends|))
    requires TableOf(hash, m.maglev[e.ext.offset..e.ext.End()], names, e.backends, WeightsOf(e.vip.backends))
    ensures TableSettled(hash, m, e)
  {
    hide TableOf, WeightsOf, ClassFor, Outgrown, SlotsHold, AllNamed;
    var slice := m.maglev[e.ext.offset..e.ext.End()];
    SliceFacts(hash, slice, names, e.backends, WeightsOf(e.vip.backends));
    SliceHolds(m, e);
    SliceNames(m, e);
  }

  lemma SliceHolds(m: Maps, e: Service)
    requires e.ext.End() <= |m.maglev| && forall s :: 0 <= s < e.ext.size ==>
        m.maglev[e.ext.offset..e.ext.End()][s] in e.backends.Values
    ensures SlotsHold(m, e)
  {
    forall s: nat | Within(e.ext, s)
      ensures m.maglev[s] in e.backends.Values
    {
      assert m.maglev[s] == m.maglev[e.ext.offset..e.ext.End()][s - e.ext.offset];
    }
  }

  lemma SliceNames(m: Maps, e: Service)
    requires e.ext.End() <= |m.maglev|
    requires forall ep :: ep in e.backends ==>
        exists s :: 0 <= s < e.ext.size && m.maglev[e.ext.offset..e.ext.End()][s] == e.backends[ep]
    ensures AllNamed(m, e)
  {
    var slice := m.maglev[e.ext.offset..e.ext.End()];
    forall ep | ep in e.backends
      ensures NamedIn(m, e.ext, e.backends[ep])
    {
      var s :| 0 <= s < |slice| && slice[s] == e.backends[ep];
      assert m.maglev[e.ext.offset + s] == slice[s];
      assert Within(e.ext, e.ext.offset + s);
    }
  }

  lemma SliceFacts(hash: Hash<Endpoint>, slice: seq<nat>, names: seq<Endpoint>, backends: map<Endpoint, nat>,
      weights: map<Endpoint, nat>)
    requires TableOf(hash, slice, names, backends, weights)
    ensures backends != map[]
    ensures forall s :: 0 <= s < |slice| ==> slice[s] in backends.Values
    ensures forall ep :: ep in backends ==> backends[ep] in slice
  {
    var bs := Listed(names, weights);
    TableCoversBackends(|slice|, hash, bs);
    ResolvedFacts(Table(|slice|, hash, bs), slice, names, backends);
  }

  lemma ResolvedFacts(table: seq<int>, slice: seq<nat>, names: seq<Endpoint>, backends: map<Endpoint, nat>)
    requires |table| == |slice| && names != [] && forall ep :: ep in names <==> ep in backends
    requires forall s :: 0 <= s < |slice| ==> 0 <= table[s] < |names| && slice[s] == backends[names[table[s]]]
    requires forall b :: 0 <= b < |names| ==> b in table
    ensures backends != map[]
    ensures forall s :: 0 <= s < |slice| ==> slice[s] in backends.Values
    ensures forall ep :: ep in backends ==> backends[ep] in slice
  {
    assert names[0] in names;
    forall s | 0 <= s < |slice|
      ensures slice[s] in backends.Values
    {
      assert names[table[s]] in names;
    }
    forall ep | ep in backends
      ensures backends[ep] in slice
    {
      var b :| 0 <= b < |names| && names[b] == ep;
      assert b in table;
      var s :| 0 <= s < |table| && table[s] == b;
      assert slice[s] == backends[ep];
    }
  }

  /** Letting packets of v's exact port find it. */
  lemma InstallExactBut(hash: Hash<Endpoint>, m: Maps, services: Services, states: States, v: VipId, a: Amiss,
      k: ExactKey)
    requires AgreeBut(hash, m, services, states, a) && v in a.loose && ExactVip(k) == v
    ensures AgreeBut(hash, WithVip(m, k, services[v].sid), services, states, a)
  {
    hide Settled, Installed, Compatible, Owns, Contained;
    VipMapsBut(hash, m, WithVip(m, k, services[v].sid), services, states, v, a);
  }

  /** Letting packets of one block of v's range find it. */
  lemma InstallRangeBut(hash: Hash<Endpoint>, m: Maps, services: Services, states: States, v: VipId, a: Amiss,
      k: RangeKey)
    requires AgreeBut(hash, m, services, states, a) && v in a.loose && Owns(v, k)
    ensures AgreeBut(hash, WithRange(m, k, services[v].sid), services, states, a)
  {
    hide Settled, Installed, Compatible, Owns, Contained;
    var m' := WithRange(m, k, services[v].sid);
    forall x | x in m'.ranges
      ensures exists w :: w in services && Owns(w, x) && m'.ranges[x] == services[w].sid
    {
      if x == k {
        assert Owns(v, x) && m'.ranges[x] == services[v].sid;
      } else {
        assert x in m.ranges;
      }
    }
    VipMapsBut(hash, m, m', services, states, v, a);
  }

  function WithoutVip(m: Maps, k: ExactKey): Maps {
    m.(vip := m.vip - {k})
  }

  function WithoutRange(m: Maps, k: RangeKey): Maps {
    m.(ranges := m.ranges - {k})
  }

  lemma UninstallExactBut(hash: Hash<Endpoint>, m: Maps, services: Services, states: States, v: VipId, a: Amiss,
      k: ExactKey)
    requires AgreeBut(hash, m, services, states, a) && v in a.loose && ExactVip(k) == v
    ensures AgreeBut(hash, WithoutVip(m, k), services, states, a)
  {
    hide Settled, Installed, Compatible, Owns, Contained;
    VipMapsBut(hash, m, WithoutVip(m, k), services, states, v, a);
  }

  lemma UninstallRangeBut(hash: Hash<Endpoint>, m: Maps, services: Services, states: States, v: VipId, a: Amiss,
      k: RangeKey)
    requires AgreeBut(hash, m, services, states, a) && v in a.loose && Owns(v, k)
    ensures AgreeBut(hash, WithoutRange(m, k), services, states, a)
  {
    hide Settled, Installed, Compatible, Owns, Contained;
    var m' := WithoutRange(m, k);
    forall x | x in m'.ranges
      ensures exists w :: w in services && Owns(w, x) && m'.ranges[x] == services[w].sid
    {
      assert x in m.ranges;
    }
    VipMapsBut(hash, m, m', services, states, v, a);
  }

  /** A VIP that is settled and installed is no longer amiss. */
  lemma Tightens(hash: Hash<Endpoint>, m: Maps, services: Services, states: States, v: VipId, a: Amiss)
    requires AgreeBut(hash, m, services, states, a) && v in services && Settled(hash, m, v, services[v])
        && Installed(m, v)
    ensures AgreeBut(hash, m, services, states, a.(loose := a.loose - {v}))
  {
    hide Settled, Installed, Base, Contained;
  }

  /** The same table serves an equal specification. */
  lemma SameWeightsSettle(hash: Hash<Endpoint>, m: Maps, e: Service, spec: Vip)
    requires TableSettled(hash, m, e) && e.spec.Some? && WeightsOf(spec.backends) == WeightsOf(e.vip.backends)
    ensures TableSettled(hash, m, e.(spec := Some(spec), vip := spec))
  {
    hide TableOf, WeightsOf;
  }

  /** A settled, known VIP lists exactly the backends of its specification. */
  lemma SettledLists(hash: Hash<Endpoint>, m: Maps, e: Service)
    requires TableSettled(hash, m, e) && e.spec.Some?
    ensures WeightsOf(e.vip.backends).Keys == e.backends.Keys
  {
  }

  /** The backends each VIP's packets may reach at rest. */
  ghost function Current(services: Services): map<VipId, set<Endpoint>> {
    map w | w in services :: services[w].backends.Keys
  }

  /** Maps and memory in agreement keep every packet with its VIP's own backends. */
  lemma AgreeConfined(hash: Hash<Endpoint>, m: Maps, services: Services, states: States, ids: map<Endpoint, nat>)
    requires Agree(hash, m, services, states) && Named(services, states, ids)
    ensures Confined(m, Current(services))
  {
    hide Agree, AgreeBut, Named, Confined;
    AgreeIff(hash, m, services, states);
    ButConfined(hash, m, services, states, ids, NOTHING);
    assert Allowed(services, map[]) == Current(services);
  }

  /** Forgetting it: the rest are as they were. */
  lemma RemoveEnds(hash: Hash<Endpoint>, m: Maps, services: Services, states: States, v: VipId, a: Amiss)
    requires AgreeBut(hash, m, services, states, a) && v in services && m.svc[services[v].sid] == ZERO_CONFIG
    requires (forall k :: k in m.vip ==> ExactVip(k) != v) && (forall k :: k in m.ranges ==> !Owns(v, k))
    ensures AgreeBut(hash, m, services - {v}, states, a.(loose := a.loose - {v}))
  {
    hide Settled, Installed, Owns, Contained, BackendMapOk, HealthOk;
    var rest := services - {v};
    assert rest.Keys == services.Keys - {v};
    forall k | k in m.ranges
      ensures exists w :: w in rest && Owns(w, k) && m.ranges[k] == rest[w].sid
    {
      var w :| w in services && Owns(w, k) && m.ranges[k] == services[w].sid;
      assert w in rest && rest[w] == services[w];
    }
    forall sid: nat
      ensures SidUsed(services, sid) ==> sid == services[v].sid || SidUsed(rest, sid)
    {
      StillUsed(services, v, sid);
    }
  }

  lemma StillUsed(services: Services, v: VipId, sid: nat)
    requires v in services
    ensures SidUsed(services, sid) ==> sid == services[v].sid || SidUsed(services - {v}, sid)
  {
    if SidUsed(services, sid) {
      var w :| w in services && services[w].sid == sid;
      if w != v {
        assert (services - {v})[w].sid == sid;
      }
    }
  }

  lemma ForgetBackends(services: Services, states: States, ids: map<Endpoint, nat>, lost: multiset<Endpoint>, v: VipId)
    requires Counted(services, states, ids, lost) && v in services && services[v].backends == map[]
    ensures Counted(services - {v}, states, ids, lost)
  {
    forall ep
      ensures Users(services - {v}, ep) == Users(services, ep)
    {
    }
  }

  /** What may be behind once a backend's new health has been written, or refused. */
  function FlagsStale(m: Maps, stale: set<nat>, id: nat, ok: bool): set<nat> {
    if !ok then stale + {id} else if id in m.backend then stale - {id} else stale
  }

  /** Changing a backend's flags, and writing the health they amount to. */
  lemma FlagsStep(hash: Hash<Endpoint>, m: Maps, services: Services, states: States, a: Amiss, id: nat,
      st: BackendState, ok: bool)
    requires AgreeBut(hash, m, services, states, a) && id in states && id < |m.health|
    requires st.ep == states[id].ep && st.refCount == states[id].refCount
    ensures AgreeBut(hash, if ok then WithHealth(m, id, HealthOf(st)) else m, services, states[id := st],
        a.(stale := FlagsStale(m, a.stale, id, ok)))
  {
    hide Settled, Installed, Compatible, Reachable, Contained, UnusedZero;
    var m' := if ok then WithHealth(m, id, HealthOf(st)) else m;
    BackendsBut(hash, m, m', services, states, states[id := st], a, FlagsStale(m, a.stale, id, ok));
  }

  lemma FlagsBackends(services: Services, states: States, ids: map<Endpoint, nat>, lost: multiset<Endpoint>, id: nat,
      st: BackendState)
    requires Counted(services, states, ids, lost) && id in states
    requires st.ep == states[id].ep && st.refCount == states[id].refCount
    ensures Counted(services, states[id := st], ids, lost)
  {
  }

  /** A drained or failed backend is never given a new flow. */
  lemma UnhealthyNotChosen(hash: Hash<Endpoint>, m: Maps, services: Services, states: States, id: nat, addr: Addr,
      port: Word, proto: Proto, h: nat)
    requires Agree(hash, m, services, states) && id in states
    requires states[id].adminDraining || states[id].draining || !states[id].probeHealthy
    ensures var c := SelectNew(m, addr, port, proto, h); c.Chosen? ==> c.bid != id
  {
    hide Settled, Installed, Compatible, Reachable, ServiceOf;
  }
}
