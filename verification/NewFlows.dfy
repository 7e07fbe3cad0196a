/** What becomes of a packet whose flow has no usable affinity entry: exactly what Maglev offers it,
    and at rest always a backend if all of its VIP's backends take new flows. */
module NewFlows {
  import opened Common
  import opened Types
  import opened PortRange
  import opened VipLookup
  import opened BpfMaps
  import opened ExtentAllocation
  import opened Maglev
  import opened DataplaneState
  import opened MapAgreement
  import opened PacketPath

  // ---- In any state of the maps.

  /** The limiter stops the packet. */
  ghost predicate Limited(k: Kernel, s: Segment, now: nat) {
    s.syn && ServiceFor(k, s).Some? && Exceeded(k.limits, ServiceFor(k, s).value, s.ip.src, now)
  }

  ghost function HashOf(h: Hashes, k: Kernel, s: Segment): nat {
    var sid := ServiceFor(k, s);
    if sid.Some? && sid.value < |k.maps.svc| then HashFor(h, k.maps.svc[sid.value], s) else 0
  }

  ghost function Offered(h: Hashes, k: Kernel, s: Segment): Choice {
    SelectNew(k.maps, s.ip.dst, s.dport, s.proto, HashOf(h, k, s))
  }

  /** The first healthy backend its slots name, whether or not it can be sent there. */
  ghost function Picked(h: Hashes, k: Kernel, s: Segment): Option<nat> {
    var sid := ServiceFor(k, s);
    if sid.Some? && Served(k, sid.value) then
      var cfg := k.maps.svc[sid.value];
      PickFrom(k.maps, cfg.offset, cfg.size, HashOf(h, k, s) % cfg.size, 0)
    else None
  }

  /** How a packet goes to a backend of its service. */
  ghost function WayTo(k: Kernel, s: Segment, ep: Endpoint): Verdict {
    var sid := ServiceFor(k, s);
    if sid.Some? && sid.value < |k.maps.svc| && k.maps.svc[sid.value].mode != NAT
    then Forward(k.maps.svc[sid.value].mode, ep) else Pass
  }

  /** The state apart from the tables that a packet sent to a backend is entered in. */
  ghost predicate OnlyNotes(k: Kernel, k': Kernel) {
    k' == k.(limits := k'.limits, affinity := k'.affinity)
  }

  /** Without a usable entry, and let through by the limiter, a packet is sent to the backend it is
      offered and its flow noted there; it is dropped if there is none to offer, and passed on
      untouched if it is for no VIP or for one that cannot serve it. */
  lemma NewFlowOutcome(h: Hashes, k: Kernel, s: Segment, now: nat)
    requires Usable(k, FlowOf(s)).None? && !Limited(k, s, now)
    ensures var o := Arrive(h, k, s, now);
            match Offered(h, k, s)
            case NotVip => o == Outcome(k, Pass, None)
            case NoBackend => o.verdict == Drop && o.sent == None && OnlyNotes(k, o.k)
            case Unserved => o.verdict == Pass && o.sent == None && OnlyNotes(k, o.k)
            case Chosen(bid, ep) => o.sent == Some(bid) && o.verdict == WayTo(k, s, ep)
    ensures Arrive(h, k, s, now).k.affinity
            == if Picked(h, k, s).Some? then k.affinity[FlowOf(s) := Picked(h, k, s).value] else k.affinity
    ensures Offered(h, k, s).Chosen? ==> Picked(h, k, s) == Some(Offered(h, k, s).bid)
  {
    hide ServiceOf, PickFrom, Charged, Exceeded;
  }

  /** A packet that is not offered a backend leaves as it came. */
  lemma NotOfferedUntouched(h: Hashes, k: Kernel, s: Segment, now: nat, out: Segment)
    requires Usable(k, FlowOf(s)).None? && ArriveOut(h, k, s, now, out) && !Offered(h, k, s).Chosen?
    ensures out == s
  {
    hide ServiceOf, PickFrom, Charged, Exceeded, Redirected;
  }

  /** With client-IP affinity, all new flows of one source are offered the same backend by the same
      maps, whatever ports they use. */
  lemma SameSourceSameBackend(h: Hashes, k: Kernel, k': Kernel, s: Segment, t: Segment)
    requires k.maps == k'.maps && ServiceFor(k, s) == ServiceFor(k', t) && s.ip.src == t.ip.src && s.ip.dst == t.ip.dst
    requires ServiceFor(k, s).Some? && ServiceFor(k, s).value < |k.maps.svc|
    requires k.maps.svc[ServiceFor(k, s).value].affinity == AffinityClientIP
    ensures Offered(h, k, s) == Offered(h, k', t)
  {
    hide ServiceOf, PickFrom;
  }

  // ---- At rest.

  /** The VIP a packet belongs to. */
  ghost predicate Belongs(services: Services, s: Segment, v: VipId) {
    && v in services && v.Serves(s.ip.dst, s.dport, s.proto)
    && (v.IsRange() ==> VipId(s.ip.dst, s.dport, 0, s.proto) !in services)
  }

  lemma AgreeProgrammed(hash: Hash<Endpoint>, m: Maps, services: Services, states: States)
    requires Agree(hash, m, services, states)
    ensures Compatible(services.Keys)
    ensures ExactProgrammed(m.vip, SidsOf(services)) && RangesProgrammed(m.ranges, SidsOf(services))
  {
    hide Settled, Compatible, BackendMapOk, HealthOk, UnusedZero, SidsDistinct, Owns;
    forall v, k | v in services && Owns(v, k)
      ensures k in m.ranges
    {
      assert Installed(m, v);
      OwnsRange(v, k);
    }
    forall v | v in services && !v.IsRange()
      ensures ExactKey(v.addr, v.port, v.proto) in m.vip
    {
      assert Installed(m, v);
    }
  }

  lemma OwnsRange(v: VipId, k: RangeKey)
    requires Owns(v, k)
    ensures v.IsRange()
  {
  }

  /** Every packet finds the service of the VIP it belongs to. */
  lemma OwnerIsFound(hash: Hash<Endpoint>, k: Kernel, services: Services, states: States, s: Segment, v: VipId)
    requires Agree(hash, k.maps, services, states) && Belongs(services, s, v)
    ensures ServiceFor(k, s) == Some(services[v].sid)
    ensures Settled(hash, k.maps, v, services[v])
  {
    AgreeProgrammed(hash, k.maps, services, states);
    hide Settled, Base, Installed, ExactProgrammed, RangesProgrammed, Compatible, ServiceOf;
    LookupAgrees(k.maps.vip, k.maps.ranges, SidsOf(services), s.ip.dst, s.dport, s.proto);
    if !v.IsRange() {
      assert v == VipId(s.ip.dst, s.dport, 0, s.proto);
    }
  }

  /** At rest the service's entry says where the VIP's table is and what the VIP is configured to be. */
  lemma ServiceAtRest(hash: Hash<Endpoint>, m: Maps, services: Services, states: States, v: VipId)
    requires Agree(hash, m, services, states) && v in services
    ensures services[v].sid < |m.svc|
    ensures var cfg, e := m.svc[services[v].sid], services[v];
            && cfg.count == |e.backends| && cfg.offset == e.ext.offset && cfg.size == e.ext.size
            && cfg.mode == e.vip.mode && cfg.affinity == e.vip.affinity && (cfg.range <==> v.portEnd != 0)
  {
    hide Base, Installed, TableSettled;
    assert Settled(hash, m, v, services[v]);
  }

  /** Probed healthy, drained by nobody. */
  ghost predicate TakesNew(states: States, id: nat) {
    id in states && states[id].probeHealthy && !states[id].draining && !states[id].adminDraining
  }

  /** The j-th slot tried in an extent, wrapping at its end. */
  ghost function ProbeSlot(offset: nat, size: nat, local: nat, j: nat): (slot: nat)
    requires size > 0
    ensures offset <= slot < offset + size
  {
    offset + (local + j) % size
  }

  /** The j-th slot tried for a packet: from the one its hash leads to, by its source alone if the VIP asks
      for that. */
  ghost function SlotOf(h: Hashes, e: Service, s: Segment, j: nat): (slot: nat)
    requires e.ext.size > 0
    ensures Within(e.ext, slot)
  {
    var hash := if e.vip.affinity == AffinityClientIP then h.source(s.ip.src) else h.flow(FlowOf(s));
    ProbeSlot(e.ext.offset, e.ext.size, hash % e.ext.size, j)
  }

  lemma HealthAtRest(hash: Hash<Endpoint>, m: Maps, services: Services, states: States, id: nat)
    requires Agree(hash, m, services, states) && id in states
    ensures id < |m.health| && id in m.backend && m.backend[id] == states[id].ep
    ensures m.health[id] == Healthy <==> TakesNew(states, id)
    ensures m.health[id] != Down <==> states[id].probeHealthy
  {
    hide Settled, Installed, Compatible, Reachable, UnusedZero, SidsDistinct;
  }

  lemma ListedAtRest(services: Services, states: States, ids: map<Endpoint, nat>, v: VipId, id: nat)
    returns (ep: Endpoint)
    requires Named(services, states, ids) && v in services && id in services[v].backends.Values
    ensures ep in services[v].backends && services[v].backends[ep] == id && id in states && states[id].ep == ep
  {
    ep :| ep in services[v].backends && services[v].backends[ep] == id;
    assert ep in ids && ids[ep] == id;
  }

  /** The j-th slot tried for a packet names a backend that takes new flows. */
  ghost predicate TakesAt(h: Hashes, m: Maps, states: States, e: Service, s: Segment, j: nat) {
    && e.ext.size > 0 && SlotOf(h, e, s, j) < |m.maglev| && TakesNew(states, m.maglev[SlotOf(h, e, s, j)])
  }

  /** At rest, a new flow is sent to the first backend, of the eight its slots name, that takes new
      flows, if that is of its family. */
  lemma NewFlowGoesTo(h: Hashes, hash: Hash<Endpoint>, k: Kernel, services: Services, states: States,
      ids: map<Endpoint, nat>, s: Segment, now: nat, v: VipId, j: nat)
    requires Agree(hash, k.maps, services, states) && Named(services, states, ids) && Belongs(services, s, v)
    requires j < MAGLEV_PROBES && TakesAt(h, k.maps, states, services[v], s, j)
    requires forall i: nat :: i < j ==> !TakesAt(h, k.maps, states, services[v], s, i)
    requires SameFamily(states[k.maps.maglev[SlotOf(h, services[v], s, j)]].ep.addr, s.ip.dst)
    requires Usable(k, FlowOf(s)).None? && !Limited(k, s, now)
    ensures var o, bid := Arrive(h, k, s, now), k.maps.maglev[SlotOf(h, services[v], s, j)];
            && o.sent == Some(bid) && bid in services[v].backends.Values
            && o.k.affinity == k.affinity[FlowOf(s) := bid]
  {
    hide Arrive, Agree, Named, TakesNew, SelectNew, Limited, Usable, SlotOf;
    OwnerIsFound(hash, k, services, states, s, v);
    SettledExtent(hash, k.maps, v, services[v]);
    hide Settled;
    var e := services[v];
    forall i: nat
      ensures HealthyAt(k.maps, SlotOf(h, e, s, i)).Some? <==> TakesAt(h, k.maps, states, e, s, i)
    {
      SlotTakes(hash, k.maps, services, states, ids, v, SlotOf(h, e, s, i));
    }
    var bid := k.maps.maglev[SlotOf(h, e, s, j)];
    SlotTakes(hash, k.maps, services, states, ids, v, SlotOf(h, e, s, j));
    OfferedFirst(h, k, s, v, e, j);
    NewFlowOutcome(h, k, s, now);
  }

  /** A slot of a VIP's extent names a healthy backend exactly if that takes new flows. */
  lemma SlotTakes(hash: Hash<Endpoint>, m: Maps, services: Services, states: States, ids: map<Endpoint, nat>, v: VipId,
      slot: nat)
    requires Agree(hash, m, services, states) && Named(services, states, ids) && v in services
    requires Within(services[v].ext, slot) && slot < |m.maglev| && m.maglev[slot] in services[v].backends.Values
    ensures HealthyAt(m, slot).Some? <==> TakesNew(states, m.maglev[slot])
    ensures m.maglev[slot] in states && m.maglev[slot] in m.backend
    ensures m.backend[m.maglev[slot]] == states[m.maglev[slot]].ep
  {
    hide Agree, Named, TakesNew;
    var ep := ListedAtRest(services, states, ids, v, m.maglev[slot]);
    HealthAtRest(hash, m, services, states, m.maglev[slot]);
  }

  /** At rest, a new flow of a VIP whose backends all take new flows and are of its family is always
      sent: to the backend that its own slot names. */
  lemma NewFlowIsSent(h: Hashes, hash: Hash<Endpoint>, k: Kernel, services: Services, states: States,
      ids: map<Endpoint, nat>, s: Segment, now: nat, v: VipId)
    requires Agree(hash, k.maps, services, states) && Named(services, states, ids) && Belongs(services, s, v)
    requires forall ep :: ep in services[v].backends ==>
        TakesNew(states, services[v].backends[ep]) && SameFamily(ep.addr, s.ip.dst)
    requires Usable(k, FlowOf(s)).None? && !Limited(k, s, now)
    ensures services[v].ext.size > 0 && services[v].ext.End() <= |k.maps.maglev|
    ensures var o, bid := Arrive(h, k, s, now), k.maps.maglev[SlotOf(h, services[v], s, 0)];
            && o.sent == Some(bid) && bid in services[v].backends.Values
            && o.k.affinity == k.affinity[FlowOf(s) := bid]
  {
    hide Arrive, Agree, Named, TakesNew, Limited, Usable, SlotOf;
    OwnerIsFound(hash, k, services, states, s, v);
    SettledExtent(hash, k.maps, v, services[v]);
    hide Settled;
    var ep := ListedAtRest(services, states, ids, v, k.maps.maglev[SlotOf(h, services[v], s, 0)]);
    NewFlowGoesTo(h, hash, k, services, states, ids, s, now, v, 0);
  }

  lemma SettledExtent(hash: Hash<Endpoint>, m: Maps, v: VipId, e: Service)
    requires Settled(hash, m, v, e)
    ensures e.sid < |m.svc| && m.svc[e.sid] == ConfigOf(v, e) && |e.backends| > 0 && e.ext.size > 0
    ensures e.ext.End() <= |m.maglev|
    ensures forall s: nat :: Within(e.ext, s) ==> m.maglev[s] in e.backends.Values
  {
    hide Balanced, AllNamed, ClassFor, Outgrown;
    assert e.backends != map[] ==> e.backends.Keys != {};
  }

  lemma OfferedFirst(h: Hashes, k: Kernel, s: Segment, v: VipId, e: Service, j: nat)
    requires ServiceFor(k, s) == Some(e.sid) && e.sid < |k.maps.svc| && k.maps.svc[e.sid] == ConfigOf(v, e)
    requires |e.backends| > 0 && e.ext.size > 0 && e.ext.End() <= |k.maps.maglev| && j < MAGLEV_PROBES
    requires HealthyAt(k.maps, SlotOf(h, e, s, j)).Some?
    requires forall i: nat :: i < j ==> HealthyAt(k.maps, SlotOf(h, e, s, i)).None?
    requires var bid := k.maps.maglev[SlotOf(h, e, s, j)];
             bid in k.maps.backend && SameFamily(k.maps.backend[bid].addr, s.ip.dst)
    ensures var bid := k.maps.maglev[SlotOf(h, e, s, j)]; Offered(h, k, s) == Chosen(bid, k.maps.backend[bid])
  {
    hide ServiceOf, PickFrom, HealthyAt, ProbeSlot;
    var cfg := k.maps.svc[e.sid];
    var local := HashFor(h, cfg, s) % cfg.size;
    forall i: nat | i < j
      ensures HealthyAt(k.maps, ProbeSlot(cfg.offset, cfg.size, local, i)).None?
    {
      assert SlotOf(h, e, s, i) == ProbeSlot(cfg.offset, cfg.size, local, i);
    }
    PickFirst(k.maps, cfg.offset, cfg.size, local, 0, j);
    HealthyIs(k.maps, SlotOf(h, e, s, j));
  }

  lemma HealthyIs(m: Maps, slot: nat)
    ensures HealthyAt(m, slot).Some? ==> slot < |m.maglev| && HealthyAt(m, slot).value == m.maglev[slot]
  {
  }

  /** pick_backend ends at the first healthy slot. */
  lemma {:induction false} PickFirst(m: Maps, offset: nat, size: nat, local: nat, i: nat, j: nat)
    requires size > 0 && i <= j < MAGLEV_PROBES && HealthyAt(m, ProbeSlot(offset, size, local, j)).Some?
    requires forall n: nat :: i <= n < j ==> HealthyAt(m, ProbeSlot(offset, size, local, n)).None?
    ensures PickFrom(m, offset, size, local, i) == HealthyAt(m, ProbeSlot(offset, size, local, j))
    decreases j - i
  {
    PickStep(m, offset, size, local, i);
    hide HealthyAt, ProbeSlot, PickFrom;
    if i < j {
      PickFirst(m, offset, size, local, i + 1, j);
    }
  }

  lemma PickStep(m: Maps, offset: nat, size: nat, local: nat, i: nat)
    requires size > 0 && i < MAGLEV_PROBES
    ensures PickFrom(m, offset, size, local, i)
            == if HealthyAt(m, ProbeSlot(offset, size, local, i)).Some? then HealthyAt(m,
                ProbeSlot(offset, size, local, i)) else PickFrom(m, offset, size, local, i + 1)
  {
    hide HealthyAt;
  }

  /** It fails only if none of the eight is healthy. */
  lemma {:induction false} PickNone(m: Maps, offset: nat, size: nat, local: nat, i: nat)
    requires size > 0 && i <= MAGLEV_PROBES
    requires forall n: nat :: i <= n < MAGLEV_PROBES ==> HealthyAt(m, ProbeSlot(offset, size, local, n)).None?
    ensures PickFrom(m, offset, size, local, i).None?
    decreases MAGLEV_PROBES - i
  {
    if i < MAGLEV_PROBES {
      PickStep(m, offset, size, local, i);
      PickNone(m, offset, size, local, i + 1);
      hide HealthyAt, ProbeSlot, PickFrom;
    }
  }

  /** If none of the eight backends its slots name takes new flows, a new flow is dropped. */
  lemma NewFlowIsDropped(h: Hashes, hash: Hash<Endpoint>, k: Kernel, services: Services, states: States,
      ids: map<Endpoint, nat>, s: Segment, now: nat, v: VipId)
    requires Agree(hash, k.maps, services, states) && Named(services, states, ids) && Belongs(services, s, v)
    requires forall j: nat :: j < MAGLEV_PROBES ==> !TakesAt(h, k.maps, states, services[v], s, j)
    requires Usable(k, FlowOf(s)).None?
    ensures Arrive(h, k, s, now).verdict == Drop && Arrive(h, k, s, now).sent == None
  {
    hide Arrive, Agree, Named, TakesNew, Usable, SlotOf;
    OwnerIsFound(hash, k, services, states, s, v);
    SettledExtent(hash, k.maps, v, services[v]);
    hide Settled;
    var e := services[v];
    forall j: nat | j < MAGLEV_PROBES
      ensures HealthyAt(k.maps, SlotOf(h, e, s, j)).None?
    {
      SlotTakes(hash, k.maps, services, states, ids, v, SlotOf(h, e, s, j));
      assert !TakesAt(h, k.maps, states, e, s, j);
    }
    NothingOffered(h, k, s, v, e);
    hide SelectNew;
    if !Limited(k, s, now) {
      NewFlowOutcome(h, k, s, now);
    } else {
      LimitedIsDropped(h, k, s, now);
    }
  }

  lemma NothingOffered(h: Hashes, k: Kernel, s: Segment, v: VipId, e: Service)
    requires ServiceFor(k, s) == Some(e.sid) && e.sid < |k.maps.svc| && k.maps.svc[e.sid] == ConfigOf(v, e)
    requires |e.backends| > 0 && e.ext.size > 0
    requires forall j: nat :: j < MAGLEV_PROBES ==> HealthyAt(k.maps, SlotOf(h, e, s, j)).None?
    ensures Offered(h, k, s) == NoBackend
  {
    hide ServiceOf, PickFrom, HealthyAt, ProbeSlot;
    var cfg := k.maps.svc[e.sid];
    var local := HashFor(h, cfg, s) % cfg.size;
    forall j: nat | j < MAGLEV_PROBES
      ensures HealthyAt(k.maps, ProbeSlot(cfg.offset, cfg.size, local, j)).None?
    {
      assert SlotOf(h, e, s, j) == ProbeSlot(cfg.offset, cfg.size, local, j);
    }
    PickNone(k.maps, cfg.offset, cfg.size, local, 0);
  }

  lemma LimitedIsDropped(h: Hashes, k: Kernel, s: Segment, now: nat)
    requires Limited(k, s, now)
    ensures Arrive(h, k, s, now).verdict == Drop && Arrive(h, k, s, now).sent == None
  {
    hide ServiceFor, Balance, Exceeded, Charged;
  }

  /** A NAT VIP on one port reaches a backend on the backend's own port, a range on the client's. */
  lemma NatReachesPort(h: Hashes, hash: Hash<Endpoint>, k: Kernel, services: Services, states: States, s: Segment,
      now: nat, v: VipId, out: Segment)
    requires Agree(hash, k.maps, services, states) && Belongs(services, s, v) && ArriveOut(h, k, s, now, out)
    requires Arrive(h, k, s, now).sent.Some? && services[v].vip.mode == NAT
    ensures Arrive(h, k, s, now).sent.value in states
    ensures var ep := states[Arrive(h, k, s, now).sent.value].ep;
            out.ip.dst == ep.addr && out.dport == if v.portEnd == 0 then ep.port else s.dport
  {
    OwnerIsFound(hash, k, services, states, s, v);
    SettledExtent(hash, k.maps, v, services[v]);
    hide Settled;
    SentByNat(h, k, s, now, services[v].sid);
    hide Arrive;
    var bid := Arrive(h, k, s, now).sent.value;
    KnownAtRest(hash, k.maps, services, states, bid);
    hide Agree, ChecksumsKept;
  }

  lemma SentByNat(h: Hashes, k: Kernel, s: Segment, now: nat, sid: nat)
    requires Arrive(h, k, s, now).sent.Some? && ServiceFor(k, s) == Some(sid)
    requires sid < |k.maps.svc| && k.maps.svc[sid].mode == NAT
    ensures Arrive(h, k, s, now).verdict == Pass && Arrive(h, k, s, now).sent.value in k.maps.backend
  {
    hide ServiceOf, Charged, Exceeded, Choose;
  }

  lemma KnownAtRest(hash: Hash<Endpoint>, m: Maps, services: Services, states: States, id: nat)
    requires Agree(hash, m, services, states) && id in m.backend
    ensures id in states && states[id].ep == m.backend[id]
  {
    hide Settled, Installed, Compatible, Reachable, UnusedZero, SidsDistinct, HealthOk;
  }
}
