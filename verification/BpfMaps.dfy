/** The pinned maps the control plane writes and the packet programs read, and how a packet
    without an affinity entry is given a backend (bpf/xdp_ingress.c). */
module BpfMaps {
  import opened Common
  import opened Types
  import opened PortRange
  import opened VipLookup

  const MAX_VIPS := 4096
  const MAX_BACKENDS := 8192
  const MAGLEV_M := 65537
  const MAGLEV_PROBES := 8

  datatype Health = Down | Healthy | Draining
  datatype Mode = DSR | NAT | TunnelIPIP | TunnelGRE
  datatype Affinity = AffinityNone | AffinityClientIP

  datatype ServiceConfig = ServiceConfig(count: nat, offset: nat, size: nat, mode: Mode, affinity: Affinity,
    range: bool)

  const ZERO_CONFIG := ServiceConfig(0, 0, 0, DSR, AffinityNone, false)

  /** ARRAY maps are sequences of their fixed size; HASH maps and tries are maps. An IPv4 and an
      IPv6 map that hold the same kind of entry are one map here, the address telling them apart. */
  datatype Maps = Maps(
    vip: map<ExactKey, nat>,
    ranges: map<RangeKey, nat>,
    svc: seq<ServiceConfig>,
    maglev: seq<nat>,
    backend: map<nat, Endpoint>,
    health: seq<Health>)

  ghost predicate Shaped(m: Maps) {
    |m.svc| == MAX_VIPS && |m.maglev| == MAGLEV_M && |m.health| == MAX_BACKENDS
  }

  function EmptyMaps(): (m: Maps)
    ensures Shaped(m)
  {
    Maps(map[], map[], seq(MAX_VIPS, _ => ZERO_CONFIG), seq(MAGLEV_M, _ => 0), map[], seq(MAX_BACKENDS, _ => Down))
  }

  /** The backend a slot names, if it is taking new flows. */
  function HealthyAt(m: Maps, slot: nat): Option<nat> {
    if slot < |m.maglev| && m.maglev[slot] < |m.health| && m.health[m.maglev[slot]] == Healthy
    then Some(m.maglev[slot]) else None
  }

  /** pick_backend from its i-th probe on: the first healthy backend among eight slots, wrapping
      inside the extent. */
  function PickFrom(m: Maps, offset: nat, size: nat, local: nat, i: nat): (r: Option<nat>)
    requires size > 0 && i <= MAGLEV_PROBES
    ensures r.Some? ==> exists s: nat :: offset <= s < offset + size && HealthyAt(m, s) == r
    decreases MAGLEV_PROBES - i
  {
    if i == MAGLEV_PROBES then
      None
    else
      var s := offset + (local + i) % size;
      if HealthyAt(m, s).Some? then HealthyAt(m, s) else PickFrom(m, offset, size, local, i + 1)
  }

  predicate SameFamily(a: Addr, b: Addr) {
    a.V4? == b.V4?
  }

  datatype Choice = NotVip | Unserved | NoBackend | Chosen(bid: nat, ep: Endpoint)

  /** backend_map or backend_map6, by the packet's family. */
  function BackendFor(m: Maps, bid: nat, family: Addr): Option<Endpoint> {
    if bid in m.backend && SameFamily(m.backend[bid].addr, family) then Some(m.backend[bid]) else None
  }

  /** What happens to a packet that has no usable affinity entry, up to the forwarding step. */
  function SelectNew(m: Maps, addr: Addr, port: Word, proto: Proto, hash: nat): Choice {
    match ServiceOf(m.vip, m.ranges, addr, port, proto)
    case None => NotVip
    case Some(sid) =>
      if sid >= |m.svc| || m.svc[sid].count == 0 || m.svc[sid].size == 0 then
        Unserved
      else
        var cfg := m.svc[sid];
        match PickFrom(m, cfg.offset, cfg.size, hash % cfg.size, 0)
        case None => NoBackend
        case Some(bid) =>
          match BackendFor(m, bid, addr)
          case None => Unserved
          case Some(ep) => Chosen(bid, ep)
  }

  /** A backend that is not marked healthy gets no new flow. */
  lemma UnhealthyNotPicked(m: Maps, addr: Addr, port: Word, proto: Proto, hash: nat, id: nat)
    requires id < |m.health| && m.health[id] != Healthy
    ensures var c := SelectNew(m, addr, port, proto, hash); c.Chosen? ==> c.bid != id
  {
    hide ServiceOf;
  }

  // ---- Confinement: whatever a packet of a VIP can be sent to belongs to that VIP.

  /** Every healthy backend the service's extent names is one of eps. */
  ghost predicate ServesOnly(m: Maps, sid: nat, eps: set<Endpoint>) {
    sid < |m.svc| ==>
      forall s: nat :: m.svc[sid].offset <= s < m.svc[sid].offset + m.svc[sid].size && HealthyAt(m, s).Some?
        ==> HealthyAt(m, s).value in m.backend ==> m.backend[HealthyAt(m, s).value] in eps
  }

  ghost predicate Confined(m: Maps, allowed: map<VipId, set<Endpoint>>) {
    && (forall k :: k in m.vip ==> ExactVip(k) in allowed && ServesOnly(m, m.vip[k], allowed[ExactVip(k)]))
    && (forall k :: k in m.ranges ==>
          exists v :: v in allowed && Owns(v, k) && ServesOnly(m, m.ranges[k], allowed[v]))
  }

  /** The VIP a packet is matched to: the one for exactly its port if that is in the map, else a range. */
  ghost predicate Routes(m: Maps, allowed: map<VipId, set<Endpoint>>, addr: Addr, port: Word, proto: Proto, v: VipId) {
    && v in allowed && v.Serves(addr, port, proto)
    && if ExactKey(addr, port, proto) in m.vip then v == ExactVip(ExactKey(addr, port, proto)) else v.IsRange()
  }

  /** In a confined snapshot every new flow is dropped, passed, or sent to a healthy backend of
      the VIP it is matched to. */
  lemma ConfinedPacket(m: Maps, allowed: map<VipId, set<Endpoint>>, addr: Addr, port: Word, proto: Proto, hash: nat)
    requires Confined(m, allowed)
    ensures var c := SelectNew(m, addr, port, proto, hash);
            c.Chosen? ==>
              && c.bid < |m.health| && m.health[c.bid] == Healthy
              && c.bid in m.backend && m.backend[c.bid] == c.ep
              && exists v :: Routes(m, allowed, addr, port, proto, v) && c.ep in allowed[v]
  {
    var c := SelectNew(m, addr, port, proto, hash);
    if c.Chosen? {
      var sid := ServiceOf(m.vip, m.ranges, addr, port, proto).value;
      var v := MatchedVip(m, allowed, addr, port, proto, sid);
      hide ServiceOf, Confined, PickFrom, Routes;
      var cfg := m.svc[sid];
      var s: nat :| cfg.offset <= s < cfg.offset + cfg.size && HealthyAt(m, s) == Some(c.bid);
      assert Routes(m, allowed, addr, port, proto, v) && c.ep in allowed[v];
    }
  }

  lemma MatchedVip(m: Maps, allowed: map<VipId, set<Endpoint>>, addr: Addr, port: Word, proto: Proto, sid: nat)
    returns (v: VipId)
    requires Confined(m, allowed) && ServiceOf(m.vip, m.ranges, addr, port, proto) == Some(sid)
    ensures v in allowed && Routes(m, allowed, addr, port, proto, v) && ServesOnly(m, sid, allowed[v])
  {
    hide ServesOnly, Longest;
    var key := ExactKey(addr, port, proto);
    if key in m.vip {
      v := ExactVip(key);
    } else {
      LongestFinds(m.ranges, addr, proto, port, 16);
      var k :| k in m.ranges && Matches(k, addr, proto, port) && m.ranges[k] == sid;
      v :| v in allowed && Owns(v, k) && ServesOnly(m, m.ranges[k], allowed[v]);
      PrefixContains(port, k.block.bits);
      BlockInside(v, k.block, port);
    }
  }

  /** Allowing more keeps a snapshot confined. */
  lemma ConfinedWidens(m: Maps, allowed: map<VipId, set<Endpoint>>, wider: map<VipId, set<Endpoint>>)
    requires Confined(m, allowed)
    requires forall v :: v in allowed ==> v in wider && allowed[v] <= wider[v]
    ensures Confined(m, wider)
  {
    hide Owns;
    forall k | k in m.ranges
      ensures exists v :: v in wider && Owns(v, k) && ServesOnly(m, m.ranges[k], wider[v])
    {
      var v :| v in allowed && Owns(v, k) && ServesOnly(m, m.ranges[k], allowed[v]);
      assert v in wider && ServesOnly(m, m.ranges[k], wider[v]);
    }
  }
}
