/** Reading the pinned maps back (internal/dataplane/adopt.go): which VIPs the maps record, and
    which backends an extent records. Nothing here touches the allocators. */
module AdoptScan {
  import opened Common
  import opened Types
  import opened PortRange
  import opened VipLookup
  import opened BpfMaps
  import opened ExtentAllocation
  import opened IdAllocation
  import opened DataplaneState
  import opened MapAgreement
  import opened Maglev

  // ---- Backends of an extent.

  ghost predicate Ascending(ids: seq<nat>) {
    forall i, j :: 0 <= i < j < |ids| ==> ids[i] < ids[j]
  }

  /** distinctIDs: the values of slots, once each, in order. */
  method DistinctIds(slots: seq<nat>) returns (out: seq<nat>)
    ensures Ascending(out) && forall x :: x in out <==> x in slots
  {
    out := [];
    for i := 0 to |slots|
      invariant Ascending(out) && forall x :: x in out <==> x in slots[..i]
    {
      assert slots[..i + 1] == slots[..i] + [slots[i]];
      if slots[i] !in out {
        out := InsertId(out, slots[i]);
      }
    }
    assert slots[..|slots|] == slots;
  }

  method InsertId(ids: seq<nat>, id: nat) returns (out: seq<nat>)
    requires Ascending(ids) && id !in ids
    ensures Ascending(out) && forall x :: x in out <==> x in ids || x == id
  {
    var p := |ids|;
    while p > 0 && ids[p - 1] > id
      invariant 0 <= p <= |ids| && forall i :: p <= i < |ids| ==> ids[i] > id
    {
      p := p - 1;
    }
    InsertKeepsAscending(ids, p, id);
    out := ids[..p] + [id] + ids[p..];
  }

  lemma InsertKeepsAscending(ids: seq<nat>, p: nat, id: nat)
    requires Ascending(ids) && id !in ids && p <= |ids|
    requires (p > 0 ==> ids[p - 1] <= id) && forall i :: p <= i < |ids| ==> ids[i] > id
    ensures Ascending(ids[..p] + [id] + ids[p..])
    ensures forall x :: x in ids[..p] + [id] + ids[p..] <==> x in ids || x == id
  {
    assert p > 0 ==> ids[p - 1] in ids;
    assert forall i :: 0 <= i < p ==> ids[i] < id;
    InsertOrdered(ids, p, id);
    InsertMembers(ids, p, id);
  }

  lemma InsertOrdered(ids: seq<nat>, p: nat, id: nat)
    requires Ascending(ids) && p <= |ids|
    requires (forall i :: 0 <= i < p ==> ids[i] < id) && forall i :: p <= i < |ids| ==> ids[i] > id
    ensures Ascending(ids[..p] + [id] + ids[p..])
  {
    var out := ids[..p] + [id] + ids[p..];
    forall i, j | 0 <= i < j < |out|
      ensures out[i] < out[j]
    {
      assert out[i] == if i < p then ids[i] else if i == p then id else ids[i - 1];
      assert out[j] == if j < p then ids[j] else if j == p then id else ids[j - 1];
    }
  }

  lemma InsertMembers(ids: seq<nat>, p: nat, id: nat)
    requires p <= |ids|
    ensures forall x :: x in ids[..p] + [id] + ids[p..] <==> x in ids || x == id
  {
    var a, b := ids[..p], ids[p..];
    assert ids == a + b;
    forall x
      ensures x in a + [id] + b <==> x in a || x == id || x in b
    {
    }
  }

  /** The backends the IDs stand for; if two share a name the higher ID is kept. */
  function Recovered(backend: map<nat, Endpoint>, ids: seq<nat>): (r: map<Endpoint, nat>)
    requires forall i :: 0 <= i < |ids| ==> ids[i] in backend
    ensures forall ep :: ep in r ==> r[ep] in ids && r[ep] in backend && backend[r[ep]] == ep
    ensures forall i :: 0 <= i < |ids| ==> backend[ids[i]] in r
  {
    if ids == [] then
      map[]
    else
      var last := ids[|ids| - 1];
      assert ids == ids[..|ids| - 1] + [last];
      Recovered(backend, ids[..|ids| - 1])[backend[last] := last]
  }

  /** What a service configuration and its extent say about a VIP, if they can be understood. */
  method ReadService(m: Maps, v: VipId, sid: nat) returns (r: Option<(ServiceConfig, map<Endpoint, nat>)>)
    requires Shaped(m)
    ensures r.Some? <==> Understood(m, v, sid)
    ensures r.Some? ==>
              && r.value.0 == m.svc[sid]
              && Records(m, Extent(m.svc[sid].offset, m.svc[sid].size), r.value.1)
  {
    if sid >= |m.svc| {
      return None;
    }
    var cfg := m.svc[sid];
    if cfg.range != v.IsRange() {
      return None;
    }
    if cfg.size == 0 {
      return None;
    }
    if cfg.offset + cfg.size > |m.maglev| {
      return None;
    }
    var slots := m.maglev[cfg.offset..cfg.offset + cfg.size];
    var ids := DistinctIds(slots);
    var i := 0;
    while i < |ids|
      invariant 0 <= i <= |ids| && forall j :: 0 <= j < i ==> ids[j] in m.backend
    {
      if ids[i] !in m.backend {
        assert ids[i] in slots;
        SlotOf(m, cfg, ids[i]);
        return None;
      }
      i := i + 1;
    }
    var backends := Recovered(m.backend, ids);
    SlotsKnown(m, cfg, ids, backends);
    return Some((cfg, backends));
  }

  /** service_config, extent and backend entries fit together. */
  ghost predicate Understood(m: Maps, v: VipId, sid: nat) {
    && sid < |m.svc| && m.svc[sid].range == v.IsRange() && m.svc[sid].size > 0
    && m.svc[sid].offset + m.svc[sid].size <= |m.maglev|
    && forall s: nat :: Within(Extent(m.svc[sid].offset, m.svc[sid].size), s) && s < |m.maglev| ==>
        m.maglev[s] in m.backend
  }

  /** backends is what the extent's slots name: each name with an ID that names it, and every slot's backend. */
  ghost predicate Records(m: Maps, ext: Extent, backends: map<Endpoint, nat>) {
    && (forall ep :: ep in backends ==>
        NamedIn(m, ext, backends[ep]) && backends[ep] in m.backend && m.backend[backends[ep]] == ep)
    && (forall s: nat :: Within(ext, s) && s < |m.maglev| && m.maglev[s] in m.backend ==>
        m.backend[m.maglev[s]] in backends)
  }

  lemma SlotOf(m: Maps, cfg: ServiceConfig, id: nat)
    requires cfg.offset + cfg.size <= |m.maglev| && id in m.maglev[cfg.offset..cfg.offset + cfg.size]
    ensures NamedIn(m, Extent(cfg.offset, cfg.size), id)
  {
    var slots := m.maglev[cfg.offset..cfg.offset + cfg.size];
    var i :| 0 <= i < |slots| && slots[i] == id;
    assert Within(Extent(cfg.offset, cfg.size), cfg.offset + i) && m.maglev[cfg.offset + i] == id;
  }

  /** The IDs are those the extent's slots name. */
  ghost predicate NamesSlots(m: Maps, cfg: ServiceConfig, ids: seq<nat>) {
    cfg.offset + cfg.size <= |m.maglev| && forall x :: x in ids <==> x in m.maglev[cfg.offset..cfg.offset + cfg.size]
  }

  lemma SlotsKnown(m: Maps, cfg: ServiceConfig, ids: seq<nat>, backends: map<Endpoint, nat>)
    requires cfg.offset + cfg.size <= |m.maglev|
    requires NamesSlots(m, cfg, ids)
    requires forall i :: 0 <= i < |ids| ==> ids[i] in m.backend
    requires backends == Recovered(m.backend, ids)
    ensures Records(m, Extent(cfg.offset, cfg.size), backends)
    ensures forall s: nat :: Within(Extent(cfg.offset, cfg.size), s) && s < |m.maglev| ==> m.maglev[s] in m.backend
  {
    hide Recovered, NamedIn, NamesSlots;
    var ext := Extent(cfg.offset, cfg.size);
    forall ep | ep in backends
      ensures NamedIn(m, ext, backends[ep]) && backends[ep] in m.backend && m.backend[backends[ep]] == ep
    {
      BackendNamed(m, cfg, ids, backends, ep);
    }
    forall s: nat | Within(ext, s) && s < |m.maglev|
      ensures m.maglev[s] in m.backend && m.backend[m.maglev[s]] in backends
    {
      SlotKnown(m, cfg, ids, backends, s);
    }
  }

  lemma BackendNamed(m: Maps, cfg: ServiceConfig, ids: seq<nat>, backends: map<Endpoint, nat>, ep: Endpoint)
    requires cfg.offset + cfg.size <= |m.maglev|
    requires NamesSlots(m, cfg, ids)
    requires forall i :: 0 <= i < |ids| ==> ids[i] in m.backend
    requires backends == Recovered(m.backend, ids) && ep in backends
    ensures NamedIn(m, Extent(cfg.offset, cfg.size), backends[ep]) && backends[ep] in m.backend
        && m.backend[backends[ep]] == ep
  {
    hide NamedIn;
    SlotOf(m, cfg, backends[ep]);
  }

  lemma SlotKnown(m: Maps, cfg: ServiceConfig, ids: seq<nat>, backends: map<Endpoint, nat>, s: nat)
    requires cfg.offset + cfg.size <= |m.maglev| && cfg.offset <= s < cfg.offset + cfg.size
    requires NamesSlots(m, cfg, ids)
    requires forall i :: 0 <= i < |ids| ==> ids[i] in m.backend
    requires backends == Recovered(m.backend, ids)
    ensures m.maglev[s] in m.backend && m.backend[m.maglev[s]] in backends
  {
    hide NamesSlots, Recovered;
    NamedSlot(m, cfg, ids, s);
    var i :| 0 <= i < |ids| && ids[i] == m.maglev[s];
  }

  lemma NamedSlot(m: Maps, cfg: ServiceConfig, ids: seq<nat>, s: nat)
    requires NamesSlots(m, cfg, ids) && cfg.offset <= s < cfg.offset + cfg.size
    ensures m.maglev[s] in ids
  {
    var slots := m.maglev[cfg.offset..cfg.offset + cfg.size];
    assert slots[s - cfg.offset] in slots;
  }

  /** Records leaves no choice when backends and IDs correspond one to one. */
  lemma RecordsIsUnique(m: Maps, e: Service, backends: map<Endpoint, nat>)
    requires SlotsHold(m, e) && AllNamed(m, e) && Records(m, e.ext, backends)
    requires forall ep :: ep in e.backends ==> e.backends[ep] in m.backend && m.backend[e.backends[ep]] == ep
    ensures backends == e.backends
  {
    forall ep | ep in e.backends
      ensures ep in backends
    {
      assert NamedIn(m, e.ext, e.backends[ep]);
    }
    forall ep | ep in backends
      ensures ep in e.backends && backends[ep] == e.backends[ep]
    {
      assert NamedIn(m, e.ext, backends[ep]);
      var s: nat :| Within(e.ext, s) && s < |m.maglev| && m.maglev[s] == backends[ep];
      assert m.maglev[s] in e.backends.Values;
      var x :| x in e.backends && e.backends[x] == m.maglev[s];
    }
  }

  // ---- VIPs of the maps.

  /** One vip_map entry, or one range VIP's worth of trie blocks. span is absent when the blocks
      do not tile a range. */
  datatype Raw =
    | RawExact(key: ExactKey, sid: nat)
    | RawRange(addr: Addr, proto: Proto, sid: nat, blocks: seq<PortBlock>, span: Option<(nat, nat)>)

  function VipOf(r: Raw): Option<VipId> {
    match r
    case RawExact(key, _) => Some(ExactVip(key))
    case RawRange(addr, proto, _, _, Some((lo, hi))) =>
      if lo < 0x1_0000 && hi < 0x1_0000 then Some(VipId(addr, lo, hi, proto)) else None
    case RawRange(_, _, _, _, None) => None
  }

  datatype Group = Group(sid: nat, addr: Addr, proto: Proto)

  /** The blocks collected so far, by service, address and protocol. */
  ghost predicate Grouped(ranges: map<RangeKey, nat>, seen: set<RangeKey>, groups: map<Group, seq<PortBlock>>) {
    && (forall g :: g in groups ==> groups[g] != [] && Distinct(groups[g]))
    && (forall g, b :: g in groups && b in groups[g] ==> InGroup(ranges, seen, g, b))
    && (forall g, b :: InGroup(ranges, seen, g, b) ==> g in groups && b in groups[g])
  }

  ghost predicate InGroup(ranges: map<RangeKey, nat>, seen: set<RangeKey>, g: Group, b: PortBlock) {
    var k := RangeKey(g.addr, g.proto, b);
    k in seen && k in ranges && ranges[k] == g.sid
  }

  method GroupBlocks(ranges: map<RangeKey, nat>) returns (groups: map<Group, seq<PortBlock>>)
    ensures Grouped(ranges, ranges.Keys, groups)
  {
    hide InGroup;
    groups := map[];
    var todo := ranges.Keys;
    NothingGrouped(ranges);
    hide Grouped;
    while todo != {}
      invariant todo <= ranges.Keys && Grouped(ranges, ranges.Keys - todo, groups)
    {
      var k :| k in todo;
      var g := Group(ranges[k], k.addr, k.proto);
      var blocks := if g in groups then groups[g] else [];
      ghost var seen := ranges.Keys - todo;
      GroupStep(ranges, seen, groups, k);
      groups := groups[g := blocks + [k.block]];
      todo := todo - {k};
      assert ranges.Keys - todo == seen + {k};
    }
    assert ranges.Keys - {} == ranges.Keys;
  }

  lemma NothingGrouped(ranges: map<RangeKey, nat>)
    ensures Grouped(ranges, ranges.Keys - ranges.Keys, map[])
  {
  }

  lemma GroupStep(ranges: map<RangeKey, nat>, seen: set<RangeKey>, groups: map<Group, seq<PortBlock>>, k: RangeKey)
    requires Grouped(ranges, seen, groups) && k in ranges && k !in seen
    ensures var g := Group(ranges[k], k.addr, k.proto);
            Grouped(ranges, seen + {k}, groups[g := (if g in groups then groups[g] else []) + [k.block]])
  {
    var g := Group(ranges[k], k.addr, k.proto);
    var blocks := if g in groups then groups[g] else [];
    var groups' := groups[g := blocks + [k.block]];
    assert RangeKey(g.addr, g.proto, k.block) == k;
    assert !InGroup(ranges, seen, g, k.block);
    assert k.block !in blocks;
    forall h, b | h in groups' && b in groups'[h]
      ensures InGroup(ranges, seen + {k}, h, b)
    {
      if h in groups && b in groups[h] {
        assert InGroup(ranges, seen, h, b);
      }
    }
    forall h, b | InGroup(ranges, seen + {k}, h, b)
      ensures h in groups' && b in groups'[h]
    {
      if RangeKey(h.addr, h.proto, b) == k {
        assert h == g && b == k.block;
        assert groups'[g][|blocks|] == b;
      } else {
        assert InGroup(ranges, seen, h, b);
      }
    }
  }

  /** What blocksSpan promises about a block list. */
  ghost predicate SpanFound(blocks: seq<PortBlock>, span: Option<(nat, nat)>) {
    && (span.Some? ==>
          && 0 < span.value.0 < span.value.1 < 0x1_0000
          && multiset(blocks) == multiset(Tiling(span.value.0, span.value.1)))
    && (forall lo: nat, hi: nat :: 0 < lo < hi < 0x1_0000 && multiset(blocks) == multiset(Tiling(lo, hi)) ==>
        span == Some((lo, hi)))
  }

  /** A range record holds all blocks of one service, address and protocol. */
  ghost predicate GroupRaw(m: Maps, r: Raw)
    requires r.RawRange?
  {
    && r.blocks != [] && Distinct(r.blocks)
    && (forall b :: b in r.blocks <==> InGroup(m.ranges, m.ranges.Keys, Group(r.sid, r.addr, r.proto), b))
    && SpanFound(r.blocks, r.span)
  }

  function GroupOf(r: Raw): Group
    requires r.RawRange?
  {
    Group(r.sid, r.addr, r.proto)
  }

  ghost predicate ExactScanned(m: Maps, raws: set<Raw>) {
    && (forall r :: r in raws ==> r.RawExact? && r.key in m.vip && m.vip[r.key] == r.sid)
    && (forall k :: k in m.vip ==> RawExact(k, m.vip[k]) in raws)
  }

  ghost predicate RangesScanned(m: Maps, raws: set<Raw>, groups: set<Group>) {
    && (forall r :: r in raws ==> r.RawRange? && GroupRaw(m, r) && GroupOf(r) in groups)
    && (forall r, q :: r in raws && q in raws && r.RawRange? && q.RawRange? && GroupOf(r) == GroupOf(q) ==> r == q)
    && (forall g :: g in groups ==> exists r :: r in raws && r.RawRange? && GroupOf(r) == g)
  }

  ghost predicate AllGroups(m: Maps, groups: set<Group>) {
    forall k :: k in m.ranges ==> Group(m.ranges[k], k.addr, k.proto) in groups
  }

  method ScanExact(m: Maps) returns (raws: set<Raw>)
    ensures ExactScanned(m, raws)
  {
    raws := set k | k in m.vip :: RawExact(k, m.vip[k]);
  }

  /** The services, addresses and protocols the trie has entries for. */
  function GroupsIn(m: Maps): (groups: set<Group>)
    ensures AllGroups(m, groups)
  {
    set k | k in m.ranges :: Group(m.ranges[k], k.addr, k.proto)
  }

  /** scanRanges: one record per service, address and protocol in the trie. */
  method ScanRanges(m: Maps) returns (raws: set<Raw>)
    requires forall k :: k in m.ranges ==> k.block.port < 0x1_0000
    ensures RangesScanned(m, raws, GroupsIn(m))
  {
    var byGroup := GroupBlocks(m.ranges);
    GroupsComplete(m, byGroup);
    raws := {};
    var todo := byGroup.Keys;
    while todo != {}
      invariant todo <= byGroup.Keys && RangesScanned(m, raws, byGroup.Keys - todo)
    {
      hide RangesScanned;
      var g :| g in todo;
      var blocks := byGroup[g];
      PortsInRange(m, byGroup, g);
      var span := BlocksSpan(blocks);
      var r := RawRange(g.addr, g.proto, g.sid, blocks, span);
      GroupIsRaw(m, byGroup, g, span);
      ScanStep(m, raws, byGroup.Keys - todo, r);
      ghost var seen := byGroup.Keys - todo;
      raws := raws + {r};
      todo := todo - {g};
      assert byGroup.Keys - todo == seen + {g};
    }
    assert byGroup.Keys - {} == byGroup.Keys;
  }

  lemma GroupsComplete(m: Maps, byGroup: map<Group, seq<PortBlock>>)
    requires Grouped(m.ranges, m.ranges.Keys, byGroup)
    ensures byGroup.Keys == GroupsIn(m) && RangesScanned(m, {}, byGroup.Keys - byGroup.Keys)
  {
    forall g | g in byGroup
      ensures g in GroupsIn(m)
    {
      var b := byGroup[g][0];
      assert InGroup(m.ranges, m.ranges.Keys, g, b);
    }
    forall k | k in m.ranges
      ensures Group(m.ranges[k], k.addr, k.proto) in byGroup
    {
      assert RangeKey(k.addr, k.proto, k.block) == k;
      assert InGroup(m.ranges, m.ranges.Keys, Group(m.ranges[k], k.addr, k.proto), k.block);
    }
  }

  lemma PortsInRange(m: Maps, byGroup: map<Group, seq<PortBlock>>, g: Group)
    requires Grouped(m.ranges, m.ranges.Keys, byGroup) && g in byGroup
    requires forall k :: k in m.ranges ==> k.block.port < 0x1_0000
    ensures forall i :: 0 <= i < |byGroup[g]| ==> byGroup[g][i].port < 0x1_0000
  {
    forall i | 0 <= i < |byGroup[g]|
      ensures byGroup[g][i].port < 0x1_0000
    {
      assert InGroup(m.ranges, m.ranges.Keys, g, byGroup[g][i]);
    }
  }

  lemma GroupIsRaw(m: Maps, byGroup: map<Group, seq<PortBlock>>, g: Group, span: Option<(nat, nat)>)
    requires Grouped(m.ranges, m.ranges.Keys, byGroup) && g in byGroup && SpanFound(byGroup[g], span)
    ensures GroupRaw(m, RawRange(g.addr, g.proto, g.sid, byGroup[g], span))
  {
    hide SpanFound;
  }

  lemma ScanStep(m: Maps, raws: set<Raw>, groups: set<Group>, r: Raw)
    requires RangesScanned(m, raws, groups) && r.RawRange? && GroupRaw(m, r) && GroupOf(r) !in groups
    ensures RangesScanned(m, raws + {r}, groups + {GroupOf(r)})
  {
    hide GroupRaw;
    forall g | g in groups + {GroupOf(r)}
      ensures exists q :: q in raws + {r} && q.RawRange? && GroupOf(q) == g
    {
      if g in groups {
        var q :| q in raws && q.RawRange? && GroupOf(q) == g;
        assert q in raws + {r};
      } else {
        assert r in raws + {r};
      }
    }
  }

  // ---- Maps a successful run left behind record exactly its VIPs.

  /** All blocks recorded for a service are the tiling of the range VIP that has it. */
  lemma GroupIsTiling(hash: Hash<Endpoint>, m: Maps, services: Services, states: States, r: Raw) returns (v: VipId)
    requires Agree(hash, m, services, states) && r.RawRange? && GroupRaw(m, r)
    ensures v in services && services[v].sid == r.sid && v.IsRange() && v.addr == r.addr && v.proto == r.proto
    ensures VipOf(r) == Some(v)
  {
    hide Settled, SpanFound, Tiling, Installed, Owns, GroupRaw, Agree, Compatible, Reachable;
    AgreeGives(hash, m, services, states);
    v := GroupOwner(m, services, r);
    assert Installed(m, v);
    BlocksAreTiling(m, services, r, v);
    TheSpan(r, v);
  }

  lemma AgreeGives(hash: Hash<Endpoint>, m: Maps, services: Services, states: States)
    requires Agree(hash, m, services, states)
    ensures Reachable(m, services) && SidsDistinct(services) && Compatible(services.Keys) && forall v ::
        v in services ==> Installed(m, v)
  {
    hide Settled, Installed, Reachable, Compatible, UnusedZero, BackendMapOk, HealthOk;
  }

  /** The VIP that one recorded block belongs to. */
  lemma GroupOwner(m: Maps, services: Services, r: Raw) returns (v: VipId)
    requires Reachable(m, services) && r.RawRange? && GroupRaw(m, r)
    ensures v in services && services[v].sid == r.sid && v.IsRange() && v.addr == r.addr && v.proto == r.proto
  {
    hide SpanFound, Tiling;
    var b := r.blocks[0];
    assert b in r.blocks;
    var k := RangeKey(r.addr, r.proto, b);
    assert InGroup(m.ranges, m.ranges.Keys, Group(r.sid, r.addr, r.proto), b);
    v :| v in services && Owns(v, k) && m.ranges[k] == services[v].sid;
  }

  /** The recorded blocks are that VIP's tiling. */
  lemma BlocksAreTiling(m: Maps, services: Services, r: Raw, v: VipId)
    requires Reachable(m, services) && SidsDistinct(services) && Compatible(services.Keys) && r.RawRange?
        && GroupRaw(m, r)
    requires v in services && services[v].sid == r.sid && v.IsRange() && v.addr == r.addr && v.proto == r.proto
        && Installed(m, v)
    ensures multiset(r.blocks) == multiset(Tiling(v.port, v.portEnd)) && ValidVip(v) && SpanFound(r.blocks, r.span)
  {
    hide SpanFound, Tiling, Reachable, Installed;
    forall c
      ensures c in r.blocks <==> c in Tiling(v.port, v.portEnd)
    {
      if c in r.blocks {
        BlockHasOwner(m, services, v, r, c);
      }
      if c in Tiling(v.port, v.portEnd) {
        BlockRecorded(m, services, v, r, c);
      }
    }
    TilingIsDistinct(v.port, v.portEnd);
    SameElements(r.blocks, Tiling(v.port, v.portEnd));
  }

  lemma TheSpan(r: Raw, v: VipId)
    requires r.RawRange? && SpanFound(r.blocks, r.span) && multiset(r.blocks) == multiset(Tiling(v.port, v.portEnd))
    requires ValidVip(v) && v.IsRange() && v.addr == r.addr && v.proto == r.proto
    ensures VipOf(r) == Some(v)
  {
    assert r.span == Some((v.port, v.portEnd));
  }

  lemma BlockHasOwner(m: Maps, services: Services, v: VipId, r: Raw, c: PortBlock)
    requires Reachable(m, services) && SidsDistinct(services) && v in services && services[v].sid == r.sid
    requires r.RawRange? && GroupRaw(m, r) && c in r.blocks
    ensures c in Tiling(v.port, v.portEnd)
  {
    hide SpanFound, Tiling;
    assert InGroup(m.ranges, m.ranges.Keys, Group(r.sid, r.addr, r.proto), c);
    var k := RangeKey(r.addr, r.proto, c);
    var w :| w in services && Owns(w, k) && m.ranges[k] == services[w].sid;
  }

  lemma BlockRecorded(m: Maps, services: Services, v: VipId, r: Raw, c: PortBlock)
    requires Reachable(m, services) && Compatible(services.Keys) && v in services && services[v].sid == r.sid
        && Installed(m, v)
    requires r.RawRange? && GroupRaw(m, r) && v.IsRange() && v.addr == r.addr && v.proto == r.proto
        && c in Tiling(v.port, v.portEnd)
    ensures c in r.blocks
  {
    hide SpanFound, Tiling;
    var k := RangeKey(r.addr, r.proto, c);
    assert Owns(v, k);
    var w :| w in services && Owns(w, k) && m.ranges[k] == services[w].sid;
    OwnedOnce(v, w, k);
    assert w == v;
    assert InGroup(m.ranges, m.ranges.Keys, Group(r.sid, r.addr, r.proto), c);
  }

  lemma SameElements<T>(a: seq<T>, b: seq<T>)
    requires Distinct(a) && Distinct(b) && forall x :: x in a <==> x in b
    ensures multiset(a) == multiset(b)
  {
    forall x
      ensures multiset(a)[x] == multiset(b)[x]
    {
      CountOfDistinct(a, x);
      CountOfDistinct(b, x);
      assert x in multiset(a) <==> x in a;
      assert x in multiset(b) <==> x in b;
    }
  }

  /** Each record of agreeing maps is one of the VIPs, with its service ID. */
  lemma RawIsVip(hash: Hash<Endpoint>, m: Maps, services: Services, states: States, r: Raw)
    requires Agree(hash, m, services, states)
    requires if r.RawExact? then r.key in m.vip && m.vip[r.key] == r.sid else GroupRaw(m, r)
    ensures VipOf(r).Some? && VipOf(r).value in services && services[VipOf(r).value].sid == r.sid
    ensures VipOf(r).value.IsRange() <==> r.RawRange?
  {
    hide Settled, GroupRaw;
    if r.RawRange? {
      var v := GroupIsTiling(hash, m, services, states, r);
    }
  }

  /** And each VIP has a record. */
  lemma VipHasRaw(hash: Hash<Endpoint>, m: Maps, services: Services, states: States, exact: set<Raw>, ranges: set<Raw>,
      groups: set<Group>, v: VipId)
    returns (r: Raw)
    requires Agree(hash, m, services, states) && v in services
    requires ExactScanned(m, exact) && RangesScanned(m, ranges, groups) && AllGroups(m, groups)
    ensures r in exact + ranges && VipOf(r) == Some(v)
  {
    hide Settled, GroupRaw;
    if v.IsRange() {
      var b := FirstBlock(v);
      var k := RangeKey(v.addr, v.proto, b);
      assert Owns(v, k) && k in m.ranges;
      var w :| w in services && Owns(w, k) && m.ranges[k] == services[w].sid;
      OwnedOnce(v, w, k);
      r :| r in ranges && r.RawRange? && GroupOf(r) == Group(m.ranges[k], k.addr, k.proto);
      var u := GroupIsTiling(hash, m, services, states, r);
      assert u == v;
    } else {
      var k := ExactKey(v.addr, v.port, v.proto);
      assert ExactVip(k) == v;
      r := RawExact(k, m.vip[k]);
    }
  }

  lemma FirstBlock(v: VipId) returns (b: PortBlock)
    requires v.IsRange() && ValidVip(v)
    ensures b in Tiling(v.port, v.portEnd)
  {
    b := Tiling(v.port, v.portEnd)[0];
  }
}
