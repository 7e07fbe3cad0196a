/** Which service a packet belongs to: an exact-port map, then a longest-prefix trie of range
    blocks (v4_service and v6_service in bpf/xdp_ingress.c), against plain range membership. */
module VipLookup {
  import opened Common
  import opened Primes
  import opened Types
  import opened PortRange

  datatype ExactKey = ExactKey(addr: Addr, port: Word, proto: Proto)

  datatype RangeKey = RangeKey(addr: Addr, proto: Proto, block: PortBlock)

  function ExactVip(k: ExactKey): VipId {
    VipId(k.addr, k.port, 0, k.proto)
  }

  /** The port's first bits bits, as the trie compares them. */
  function Prefix(port: nat, bits: nat): (p: nat)
    requires bits <= 16
  {
    RemainderWithin(port, Pow2(16 - bits));
    port - port % Pow2(16 - bits)
  }

  lemma RemainderWithin(x: nat, n: nat)
    requires n > 0
    ensures x % n <= x
  {
    MulMonotone(0, x / n, n);
  }

  lemma PrefixIsBlock(port: nat, b: PortBlock)
    requires Aligned(b) && InBlock(b, port)
    ensures Prefix(port, b.bits) == b.port
  {
    hide Pow2;
    FloorIs(port, b.port, Size(b));
  }

  lemma FloorIs(x: int, start: int, n: int)
    requires n > 0 && start % n == 0 && start <= x < start + n
    ensures x - x % n == start
  {
    assert x == n * (start / n) + (x - start);
    DivModUnique(x, n, start / n, x - start);
  }

  lemma PrefixContains(port: nat, bits: nat)
    requires bits <= 16
    ensures InBlock(PortBlock(Prefix(port, bits), bits), port)
  {
  }

  /** Longest-prefix match, from the given prefix length down. */
  function Longest(trie: map<RangeKey, nat>, addr: Addr, proto: Proto, port: nat, bits: nat): Option<nat>
    requires bits <= 16
  {
    var key := RangeKey(addr, proto, PortBlock(Prefix(port, bits), bits));
    if key in trie then Some(trie[key])
    else if bits == 0 then None
    else Longest(trie, addr, proto, port, bits - 1)
  }

  /** v4_service / v6_service. */
  function ServiceOf(vips: map<ExactKey, nat>, trie: map<RangeKey, nat>, addr: Addr, port: Word,
      proto: Proto): Option<nat> {
    var key := ExactKey(addr, port, proto);
    if key in vips then Some(vips[key]) else Longest(trie, addr, proto, port, 16)
  }

  // ---- What the maps must hold for a set of VIPs.

  predicate ValidVip(v: VipId) {
    v.IsRange() ==> 0 < v.port < v.portEnd
  }

  /** config's test for two ranges sharing a port. */
  predicate Overlap(v: VipId, w: VipId) {
    v.port <= w.portEnd && w.port <= v.portEnd
  }

  predicate Conflict(v: VipId, w: VipId) {
    v.IsRange() && w.IsRange() && v.addr == w.addr && v.proto == w.proto && Overlap(v, w)
  }

  ghost predicate Compatible(vips: set<VipId>) {
    && (forall v :: v in vips ==> ValidVip(v))
    && (forall v, w :: v in vips && w in vips && v != w ==> !Conflict(v, w))
  }

  ghost predicate Owns(v: VipId, k: RangeKey) {
    v.IsRange() && v.addr == k.addr && v.proto == k.proto && k.block in Tiling(v.port, v.portEnd)
  }

  ghost predicate ExactProgrammed(exact: map<ExactKey, nat>, sids: map<VipId, nat>) {
    && (forall k :: k in exact ==> ExactVip(k) in sids && exact[k] == sids[ExactVip(k)])
    && (forall v :: v in sids && !v.IsRange() ==> ExactKey(v.addr, v.port, v.proto) in exact)
  }

  ghost predicate RangesProgrammed(trie: map<RangeKey, nat>, sids: map<VipId, nat>) {
    && (forall k :: k in trie ==> exists v :: v in sids && Owns(v, k) && trie[k] == sids[v])
    && (forall v, k :: v in sids && Owns(v, k) ==> k in trie)
  }

  lemma BlockInside(v: VipId, b: PortBlock, port: int)
    requires v.IsRange() && b in Tiling(v.port, v.portEnd)
    ensures Aligned(b) && (InBlock(b, port) ==> v.port <= port <= v.portEnd)
  {
    hide Tiling;
    TilingTiles(v.port, v.portEnd);
    var i :| 0 <= i < |Tiling(v.port, v.portEnd)| && Tiling(v.port, v.portEnd)[i] == b;
  }

  lemma {:induction false} LongestFinds(trie: map<RangeKey, nat>, addr: Addr, proto: Proto, port: nat, bits: nat)
    requires bits <= 16
    ensures var r := Longest(trie, addr, proto, port, bits);
            && (r.Some? ==> exists k :: k in trie && Matches(k, addr, proto, port) && trie[k] == r.value)
            && (r.None? ==> forall k :: k in trie && Matches(k, addr, proto, port) ==> k.block.bits > bits)
  {
    var key := RangeKey(addr, proto, PortBlock(Prefix(port, bits), bits));
    hide Prefix;
    if key in trie {
      assert Matches(key, addr, proto, port);
    } else if bits > 0 {
      LongestFinds(trie, addr, proto, port, bits - 1);
    }
  }

  /** A key whose prefix is the port's. */
  ghost predicate Matches(k: RangeKey, addr: Addr, proto: Proto, port: nat) {
    && k.addr == addr && k.proto == proto && 0 <= k.block.bits <= 16
    && k.block.port == Prefix(port, k.block.bits)
  }

  /** What the configuration means: the exact-port VIP, else the range VIP holding the port. */
  ghost predicate Means(sids: map<VipId, nat>, addr: Addr, port: Word, proto: Proto, r: Option<nat>) {
    var exact := VipId(addr, port, 0, proto);
    if exact in sids then
      r == Some(sids[exact])
    else
      && (r.Some? ==> exists v :: v in sids && v.IsRange() && v.Serves(addr, port, proto) && r.value == sids[v])
      && (forall v :: v in sids && v.IsRange() && v.Serves(addr, port, proto) ==> r == Some(sids[v]))
  }

  /** Exact-port map and trie together answer every packet as the configuration means it. */
  lemma LookupAgrees(exact: map<ExactKey, nat>, trie: map<RangeKey, nat>, sids: map<VipId, nat>,
                     addr: Addr, port: Word, proto: Proto)
    requires Compatible(sids.Keys) && ExactProgrammed(exact, sids) && RangesProgrammed(trie, sids)
    ensures Means(sids, addr, port, proto, ServiceOf(exact, trie, addr, port, proto))
  {
    var key := ExactKey(addr, port, proto);
    if key in exact {
      assert ExactVip(key) in sids;
    } else {
      assert VipId(addr, port, 0, proto) !in sids;
      var r := Longest(trie, addr, proto, port, 16);
      LongestFinds(trie, addr, proto, port, 16);
      hide Longest;
      if r.Some? {
        var k :| k in trie && Matches(k, addr, proto, port) && trie[k] == r.value;
        var v := OwnerServes(trie, sids, k, addr, port, proto);
        forall w | w in sids && w.IsRange() && w.Serves(addr, port, proto)
          ensures w == v
        {
          assert w != v ==> !Conflict(v, w);
        }
      } else {
        forall w | w in sids && w.IsRange() && w.Serves(addr, port, proto)
          ensures false
        {
          var _ := ServedKey(w, addr, port, proto);
        }
      }
    }
  }

  lemma OwnerServes(trie: map<RangeKey, nat>, sids: map<VipId, nat>, k: RangeKey, addr: Addr, port: Word, proto: Proto)
    returns (v: VipId)
    requires RangesProgrammed(trie, sids) && k in trie && Matches(k, addr, proto, port)
    ensures v in sids && v.IsRange() && v.Serves(addr, port, proto) && trie[k] == sids[v]
  {
    hide Prefix;
    v :| v in sids && Owns(v, k) && trie[k] == sids[v];
    PrefixContains(port, k.block.bits);
    BlockInside(v, k.block, port);
  }

  lemma ServedKey(w: VipId, addr: Addr, port: Word, proto: Proto) returns (k: RangeKey)
    requires w.IsRange() && w.Serves(addr, port, proto)
    ensures Owns(w, k) && Matches(k, addr, proto, port)
  {
    hide Tiling, Prefix;
    TilingTiles(w.port, w.portEnd);
    var out := Tiling(w.port, w.portEnd);
    assert InSome(out, port);
    var i :| 0 <= i < |out| && Aligned(out[i]) && InBlock(out[i], port);
    k := RangeKey(addr, proto, out[i]);
    PrefixIsBlock(port, out[i]);
  }

  // ---- The configuration check.

  /** checkRanges: rejects exactly the configurations with two overlapping ranges on one address
      and protocol. */
  method CheckRanges(vips: seq<VipId>) returns (ok: bool)
    ensures ok <==> NoConflicts(vips, |vips|)
  {
    hide NoConflicts;
    NoConflictsYet(vips);
    var byAddr: map<(Addr, Proto), seq<VipId>> := map[];
    for n := 0 to |vips|
      invariant NoConflicts(vips, n)
      invariant forall i :: 0 <= i < n && vips[i].IsRange() ==> Recorded(byAddr, vips[i])
      invariant forall k :: k in byAddr ==> forall o :: o in byAddr[k] ==>
          o in vips[..n] && o.IsRange() && (o.addr, o.proto) == k
    {
      var v := vips[n];
      if !v.IsRange() {
        assert forall o :: o in vips[..n] ==> o in vips[..n + 1];
        NoConflictsNext(vips, n);
        continue;
      }
      var k := (v.addr, v.proto);
      var spans := if k in byAddr then byAddr[k] else [];
      var hit := FirstOverlap(v, spans);
      if hit < |spans| {
        var o := spans[hit];
        assert o in byAddr[k];
        var i :| 0 <= i < n && vips[..n][i] == o;
        FoundConflict(vips, i, n);
        return false;
      }
      forall i | 0 <= i < n
        ensures !Conflict(v, vips[i])
      {
        if vips[i].IsRange() && vips[i].addr == v.addr && vips[i].proto == v.proto {
          assert Recorded(byAddr, vips[i]);
        }
      }
      NoConflictsNext(vips, n);
      assert forall o :: o in vips[..n + 1] <==> o in vips[..n] || o == v;
      byAddr := byAddr[k := spans + [v]];
    }
    return true;
  }

  /** Where the first of the spans that overlaps v is, or their number. */
  method FirstOverlap(v: VipId, spans: seq<VipId>) returns (s: nat)
    ensures s <= |spans| && (s < |spans| ==> Overlap(v, spans[s])) && forall t :: 0 <= t < s ==> !Overlap(v, spans[t])
  {
    s := 0;
    while s < |spans| && !(v.port <= spans[s].portEnd && spans[s].port <= v.portEnd)
      invariant s <= |spans| && forall t :: 0 <= t < s ==> !Overlap(v, spans[t])
    {
      s := s + 1;
    }
  }

  /** No two of the first n VIPs are overlapping ranges on one address and protocol. */
  ghost predicate NoConflicts(vips: seq<VipId>, n: nat) {
    n <= |vips| && forall i, j :: 0 <= i < j < n ==> !Conflict(vips[j], vips[i])
  }

  lemma NoConflictsYet(vips: seq<VipId>)
    ensures NoConflicts(vips, 0)
  {
  }

  lemma NoConflictsNext(vips: seq<VipId>, n: nat)
    requires n < |vips| && NoConflicts(vips, n) && forall i :: 0 <= i < n ==> !Conflict(vips[n], vips[i])
    ensures NoConflicts(vips, n + 1)
  {
  }

  lemma FoundConflict(vips: seq<VipId>, i: nat, j: nat)
    requires i < j < |vips| && Conflict(vips[j], vips[i])
    ensures !NoConflicts(vips, |vips|)
  {
  }

  ghost predicate Recorded(byAddr: map<(Addr, Proto), seq<VipId>>, v: VipId) {
    (v.addr, v.proto) in byAddr && v in byAddr[(v.addr, v.proto)]
  }

  /** Every configuration checkRanges accepts is one the lookup is right for. */
  lemma CheckedIsCompatible(vips: seq<VipId>)
    requires forall i :: 0 <= i < |vips| ==> ValidVip(vips[i])
    requires NoConflicts(vips, |vips|)
    ensures Compatible(set v | v in vips)
  {
    forall v, w | v in vips && w in vips && v != w
      ensures !Conflict(v, w)
    {
      var i :| 0 <= i < |vips| && vips[i] == v;
      var j :| 0 <= j < |vips| && vips[j] == w;
      assert i < j || j < i;
    }
  }
}
