/** The packet programs themselves: lookups, header rewrites and map updates one after another, as
    bpf/xdp_ingress.c and bpf/tc_nat.c do them, proved against PacketPath. */
module PacketPrograms {
  import opened Common
  import opened Types
  import opened VipLookup
  import opened BpfMaps
  import opened Checksum
  import opened TokenBucket
  import opened PacketPath

  type CsumDiff = (seq<Word>, seq<Word>) -> int

  // ---- Sums of headers.

  lemma SumOfIp(ip: Ip)
    ensures Sum(IpWords(ip)) == Sum(ip.src.Words()) + Sum(ip.dst.Words()) + Sum(ip.rest) + ip.csum
  {
    var a, b := ip.src.Words(), ip.dst.Words();
    hide Sum;
    SumConcat(a + b + ip.rest, [ip.csum]);
    SumConcat(a + b, ip.rest);
    SumConcat(a, b);
    SumOne(ip.csum);
  }

  lemma SumOfTwo(x: Word, y: Word)
    ensures Sum([x, y]) == x + y
  {
    assert [x, y] == [x] + [y];
    SumConcat([x], [y]);
    SumOne(x);
    SumOne(y);
  }

  lemma SumOfL4(s: Segment)
    ensures Sum(L4Words(s)) == Sum(s.ip.src.Words()) + Sum(s.ip.dst.Words()) + s.sport + s.dport + s.csum + Sum(s.rest)
  {
    var a, b, ports := s.ip.src.Words(), s.ip.dst.Words(), [s.sport, s.dport, s.csum];
    hide Sum;
    SumConcat(a + b + ports, s.rest);
    SumConcat(a + b, ports);
    SumConcat(a, b);
    assert ports == [s.sport, s.dport] + [s.csum];
    SumConcat([s.sport, s.dport], [s.csum]);
    SumOfTwo(s.sport, s.dport);
    SumOne(s.csum);
  }

  lemma SumOfQuoted(q: Quoted)
    ensures Sum(QuotedWords(q)) ==
        Sum(q.ip.src.Words()) + Sum(q.ip.dst.Words()) + Sum(q.ip.rest) + (if q.ip.src.V4? then q.ip.csum else 0)
                                   + q.sport + q.dport + Sum(q.tail)
  {
    var a, b := q.ip.src.Words(), q.ip.dst.Words();
    var header := if q.ip.src.V4? then IpWords(q.ip) else a + b + q.ip.rest;
    hide Sum;
    SumConcat(header + [q.sport, q.dport], q.tail);
    SumConcat(header, [q.sport, q.dport]);
    SumOfTwo(q.sport, q.dport);
    SumOfIp(q.ip);
    SumConcat(a + b, q.ip.rest);
    SumConcat(a, b);
  }

  lemma SumOfIcmp(e: IcmpError)
    ensures Sum(IcmpWords(e)) == (if e.ip.dst.V6? then Sum(e.ip.src.Words()) + Sum(e.ip.dst.Words()) else 0)
                                 + Sum(e.head) + e.csum + Sum(QuotedWords(e.quoted))
  {
    var pseudo := if e.ip.dst.V6? then e.ip.src.Words() + e.ip.dst.Words() else [];
    SumConcat(e.ip.src.Words(), e.ip.dst.Words());
    assert Sum([]) == 0;
    hide Sum, QuotedWords;
    SumConcat(pseudo + e.head + [e.csum], QuotedWords(e.quoted));
    SumConcat(pseudo + e.head, [e.csum]);
    SumConcat(pseudo, e.head);
    SumOne(e.csum);
  }

  // ---- Rewrites.

  /** The IPv4 header checksum once one address has become another; IPv6 has none. */
  method ReplaceIpCsum(diff: CsumDiff, csum: Word, was: Addr, now: Addr) returns (r: Word)
    requires DiffOk(diff) && SameFamily(was, now)
    ensures if was.V4? then Congruent(r + Sum(now.Words()), csum + Sum(was.Words())) else r == csum
  {
    hide DiffOk, Congruent, Sum;
    r := csum;
    if was.V4? {
      r := Replace(diff, csum, was.Words(), now.Words());
    }
  }

  /** The new address and port outweigh the old ones and the checksum exactly, so that nothing is
      left to write into the checksum field. */
  ghost predicate CancelsOut(csum: Word, was: Endpoint, now: Endpoint) {
    Congruent(csum + Sum(was.addr.Words()) + was.port, Sum(now.addr.Words()) + now.port)
  }

  /** A transport checksum once an address and a port have changed. It becomes zero exactly when the
      change cancels out. */
  method ReplaceL4Csum(diff: CsumDiff, csum: Word, was: Endpoint, now: Endpoint) returns (r: Word)
    requires DiffOk(diff) && SameFamily(was.addr, now.addr)
    ensures Congruent(r + Sum(now.addr.Words()) + now.port, csum + Sum(was.addr.Words()) + was.port)
    ensures now.port != 0 ==> (r == 0 <==> CancelsOut(csum, was, now))
  {
    hide DiffOk, Congruent, Sum;
    r := Replace(diff, csum, was.addr.Words(), now.addr.Words());
    ghost var k := Multiple(r + Sum(now.addr.Words()), csum + Sum(was.addr.Words()));
    ghost var first := r;
    r := ReplaceWord(r, was.port, now.port);
    ghost var l := Multiple(r + now.port, first + was.port);
    CongruentBy(r + Sum(now.addr.Words()) + now.port, csum + Sum(was.addr.Words()) + was.port, k + l);
    CongruentMoves(first + was.port, now.port, csum + Sum(was.addr.Words()) + was.port,
      Sum(now.addr.Words()) + now.port, k);
  }

  lemma IpStaysValid(ip: Ip, ip': Ip, was: Addr, now: Addr)
    requires (ip' == ip.(dst := now, csum := ip'.csum) && was == ip.dst)
        || (ip' == ip.(src := now, csum := ip'.csum) && was == ip.src)
    requires SameFamily(ip.src, ip.dst) && SameFamily(was, now)
    requires if was.V4? then Congruent(ip'.csum + Sum(now.Words()), ip.csum + Sum(was.Words())) else ip'.csum == ip.csum
    ensures IpKept(ip, ip')
  {
    hide Congruent, Sum, IpWords;
    SumOfIp(ip);
    SumOfIp(ip');
    if was.V4? {
      var k := Multiple(ip'.csum + Sum(now.Words()), ip.csum + Sum(was.Words()));
      CongruentBy(Sum(IpWords(ip')), Sum(IpWords(ip)), k);
    }
  }

  /** The NAT block of the ingress handlers: a segment is sent to ep instead. */
  method Redirect(diff: CsumDiff, s: Segment, ep: Endpoint) returns (out: Segment)
    requires DiffOk(diff) && SameFamily(s.ip.src, s.ip.dst) && SameFamily(s.ip.dst, ep.addr)
    ensures Redirected(s, out, ep)
    ensures ep.port != 0 && !NoChecksum(s) ==> (out.csum == 0 <==> CancelsOut(s.csum, Endpoint(s.ip.dst, s.dport), ep))
  {
    hide DiffOk, Congruent, Sum, IpKept, IpWords, L4Words, CancelsOut;
    var check := ReplaceIpCsum(diff, s.ip.csum, s.ip.dst, ep.addr);
    out := s.(ip := s.ip.(csum := check));
    if s.proto == TCP || s.csum != 0 || s.ip.dst.V6? {
      var l4 := ReplaceL4Csum(diff, s.csum, Endpoint(s.ip.dst, s.dport), ep);
      out := out.(csum := l4);
    }
    out := out.(dport := ep.port);
    out := out.(ip := out.ip.(dst := ep.addr));
    IpStaysValid(s.ip, out.ip, s.ip.dst, ep.addr);
    SumOfL4(s);
    SumOfL4(out);
    if !NoChecksum(s) {
      SameUnder(out.csum + Sum(ep.addr.Words()) + ep.port, s.csum + Sum(s.ip.dst.Words()) + s.dport, Sum(L4Words(out)),
        Sum(L4Words(s)));
    }
  }

  /** The NAT block of the egress handlers: a segment is sent from ep instead. */
  method Resource(diff: CsumDiff, s: Segment, ep: Endpoint) returns (out: Segment)
    requires DiffOk(diff) && SameFamily(s.ip.src, s.ip.dst) && SameFamily(s.ip.src, ep.addr)
    ensures Resourced(s, out, ep)
    ensures ep.port != 0 && !NoChecksum(s) ==> (out.csum == 0 <==> CancelsOut(s.csum, Endpoint(s.ip.src, s.sport), ep))
  {
    hide DiffOk, Congruent, Sum, IpKept, IpWords, L4Words, CancelsOut;
    var check := ReplaceIpCsum(diff, s.ip.csum, s.ip.src, ep.addr);
    out := s.(ip := s.ip.(csum := check));
    if s.proto == TCP || s.csum != 0 || s.ip.src.V6? {
      var l4 := ReplaceL4Csum(diff, s.csum, Endpoint(s.ip.src, s.sport), ep);
      out := out.(csum := l4);
    }
    out := out.(sport := ep.port);
    out := out.(ip := out.ip.(src := ep.addr));
    IpStaysValid(s.ip, out.ip, s.ip.src, ep.addr);
    SumOfL4(s);
    SumOfL4(out);
    if !NoChecksum(s) {
      SameUnder(out.csum + Sum(ep.addr.Words()) + ep.port, s.csum + Sum(s.ip.src.Words()) + s.sport, Sum(L4Words(out)),
        Sum(L4Words(s)));
    }
  }

  /** For a segment whose checksum is right, that is so exactly when everything the new checksum is
      to cover adds up to a multiple of 65535. The checksum that should then be sent is 0xffff; over
      UDP and IPv4 the zero that is sent says there is none. */
  lemma LosesChecksumIff(s: Segment, out: Segment, ep: Endpoint)
    requires Accepted(L4Words(s)) && Redirected(s, out, ep) && s.proto == UDP && s.ip.src.V4? && !NoChecksum(s)
    requires out.csum == 0 <==> CancelsOut(s.csum, Endpoint(s.ip.dst, s.dport), ep)
    ensures NoChecksum(out) <==> Congruent(Sum(L4Words(out.(csum := 0))), 0)
  {
    hide Sum, L4Words, Congruent, IpKept, ChecksumsKept;
    AcceptedIff(L4Words(s));
    SumOfL4(s);
    SumOfL4(out.(csum := 0));
    var k := Multiple(Sum(L4Words(s)), 0);
    CongruentMoves(s.csum + Sum(s.ip.dst.Words()) + s.dport, Sum(ep.addr.Words()) + ep.port, 0,
      Sum(L4Words(out.(csum := 0))), k);
    CongruentSwap(0, Sum(L4Words(out.(csum := 0))));
  }

  /** The same for a reply, rewritten to come from the VIP. */
  lemma ReplyLosesChecksumIff(s: Segment, out: Segment, ep: Endpoint)
    requires Accepted(L4Words(s)) && Resourced(s, out, ep) && s.proto == UDP && s.ip.src.V4? && ep.addr.V4?
        && !NoChecksum(s)
    requires out.csum == 0 <==> CancelsOut(s.csum, Endpoint(s.ip.src, s.sport), ep)
    ensures NoChecksum(out) <==> Congruent(Sum(L4Words(out.(csum := 0))), 0)
  {
    hide Sum, L4Words, Congruent, IpKept, ChecksumsKept;
    AcceptedIff(L4Words(s));
    SumOfL4(s);
    SumOfL4(out.(csum := 0));
    var k := Multiple(Sum(L4Words(s)), 0);
    CongruentMoves(s.csum + Sum(s.ip.src.Words()) + s.sport, Sum(ep.addr.Words()) + ep.port, 0,
      Sum(L4Words(out.(csum := 0))), k);
    CongruentSwap(0, Sum(L4Words(out.(csum := 0))));
  }

  lemma CongruentSwap(a: int, b: int)
    ensures Congruent(a, b) <==> Congruent(b, a)
  {
    hide Congruent;
    if Congruent(a, b) {
      var k := Multiple(a, b);
      CongruentBy(b, a, -k);
    }
    if Congruent(b, a) {
      var k := Multiple(b, a);
      CongruentBy(a, b, -k);
    }
  }

  /** A UDP datagram over IPv4 with one word of payload, from 10.0.0.1:1000 to port 53 of a VIP, 10.0.0.2,
      word by word: version and header length, total length 30, time to live 64 and protocol 17 in
      the IP header; protocol 17 and length 10 in the pseudo-header, length 10 in the UDP header. */
  const DATAGRAM := Segment(Ip(V4(0x0a00, 1), V4(0x0a00, 2), [0x4500, 30, 0, 0, 0x4011], 26317), UDP, None, 1000, 53,
    5301, false, [17, 10, 10, 54021])

  lemma DatagramIsValid()
    ensures Accepted(IpWords(DATAGRAM.ip)) && Accepted(L4Words(DATAGRAM))
  {
    hide Accepted, Sum;
    SumOfIp(DATAGRAM.ip);
    SumOfL4(DATAGRAM);
    SumOfTwo(0x0a00, 1);
    SumOfTwo(0x0a00, 2);
    SumOfTwo(0x4500, 30);
    SumOfTwo(0, 0);
    SumOfTwo(17, 10);
    SumOfTwo(10, 54021);
    SumOne(0x4011);
    assert DATAGRAM.ip.rest == [0x4500, 30] + [0, 0] + [0x4011];
    SumConcat([0x4500, 30] + [0, 0], [0x4011]);
    SumConcat([0x4500, 30], [0, 0]);
    assert DATAGRAM.rest == [17, 10] + [10, 54021];
    SumConcat([17, 10], [10, 54021]);
    AcceptedIff(IpWords(DATAGRAM.ip));
    AcceptedIff(L4Words(DATAGRAM));
  }

  /** "A UDP checksum stays non-zero" is false: the datagram's is right before it is sent to 10.0.0.3:5353
      instead, and absent afterwards. */
  method DatagramLosesChecksum(diff: CsumDiff) returns (out: Segment)
    requires DiffOk(diff)
    ensures Accepted(IpWords(DATAGRAM.ip)) && Accepted(L4Words(DATAGRAM)) && !NoChecksum(DATAGRAM)
    ensures Redirected(DATAGRAM, out, Endpoint(V4(0x0a00, 3), 5353)) && NoChecksum(out)
  {
    hide DiffOk, ChecksumsKept, CancelsOut, L4Words, Accepted, IpWords;
    out := Redirect(diff, DATAGRAM, Endpoint(V4(0x0a00, 3), 5353));
    DatagramCancels();
    DatagramIsValid();
  }

  lemma DatagramCancels()
    ensures CancelsOut(5301, Endpoint(V4(0x0a00, 2), 53), Endpoint(V4(0x0a00, 3), 5353))
  {
    SumOfTwo(0x0a00, 2);
    SumOfTwo(0x0a00, 3);
  }

  /** Adding the same to both sides. */
  lemma SameUnder(a: int, b: int, a': int, b': int)
    requires Congruent(a, b) && a' - a == b' - b
    ensures Congruent(a', b')
  {
  }

  /** The NAT block of the ICMP handlers. The quoted header's own checksum is part of the message,
      so its change is folded in too; over IPv6 the new destination counts as well as the new
      quoted source. */
  method Retarget(diff: CsumDiff, e: IcmpError, ep: Endpoint) returns (out: IcmpError)
    requires DiffOk(diff) && Proper(Error(e)) && SameFamily(e.ip.dst, ep.addr) && e.quoted.ip.src == e.ip.dst
    ensures Reported(e, out, ep)
  {
    hide DiffOk, Congruent, Sum, IpKept, IpWords, QuotedWords, IcmpWords;
    var vip := e.ip.dst;
    var check := ReplaceIpCsum(diff, e.ip.csum, vip, ep.addr);
    var quotedCheck := ReplaceIpCsum(diff, e.quoted.ip.csum, vip, ep.addr);
    var csum := Replace(diff, e.csum, vip.Words(), ep.addr.Words());
    ghost var first := csum;
    ghost var k := Multiple(csum + Sum(ep.addr.Words()), e.csum + Sum(vip.Words()));
    ghost var l := 0;
    if vip.V4? {
      csum := ReplaceWord(csum, e.quoted.ip.csum, quotedCheck);
      l := Multiple(csum + quotedCheck, first + e.quoted.ip.csum);
    } else {
      csum := Replace(diff, csum, vip.Words(), ep.addr.Words());
      l := Multiple(csum + Sum(ep.addr.Words()), first + Sum(vip.Words()));
    }
    ghost var second, n := csum, 0;
    if ep.port != e.quoted.sport {
      csum := ReplaceWord(csum, e.quoted.sport, ep.port);
      n := Multiple(csum + ep.port, second + e.quoted.sport);
    }
    out := e.(ip := e.ip.(dst := ep.addr, csum := check), csum := csum,
              quoted := e.quoted.(ip := e.quoted.ip.(src := ep.addr, csum := quotedCheck), sport := ep.port));
    IpStaysValid(e.ip, out.ip, vip, ep.addr);
    IpStaysValid(e.quoted.ip, out.quoted.ip, vip, ep.addr);
    SumOfIcmp(e);
    SumOfIcmp(out);
    SumOfQuoted(e.quoted);
    SumOfQuoted(out.quoted);
    CongruentBy(Sum(IcmpWords(out)), Sum(IcmpWords(e)), k + l + n);
  }

  // ---- The programs.

  /** The limiter's numbers fit the 64-bit fields they are stored in. */
  ghost predicate LimitsFit(l: Limits) {
    && (l.node.Some? ==> l.node.value.rate < U64 && l.node.value.burst < U64)
    && forall sid :: sid in l.services ==> l.services[sid].rate < U64 && l.services[sid].burst < U64
  }

  /** A reverse entry leads back to a VIP of the client's family, and so does a fragment's. */
  ghost predicate FamiliesMatch(k: Kernel) {
    && (forall key :: key in k.reverse ==> SameFamily(key.backend.addr, k.reverse[key].addr))
    && (forall key :: key in k.fragRevs ==> SameFamily(key.src, k.fragRevs[key]))
  }

  /** What the ingress program makes of a packet. */
  ghost predicate IngressStep(h: Hashes, k: Kernel, p: Packet, now: nat, o: Outcome, out: Packet) {
    match p
    case Whole(s) => o == Arrive(h, k, s, now) && out.Whole? && ArriveOut(h, k, s, now, out.seg)
    case Later(f) => o == Follow(k, f) && out.Later? && FollowOut(k, f, out.piece)
    case Error(e) => o == Report(k, e) && out.Error? && ReportOut(k, e, out.icmp)
    case Opaque => o == Outcome(k, Pass, None) && out == p
  }

  /** What the egress program makes of a packet. */
  ghost predicate EgressStep(k: Kernel, p: Packet, k': Kernel, out: Packet) {
    match p
    case Whole(s) => k' == Reply(k, s) && out.Whole? && ReplyOut(k, s, out.seg)
    case Later(f) => k' == k && out.Later? && ReplyFragmentOut(k, f, out.piece)
    case _ => k' == k && out == p
  }

  class Balancer {
    const diff: CsumDiff
    const hashes: Hashes
    var maps: Maps
    var affinity: map<Flow, nat>
    var reverse: map<ReverseKey, Endpoint>
    var frags: map<FragKey, FragVal>
    var fragRevs: map<FragKey, Addr>
    var limits: Limits

    ghost function State(): Kernel
      reads this
    {
      Kernel(maps, affinity, reverse, frags, fragRevs, limits)
    }

    ghost predicate Valid()
      reads this
    {
      DiffOk(diff) && LimitsFit(limits) && FamiliesMatch(State())
    }

    /** Programs just attached: the maps the control plane left, and no flow known yet. */
    constructor (diff: CsumDiff, hashes: Hashes, maps: Maps, limits: Limits)
      requires DiffOk(diff) && LimitsFit(limits)
      ensures Valid() && this.diff == diff && this.hashes == hashes
      ensures State() == Kernel(maps, map[], map[], map[], map[], limits)
    {
      this.diff, this.hashes, this.maps, this.limits := diff, hashes, maps, limits;
      affinity, reverse, frags, fragRevs := map[], map[], map[], map[];
    }

    /** pick_backend: up to eight probes, wrapping inside the extent. */
    method PickBackend(offset: nat, size: nat, local: nat) returns (r: Option<nat>)
      requires size > 0
      ensures r == PickFrom(maps, offset, size, local, 0)
      ensures r.Some? ==> exists s: nat :: offset <= s < offset + size && HealthyAt(maps, s) == r
    {
      for i := 0 to MAGLEV_PROBES
        invariant PickFrom(maps, offset, size, local, 0) == PickFrom(maps, offset, size, local, i)
      {
        var s := offset + (local + i) % size;
        if s < |maps.maglev| {
          var bid := maps.maglev[s];
          if bid < |maps.health| && maps.health[bid] == Healthy {
            return Some(bid);
          }
        }
      }
      return None;
    }

    /** rate_limit_exceeded: charges exactly one bucket, or none when no limit applies. */
    method RateLimitExceeded(sid: nat, src: Addr, now: nat) returns (exceeded: bool)
      requires LimitsFit(limits) && now < U64
      modifies this`limits
      ensures exceeded == old(Exceeded(limits, sid, src, now)) && limits == old(Charged(limits, sid, src, now))
      ensures LimitsFit(limits)
    {
      hide Left, Admits;
      if sid in limits.services {
        var bucket, over := Take(limits.services[sid], Lookup(limits.serviceBuckets, (sid, src)), now);
        limits := limits.(serviceBuckets := limits.serviceBuckets[(sid, src) := bucket]);
        return over;
      }
      if limits.node.None? {
        return false;
      }
      var bucket, over := Take(limits.node.value, Lookup(limits.buckets, src), now);
      limits := limits.(buckets := limits.buckets[src := bucket]);
      return over;
    }

    /** handle_ipv4 and handle_ipv6 from the VIP lookup on. */
    method HandleSegment(s: Segment, now: nat) returns (verdict: Verdict, out: Segment, ghost sent: Option<nat>)
      requires Valid() && SameFamily(s.ip.src, s.ip.dst) && now < U64
      modifies this
      ensures Valid() && Outcome(State(), verdict, sent) == Arrive(hashes, old(State()), s, now)
      ensures ArriveOut(hashes, old(State()), s, now, out)
    {
      hide DiffOk, Redirected, ServiceOf, PickFrom, Charged, Exceeded, LimitsFit;
      sent := None;
      var sid := ServiceOf(maps.vip, maps.ranges, s.ip.dst, s.dport, s.proto);
      if sid.None? {
        return Pass, s, None;
      }
      if s.syn {
        var over := RateLimitExceeded(sid.value, s.ip.src, now);
        if over {
          return Drop, s, None;
        }
      }
      verdict, out, sent := HandleServed(s, sid.value);
    }

    method HandleServed(s: Segment, sid: nat) returns (verdict: Verdict, out: Segment, ghost sent: Option<nat>)
      requires Valid() && SameFamily(s.ip.src, s.ip.dst)
      modifies this`affinity, this`frags, this`reverse
      ensures Valid() && Outcome(State(), verdict, sent) == Balance(hashes, old(State()), s, sid)
      ensures if sent.Some? && verdict == Pass
              then && sid < |maps.svc| && sent.value in maps.backend
                   && Redirected(s, out, TargetFor(maps.svc[sid], maps.backend[sent.value], s.dport))
              else out == s
    {
      hide DiffOk, Redirected, PickFrom, LimitsFit;
      if sid >= |maps.svc| || maps.svc[sid].count == 0 || maps.svc[sid].size == 0 {
        return Pass, s, None;
      }
      var cfg := maps.svc[sid];
      var flow := FlowOf(s);
      var bid := 0;
      if flow in affinity && Alive(maps, affinity[flow]) {
        bid := affinity[flow];
        assert affinity[flow := bid] == affinity;
      } else {
        var picked := PickBackend(cfg.offset, cfg.size, HashFor(hashes, cfg, s) % cfg.size);
        if picked.None? {
          return Drop, s, None;
        }
        bid := picked.value;
        affinity := affinity[flow := bid];
      }
      var be := BackendFor(maps, bid, s.ip.dst);
      if be.None? {
        return Pass, s, None;
      }
      sent := Some(bid);
      if s.frag.Some? {
        frags := frags[FragKey(s.ip.src, s.ip.dst, s.frag.value, s.proto) := FragVal(bid, sid)];
      }
      if cfg.mode != NAT {
        return Forward(cfg.mode, be.value), s, sent;
      }
      var target := TargetFor(cfg, be.value, s.dport);
      out := Redirect(diff, s, target);
      reverse := reverse[ReverseKey(target, Endpoint(s.ip.src, s.sport), s.proto) := Endpoint(s.ip.dst, s.dport)];
      verdict := Pass;
    }

    /** handle_v4_later_fragment and handle_v6_later_fragment. */
    method HandlePiece(f: Piece) returns (verdict: Verdict, out: Piece, ghost sent: Option<nat>)
      requires Valid() && SameFamily(f.ip.src, f.ip.dst)
      ensures Outcome(State(), verdict, sent) == Follow(State(), f) && FollowOut(State(), f, out)
    {
      hide DiffOk, IpKept, Congruent, Sum;
      sent := None;
      var fk := FragKey(f.ip.src, f.ip.dst, f.id, f.proto);
      if fk !in frags || frags[fk].sid >= |maps.svc| {
        return Pass, f, None;
      }
      var bid := frags[fk].bid;
      if !Alive(maps, bid) {
        return Drop, f, None;
      }
      var be := BackendFor(maps, bid, f.ip.dst);
      if be.None? {
        return Pass, f, None;
      }
      sent := Some(bid);
      var mode := maps.svc[frags[fk].sid].mode;
      if mode != NAT {
        return Forward(mode, be.value), f, sent;
      }
      var check := ReplaceIpCsum(diff, f.ip.csum, f.ip.dst, be.value.addr);
      out := f.(ip := f.ip.(dst := be.value.addr, csum := check));
      IpStaysValid(f.ip, out.ip, f.ip.dst, be.value.addr);
      verdict := Pass;
    }

    /** handle_v4_icmp and handle_v6_icmp, for the error types that quote a packet. */
    method HandleIcmp(e: IcmpError) returns (verdict: Verdict, out: IcmpError, ghost sent: Option<nat>)
      requires Valid() && Proper(Error(e))
      ensures Outcome(State(), verdict, sent) == Report(State(), e) && ReportOut(State(), e, out)
    {
      hide DiffOk, Reported, ServiceOf;
      sent := None;
      var q := e.quoted;
      if q.ip.src != e.ip.dst {
        return Pass, e, None;
      }
      var sid := ServiceOf(maps.vip, maps.ranges, q.ip.src, q.sport, q.proto);
      if sid.None? || sid.value >= |maps.svc| {
        return Pass, e, None;
      }
      var flow := QuotedFlow(q);
      if flow !in affinity || !Alive(maps, affinity[flow]) {
        return Pass, e, None;
      }
      var be := BackendFor(maps, affinity[flow], e.ip.dst);
      if be.None? {
        return Pass, e, None;
      }
      sent := Some(affinity[flow]);
      var cfg := maps.svc[sid.value];
      if cfg.mode != NAT {
        return Forward(cfg.mode, be.value), e, sent;
      }
      out := Retarget(diff, e, TargetFor(cfg, be.value, q.sport));
      verdict := Pass;
    }

    /** rivora_xdp_ingress. */
    method Ingress(p: Packet, now: nat) returns (verdict: Verdict, out: Packet, ghost sent: Option<nat>)
      requires Valid() && Proper(p) && now < U64
      modifies this
      ensures Valid() && IngressStep(hashes, old(State()), p, now, Outcome(State(), verdict, sent), out)
    {
      hide DiffOk, Arrive, Follow, Report, ArriveOut, FollowOut, ReportOut, LimitsFit, FamiliesMatch;
      match p
      case Whole(s) =>
        var v, o, b := HandleSegment(s, now);
        verdict, out, sent := v, Whole(o), b;
      case Later(f) =>
        var v, o, b := HandlePiece(f);
        verdict, out, sent := v, Later(o), b;
      case Error(e) =>
        var v, o, b := HandleIcmp(e);
        verdict, out, sent := v, Error(o), b;
      case Opaque =>
        verdict, out, sent := Pass, p, None;
    }

    /** rivora_tc_nat_egress: handle_ipv4 and handle_ipv6. */
    method Egress(p: Packet) returns (out: Packet)
      requires Valid() && Proper(p)
      modifies this`fragRevs
      ensures Valid() && EgressStep(old(State()), p, State(), out)
    {
      hide DiffOk, Resourced, IpKept, Congruent, Sum, LimitsFit;
      match p
      case Whole(s) =>
        var key := ReplyKey(s);
        if key !in reverse {
          return p;
        }
        var vip := reverse[key];
        if s.frag.Some? {
          fragRevs := fragRevs[FragKey(s.ip.src, s.ip.dst, s.frag.value, s.proto) := vip.addr];
        }
        var o := Resource(diff, s, vip);
        out := Whole(o);
      case Later(f) =>
        var fk := FragKey(f.ip.src, f.ip.dst, f.id, f.proto);
        if fk !in fragRevs {
          return p;
        }
        var check := ReplaceIpCsum(diff, f.ip.csum, f.ip.src, fragRevs[fk]);
        var ip := f.ip.(src := fragRevs[fk], csum := check);
        IpStaysValid(f.ip, ip, f.ip.src, fragRevs[fk]);
        out := Later(f.(ip := ip));
      case _ =>
        out := p;
    }
  }
}
