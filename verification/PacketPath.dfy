/** What one packet does: the ingress program (bpf/xdp_ingress.c) and the egress program
    (bpf/tc_nat.c), as functions of the state the packet finds. Parsing is done: a packet is given
    by its header words, and one the programs do not recognise is Opaque. */
module PacketPath {
  import opened Common
  import opened Types
  import opened VipLookup
  import opened BpfMaps
  import opened Checksum
  import opened TokenBucket

  // ---- Packets.

  /** An IP header: rest is what else an IPv4 header checksum covers. IPv6 has no header checksum. */
  datatype Ip = Ip(src: Addr, dst: Addr, rest: seq<Word>, csum: Word)

  /** The packet an ICMP error quotes: its IP header, ports, and whatever follows them. */
  datatype Quoted = Quoted(ip: Ip, proto: Proto, sport: Word, dport: Word, tail: seq<Word>)

  /** A datagram with its transport header. frag is the identification if more fragments follow;
      rest is what else the transport checksum covers, pseudo-header included. */
  datatype Segment = Segment(ip: Ip, proto: Proto, frag: Option<nat>, sport: Word, dport: Word, csum: Word, syn: bool,
    rest: seq<Word>)

  /** A later fragment: no transport header. */
  datatype Piece = Piece(ip: Ip, proto: Proto, id: nat, payload: seq<Word>)

  /** head is the rest of the ICMP header and, over IPv6, of its pseudo-header. */
  datatype IcmpError = IcmpError(ip: Ip, csum: Word, head: seq<Word>, quoted: Quoted)

  datatype Packet = Whole(seg: Segment) | Later(piece: Piece) | Error(icmp: IcmpError) | Opaque

  /** One address family throughout. */
  ghost predicate Proper(p: Packet) {
    match p
    case Whole(s) => SameFamily(s.ip.src, s.ip.dst)
    case Later(f) => SameFamily(f.ip.src, f.ip.dst)
    case Error(e) => SameFamily(e.ip.src, e.ip.dst) && SameFamily(e.quoted.ip.src, e.ip.dst)
      && SameFamily(e.quoted.ip.dst, e.ip.dst)
    case Opaque => true
  }

  /** What the IPv4 header checksum covers. */
  function IpWords(ip: Ip): seq<Word> {
    ip.src.Words() + ip.dst.Words() + ip.rest + [ip.csum]
  }

  /** What the TCP or UDP checksum covers. */
  function L4Words(p: Segment): seq<Word>
  {
    p.ip.src.Words() + p.ip.dst.Words() + [p.sport, p.dport, p.csum] + p.rest
  }

  /** What the ICMP checksum covers: the message, and over IPv6 the outer addresses too. */
  function IcmpWords(p: IcmpError): seq<Word>
  {
    (if p.ip.dst.V6? then p.ip.src.Words() + p.ip.dst.Words() else []) + p.head + [p.csum] + QuotedWords(p.quoted)
  }

  function QuotedWords(q: Quoted): seq<Word> {
    (if q.ip.src.V4? then IpWords(q.ip) else q.ip.src.Words() + q.ip.dst.Words() + q.ip.rest) + [q.sport,
      q.dport] + q.tail
  }

  /** An IPv4 UDP datagram sent without a checksum. */
  predicate NoChecksum(p: Segment)
  {
    p.ip.src.V4? && p.proto == UDP && p.csum == 0
  }

  ghost predicate IpKept(ip: Ip, ip': Ip) {
    if ip.src.V4? then Congruent(Sum(IpWords(ip')), Sum(IpWords(ip))) else ip'.csum == ip.csum
  }

  /** The checksums are as right, or as wrong, as they were; an absent one stays absent. */
  ghost predicate ChecksumsKept(p: Segment, out: Segment)
  {
    IpKept(p.ip, out.ip) && if NoChecksum(p) then out.csum == p.csum else Congruent(Sum(L4Words(out)), Sum(L4Words(p)))
  }

  /** out is p sent to ep instead. */
  ghost predicate Redirected(p: Segment, out: Segment, ep: Endpoint)
  {
    && out == p.(ip := p.ip.(dst := ep.addr, csum := out.ip.csum), dport := ep.port, csum := out.csum)
    && ChecksumsKept(p, out)
  }

  /** out is p sent from ep instead. */
  ghost predicate Resourced(p: Segment, out: Segment, ep: Endpoint)
  {
    && out == p.(ip := p.ip.(src := ep.addr, csum := out.ip.csum), sport := ep.port, csum := out.csum)
    && ChecksumsKept(p, out)
  }

  // ---- The state a packet finds.

  datatype Flow = Flow(src: Addr, dst: Addr, sport: Word, dport: Word, proto: Proto)
  datatype ReverseKey = ReverseKey(backend: Endpoint, client: Endpoint, proto: Proto)
  datatype FragKey = FragKey(src: Addr, dst: Addr, id: nat, proto: Proto)
  datatype FragVal = FragVal(bid: nat, sid: nat)

  /** The SYN limiters: a service's own limit replaces the node's. */
  datatype Limits = Limits(node: Option<RlConfig>, services: map<nat, RlConfig>, buckets: map<Addr, Bucket>,
    serviceBuckets: map<(nat, Addr), Bucket>)

  datatype Kernel = Kernel(
    maps: Maps,
    affinity: map<Flow, nat>,
    reverse: map<ReverseKey, Endpoint>,
    frags: map<FragKey, FragVal>,
    fragRevs: map<FragKey, Addr>,
    limits: Limits)

  /** The flow hashes, whatever they are. */
  datatype Hashes = Hashes(flow: Flow -> nat, source: Addr -> nat)

  /** DSR and tunnel modes send the packet to the backend as it is. A packet rewritten by NAT is
      passed on, to be routed by its new destination. */
  datatype Verdict = Pass | Drop | Forward(mode: Mode, ep: Endpoint)

  datatype Outcome = Outcome(k: Kernel, verdict: Verdict, sent: Option<nat>)

  function FlowOf(p: Segment): Flow
  {
    Flow(p.ip.src, p.ip.dst, p.sport, p.dport, p.proto)
  }

  /** The request direction of the flow the quoted reply belongs to. */
  function QuotedFlow(q: Quoted): Flow {
    Flow(q.ip.dst, q.ip.src, q.dport, q.sport, q.proto)
  }

  /** Not known to be down: good enough for a flow already there. */
  predicate Alive(m: Maps, bid: nat) {
    bid < |m.health| && m.health[bid] != Down
  }

  // ---- The SYN limiter.

  function Lookup<K, V>(m: map<K, V>, key: K): Option<V> {
    if key in m then Some(m[key]) else None
  }

  ghost predicate Exceeded(l: Limits, sid: nat, src: Addr, now: nat) {
    if sid in l.services then !Admits(l.services[sid], Lookup(l.serviceBuckets, (sid, src)), now)
    else l.node.Some? && !Admits(l.node.value, Lookup(l.buckets, src), now)
  }

  /** One bucket is charged: the service's own for this source, else the node's. */
  ghost function Charged(l: Limits, sid: nat, src: Addr, now: nat): Limits {
    if sid in l.services then
      l.(serviceBuckets := l.serviceBuckets[(sid, src) := Left(l.services[sid], Lookup(l.serviceBuckets, (sid, src)),
        now)])
    else if l.node.Some? then
      l.(buckets := l.buckets[src := Left(l.node.value, Lookup(l.buckets, src), now)])
    else
      l
  }

  // ---- A packet with a transport header.

  function ServiceFor(k: Kernel, p: Segment): Option<nat>
  {
    ServiceOf(k.maps.vip, k.maps.ranges, p.ip.dst, p.dport, p.proto)
  }

  function HashFor(h: Hashes, cfg: ServiceConfig, p: Segment): nat
  {
    if cfg.affinity == AffinityClientIP then h.source(p.ip.src) else h.flow(FlowOf(p))
  }

  /** The backend an established flow goes on using. */
  function Usable(k: Kernel, f: Flow): Option<nat> {
    if f in k.affinity && Alive(k.maps, k.affinity[f]) then Some(k.affinity[f]) else None
  }

  /** What port the backend is reached on: a range keeps the client's. */
  function TargetFor(cfg: ServiceConfig, ep: Endpoint, port: Word): Endpoint {
    if cfg.range then Endpoint(ep.addr, port) else ep
  }

  function Served(k: Kernel, sid: nat): bool {
    sid < |k.maps.svc| && k.maps.svc[sid].count != 0 && k.maps.svc[sid].size != 0
  }

  /** The flow's own backend, else the first healthy one Maglev offers. */
  function Choose(h: Hashes, k: Kernel, p: Segment, sid: nat): Option<nat>
    requires Served(k, sid)
  {
    var cfg := k.maps.svc[sid];
    if Usable(k, FlowOf(p)).Some? then Usable(k, FlowOf(p))
    else PickFrom(k.maps, cfg.offset, cfg.size, HashFor(h, cfg, p) % cfg.size, 0)
  }

  /** The state once the packet of service sid has been sent to backend bid at ep. */
  ghost function Recorded(k: Kernel, p: Segment, sid: nat, bid: nat, ep: Endpoint): Kernel
    requires sid < |k.maps.svc|
  {
    var cfg := k.maps.svc[sid];
    var k1 := if p.frag.Some? then k.(frags := k.frags[FragKey(p.ip.src, p.ip.dst, p.frag.value,
        p.proto) := FragVal(bid, sid)]) else k;
    if cfg.mode == NAT then
      k1.(reverse := k1.reverse[ReverseKey(TargetFor(cfg, ep, p.dport), Endpoint(p.ip.src, p.sport),
        p.proto) := Endpoint(p.ip.dst, p.dport)])
    else k1
  }

  ghost function Balance(h: Hashes, k: Kernel, p: Segment, sid: nat): Outcome
  {
    if !Served(k, sid) then Outcome(k, Pass, None)
    else
      match Choose(h, k, p, sid)
      case None => Outcome(k, Drop, None)
      case Some(bid) =>
        var k1 := k.(affinity := k.affinity[FlowOf(p) := bid]);
        match BackendFor(k.maps, bid, p.ip.dst)
        case None => Outcome(k1, Pass, None)
        case Some(ep) =>
          Outcome(Recorded(k1, p, sid, bid, ep), if k.maps.svc[sid].mode == NAT then Pass
            else Forward(k.maps.svc[sid].mode, ep), Some(bid))
  }

  ghost function Arrive(h: Hashes, k: Kernel, p: Segment, now: nat): Outcome
  {
    match ServiceFor(k, p)
    case None => Outcome(k, Pass, None)
    case Some(sid) =>
      if p.syn && Exceeded(k.limits, sid, p.ip.src,
          now) then Outcome(k.(limits := Charged(k.limits, sid, p.ip.src, now)), Drop, None)
      else if p.syn then Balance(h, k.(limits := Charged(k.limits, sid, p.ip.src, now)), p, sid)
      else Balance(h, k, p, sid)
  }

  /** How the packet leaves: rewritten exactly when it was sent to a backend of a NAT service. */
  ghost predicate ArriveOut(h: Hashes, k: Kernel, p: Segment, now: nat, out: Segment)
  {
    var o := Arrive(h, k, p, now);
    if o.sent.Some? && o.verdict == Pass
    then
      && ServiceFor(k, p).Some? && ServiceFor(k, p).value < |k.maps.svc| && o.sent.value in k.maps.backend
      && Redirected(p, out, TargetFor(k.maps.svc[ServiceFor(k, p).value], k.maps.backend[o.sent.value], p.dport))
    else out == p
  }

  // ---- A later fragment follows the first.

  ghost function Follow(k: Kernel, p: Piece): Outcome
  {
    var fk := FragKey(p.ip.src, p.ip.dst, p.id, p.proto);
    if fk !in k.frags || k.frags[fk].sid >= |k.maps.svc| then Outcome(k, Pass, None)
    else
      var bid, mode := k.frags[fk].bid, k.maps.svc[k.frags[fk].sid].mode;
      if !Alive(k.maps, bid) then Outcome(k, Drop, None)
      else
        match BackendFor(k.maps, bid, p.ip.dst)
        case None => Outcome(k, Pass, None)
        case Some(ep) => Outcome(k, if mode == NAT then Pass else Forward(mode, ep), Some(bid))
  }

  ghost predicate FollowOut(k: Kernel, p: Piece, out: Piece)
  {
    var o := Follow(k, p);
    if o.sent.Some? && o.verdict == Pass
    then
      && o.sent.value in k.maps.backend
      && out == p.(ip := p.ip.(dst := k.maps.backend[o.sent.value].addr, csum := out.ip.csum)) && IpKept(p.ip, out.ip)
    else out == p
  }

  // ---- An ICMP error about a reply goes to the backend that sent it.

  ghost function Report(k: Kernel, p: IcmpError): Outcome
  {
    var q := p.quoted;
    var f := QuotedFlow(q);
    match ServiceOf(k.maps.vip, k.maps.ranges, q.ip.src, q.sport, q.proto)
    case None => Outcome(k, Pass, None)
    case Some(sid) =>
      if q.ip.src != p.ip.dst || sid >= |k.maps.svc| || Usable(k, f).None? then Outcome(k, Pass, None)
      else
        match BackendFor(k.maps, k.affinity[f], p.ip.dst)
        case None => Outcome(k, Pass, None)
        case Some(ep) =>
          Outcome(k, if k.maps.svc[sid].mode == NAT then Pass
            else Forward(k.maps.svc[sid].mode, ep), Some(k.affinity[f]))
  }

  /** out is the error p sent to ep instead, about a packet sent from ep: every checksum is as
      right as it was. */
  ghost predicate Reported(p: IcmpError, out: IcmpError, ep: Endpoint)
  {
    && out == p.(ip := p.ip.(dst := ep.addr, csum := out.ip.csum), csum := out.csum,
                 quoted := p.quoted.(ip := p.quoted.ip.(src := ep.addr, csum := out.quoted.ip.csum), sport := ep.port))
    && IpKept(p.ip, out.ip) && IpKept(p.quoted.ip, out.quoted.ip)
    && Congruent(Sum(IcmpWords(out)), Sum(IcmpWords(p)))
  }

  ghost predicate ReportOut(k: Kernel, p: IcmpError, out: IcmpError)
  {
    var o := Report(k, p);
    var sid := ServiceOf(k.maps.vip, k.maps.ranges, p.quoted.ip.src, p.quoted.sport, p.quoted.proto);
    if o.sent.Some? && o.verdict == Pass
    then
      && sid.Some? && sid.value < |k.maps.svc| && o.sent.value in k.maps.backend
      && Reported(p, out, TargetFor(k.maps.svc[sid.value], k.maps.backend[o.sent.value], p.quoted.sport))
    else out == p
  }

  // ---- Egress: a backend's reply.

  function ReplyKey(p: Segment): ReverseKey
  {
    ReverseKey(Endpoint(p.ip.src, p.sport), Endpoint(p.ip.dst, p.dport), p.proto)
  }

  ghost function Reply(k: Kernel, p: Segment): Kernel
  {
    if ReplyKey(p) in k.reverse && p.frag.Some?
    then k.(fragRevs := k.fragRevs[FragKey(p.ip.src, p.ip.dst, p.frag.value, p.proto) := k.reverse[ReplyKey(p)].addr])
      else k
  }

  ghost predicate ReplyOut(k: Kernel, p: Segment, out: Segment)
  {
    if ReplyKey(p) in k.reverse then Resourced(p, out, k.reverse[ReplyKey(p)]) else out == p
  }

  ghost predicate ReplyFragmentOut(k: Kernel, p: Piece, out: Piece)
  {
    var fk := FragKey(p.ip.src, p.ip.dst, p.id, p.proto);
    if fk in k.fragRevs
    then out == p.(ip := p.ip.(src := k.fragRevs[fk], csum := out.ip.csum)) && IpKept(p.ip, out.ip)
    else out == p
  }
}
