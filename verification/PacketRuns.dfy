/** Whole runs of the packet programs, interleaved with map writes by the control plane and with
    the evictions an LRU map may make at any time. */
module PacketRuns {
  import opened Common
  import opened Types
  import opened VipLookup
  import opened BpfMaps
  import opened Checksum
  import opened TokenBucket
  import opened PacketPath
  import opened PacketPrograms
  import DataplaneState
  import ControlRuns

  datatype Event =
    | Receive(p: Packet, now: nat)
    | Send(p: Packet)
    | Publish(maps: Maps)
    | Evict

  datatype Effect = Effect(verdict: Verdict, out: Packet, sent: Option<nat>)

  ghost predicate Shrunk<K, V>(m: map<K, V>, m': map<K, V>) {
    forall key :: key in m' ==> key in m && m'[key] == m[key]
  }

  ghost predicate Evicted(k: Kernel, k': Kernel) {
    && k'.maps == k.maps && Shrunk(k.affinity, k'.affinity) && Shrunk(k.reverse, k'.reverse)
    && Shrunk(k.frags, k'.frags) && Shrunk(k.fragRevs, k'.fragRevs)
    && k'.limits == k.limits.(buckets := k'.limits.buckets, serviceBuckets := k'.limits.serviceBuckets)
    && Shrunk(k.limits.buckets, k'.limits.buckets) && Shrunk(k.limits.serviceBuckets, k'.limits.serviceBuckets)
  }

  ghost predicate Step(h: Hashes, k: Kernel, e: Event, k': Kernel, fx: Effect) {
    match e
    case Receive(p, now) => IngressStep(h, k, p, now, Outcome(k', fx.verdict, fx.sent), fx.out)
    case Send(p) => EgressStep(k, p, k', fx.out) && fx.sent.None?
    case Publish(m) => k' == k.(maps := m) && fx.sent.None?
    case Evict => Evicted(k, k') && fx.sent.None?
  }

  datatype Run = Run(ks: seq<Kernel>, es: seq<Event>, fxs: seq<Effect>) {
    ghost predicate Steps(h: Hashes, i: nat)
    {
      i < |es| && i + 1 < |ks| && i < |fxs| && Step(h, ks[i], es[i], ks[i + 1], fxs[i])
    }

    ghost predicate Valid(h: Hashes) {
      |ks| == |es| + 1 && |fxs| == |es| && forall i: nat :: i < |es| ==> Steps(h, i)
    }
  }

  // ---- New flows stay with their VIP.

  /** A packet without a usable affinity entry gets exactly what SelectNew offers. */
  lemma NewFlowIsSelected(h: Hashes, k: Kernel, s: Segment, now: nat)
    requires Usable(k, FlowOf(s)).None?
    ensures var o := Arrive(h, k, s, now);
            o.sent.Some? ==>
              && ServiceFor(k, s).Some? && ServiceFor(k, s).value < |k.maps.svc|
              && SelectNew(k.maps, s.ip.dst, s.dport, s.proto,
                  HashFor(h, k.maps.svc[ServiceFor(k, s).value], s)).Chosen?
              && SelectNew(k.maps, s.ip.dst, s.dport, s.proto,
                  HashFor(h, k.maps.svc[ServiceFor(k, s).value], s)).bid == o.sent.value
  {
    hide ServiceOf, PickFrom, Charged, Exceeded;
  }

  /** Whenever the published maps are confined, a new flow reaches only a healthy backend of the
      VIP it is matched to. */
  lemma NewFlowConfined(h: Hashes, k: Kernel, s: Segment, now: nat, allowed: map<VipId, set<Endpoint>>)
    requires Confined(k.maps, allowed) && Usable(k, FlowOf(s)).None?
    ensures var o := Arrive(h, k, s, now);
            o.sent.Some? ==>
              && Alive(k.maps, o.sent.value) && k.maps.health[o.sent.value] == Healthy && o.sent.value in k.maps.backend
              && exists v :: Routes(k.maps, allowed, s.ip.dst, s.dport, s.proto,
                  v) && k.maps.backend[o.sent.value] in allowed[v]
  {
    hide Confined, SelectNew, Arrive, Routes;
    NewFlowIsSelected(h, k, s, now);
    var o := Arrive(h, k, s, now);
    if o.sent.Some? {
      ConfinedPacket(k.maps, allowed, s.ip.dst, s.dport, s.proto, HashFor(h, k.maps.svc[ServiceFor(k, s).value], s));
    }
  }

  /** Between any two map writes of any run of control-plane operations, a new flow is dropped,
      passed, or sent to a healthy backend that its VIP has before the operation under way or is to
      have after it. Its VIP is the exact one if that is configured before and after, and of ranges
      the one that is; around an operation on one VIP it is the packet's VIP before or after. */
  lemma NewFlowAtAnyMoment(log: seq<Maps>, marks: seq<nat>, c: ControlRuns.Config, ops: seq<ControlRuns.Op>, n: nat,
      i: nat, j: nat, h: Hashes, k: Kernel, s: Segment, now: nat)
    requires ControlRuns.Steps(log, marks, c, ops, n) && i < n && marks[i] <= j < marks[i + 1]
    requires Compatible(c.Keys) && ControlRuns.Legal(c, ops)
    requires j < |log| && k.maps == log[j] && Usable(k, FlowOf(s)).None?
    ensures var o, c0, c1 := Arrive(h, k, s, now), ControlRuns.At(c, ops, i), ControlRuns.At(c, ops, i + 1);
            o.sent.Some? ==>
              && Alive(k.maps, o.sent.value) && k.maps.health[o.sent.value] == Healthy && o.sent.value in k.maps.backend
              && exists v :: ControlRuns.Meanwhile(c0, c1, s.ip.dst, s.dport, s.proto, v)
                             && k.maps.backend[o.sent.value] in ControlRuns.Scope(c0, c1)[v]
                             && (!ops[i].Reloading? ==> ControlRuns.Owner(c0, s.ip.dst, s.dport, s.proto, v)
                                                        || ControlRuns.Owner(c1, s.ip.dst, s.dport, s.proto, v))
  {
    hide Confined, Arrive, ControlRuns.Between, ControlRuns.At, Compatible, ControlRuns.Scope, ControlRuns.Meanwhile,
      ControlRuns.Owner, ControlRuns.Next;
    var c0, c1 := ControlRuns.At(c, ops, i), ControlRuns.At(c, ops, i + 1);
    var allowed := ControlRuns.Scope(c0, c1);
    assert ControlRuns.AllBetween(log, marks[i], marks[i + 1], c0, c1);
    assert Confined(k.maps, allowed) by { BetweenConfined(k.maps, c0, c1); }
    NewFlowConfined(h, k, s, now, allowed);
    LegalAt(c, ops, i);
    var o := Arrive(h, k, s, now);
    if o.sent.Some? {
      var v :| Routes(k.maps, allowed, s.ip.dst, s.dport, s.proto, v) && k.maps.backend[o.sent.value] in allowed[v];
      ControlRuns.BetweenRoutes(k.maps, c0, c1, s.ip.dst, s.dport, s.proto, v);
      if !ops[i].Reloading? {
        ControlRuns.AtNext(c, ops, i);
        var u := ControlRuns.DifferInOne(c0, ops[i]);
        ControlRuns.OwnerBeforeOrAfter(c0, c1, u, s.ip.dst, s.dport, s.proto, v);
      }
    }
  }

  lemma BetweenConfined(m: Maps, c: ControlRuns.Config, c': ControlRuns.Config)
    requires ControlRuns.Between(m, c, c')
    ensures Confined(m, ControlRuns.Scope(c, c'))
  {
    hide Confined, ControlRuns.Scope;
  }

  lemma LegalAt(c: ControlRuns.Config, ops: seq<ControlRuns.Op>, i: nat)
    requires Compatible(c.Keys) && ControlRuns.Legal(c, ops) && i < |ops|
    ensures Compatible(ControlRuns.At(c, ops, i).Keys) && Compatible(ControlRuns.At(c, ops, i + 1).Keys)
  {
    hide Compatible, ControlRuns.Next;
    assert ops[..0] == [];
  }

  // ---- Stickiness.

  ghost predicate OfFlow(e: Event, f: Flow) {
    e.Receive? && e.p.Whole? && FlowOf(e.p.seg) == f
  }

  ghost predicate AboutFlow(e: Event, f: Flow) {
    e.Receive? && e.p.Error? && QuotedFlow(e.p.icmp.quoted) == f
  }

  /** A step leaves the entry of a flow with a living backend as it is, or evicts it. */
  lemma StickyStep(h: Hashes, k: Kernel, e: Event, k': Kernel, fx: Effect, f: Flow, bid: nat)
    requires Step(h, k, e, k', fx) && f in k.affinity && k.affinity[f] == bid && Alive(k.maps, bid)
    ensures f in k'.affinity ==> k'.affinity[f] == bid
    ensures OfFlow(e, f) || AboutFlow(e, f) ==> fx.sent == None || fx.sent == Some(bid)
    ensures && OfFlow(e, f) && ServiceFor(k, e.p.seg).Some? && Served(k, ServiceFor(k, e.p.seg).value)
            && BackendFor(k.maps, bid, e.p.seg.ip.dst).Some?
            && !(e.p.seg.syn && Exceeded(k.limits, ServiceFor(k, e.p.seg).value, e.p.seg.ip.src, e.now))
            ==> fx.sent == Some(bid)
  {
    hide ServiceFor, Served, Exceeded, Arrive, ArriveOut, FollowOut, ReportOut, ReplyOut, ReplyFragmentOut, BackendFor,
      ServiceOf, Alive;
    if e.Receive? && e.p.Whole? {
      ArriveSticky(h, k, e.p.seg, e.now, f, bid);
    }
    assert Usable(k, f) == Some(bid);
  }

  lemma ArriveSticky(h: Hashes, k: Kernel, s: Segment, now: nat, f: Flow, bid: nat)
    requires f in k.affinity && k.affinity[f] == bid && Alive(k.maps, bid)
    ensures var o, sid := Arrive(h, k, s, now), ServiceFor(k, s);
            && f in o.k.affinity && o.k.affinity[f] == bid
            && (FlowOf(s) == f ==> o.sent == None || o.sent == Some(bid))
    ensures var o, sid := Arrive(h, k, s, now), ServiceFor(k, s);
            FlowOf(s) == f && sid.Some? && Served(k, sid.value) && BackendFor(k.maps, bid, s.ip.dst).Some?
              && !(s.syn && Exceeded(k.limits, sid.value, s.ip.src, now))
            ==> o.sent == Some(bid)
  {
    hide PickFrom, Charged, Exceeded, ServiceFor, BackendFor, Balance;
    var sid := ServiceFor(k, s);
    if sid.Some? {
      BalanceSticky(h, k, s, sid.value, f, bid);
      BalanceSticky(h, k.(limits := Charged(k.limits, sid.value, s.ip.src, now)), s, sid.value, f, bid);
    }
  }

  lemma BalanceSticky(h: Hashes, k: Kernel, s: Segment, sid: nat, f: Flow, bid: nat)
    requires f in k.affinity && k.affinity[f] == bid && Alive(k.maps, bid)
    ensures var o := Balance(h, k, s, sid);
            && f in o.k.affinity && o.k.affinity[f] == bid
            && (FlowOf(s) == f ==> o.sent == None || o.sent == Some(bid))
            && (FlowOf(s) == f && Served(k, sid) && BackendFor(k.maps, bid, s.ip.dst).Some? ==> o.sent == Some(bid))
  {
    hide PickFrom, BackendFor;
  }

  /** While a flow's entry survives and its backend is not down, no packet of that flow, and no
      ICMP error about it, goes to any other backend, whatever the control plane publishes
      meanwhile: rebuilt tables, new weights, drains, even another mode. */
  lemma {:induction false} Sticky(h: Hashes, run: Run, f: Flow, bid: nat, n: nat)
    requires run.Valid(h) && n <= |run.es| && f in run.ks[0].affinity && run.ks[0].affinity[f] == bid
    requires forall i :: 0 <= i <= n ==> f in run.ks[i].affinity && Alive(run.ks[i].maps, bid)
    ensures run.ks[n].affinity[f] == bid
    ensures forall i :: 0 <= i < n && (OfFlow(run.es[i], f) || AboutFlow(run.es[i], f)) ==>
        run.fxs[i].sent == None || run.fxs[i].sent == Some(bid)
  {
    hide Step, OfFlow, AboutFlow, Alive;
    if n > 0 {
      Sticky(h, run, f, bid, n - 1);
      assert run.Steps(h, n - 1);
      StickyStep(h, run.ks[n - 1], run.es[n - 1], run.ks[n], run.fxs[n - 1], f, bid);
    }
  }

  /** While the control plane runs, and some VIP goes on listing the backend, the ID the flow sticks
      to means that backend, so all packets of the flow that are sent anywhere are sent to it. */
  lemma StickyToBackend(h: Hashes, run: Run, f: Flow, bid: nat, n: nat, log: seq<Maps>, from: nat, ep: Endpoint)
    requires run.Valid(h) && n <= |run.es| && f in run.ks[0].affinity && run.ks[0].affinity[f] == bid
    requires forall i :: 0 <= i <= n ==> f in run.ks[i].affinity && Alive(run.ks[i].maps, bid)
    requires ControlRuns.AllMean(log, from, bid, ep)
    requires forall i :: 0 <= i < n ==> SnapshotOf(log, from, run.ks[i].maps)
    ensures forall i :: 0 <= i < n && (OfFlow(run.es[i], f) || AboutFlow(run.es[i], f)) && run.fxs[i].sent.Some? ==>
              ControlRuns.Means(run.ks[i].maps, run.fxs[i].sent.value, ep)
  {
    hide Step, OfFlow, AboutFlow, Alive, ControlRuns.Means, SnapshotOf;
    Sticky(h, run, f, bid, n);
    forall i | 0 <= i < n
      ensures ControlRuns.Means(run.ks[i].maps, bid, ep)
    {
      SnapshotMeans(log, from, run.ks[i].maps, bid, ep);
    }
  }

  ghost predicate SnapshotOf(log: seq<Maps>, from: nat, m: Maps) {
    exists j :: from <= j < |log| && log[j] == m
  }

  lemma SnapshotMeans(log: seq<Maps>, from: nat, m: Maps, bid: nat, ep: Endpoint)
    requires SnapshotOf(log, from, m) && ControlRuns.AllMean(log, from, bid, ep)
    ensures ControlRuns.Means(m, bid, ep)
  {
  }

  /** While the control plane runs, some VIP goes on listing the backend and no probe of it fails, a
      flow whose entry survives goes on using it in every state, whatever drains are set or lifted,
      and no packet of the flow goes anywhere else. */
  lemma StaysUsable(h: Hashes, run: Run, f: Flow, bid: nat, n: nat, log: seq<Maps>, marks: seq<nat>,
      st: DataplaneState.BackendState, ops: seq<ControlRuns.Op>, ep: Endpoint)
    requires run.Valid(h) && n <= |run.es| && f in run.ks[0].affinity && run.ks[0].affinity[f] == bid
    requires ControlRuns.HealthSteps(log, marks, st, bid, ops, |ops|) && marks[|ops|] == |log|
    requires ControlRuns.AllMean(log, marks[0], bid, ep)
    requires st.probeHealthy && ControlRuns.Probed(bid, false) !in ops
    requires forall i :: 0 <= i <= n ==> f in run.ks[i].affinity && SnapshotOf(log, marks[0], run.ks[i].maps)
    ensures forall i :: 0 <= i <= n ==> Usable(run.ks[i], f) == Some(bid)
    ensures forall i :: 0 <= i < n && (OfFlow(run.es[i], f) || AboutFlow(run.es[i], f)) && run.fxs[i].sent.Some? ==>
              run.fxs[i].sent == Some(bid) && ControlRuns.Means(run.ks[i].maps, bid, ep)
  {
    hide Step, OfFlow, AboutFlow, ControlRuns.Means, SnapshotOf, ControlRuns.AllDuring, ControlRuns.AllMean;
    ControlRuns.ProbesDecide(log, marks, st, bid, ops);
    forall i | 0 <= i <= n
      ensures Alive(run.ks[i].maps, bid) && ControlRuns.Means(run.ks[i].maps, bid, ep)
    {
      SnapshotUp(log, marks[0], run.ks[i].maps, bid);
      SnapshotMeans(log, marks[0], run.ks[i].maps, bid, ep);
    }
    hide Alive;
    forall i: nat | i <= n
      ensures run.ks[i].affinity[f] == bid
    {
      Sticky(h, run, f, bid, i);
    }
    Sticky(h, run, f, bid, n);
  }

  lemma SnapshotUp(log: seq<Maps>, from: nat, m: Maps, bid: nat)
    requires SnapshotOf(log, from, m) && ControlRuns.AllUp(log, from, bid)
    ensures Alive(m, bid)
  {
  }

  lemma SnapshotDown(log: seq<Maps>, from: nat, m: Maps, bid: nat)
    requires SnapshotOf(log, from, m) && ControlRuns.AllDown(log, from, bid)
    ensures !Alive(m, bid)
  {
  }

  /** Nothing goes to a backend that is down: no packet of any flow, no fragment and no error. */
  lemma DownGetsNothing(h: Hashes, k: Kernel, e: Event, k': Kernel, fx: Effect, bid: nat)
    requires Step(h, k, e, k', fx) && !Alive(k.maps, bid)
    ensures fx.sent != Some(bid)
  {
    hide ServiceFor, ServiceOf, Served, Exceeded, Charged, ArriveOut, FollowOut, ReportOut, ReplyOut, ReplyFragmentOut,
      BackendFor, PickFrom;
  }

  /** A failed probe ends it: until one succeeds, whatever else the control plane does, no flow uses
      the backend and nothing is sent to it. */
  lemma FailedProbeEnds(h: Hashes, run: Run, i: nat, f: Flow, bid: nat, log: seq<Maps>, marks: seq<nat>,
      st: DataplaneState.BackendState, ops: seq<ControlRuns.Op>)
    requires ControlRuns.HealthSteps(log, marks, st, bid, ops, |ops|) && marks[|ops|] == |log|
    requires run.Valid(h) && i < |run.es| && SnapshotOf(log, marks[0], run.ks[i].maps)
    requires !st.probeHealthy && ControlRuns.Probed(bid, true) !in ops
    ensures Usable(run.ks[i], f) != Some(bid) && run.fxs[i].sent != Some(bid)
  {
    ControlRuns.ProbesDecide(log, marks, st, bid, ops);
    hide Step, SnapshotOf, ControlRuns.AllDuring, ControlRuns.AllDown;
    SnapshotDown(log, marks[0], run.ks[i].maps, bid);
    assert run.Steps(h, i);
    DownGetsNothing(h, run.ks[i], run.es[i], run.ks[i + 1], run.fxs[i], bid);
  }

  // ---- The full-NAT round trip.

  /** The packet was rewritten to a backend of a NAT service. */
  ghost predicate Natted(e: Event, fx: Effect) {
    e.Receive? && e.p.Whole? && fx.sent.Some? && fx.verdict == Pass && fx.out.Whole?
  }

  /** The reply to a segment as the backend got it. */
  ghost predicate Answers(reply: Segment, got: Segment) {
    reply.ip.src == got.ip.dst && reply.sport == got.dport && reply.ip.dst == got.ip.src && reply.dport == got.sport
      && reply.proto == got.proto
  }

  ghost predicate WritesReverse(e: Event, fx: Effect, key: ReverseKey) {
    Natted(e, fx) && ReverseKey(Endpoint(fx.out.seg.ip.dst, fx.out.seg.dport),
      Endpoint(fx.out.seg.ip.src, fx.out.seg.sport), fx.out.seg.proto) == key
  }

  /** The VIP address and port the client used. */
  ghost function Used(e: Event): Endpoint
    requires e.Receive? && e.p.Whole?
  {
    Endpoint(e.p.seg.ip.dst, e.p.seg.dport)
  }

  lemma NatWrites(h: Hashes, k: Kernel, e: Event, k': Kernel, fx: Effect)
    requires Step(h, k, e, k', fx) && Natted(e, fx)
    ensures var s, o := e.p.seg, fx.out.seg; var key := ReverseKey(Endpoint(o.ip.dst, o.dport),
        Endpoint(o.ip.src, o.sport), o.proto);
            && o.ip.src == s.ip.src && o.sport == s.sport && o.proto == s.proto && ChecksumsKept(s, o)
            && k'.reverse == k.reverse[key := Used(e)]
  {
    hide ServiceOf, PickFrom, Charged, Exceeded, ChecksumsKept, Choose;
  }

  lemma OthersKeepReverse(h: Hashes, k: Kernel, e: Event, k': Kernel, fx: Effect)
    requires Step(h, k, e, k', fx) && !Natted(e, fx)
    ensures Shrunk(k.reverse, k'.reverse)
  {
    hide ServiceOf, PickFrom, Charged, Exceeded, Redirected, Resourced, IpKept, Choose;
  }

  /** A surviving reverse entry changes only when a packet is rewritten to that backend for that
      client, and then to the VIP that packet used. */
  lemma ReverseStep(h: Hashes, k: Kernel, e: Event, k': Kernel, fx: Effect, key: ReverseKey)
    requires Step(h, k, e, k', fx) && key in k'.reverse
    ensures WritesReverse(e, fx, key) ==> k'.reverse[key] == Used(e)
    ensures !WritesReverse(e, fx, key) ==> key in k.reverse && k'.reverse[key] == k.reverse[key]
  {
    hide Step;
    if Natted(e, fx) {
      NatWrites(h, k, e, k', fx);
    } else {
      OthersKeepReverse(h, k, e, k', fx);
    }
  }

  /** The entry survives from after step i up to step j, and nobody rewrites it through another VIP
      address or port. */
  ghost predicate ReverseHeld(run: Run, i: nat, j: nat, key: ReverseKey)
    requires i < j <= |run.es| && |run.ks| == |run.es| + 1 && |run.fxs| == |run.es| && run.es[i].Receive?
        && run.es[i].p.Whole?
  {
    && (forall m :: i < m <= j ==> key in run.ks[m].reverse)
    && (forall m :: i < m < j && WritesReverse(run.es[m], run.fxs[m], key) ==> Used(run.es[m]) == Used(run.es[i]))
  }

  lemma {:induction false} ReverseStays(h: Hashes, run: Run, i: nat, j: nat, key: ReverseKey)
    requires run.Valid(h) && i < j <= |run.es| && WritesReverse(run.es[i], run.fxs[i], key)
        && ReverseHeld(run, i, j, key)
    ensures run.ks[j].reverse[key] == Used(run.es[i])
    decreases j
  {
    hide Step, WritesReverse;
    assert run.Steps(h, j - 1);
    ReverseStep(h, run.ks[j - 1], run.es[j - 1], run.ks[j], run.fxs[j - 1], key);
    if j - 1 > i {
      ReverseStays(h, run, i, j - 1, key);
    }
  }

  /** The reply to a rewritten packet leaves with exactly the address and port the client used, and
      both ways every checksum is as right as it was, in either family, for single ports and
      ranges, however the backend set, affinity and Maglev tables change in between. */
  lemma NatRoundTrip(h: Hashes, run: Run, i: nat, j: nat, reply: Segment)
    requires run.Valid(h) && i < j < |run.es| && Natted(run.es[i], run.fxs[i])
    requires run.es[j] == Send(Whole(reply)) && Answers(reply, run.fxs[i].out.seg)
        && ReverseHeld(run, i, j, ReplyKey(reply))
    ensures run.fxs[j].out.Whole?
    ensures var asked, got, answer := run.es[i].p.seg, run.fxs[i].out.seg, run.fxs[j].out.seg;
            && Answers(answer, asked) && answer == reply.(ip := reply.ip.(src := asked.ip.dst, csum := answer.ip.csum),
                sport := asked.dport, csum := answer.csum)
            && ChecksumsKept(asked, got) && ChecksumsKept(reply, answer)
  {
    assert run.Steps(h, i);
    assert run.Steps(h, j);
    NatWrites(h, run.ks[i], run.es[i], run.ks[i + 1], run.fxs[i]);
    assert WritesReverse(run.es[i], run.fxs[i], ReplyKey(reply));
    ReverseStays(h, run, i, j, ReplyKey(reply));
    hide IngressStep, ChecksumsKept, ReverseHeld, WritesReverse;
  }

  // ---- Fragments of a request.

  function KeyOfPiece(f: Piece): FragKey {
    FragKey(f.ip.src, f.ip.dst, f.id, f.proto)
  }

  ghost predicate FirstFragment(s: Segment, key: FragKey) {
    s.frag.Some? && FragKey(s.ip.src, s.ip.dst, s.frag.value, s.proto) == key
  }

  /** A first fragment with this key is sent to a backend. */
  ghost predicate WritesFrag(e: Event, fx: Effect, key: FragKey) {
    e.Receive? && e.p.Whole? && FirstFragment(e.p.seg, key) && fx.sent.Some?
  }

  lemma FragStep(h: Hashes, k: Kernel, e: Event, k': Kernel, fx: Effect, key: FragKey)
    requires Step(h, k, e, k', fx) && key in k'.frags
    ensures if WritesFrag(e, fx, key) then ServiceFor(k, e.p.seg).Some? && k'.frags[key] == FragVal(fx.sent.value,
        ServiceFor(k, e.p.seg).value)
            else key in k.frags && k'.frags[key] == k.frags[key]
  {
    hide ServiceOf, PickFrom, Redirected, Resourced, IpKept, ArriveOut, Arrive, ServiceFor;
    if e.Receive? && e.p.Whole? {
      ArriveFrags(h, k, e.p.seg, e.now);
    }
  }

  /** What a segment does to the fragment table. */
  lemma ArriveFrags(h: Hashes, k: Kernel, s: Segment, now: nat)
    ensures var o, sid := Arrive(h, k, s, now), ServiceFor(k, s);
            if o.sent.Some? && s.frag.Some? then
              sid.Some? && o.k.frags == k.frags[FragKey(s.ip.src, s.ip.dst, s.frag.value,
                s.proto) := FragVal(o.sent.value, sid.value)]
            else o.k.frags == k.frags
  {
    hide PickFrom, Charged, Exceeded, Choose, ServiceFor, BackendFor;
  }

  /** The entry survives from after step i up to step j, and no other datagram reuses it. */
  ghost predicate FragHeld(run: Run, i: nat, j: nat, key: FragKey)
    requires i < j <= |run.es| && |run.ks| == |run.es| + 1 && |run.fxs| == |run.es|
  {
    && (forall m :: i < m <= j ==> key in run.ks[m].frags)
    && (forall m :: i < m < j ==> !WritesFrag(run.es[m], run.fxs[m], key))
  }

  lemma {:induction false} FragStays(h: Hashes, run: Run, i: nat, j: nat, key: FragKey)
    requires run.Valid(h) && i < j <= |run.es| && WritesFrag(run.es[i], run.fxs[i], key) && FragHeld(run, i, j, key)
    ensures ServiceFor(run.ks[i], run.es[i].p.seg).Some?
    ensures run.ks[j].frags[key] == FragVal(run.fxs[i].sent.value, ServiceFor(run.ks[i], run.es[i].p.seg).value)
    decreases j
  {
    hide Step, WritesFrag, ServiceOf;
    assert run.Steps(h, j - 1);
    FragStep(h, run.ks[j - 1], run.es[j - 1], run.ks[j], run.fxs[j - 1], key);
    if j - 1 > i {
      FragStays(h, run, i, j - 1, key);
    }
  }

  /** What a first fragment's segment became. */
  lemma FirstFragmentSent(h: Hashes, k: Kernel, e: Event, k': Kernel, fx: Effect)
    requires Step(h, k, e, k', fx) && e.Receive? && e.p.Whole? && fx.sent.Some?
    ensures ServiceFor(k, e.p.seg).Some? && ServiceFor(k, e.p.seg).value < |k.maps.svc|
        && fx.sent.value in k.maps.backend
    ensures var mode, ep := k.maps.svc[ServiceFor(k, e.p.seg).value].mode, k.maps.backend[fx.sent.value];
            && fx.out.Whole?
            && (if mode == NAT then fx.verdict == Pass && fx.out.seg.ip.dst == ep.addr
                else fx.verdict == Forward(mode, ep) && fx.out == e.p)
  {
    hide ServiceOf, PickFrom, Charged, Exceeded, ChecksumsKept, Choose;
  }

  /** Once a first fragment is balanced, every later fragment of that datagram goes to the same
      backend as long as that is not down and still has its entry, even if the flow's affinity has
      moved on; it is dropped once the backend is down, and otherwise passed on untouched. And while
      the service keeps its mode and the backend its address, it leaves the same way, with the same
      destination. */
  lemma FragmentsFollow(h: Hashes, run: Run, i: nat, j: nat, f: Piece)
    requires run.Valid(h) && i < j < |run.es| && WritesFrag(run.es[i], run.fxs[i], KeyOfPiece(f))
    requires run.es[j].Receive? && run.es[j].p == Later(f) && FragHeld(run, i, j, KeyOfPiece(f))
    ensures ServiceFor(run.ks[i], run.es[i].p.seg).Some?
        && ServiceFor(run.ks[i], run.es[i].p.seg).value < |run.ks[i].maps.svc|
    ensures run.fxs[i].out.Whole?
    ensures var fx, bid := run.fxs[j], run.fxs[i].sent.value;
            && fx.out.Later?
            && (fx.sent == None || fx.sent == Some(bid)) && (fx.sent == None ==> fx.out == Later(f))
    ensures var fx, bid, m := run.fxs[j], run.fxs[i].sent.value, run.ks[j].maps;
            var sid := ServiceFor(run.ks[i], run.es[i].p.seg).value;
            && (fx.sent == Some(bid) <==> sid < |m.svc| && Alive(m, bid) && BackendFor(m, bid, f.ip.dst).Some?)
            && (fx.verdict == Drop <==> sid < |m.svc| && !Alive(m, bid))
    ensures var fx, bid := run.fxs[j], run.fxs[i].sent.value; var sid := ServiceFor(run.ks[i], run.es[i].p.seg).value;
            && bid in run.ks[i].maps.backend
            && (fx.sent == Some(bid) ==> sid < |run.ks[j].maps.svc| && bid in run.ks[j].maps.backend)
            && (fx.sent == Some(bid) && run.ks[j].maps.svc[sid].mode == run.ks[i].maps.svc[sid].mode
                && run.ks[j].maps.backend[bid] == run.ks[i].maps.backend[bid] ==>
                  fx.verdict == run.fxs[i].verdict && fx.out.piece.ip.dst == run.fxs[i].out.seg.ip.dst)
  {
    hide ServiceOf;
    assert run.Steps(h, i);
    assert run.Steps(h, j);
    FragStays(h, run, i, j, KeyOfPiece(f));
    FirstFragmentSent(h, run.ks[i], run.es[i], run.ks[i + 1], run.fxs[i]);
    hide FragHeld, WritesFrag, IpKept, ArriveOut, Arrive;
  }

  // ---- Fragments of a reply.

  ghost predicate WritesFragRev(k: Kernel, e: Event, key: FragKey) {
    e.Send? && e.p.Whole? && FirstFragment(e.p.seg, key) && ReplyKey(e.p.seg) in k.reverse
  }

  lemma FragRevStep(h: Hashes, k: Kernel, e: Event, k': Kernel, fx: Effect, key: FragKey)
    requires Step(h, k, e, k', fx) && key in k'.fragRevs
    ensures if WritesFragRev(k, e, key) then fx.out.Whole? && k'.fragRevs[key] == fx.out.seg.ip.src
            else key in k.fragRevs && k'.fragRevs[key] == k.fragRevs[key]
  {
    hide ServiceOf, PickFrom, Charged, Exceeded, Redirected, ChecksumsKept, IpKept, Choose, ArriveOut;
  }

  ghost predicate FragRevHeld(run: Run, i: nat, j: nat, key: FragKey)
    requires i < j <= |run.es| && |run.ks| == |run.es| + 1
  {
    && (forall m :: i < m <= j ==> key in run.ks[m].fragRevs)
    && (forall m :: i < m < j ==> !WritesFragRev(run.ks[m], run.es[m], key))
  }

  lemma {:induction false} FragRevStays(h: Hashes, run: Run, i: nat, j: nat, key: FragKey)
    requires run.Valid(h) && i < j <= |run.es| && WritesFragRev(run.ks[i], run.es[i], key)
        && FragRevHeld(run, i, j, key)
    ensures run.fxs[i].out.Whole? && run.ks[j].fragRevs[key] == run.fxs[i].out.seg.ip.src
    decreases j
  {
    hide Step, WritesFragRev;
    assert run.Steps(h, j - 1);
    FragRevStep(h, run.ks[j - 1], run.es[j - 1], run.ks[j], run.fxs[j - 1], key);
    if j - 1 > i {
      FragRevStays(h, run, i, j - 1, key);
    }
  }

  /** Every later fragment of a reply leaves with the VIP source its first fragment left with. */
  lemma ReplyFragmentsFollow(h: Hashes, run: Run, i: nat, j: nat, f: Piece)
    requires run.Valid(h) && i < j < |run.es| && WritesFragRev(run.ks[i], run.es[i], KeyOfPiece(f))
    requires run.es[j] == Send(Later(f)) && FragRevHeld(run, i, j, KeyOfPiece(f))
    ensures run.fxs[i].out.Whole? && run.fxs[j].out.Later?
    ensures var out := run.fxs[j].out.piece;
            out == f.(ip := f.ip.(src := run.fxs[i].out.seg.ip.src, csum := out.ip.csum)) && IpKept(f.ip, out.ip)
  {
    assert run.Steps(h, j);
    FragRevStays(h, run, i, j, KeyOfPiece(f));
    hide FragRevHeld, WritesFragRev, IpKept;
  }

  // ---- ICMP errors reach the backend that sent what they quote.

  /** The error quotes this segment, and came back to where the segment was sent from. */
  ghost predicate Quotes(e: IcmpError, s: Segment) {
    && e.ip.dst == s.ip.src && e.quoted.ip.src == s.ip.src && e.quoted.ip.dst == s.ip.dst
    && e.quoted.sport == s.sport && e.quoted.dport == s.dport && e.quoted.proto == s.proto
  }

  /** What the maps say about one service and one backend is the same. */
  ghost predicate SameFor(m: Maps, m': Maps, sid: nat, bid: nat) {
    && sid < |m.svc| && sid < |m'.svc| && m'.svc[sid] == m.svc[sid]
    && bid in m.backend && bid in m'.backend && m'.backend[bid] == m.backend[bid]
  }

  /** Where a rewritten segment went. */
  lemma NatTarget(h: Hashes, k: Kernel, e: Event, k': Kernel, fx: Effect)
    requires Step(h, k, e, k', fx) && Natted(e, fx)
    ensures ServiceFor(k, e.p.seg).Some? && ServiceFor(k, e.p.seg).value < |k.maps.svc|
        && fx.sent.value in k.maps.backend
    ensures var cfg := k.maps.svc[ServiceFor(k, e.p.seg).value];
            && cfg.mode == NAT && Endpoint(fx.out.seg.ip.dst, fx.out.seg.dport) == TargetFor(cfg,
                k.maps.backend[fx.sent.value], e.p.seg.dport)
            && SameFamily(k.maps.backend[fx.sent.value].addr, e.p.seg.ip.dst)
  {
    hide ServiceOf, PickFrom, Charged, Exceeded, ChecksumsKept, Choose;
  }

  /** A client's packet is rewritten to a backend, the backend replies, the reply leaves with the
      VIP for its source, and a router on the way back reports an error about it. While the flow's
      entry, the service and the backend are still what they were, the error reaches that backend
      about exactly the packet the backend sent: its own address and port, not the VIP's. */
  lemma ErrorReachesSender(h: Hashes, run: Run, i: nat, j: nat, n: nat, reply: Segment, e: IcmpError)
    requires run.Valid(h) && i < j < n < |run.es| && Natted(run.es[i], run.fxs[i])
    requires run.es[j] == Send(Whole(reply)) && Answers(reply, run.fxs[i].out.seg)
        && ReverseHeld(run, i, j, ReplyKey(reply))
    requires run.es[n].Receive? && run.es[n].p == Error(e) && run.fxs[j].out.Whole? && Quotes(e, run.fxs[j].out.seg)
    requires Usable(run.ks[n], FlowOf(run.es[i].p.seg)) == run.fxs[i].sent
    requires var sid := ServiceFor(run.ks[i], run.es[i].p.seg);
             && ServiceFor(run.ks[n], run.es[i].p.seg) == sid
             && (sid.Some? ==> SameFor(run.ks[i].maps, run.ks[n].maps, sid.value, run.fxs[i].sent.value))
    ensures run.fxs[n].sent == run.fxs[i].sent && run.fxs[n].out.Error?
    ensures var seen := run.fxs[n].out.icmp;
            && seen.ip.dst == reply.ip.src && Reported(e, seen, Endpoint(reply.ip.src, reply.sport))
            && Quotes(seen, reply)
  {
    hide ServiceOf, ReverseHeld;
    assert run.Steps(h, i);
    assert run.Steps(h, n);
    NatRoundTrip(h, run, i, j, reply);
    NatTarget(h, run.ks[i], run.es[i], run.ks[i + 1], run.fxs[i]);
    hide ChecksumsKept, Arrive, ArriveOut, Answers, Natted, Congruent, Sum, IpKept;
    QuotedFlowIs(run.es[i].p.seg, run.fxs[j].out.seg, e);
  }

  lemma QuotedFlowIs(asked: Segment, answer: Segment, e: IcmpError)
    requires Answers(answer, asked) && Quotes(e, answer)
    ensures QuotedFlow(e.quoted) == FlowOf(asked)
  {
  }

  /** An error is steered to a backend exactly if it was sent to the VIP address whose reply it quotes, and
      the flow it is about has a usable entry for a backend of its family; any other passes untouched. */
  lemma ErrorSentIff(h: Hashes, run: Run, i: nat, e: IcmpError, bid: nat)
    requires run.Valid(h) && i < |run.es| && run.es[i].Receive? && run.es[i].p == Error(e)
    ensures var k := run.ks[i];
            var sid := ServiceOf(k.maps.vip, k.maps.ranges, e.quoted.ip.src, e.quoted.sport, e.quoted.proto);
            run.fxs[i].sent == Some(bid) <==>
              && sid.Some? && sid.value < |k.maps.svc| && e.ip.dst == e.quoted.ip.src
              && Usable(k, QuotedFlow(e.quoted)) == Some(bid) && BackendFor(k.maps, bid, e.ip.dst).Some?
    ensures run.fxs[i].sent == None ==> run.fxs[i].verdict == Pass && run.fxs[i].out == run.es[i].p
  {
    assert run.Steps(h, i);
    hide ServiceOf, BackendFor, Alive, Reported;
  }

  // ---- The SYN limiter over a run.

  datatype BucketKey = Own(sid: nat, src: Addr) | Shared(src: Addr)

  /** Which bucket a segment is charged to, if any. */
  ghost function ChargedTo(k: Kernel, e: Event): Option<BucketKey> {
    if e.Receive? && e.p.Whole? && e.p.seg.syn && ServiceFor(k, e.p.seg).Some? then
      var sid := ServiceFor(k, e.p.seg).value;
      if sid in k.limits.services then Some(Own(sid, e.p.seg.ip.src))
      else if k.limits.node.Some? then Some(Shared(e.p.seg.ip.src)) else None
    else None
  }

  ghost function BucketAt(k: Kernel, key: BucketKey): Option<Bucket> {
    match key
    case Own(sid, src) => Lookup(k.limits.serviceBuckets, (sid, src))
    case Shared(src) => Lookup(k.limits.buckets, src)
  }

  ghost predicate Configured(k: Kernel, key: BucketKey, cfg: RlConfig) {
    match key
    case Own(sid, _) => sid in k.limits.services && k.limits.services[sid] == cfg
    case Shared(_) => k.limits.node == Some(cfg)
  }

  /** The limiter let the SYN through; what happens to it then is up to the balancing. */
  ghost predicate LetThrough(k: Kernel, e: Event, key: BucketKey, cfg: RlConfig) {
    ChargedTo(k, e) == Some(key) && Admits(cfg, BucketAt(k, key), e.now)
  }

  /** Balancing itself leaves the limiter alone. */
  lemma ArriveLimits(h: Hashes, k: Kernel, s: Segment, now: nat)
    ensures var o, sid := Arrive(h, k, s, now), ServiceFor(k, s);
            if s.syn && sid.Some?
            then o.k.limits == Charged(k.limits, sid.value, s.ip.src, now)
              && (Exceeded(k.limits, sid.value, s.ip.src, now) ==> o.verdict == Drop && o.sent == None)
            else o.k.limits == k.limits
  {
    hide ServiceOf, PickFrom, Charged, Exceeded, Choose;
  }

  lemma ChargeStep(k: Kernel, s: Segment, now: nat, l: Limits, key: BucketKey, cfg: RlConfig)
    requires s.syn && ServiceFor(k, s).Some? && l == Charged(k.limits, ServiceFor(k, s).value, s.ip.src, now)
        && Configured(k, key, cfg)
    ensures Configured(k.(limits := l), key, cfg)
    ensures if ChargedTo(k, Receive(Whole(s), now)) == Some(key) then BucketAt(k.(limits := l),
        key) == Some(Left(cfg, BucketAt(k, key), now))
            else BucketAt(k.(limits := l), key) == BucketAt(k, key)
    ensures ChargedTo(k, Receive(Whole(s), now)) == Some(key) ==>
              (Exceeded(k.limits, ServiceFor(k, s).value, s.ip.src, now) <==> !Admits(cfg, BucketAt(k, key), now))
  {
    hide ServiceOf, Left, Admits;
  }

  lemma BucketStep(h: Hashes, k: Kernel, e: Event, k': Kernel, fx: Effect, key: BucketKey, cfg: RlConfig)
    requires Step(h, k, e, k', fx) && Configured(k, key, cfg)
    ensures Configured(k', key, cfg)
    ensures if ChargedTo(k, e) == Some(key) then BucketAt(k', key) == Some(Left(cfg, BucketAt(k, key), e.now))
            else BucketAt(k', key) == BucketAt(k, key) || BucketAt(k', key) == None
    ensures ChargedTo(k, e) == Some(key) && !LetThrough(k, e, key, cfg) ==> fx.verdict == Drop && fx.sent == None
  {
    hide ServiceFor, Left, Admits, Charged, Exceeded, Arrive, ArriveOut, FollowOut, ReportOut, ReplyOut,
      ReplyFragmentOut;
    if e.Receive? && e.p.Whole? {
      var s := e.p.seg;
      ArriveLimits(h, k, s, e.now);
      if s.syn && ServiceFor(k, s).Some? {
        ChargeStep(k, s, e.now, k'.limits, key, cfg);
      }
    }
  }

  /** When the first n events charge the bucket. */
  ghost function ChargeTimes(run: Run, key: BucketKey, n: nat): seq<nat>
    requires |run.ks| == |run.es| + 1 && n <= |run.es|
  {
    if n == 0 then []
    else if ChargedTo(run.ks[n - 1], run.es[n - 1]) == Some(key) then ChargeTimes(run, key, n - 1) + [run.es[n - 1].now]
    else ChargeTimes(run, key, n - 1)
  }

  /** How many SYNs of the first n events the limiter lets through. */
  ghost function LetThroughCount(run: Run, key: BucketKey, cfg: RlConfig, n: nat): nat
    requires |run.ks| == |run.es| + 1 && n <= |run.es|
  {
    if n == 0 then 0
    else LetThroughCount(run, key, cfg, n - 1) + if LetThrough(run.ks[n - 1], run.es[n - 1], key, cfg) then 1 else 0
  }

  /** The bucket is never evicted once it exists. */
  ghost predicate BucketSurvives(run: Run, key: BucketKey) {
    forall i: nat :: i + 1 < |run.ks| && BucketAt(run.ks[i], key).Some? ==> BucketAt(run.ks[i + 1], key).Some?
  }

  ghost function BucketAfter(cfg: RlConfig, cur: Option<Bucket>, times: seq<nat>): Option<Bucket> {
    if times == [] then cur else Some(Left(cfg, BucketAfter(cfg, cur, times[..|times| - 1]), times[|times| - 1]))
  }

  lemma {:induction false} AdmittedLast(cfg: RlConfig, cur: Option<Bucket>, times: seq<nat>, now: nat)
    ensures Admitted(cfg, cur, times + [now]) == Admitted(cfg, cur, times) + if Admits(cfg,
        BucketAfter(cfg, cur, times), now) then 1 else 0
    decreases |times|
  {
    hide Admits, Left;
    if times == [] {
      assert [now][1..] == [] && times + [now] == [now];
    } else {
      var first := Some(Left(cfg, cur, times[0]));
      AdmittedLast(cfg, first, times[1..], now);
      assert (times + [now])[1..] == times[1..] + [now];
      BucketAfterFirst(cfg, cur, times);
    }
  }

  lemma {:induction false} BucketAfterFirst(cfg: RlConfig, cur: Option<Bucket>, times: seq<nat>)
    requires times != []
    ensures BucketAfter(cfg, cur, times) == BucketAfter(cfg, Some(Left(cfg, cur, times[0])), times[1..])
    decreases |times|
  {
    hide Left;
    if |times| > 1 {
      var init := times[..|times| - 1];
      BucketAfterFirst(cfg, cur, init);
      assert times[1..][..|times| - 2] == init[1..];
    } else {
      assert times[..0] == [];
    }
  }

  /** The run charges the bucket exactly as a run of takes. */
  lemma {:induction false} RunIsTakes(h: Hashes, run: Run, key: BucketKey, cfg: RlConfig, n: nat)
    requires run.Valid(h) && n <= |run.es| && Configured(run.ks[0], key, cfg) && BucketSurvives(run, key)
    ensures Configured(run.ks[n], key, cfg)
    ensures BucketAt(run.ks[n], key) == BucketAfter(cfg, BucketAt(run.ks[0], key), ChargeTimes(run, key, n))
    ensures LetThroughCount(run, key, cfg, n) == Admitted(cfg, BucketAt(run.ks[0], key), ChargeTimes(run, key, n))
  {
    hide Step, Left, Admits, BucketAt, Configured, ServiceFor;
    if n > 0 {
      RunIsTakes(h, run, key, cfg, n - 1);
      assert run.Steps(h, n - 1);
      BucketStep(h, run.ks[n - 1], run.es[n - 1], run.ks[n], run.fxs[n - 1], key, cfg);
      var times := ChargeTimes(run, key, n - 1);
      var cur := BucketAt(run.ks[0], key);
      if ChargedTo(run.ks[n - 1], run.es[n - 1]) == Some(key) {
        var now := run.es[n - 1].now;
        AdmittedLast(cfg, cur, times, now);
        BucketAfterLast(cfg, cur, times, now);
        hide Admitted, BucketAfter;
        assert ChargeTimes(run, key, n) == times + [now];
      } else {
        assert ChargeTimes(run, key, n) == times;
        assert BucketAt(run.ks[n - 1], key).Some? ==> BucketAt(run.ks[n], key).Some?;
      }
    }
  }

  lemma BucketAfterLast(cfg: RlConfig, cur: Option<Bucket>, times: seq<nat>, now: nat)
    ensures BucketAfter(cfg, cur, times + [now]) == Some(Left(cfg, BucketAfter(cfg, cur, times), now))
  {
    hide Left;
    assert (times + [now])[..|times|] == times;
  }

  /** Over any run in which the bucket survives and the clock does not step back, the SYNs the
      limiter lets through for one source are at most the burst plus what the rate earns from the
      first of them to the last. */
  lemma SynsBounded(h: Hashes, run: Run, key: BucketKey, cfg: RlConfig)
    requires run.Valid(h) && Configured(run.ks[0], key, cfg) && BucketSurvives(run, key)
    requires var times := ChargeTimes(run, key, |run.es|); times != [] && Sorted(times)
    ensures var times := ChargeTimes(run, key, |run.es|);
            LetThroughCount(run, key, cfg, |run.es|) <= cfg.burst + Earned(cfg, times[|times| - 1] - times[0])
  {
    hide Earned, Admitted, ChargeTimes, LetThroughCount;
    var times := ChargeTimes(run, key, |run.es|);
    RunIsTakes(h, run, key, cfg, |run.es|);
    WindowBound(cfg, BucketAt(run.ks[0], key), times);
  }

  ghost predicate Paced(cfg: RlConfig, cur: Option<Bucket>, times: seq<nat>) {
    && (cur.Some? ==> cur.value.tokens <= cfg.burst && (times != [] ==> Spaced(cfg, cur.value.last, times[0])))
    && forall i: nat :: i + 1 < |times| ==> Spaced(cfg, times[i], times[i + 1])
  }

  /** Over any run in which the bucket survives, every SYN of a source that keeps to the rate is let
      through. */
  lemma PacedLetThrough(h: Hashes, run: Run, key: BucketKey, cfg: RlConfig)
    requires run.Valid(h) && Configured(run.ks[0], key, cfg) && BucketSurvives(run, key)
    requires NeverWraps(cfg) && cfg.burst >= 1
    requires Paced(cfg, BucketAt(run.ks[0], key), ChargeTimes(run, key, |run.es|))
    ensures LetThroughCount(run, key, cfg, |run.es|) == |ChargeTimes(run, key, |run.es|)|
  {
    hide Admitted, ChargeTimes, LetThroughCount, NeverWraps;
    RunIsTakes(h, run, key, cfg, |run.es|);
    PacedIsAdmitted(cfg, BucketAt(run.ks[0], key), ChargeTimes(run, key, |run.es|));
  }
}
