/** Which routes the BGP speaker should be advertising (desiredRoutes in internal/bgp/bgp.go).
    Addresses and peers are compared as values, where the source compares canonical text. */
module BgpRoutes {
  import opened Common
  import opened Types
  import opened PortRange

  type Peer = Addr

  /** An IP prefix; as a key of the route table it is masked. */
  datatype Prefix = Prefix(addr: Addr, bits: nat)

  /** The parsed form of a configured community, or that it does not parse. */
  datatype Community = Known(value: nat) | Unparsable

  /** peers is None for a route every peer may have. */
  datatype Route = Route(communities: seq<nat>, peers: Option<set<Peer>>)

  type Routes = map<Prefix, Route>

  /** What the dataplane reports about one VIP. addr is None if its address does not parse. */
  datatype Status = Status(addr: Option<Addr>, healthy: bool, communities: seq<Community>, peers: seq<Peer>)

  /** A configured aggregate. prefix is None if it does not parse. */
  datatype Aggregate = Aggregate(prefix: Option<Prefix>, communities: seq<Community>, peers: seq<Peer>, suppress: bool)

  // ---- Prefixes.

  function Width(a: Addr): nat {
    if a.V4? then 32 else 128
  }

  /** A word with only its first keep bits left. */
  function MaskWord(w: Word, keep: nat): (r: Word) {
    if keep >= 16 then w else Floor(w, Pow2(16 - keep))
  }

  function Floor(w: Word, unit: nat): (r: Word)
    requires unit > 0
    ensures r <= w
  {
    w - w % unit
  }

  function KeptOf(bits: nat, i: nat): nat {
    if bits < 16 * i then 0 else bits - 16 * i
  }

  function MaskAddr(a: Addr, bits: nat): Addr {
    match a
    case V4(hi, lo) => V4(MaskWord(hi, bits), MaskWord(lo, KeptOf(bits, 1)))
    case V6(words) => V6(seq(8, i requires 0 <= i < 8 => MaskWord(words[i], KeptOf(bits, i))))
  }

  function Masked(p: Prefix): Prefix {
    Prefix(MaskAddr(p.addr, p.bits), p.bits)
  }

  predicate Covers(p: Prefix, a: Addr) {
    p.addr.V4? == a.V4? && MaskAddr(a, p.bits) == MaskAddr(p.addr, p.bits)
  }

  function HostPrefix(a: Addr): Prefix {
    Prefix(a, Width(a))
  }

  // ---- Communities.

  function Parsed(cs: seq<Community>): Option<seq<nat>> {
    if cs == [] then Some([])
    else
      var rest := Parsed(cs[..|cs| - 1]);
      if rest.None? || cs[|cs| - 1].Unparsable? then None else Some(rest.value + [cs[|cs| - 1].value])
  }

  /** The values in first-seen order, without repeats. */
  function FirstSeen(cs: seq<nat>): (r: seq<nat>)
    ensures forall c :: c in r <==> c in cs
    ensures Distinct(r)
  {
    if cs == [] then []
    else
      var init, last := cs[..|cs| - 1], cs[|cs| - 1];
      assert cs == init + [last];
      if last in init then FirstSeen(init) else FirstSeen(init) + [last]
  }

  /** mergeCommunities, of two lists. */
  method Merge(a: seq<nat>, b: seq<nat>) returns (out: seq<nat>)
    ensures out == FirstSeen(a + b) && Distinct(out) && forall c :: c in out <==> c in a || c in b
  {
    out := [];
    var all := a + b;
    for i := 0 to |all|
      invariant out == FirstSeen(all[..i])
    {
      assert all[..i + 1][..i] == all[..i];
      if all[i] !in out {
        out := out + [all[i]];
      }
    }
    assert all[..|all|] == all;
  }

  // ---- What is wanted.

  ghost predicate HealthyAt(statuses: seq<Status>, i: nat, a: Addr) {
    i < |statuses| && statuses[i].healthy && statuses[i].addr == Some(a)
  }

  /** Some VIP on the address has a healthy backend. */
  ghost predicate HealthyAddr(statuses: seq<Status>, a: Addr) {
    exists i: nat :: HealthyAt(statuses, i, a)
  }

  /** The communities of the address's healthy VIPs, in order. */
  function CommunitiesOf(statuses: seq<Status>, a: Addr): seq<Community> {
    if statuses == [] then []
    else
      var init, last := statuses[..|statuses| - 1], statuses[|statuses| - 1];
      CommunitiesOf(init, a) + if last.healthy && last.addr == Some(a) then last.communities else []
  }

  /** Every peer may have the route as soon as one VIP on the address names none. */
  ghost predicate ForAll(statuses: seq<Status>, a: Addr) {
    exists i: nat :: HealthyAt(statuses, i, a) && statuses[i].peers == []
  }

  ghost predicate NamedBy(statuses: seq<Status>, a: Addr, p: Peer) {
    exists i: nat :: HealthyAt(statuses, i, a) && p in statuses[i].peers
  }

  /** The peers a route is limited to. */
  ghost predicate ScopeIs(statuses: seq<Status>, a: Addr, peers: Option<set<Peer>>) {
    if ForAll(statuses, a) then peers == None else peers.Some? && forall p :: p in peers.value <==>
        NamedBy(statuses, a, p)
  }

  ghost predicate CoveredBy(statuses: seq<Status>, g: Aggregate, a: Addr) {
    g.prefix.Some? && HealthyAddr(statuses, a) && Covers(g.prefix.value, a)
  }

  /** The aggregate has a healthy VIP under it. */
  ghost predicate Wanted(statuses: seq<Status>, g: Aggregate) {
    exists a :: CoveredBy(statuses, g, a)
  }

  ghost predicate SuppressedBy(aggregates: seq<Aggregate>, n: nat, i: nat, a: Addr) {
    i < n <= |aggregates| && aggregates[i].suppress && aggregates[i].prefix.Some?
      && Covers(aggregates[i].prefix.value, a)
  }

  /** One of the first n aggregates stops the address's own route. */
  ghost predicate Suppressed(aggregates: seq<Aggregate>, n: nat, a: Addr) {
    exists i: nat :: SuppressedBy(aggregates, n, i, a)
  }

  ghost predicate AggregateAt(statuses: seq<Status>, aggregates: seq<Aggregate>, n: nat, i: nat, k: Prefix) {
    i < n <= |aggregates| && aggregates[i].prefix.Some? && Masked(aggregates[i].prefix.value) == k
      && Wanted(statuses, aggregates[i])
  }

  ghost predicate HostAt(statuses: seq<Status>, aggregates: seq<Aggregate>, a: Addr, k: Prefix) {
    HealthyAddr(statuses, a) && !Suppressed(aggregates, |aggregates|, a) && k == HostPrefix(a)
  }

  ghost function LimitOf(peers: seq<Peer>): Option<set<Peer>> {
    if peers == [] then None else Some(set p | p in peers)
  }

  ghost predicate AggregateRoute(statuses: seq<Status>, aggregates: seq<Aggregate>, n: nat, global: seq<nat>, k: Prefix,
      r: Route) {
    exists i: nat :: AggregateAt(statuses, aggregates, n, i, k)
      && (forall j: nat :: i < j ==> !AggregateAt(statuses, aggregates, n, j, k))
                && RouteOf(aggregates[i], global, r)
  }

  ghost predicate RouteOf(g: Aggregate, global: seq<nat>, r: Route) {
    Parsed(g.communities).Some? && r == Route(FirstSeen(global + Parsed(g.communities).value), LimitOf(g.peers))
  }

  ghost predicate HostRoute(statuses: seq<Status>, global: seq<nat>, a: Addr, r: Route) {
    && Parsed(CommunitiesOf(statuses, a)).Some?
    && r.communities == FirstSeen(global + Parsed(CommunitiesOf(statuses, a)).value)
    && ScopeIs(statuses, a, r.peers)
  }

  /** The routes that should be advertised: a host route for every healthy address no suppressing
      aggregate covers, and every aggregate over a healthy address; a host route takes precedence
      over an aggregate of the same prefix, and a later aggregate over an earlier one. */
  ghost predicate Desired(statuses: seq<Status>, aggregates: seq<Aggregate>, global: seq<nat>, routes: Routes) {
    && (forall k :: k in routes ==> RightRoute(statuses, aggregates, global, k, routes[k]))
    && (forall a, k :: HostAt(statuses, aggregates, a, k) ==> k in routes)
    && (forall i: nat, k :: AggregateAt(statuses, aggregates, |aggregates|, i, k) ==> k in routes)
  }

  ghost predicate RightRoute(statuses: seq<Status>, aggregates: seq<Aggregate>, global: seq<nat>, k: Prefix, r: Route) {
    if HostAt(statuses, aggregates, k.addr, k) then HostRoute(statuses, global, k.addr, r)
    else AggregateRoute(statuses, aggregates, |aggregates|, global, k, r)
  }

  /** Aggregates of host length aside, an address has a route of its own exactly when one of its
      VIPs has a healthy backend and no suppressing aggregate covers it; and a shorter prefix has a
      route exactly when it is an aggregate covering a healthy address. */
  lemma RouteIff(statuses: seq<Status>, aggregates: seq<Aggregate>, global: seq<nat>, routes: Routes, k: Prefix)
    requires Desired(statuses, aggregates, global, routes)
    ensures k == HostPrefix(k.addr) && (forall i: nat :: !AggregateAt(statuses, aggregates, |aggregates|, i, k)) ==>
              (k in routes <==> HealthyAddr(statuses, k.addr) && !Suppressed(aggregates, |aggregates|, k.addr))
    ensures k != HostPrefix(k.addr) ==>
        (k in routes <==> exists i: nat :: AggregateAt(statuses, aggregates, |aggregates|, i, k))
  {
    hide HealthyAddr, Suppressed, HostRoute, AggregateAt;
    assert k == HostPrefix(k.addr) ==>
        (HostAt(statuses, aggregates, k.addr, k) <==>
        HealthyAddr(statuses, k.addr) && !Suppressed(aggregates, |aggregates|, k.addr));
    if k in routes {
      assert RightRoute(statuses, aggregates, global, k, routes[k]);
    }
  }

  lemma {:induction false} ParsedHas(cs: seq<Community>, c: nat)
    requires Parsed(cs).Some?
    ensures c in Parsed(cs).value <==> Known(c) in cs
  {
    if cs != [] {
      var init, last := cs[..|cs| - 1], cs[|cs| - 1];
      assert cs == init + [last];
      ParsedHas(init, c);
    }
  }

  ghost predicate Marks(statuses: seq<Status>, i: nat, a: Addr, c: Community) {
    HealthyAt(statuses, i, a) && c in statuses[i].communities
  }

  lemma {:induction false} CommunitiesHave(statuses: seq<Status>, a: Addr, c: Community)
    ensures c in CommunitiesOf(statuses, a) <==> exists i: nat :: Marks(statuses, i, a, c)
  {
    if statuses != [] {
      var n: nat := |statuses| - 1;
      CommunitiesHave(statuses[..n], a, c);
      if c in CommunitiesOf(statuses[..n], a) {
        var i: nat :| Marks(statuses[..n], i, a, c);
        assert Marks(statuses, i, a, c);
      }
      if i: nat :| Marks(statuses, i, a, c) {
        assert i < n ==> Marks(statuses[..n], i, a, c);
      }
      assert c in CommunitiesOf(statuses, a) <==> c in CommunitiesOf(statuses[..n], a) || Marks(statuses, n, a, c);
    }
  }

  /** A host route carries the global communities and those of the healthy VIPs on its address, each once,
      and no others. */
  lemma HostCommunities(statuses: seq<Status>, aggregates: seq<Aggregate>, global: seq<nat>, routes: Routes, a: Addr,
      c: nat)
    requires Desired(statuses, aggregates, global, routes) && HostAt(statuses, aggregates, a, HostPrefix(a))
    ensures HostPrefix(a) in routes && Distinct(routes[HostPrefix(a)].communities)
    ensures c in routes[HostPrefix(a)].communities <==>
        c in global || exists i: nat :: Marks(statuses, i, a, Known(c))
  {
    hide HealthyAddr, Suppressed, AggregateRoute, ScopeIs;
    assert RightRoute(statuses, aggregates, global, HostPrefix(a), routes[HostPrefix(a)]);
    ParsedHas(CommunitiesOf(statuses, a), c);
    CommunitiesHave(statuses, a, Known(c));
  }

  /** The configuration names a prefix or a community that does not parse and is needed. */
  ghost predicate Misconfigured(statuses: seq<Status>, aggregates: seq<Aggregate>, global: seq<Community>) {
    || Parsed(global).None?
    || (exists i: nat :: i < |aggregates| && BadAggregate(statuses, aggregates[i]))
    || (exists a :: HostAt(statuses, aggregates, a, HostPrefix(a)) && Parsed(CommunitiesOf(statuses, a)).None?)
  }

  ghost predicate BadAggregate(statuses: seq<Status>, g: Aggregate) {
    g.prefix.None? || (Wanted(statuses, g) && Parsed(g.communities).None?)
  }

  // ---- Computing it.

  /** peerScope. */
  datatype Scope = Scope(all: bool, named: set<Peer>) {
    function Add(peers: seq<Peer>): Scope {
      if peers == [] then this.(all := true) else this.(named := named + set p | p in peers)
    }

    function List(): Option<set<Peer>> {
      if all || named == {} then None else Some(named)
    }
  }

  method ParseCommunities(cs: seq<Community>) returns (r: Option<seq<nat>>)
    ensures r == Parsed(cs)
  {
    var out := [];
    for i := 0 to |cs|
      invariant Parsed(cs[..i]) == Some(out)
    {
      assert cs[..i + 1][..i] == cs[..i];
      if cs[i].Unparsable? {
        ParsedPrefix(cs, i + 1);
        return None;
      }
      out := out + [cs[i].value];
    }
    assert cs[..|cs|] == cs;
    return Some(out);
  }

  lemma {:induction false} ParsedPrefix(cs: seq<Community>, i: nat)
    requires i <= |cs| && Parsed(cs[..i]).None?
    ensures Parsed(cs).None?
    decreases |cs| - i
  {
    if i < |cs| {
      assert cs[..i + 1][..i] == cs[..i];
      ParsedPrefix(cs, i + 1);
    } else {
      assert cs[..i] == cs;
    }
  }

  /** What is collected about the healthy addresses. */
  ghost predicate Collected(statuses: seq<Status>, comms: map<Addr, seq<Community>>, scopes: map<Addr, Scope>) {
    && scopes.Keys == comms.Keys
    && (forall a :: a in comms <==> HealthyAddr(statuses, a))
    && (forall a :: a in comms ==> comms[a] == CommunitiesOf(statuses, a) && ScopeMatches(statuses, a, scopes[a]))
  }

  ghost predicate ScopeMatches(statuses: seq<Status>, a: Addr, s: Scope) {
    (s.all <==> ForAll(statuses, a)) && forall p :: p in s.named <==> NamedBy(statuses, a, p)
  }

  /** One more status changes what is known about its own address only, and only if healthy. */
  lemma OneMore(statuses: seq<Status>, st: Status, a: Addr)
    ensures var all, mine := statuses + [st], st.healthy && st.addr == Some(a);
            && (HealthyAddr(all, a) <==> HealthyAddr(statuses, a) || mine)
            && (ForAll(all, a) <==> ForAll(statuses, a) || (mine && st.peers == []))
            && (forall p :: NamedBy(all, a, p) <==> NamedBy(statuses, a, p) || (mine && p in st.peers))
            && CommunitiesOf(all, a) == CommunitiesOf(statuses, a) + if mine then st.communities else []
  {
    var all, n := statuses + [st], |statuses|;
    assert all[..n] == statuses;
    assert forall i: nat :: HealthyAt(statuses, i, a) ==> HealthyAt(all, i, a) && all[i] == statuses[i];
    assert forall i: nat :: HealthyAt(all, i, a) && i < n ==> HealthyAt(statuses, i, a);
    assert HealthyAt(all, n, a) <==> st.healthy && st.addr == Some(a);
  }

  lemma {:induction false} UnhealthyHasNone(statuses: seq<Status>, a: Addr)
    requires !HealthyAddr(statuses, a)
    ensures CommunitiesOf(statuses, a) == [] && !ForAll(statuses, a) && forall p :: !NamedBy(statuses, a, p)
  {
    if statuses != [] {
      var init, last := statuses[..|statuses| - 1], statuses[|statuses| - 1];
      assert statuses == init + [last];
      OneMore(init, last, a);
      UnhealthyHasNone(init, a);
    }
  }

  method CollectVips(statuses: seq<Status>) returns (comms: map<Addr, seq<Community>>, scopes: map<Addr, Scope>)
    ensures Collected(statuses, comms, scopes)
  {
    hide HealthyAddr, ForAll, NamedBy, CommunitiesOf;
    comms, scopes := map[], map[];
    NothingCollected();
    for n := 0 to |statuses|
      invariant Collected(statuses[..n], comms, scopes)
    {
      var st := statuses[n];
      ghost var c0, s0 := comms, scopes;
      if st.healthy && st.addr.Some? {
        var a := st.addr.value;
        comms := comms[a := (if a in comms then comms[a] else []) + st.communities];
        scopes := scopes[a := (if a in scopes then scopes[a] else Scope(false, {})).Add(st.peers)];
      }
      assert statuses[..n + 1] == statuses[..n] + [st];
      CollectNext(statuses[..n], st, c0, s0, comms, scopes);
    }
    assert statuses[..|statuses|] == statuses;
  }

  lemma NothingCollected()
    ensures Collected([], map[], map[])
  {
  }

  lemma CollectNext(statuses: seq<Status>, st: Status, comms: map<Addr, seq<Community>>, scopes: map<Addr, Scope>,
      comms': map<Addr, seq<Community>>, scopes': map<Addr, Scope>)
    requires Collected(statuses, comms, scopes)
    requires if st.healthy && st.addr.Some? then
               var a := st.addr.value;
               && comms' == comms[a := (if a in comms then comms[a] else []) + st.communities]
               && scopes' == scopes[a := (if a in scopes then scopes[a] else Scope(false, {})).Add(st.peers)]
             else comms' == comms && scopes' == scopes
    ensures Collected(statuses + [st], comms', scopes')
  {
    hide HealthyAddr, ForAll, NamedBy, CommunitiesOf;
    forall a
      ensures a in comms' <==> HealthyAddr(statuses + [st], a)
      ensures a in comms' ==>
          comms'[a] == CommunitiesOf(statuses + [st], a) && ScopeMatches(statuses + [st], a, scopes'[a])
    {
      OneMore(statuses, st, a);
      if a !in comms {
        UnhealthyHasNone(statuses, a);
      }
    }
  }

  /** The first n aggregates are dealt with. */
  ghost predicate Aggregated(statuses: seq<Status>, aggregates: seq<Aggregate>, n: nat, global: seq<nat>,
      routes: Routes) {
    && n <= |aggregates|
    && (forall i: nat :: i < n ==> !BadAggregate(statuses, aggregates[i]))
    && (forall k :: k in routes ==> AggregateRoute(statuses, aggregates, n, global, k, routes[k]))
    && (forall i: nat, k :: AggregateAt(statuses, aggregates, n, i, k) ==> k in routes)
  }

  lemma AggregateNext(statuses: seq<Status>, aggregates: seq<Aggregate>, n: nat, global: seq<nat>, routes: Routes,
      routes': Routes)
    requires n < |aggregates| && Aggregated(statuses, aggregates, n, global, routes)
        && !BadAggregate(statuses, aggregates[n])
    requires if Wanted(statuses, aggregates[n]) then
               var k := Masked(aggregates[n].prefix.value);
               k in routes' && RouteOf(aggregates[n], global, routes'[k]) && routes' == routes[k := routes'[k]]
             else routes' == routes
    ensures Aggregated(statuses, aggregates, n + 1, global, routes')
  {
    hide Wanted, Masked, RouteOf;
    var g, m := aggregates[n], n + 1;
    forall k | k in routes'
      ensures AggregateRoute(statuses, aggregates, m, global, k, routes'[k])
    {
      if Wanted(statuses, g) && k == Masked(g.prefix.value) {
        assert AggregateAt(statuses, aggregates, m, n, k) && RouteOf(aggregates[n], global, routes'[k]);
      } else {
        var i: nat :| AggregateAt(statuses, aggregates, n, i, k)
            && (forall j: nat :: i < j ==> !AggregateAt(statuses, aggregates, n, j, k))
                      && RouteOf(aggregates[i], global, routes[k]);
        LaterAggregate(statuses, aggregates, n, i, k);
        assert RouteOf(aggregates[i], global, routes'[k]);
      }
    }
    forall i: nat, k | AggregateAt(statuses, aggregates, m, i, k)
      ensures k in routes'
    {
      assert i != n ==> AggregateAt(statuses, aggregates, n, i, k);
    }
  }

  lemma LaterAggregate(statuses: seq<Status>, aggregates: seq<Aggregate>, n: nat, i: nat, k: Prefix)
    requires n < |aggregates| && !AggregateAt(statuses, aggregates, n + 1, n, k)
        && AggregateAt(statuses, aggregates, n, i, k)
    requires forall j: nat :: i < j ==> !AggregateAt(statuses, aggregates, n, j, k)
    ensures var m := n + 1; AggregateAt(statuses, aggregates, m, i, k) && forall j: nat :: i < j ==>
        !AggregateAt(statuses, aggregates, m, j, k)
  {
    hide Wanted, Masked;
    var m := n + 1;
    forall j: nat | i < j
      ensures !AggregateAt(statuses, aggregates, m, j, k)
    {
      assert !AggregateAt(statuses, aggregates, n, j, k);
    }
  }

  /** Which healthy addresses the aggregate covers. */
  method CoveredAddrs(p: Prefix, addrs: set<Addr>) returns (covered: set<Addr>)
    ensures covered == set a | a in addrs && Covers(p, a)
  {
    covered := {};
    var todo := addrs;
    while todo != {}
      invariant todo <= addrs && covered == set a | a in addrs - todo && Covers(p, a)
    {
      var a :| a in todo;
      if Covers(p, a) {
        covered := covered + {a};
      }
      todo := todo - {a};
    }
  }

  lemma SuppressNext(aggregates: seq<Aggregate>, n: nat, addrs: set<Addr>, suppressed: set<Addr>, covered: set<Addr>)
    requires n < |aggregates| && aggregates[n].prefix.Some? && suppressed <= addrs
    requires forall a :: a in addrs ==> (a in suppressed <==> Suppressed(aggregates, n, a))
    requires covered == set a | a in addrs && Covers(aggregates[n].prefix.value, a)
    ensures var s := if aggregates[n].suppress then suppressed + covered else suppressed;
            forall a :: a in addrs ==> (a in s <==> Suppressed(aggregates, n + 1, a))
  {
    hide Covers;
    var m := n + 1;
    forall a
      ensures Suppressed(aggregates, m, a) <==> Suppressed(aggregates, n, a) || SuppressedBy(aggregates, m, n, a)
    {
      if Suppressed(aggregates, n, a) {
        var i: nat :| SuppressedBy(aggregates, n, i, a);
        assert SuppressedBy(aggregates, m, i, a);
      }
      if i: nat :| SuppressedBy(aggregates, m, i, a) {
        assert i != n ==> SuppressedBy(aggregates, n, i, a);
      }
    }
  }

  /** The aggregates that have a healthy VIP under them, and the addresses they stand in for. */
  method AddAggregates(statuses: seq<Status>, aggregates: seq<Aggregate>, global: seq<nat>, addrs: set<Addr>)
    returns (r: Option<(Routes, set<Addr>)>)
    requires forall a :: a in addrs <==> HealthyAddr(statuses, a)
    ensures r.None? ==> exists i: nat :: i < |aggregates| && BadAggregate(statuses, aggregates[i])
    ensures r.Some? ==>
              && Aggregated(statuses, aggregates, |aggregates|, global, r.value.0)
              && forall a :: a in addrs ==> (a in r.value.1 <==> Suppressed(aggregates, |aggregates|, a))
  {
    hide Aggregated, Suppressed, Masked, Covers, HealthyAddr, Parsed;
    var routes: Routes, suppressed: set<Addr> := map[], {};
    NothingAggregated(statuses, aggregates, global);
    for n := 0 to |aggregates|
      invariant Aggregated(statuses, aggregates, n, global, routes) && suppressed <= addrs
      invariant forall a :: a in addrs ==> (a in suppressed <==> Suppressed(aggregates, n, a))
    {
      var g := aggregates[n];
      if g.prefix.None? {
        return None;
      }
      var covered := CoveredAddrs(g.prefix.value, addrs);
      SuppressNext(aggregates, n, addrs, suppressed, covered);
      WantedIff(statuses, g, addrs, covered);
      if g.suppress {
        suppressed := suppressed + covered;
      }
      ghost var before := routes;
      if covered != {} {
        var specific := ParseCommunities(g.communities);
        if specific.None? {
          return None;
        }
        var merged := Merge(global, specific.value);
        var key := Masked(g.prefix.value);
        routes := routes[key := Route(merged, Scope(false, {}).Add(g.peers).List())];
        ScopeOfList(g.peers);
      }
      AggregateNext(statuses, aggregates, n, global, before, routes);
    }
    r := Some((routes, suppressed));
  }

  lemma NothingAggregated(statuses: seq<Status>, aggregates: seq<Aggregate>, global: seq<nat>)
    ensures Aggregated(statuses, aggregates, 0, global, map[]) && forall a :: !Suppressed(aggregates, 0, a)
  {
  }

  lemma WantedIff(statuses: seq<Status>, g: Aggregate, addrs: set<Addr>, covered: set<Addr>)
    requires g.prefix.Some? && forall a :: a in addrs <==> HealthyAddr(statuses, a)
    requires covered == set a | a in addrs && Covers(g.prefix.value, a)
    ensures Wanted(statuses, g) <==> covered != {}
  {
    hide Covers, HealthyAddr;
    if covered != {} {
      var a :| a in covered;
      assert CoveredBy(statuses, g, a);
    }
    if Wanted(statuses, g) {
      var a :| CoveredBy(statuses, g, a);
      assert a in covered;
    }
  }

  lemma ScopeOfList(peers: seq<Peer>)
    ensures Scope(false, {}).Add(peers).List() == LimitOf(peers)
  {
    if peers != [] {
      var named := set p | p in peers;
      assert peers[0] in named;
      assert {} + named == named;
      assert Scope(false, {}).Add(peers).named == named;
    }
  }

  // ---- The host routes.

  ghost predicate Hosted(statuses: seq<Status>, aggregates: seq<Aggregate>, global: seq<nat>, done: set<Addr>,
      base: Routes, routes: Routes) {
    && (forall k :: k in base ==> k in routes)
    && (forall k :: k in routes ==>
          if HostAt(statuses, aggregates, k.addr, k) && k.addr in done then HostRoute(statuses, global, k.addr,
              routes[k])
          else k in base && routes[k] == base[k])
    && (forall a :: a in done && HostAt(statuses, aggregates, a, HostPrefix(a)) ==> HostPrefix(a) in routes)
  }

  lemma HostedIsDesired(statuses: seq<Status>, aggregates: seq<Aggregate>, global: seq<nat>, addrs: set<Addr>,
      base: Routes, routes: Routes)
    requires Aggregated(statuses, aggregates, |aggregates|, global, base)
        && Hosted(statuses, aggregates, global, addrs, base, routes)
    requires forall a :: a in addrs <==> HealthyAddr(statuses, a)
    ensures Desired(statuses, aggregates, global, routes)
  {
    hide AggregateRoute, HostRoute, HealthyAddr, Suppressed;
  }

  lemma HostScope(statuses: seq<Status>, a: Addr, s: Scope)
    requires HealthyAddr(statuses, a) && ScopeMatches(statuses, a, s)
    ensures ScopeIs(statuses, a, s.List())
  {
    if !ForAll(statuses, a) {
      var i: nat :| HealthyAt(statuses, i, a);
      assert statuses[i].peers != [];
      assert NamedBy(statuses, a, statuses[i].peers[0]);
    }
  }

  /** desiredRoutes: an error exactly when something it needs does not parse; otherwise exactly the
      routes that should be advertised. */
  method DesiredRoutes(statuses: seq<Status>, aggregates: seq<Aggregate>, global: seq<Community>)
    returns (r: Option<Routes>)
    ensures r.None? <==> Misconfigured(statuses, aggregates, global)
    ensures r.Some? ==> Desired(statuses, aggregates, Parsed(global).value, r.value)
  {
    hide Collected, Aggregated, Hosted, HealthyAddr, Suppressed, Parsed, BadAggregate, Desired;
    var parsed := ParseCommunities(global);
    if parsed.None? {
      return None;
    }
    var comms, scopes := CollectVips(statuses);
    CollectedFacts(statuses, comms, scopes);
    var added := AddAggregates(statuses, aggregates, parsed.value, comms.Keys);
    if added.None? {
      return None;
    }
    var (base, suppressed) := added.value;
    var routes, todo := base, comms.Keys;
    NothingHosted(statuses, aggregates, parsed.value, base);
    assert comms.Keys - comms.Keys == {};
    while todo != {}
      invariant todo <= comms.Keys && Hosted(statuses, aggregates, parsed.value, comms.Keys - todo, base, routes)
      invariant forall a :: a in comms && a !in todo && a !in suppressed ==> Parsed(comms[a]).Some?
    {
      var a :| a in todo;
      ghost var before := routes;
      if a !in suppressed {
        var specific := ParseCommunities(comms[a]);
        if specific.None? {
          assert HostAt(statuses, aggregates, a, HostPrefix(a));
          return None;
        }
        var merged := Merge(parsed.value, specific.value);
        routes := routes[HostPrefix(a) := Route(merged, scopes[a].List())];
        HostScope(statuses, a, scopes[a]);
      }
      HostedNext(statuses, aggregates, parsed.value, comms.Keys - todo, a, base, before, routes);
      assert comms.Keys - todo + {a} == comms.Keys - (todo - {a});
      todo := todo - {a};
    }
    assert comms.Keys - {} == comms.Keys;
    HostedIsDesired(statuses, aggregates, parsed.value, comms.Keys, base, routes);
    NotMisconfigured(statuses, aggregates, global, comms, suppressed, base);
    r := Some(routes);
  }

  lemma CollectedFacts(statuses: seq<Status>, comms: map<Addr, seq<Community>>, scopes: map<Addr, Scope>)
    requires Collected(statuses, comms, scopes)
    ensures scopes.Keys == comms.Keys && forall a :: a in comms <==> HealthyAddr(statuses, a)
    ensures forall a :: a in comms ==> comms[a] == CommunitiesOf(statuses, a) && ScopeMatches(statuses, a, scopes[a])
  {
  }

  lemma NothingHosted(statuses: seq<Status>, aggregates: seq<Aggregate>, global: seq<nat>, base: Routes)
    ensures Hosted(statuses, aggregates, global, {}, base, base)
  {
  }

  lemma HostedNext(statuses: seq<Status>, aggregates: seq<Aggregate>, global: seq<nat>, done: set<Addr>, a: Addr,
      base: Routes, before: Routes, routes: Routes)
    requires Hosted(statuses, aggregates, global, done, base, before) && HealthyAddr(statuses, a)
    requires if Suppressed(aggregates, |aggregates|, a) then routes == before
             else
               && HostPrefix(a) in routes && routes == before[HostPrefix(a) := routes[HostPrefix(a)]]
               && HostRoute(statuses, global, a, routes[HostPrefix(a)])
    ensures Hosted(statuses, aggregates, global, done + {a}, base, routes)
  {
    hide HealthyAddr, Suppressed, HostRoute;
  }

  lemma NotMisconfigured(statuses: seq<Status>, aggregates: seq<Aggregate>, global: seq<Community>,
      comms: map<Addr, seq<Community>>, suppressed: set<Addr>, base: Routes)
    requires Parsed(global).Some? && Aggregated(statuses, aggregates, |aggregates|, Parsed(global).value, base)
    requires forall a :: a in comms <==> HealthyAddr(statuses, a)
    requires forall a :: a in comms ==>
        comms[a] == CommunitiesOf(statuses, a) && (a in suppressed <==> Suppressed(aggregates, |aggregates|, a))
    requires forall a :: a in comms && a !in suppressed ==> Parsed(comms[a]).Some?
    ensures !Misconfigured(statuses, aggregates, global)
  {
    hide HealthyAddr, Suppressed, Parsed, BadAggregate, AggregateRoute;
  }
}
