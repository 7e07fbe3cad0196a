/** Three runs of the speaker: two in which a route limited to one peer reaches another, one into the
    gap inside a pass, with no call failing, and one in which a failed edit loses an entry; and one in
    which a route for everyone does not reach a peer, because a failed edit left an entry behind. */
module BgpScenarios {
  import opened Common
  import opened Types
  import opened BgpRoutes
  import opened BgpState
  import opened BgpSteps
  import opened BgpProtocol

  // ---- Two peers and a route limited to one.

  /** What gobgp and the speaker hold with these peers, deny sets and routes, no call having failed. */
  function Holding(peers: map<Peer, Settings>, sets: DenySets, routes: Routes, restrict: map<Prefix, set<Peer>>): Net {
    Net(routes, peers.Keys, sets, peers.Keys, routes, peers, restrict, sets)
  }

  /** One route, limited to peer b. */
  function Only(p: Prefix, b: Peer): Routes {
    map[p := Route([], Some({b}))]
  }

  /** A peer is started while no route is limited. */
  lemma Starting(t: Trace, w0: World, peers: map<Peer, Settings>, sets: DenySets, a: Peer) returns (t': Trace)
    requires a !in peers && a !in sets && Leads(t, w0, World(Holding(peers, sets, map[], map[]), Resting(true), IDLE))
    ensures Leads(t', w0, World(Holding(peers[a := 0], sets[a := {}], map[], map[]), Resting(true), IDLE))
  {
    hide Leads;
    var n := Holding(peers, sets, map[], map[]);
    var ready := n.(deny := sets[a := {}], denied := sets[a := {}], ruled := peers.Keys + {a});
    var done := Holding(peers[a := 0], sets[a := {}], map[], map[]);
    assert DenyList(a, map[]) == {};
    AllInside({});
    assert LimitsCreated(n, a, ready, true, BOTH, BOTH);
    var w, w1, w2 := World(n, Resting(true), IDLE), World(ready, Resting(true), Setting(None, Some(a))),
        World(done, Resting(true), IDLE);
    ThenLeads(t, w0, w, Create(a, true, BOTH, BOTH), w1);
    assert done == ready.(live := ready.live + {a}, peers := ready.peers[a := 0]);
    ThenLeads(Then(t, Create(a, true, BOTH, BOTH), w1), w0, w1, Add(a, 0, true, {}), w2);
    t' := Then(Then(t, Create(a, true, BOTH, BOTH), w1), Add(a, 0, true, {}), w2);
  }

  /** Two peers are started and nothing else has happened. */
  lemma TwoPeers(a: Peer, b: Peer) returns (t: Trace, w0: World)
    requires a != b
    ensures Start(w0) && Leads(t, w0, World(Holding(map[a := 0, b := 0], map[a := {}, b := {}], map[], map[]),
        Resting(true), Free))
  {
    hide Leads;
    var none: map<Peer, Settings> := map[];
    w0 := World(Holding(none, map[], map[], map[]), Resting(true), Free);
    assert none.Keys == {};
    BegunLeads(w0);
    LockLeads(Begun(w0), w0, w0, Take, w0.(lock := IDLE));
    t := Then(Begun(w0), Take, w0.(lock := IDLE));
    t := Starting(t, w0, none, map[], a);
    t := Starting(t, w0, map[a := 0], map[a := {}], b);
    var w := World(Holding(map[a := 0, b := 0], map[a := {}, b := {}], map[], map[]), Resting(true), IDLE);
    assert map[a := 0][b := 0] == map[a := 0, b := 0];
    LockLeads(t, w0, w, Release, w.(lock := Free));
    t := Then(t, Release, w.(lock := Free));
  }

  /** A pass then advertises a route limited to b. */
  lemma LimitedRoute(p: Prefix, a: Peer, b: Peer) returns (t: Trace, w0: World)
    requires a != b
    ensures var routes := Only(p, b);
            Start(w0) && Leads(t, w0, World(Holding(map[a := 0, b := 0], map[a := {p}, b := {}], routes, map[p := {b}]),
              Resting(true), Free))
  {
    hide Leads;
    t, w0 := TwoPeers(a, b);
    var routes := Only(p, b);
    var peers, done := map[a := 0, b := 0], map[a := 4, b := 4];
    var n := Holding(peers, map[a := {}, b := {}], map[], map[]);
    var synced := Holding(peers, map[a := {p}, b := {}], map[], map[p := {b}]);
    LimitsAre(p, a, b);
    EditWorksIff({}, {}, {p});
    assert done.Keys == peers.Keys == {a, b};
    assert Synced(n, routes, synced, done);
    var w, w1 := World(n, Resting(true), Free),
        World(synced, Working(Withdrawing, routes, true, false, {}), Free);
    assert n.advertised.Keys == {};
    ThenLeads(t, w0, w, Sync(routes, done), w1);
    t := Then(t, Sync(routes, done), w1);
    t := Advertised(t, w0, w1, p);
    var last := World(Holding(peers, map[a := {p}, b := {}], routes, map[p := {b}]), Resting(true), Free);
    assert synced.rib[p := routes[p]] == routes;
  }

  lemma LimitsAre(p: Prefix, a: Peer, b: Peer)
    requires a != b
    ensures Limited(Only(p, b)) == map[p := {b}]
    ensures DenyList(a, map[p := {b}]) == {p} && DenyList(b, map[p := {b}]) == {}
  {
  }

  /** The one wanted route is handed over and the pass ends. */
  lemma Advertised(t: Trace, w0: World, w: World, p: Prefix) returns (t': Trace)
    requires Leads(t, w0, w) && InPhase(w, Withdrawing) && w.pass.todo == {} && w.pass.denyOk && !w.pass.errors
    requires w.pass.desired.Keys == {p} && p !in w.net.advertised
    ensures Leads(t', w0, w.(net := AdvertisedIn(w.net, p, w.pass.desired[p]), pass := Resting(true)))
    ensures |t.ws| == |t.acts| + 1 && |t'.acts| == |t.acts| + 3
    ensures t'.acts[|t.acts| + 1] == Advertise(p, true) && t'.ws[|t.acts| + 1] == Turned(w)
  {
    assert |t.ws| == |t.acts| + 1;
    hide Leads;
    ThenLeads(t, w0, w, Turn, Turned(w));
    var w1 := Turned(w);
    var w2 := HandedOver(w1, p, true);
    AdvertiseLeads(Then(t, Turn, w1), w0, w1, p, true);
    assert w2.pass.todo == {};
    ThenLeads(Then(Then(t, Turn, w1), Advertise(p, true), w2), w0, w2, Finish, w2.(pass := Resting(true)));
    t' := Then(Then(Then(t, Turn, w1), Advertise(p, true), w2), Finish, w2.(pass := Resting(true)));
  }

  /** From the start, with no call failing: two peers, a route limited to b, and then that route stops
      being wanted. Between the update of the deny sets and the withdrawal peer a receives it. */
  lemma GapExists(p: Prefix, a: Peer, b: Peer) returns (t: Trace, i: nat)
    requires a != b
    ensures Behaviour(t) && i + 1 < |t.ws|
    ensures t.ws[i].pass == Resting(true) && NoLeak(t.ws[i].net)
    ensures t.acts[i] == Sync(map[], map[a := 4, b := 4]) && Exposed(t.ws[i + 1].net, p, a)
        && !NoLeak(t.ws[i + 1].net)
  {
    var w0;
    t, w0 := LimitedRoute(p, a, b);
    i := |t.acts|;
    assert Behaviour(t);
    RestIsSafe(t, i);
    var before := t;
    var w' := Unlimited(p, a, b);
    var w := t.ws[i];
    t := Then(t, Sync(map[], map[a := 4, b := 4]), w');
    ThenLeads(before, w0, w, Sync(map[], map[a := 4, b := 4]), w');
    assert t.ws[i] == w && t.ws[i + 1] == w';
    assert Exposed(w'.net, p, a);
  }

  lemma Unlimited(p: Prefix, a: Peer, b: Peer) returns (w': World)
    requires a != b
    ensures var routes := Only(p, b);
            var w := World(Holding(map[a := 0, b := 0], map[a := {p}, b := {}], routes, map[p := {b}]), Resting(true),
                Free);
            && Step(w, Sync(map[], map[a := 4, b := 4]), w')
            && w'.net == Holding(map[a := 0, b := 0], map[a := {}, b := {}], routes, map[])
  {
    var routes := Only(p, b);
    var none: Routes := map[];
    hide Synced;
    var n' := UnlimitedSync(p, a, b);
    w' := World(n', Working(Withdrawing, none, true, false, routes.Keys), Free);
    assert AllFine(map[a := 4, b := 4]);
  }

  lemma UnlimitedSync(p: Prefix, a: Peer, b: Peer) returns (n': Net)
    requires a != b
    ensures var routes := Only(p, b);
            var n := Holding(map[a := 0, b := 0], map[a := {p}, b := {}], routes, map[p := {b}]);
            && Synced(n, map[], n', map[a := 4, b := 4])
            && n' == Holding(map[a := 0, b := 0], map[a := {}, b := {}], routes, map[])
  {
    var routes := Only(p, b);
    var peers, done := map[a := 0, b := 0], map[a := 4, b := 4];
    n' := Holding(peers, map[a := {}, b := {}], routes, map[]);
    NoLimits(a, b);
    EditWorksIff({p}, {p}, {});
    hide Stage, Limited, DenyList;
    assert done.Keys == peers.Keys == {a, b};
  }

  lemma NoLimits(a: Peer, b: Peer)
    ensures Limited(map[]) == map[] && DenyList(a, map[]) == {} && DenyList(b, map[]) == {}
  {
    var none: Routes := map[];
    assert Limited(none) == map[];
  }

  // ---- A lost entry.

  /** What gobgp and the speaker hold once an edit has failed between the families: peer a's entry p is
      gone and still recorded. */
  function Missing(p: Prefix, a: Peer, b: Peer, routes: Routes, restrict: map<Prefix, set<Peer>>): Net {
    Holding(map[a := 0, b := 0], map[a := {p}, b := {}], routes, restrict).(deny := map[a := {}, b := {}])
  }

  /** The route gives way to an IPv6 one limited to b; peer a's edit fails after the two IPv4 calls. */
  lemma LosingSync(p: Prefix, q: Prefix, a: Peer, b: Peer)
    requires a != b && p.addr.V4? && q.addr.V6?
    ensures Synced(Holding(map[a := 0, b := 0], map[a := {p}, b := {}], Only(p, b), map[p := {b}]), Only(q, b),
        Missing(p, a, b, Only(p, b), map[q := {b}]), map[a := 2, b := 4])
  {
    LimitsAre(q, a, b);
    var held := FailedEditCanLeak(p, q);
    hide Stage, Limited, DenyList;
    assert map[a := 2, b := 4].Keys == map[a := 0, b := 0].Keys == {a, b};
  }

  /** In the next pass the record says that there is nothing to do. */
  lemma BlindSync(p: Prefix, q: Prefix, a: Peer, b: Peer)
    requires a != b
    ensures Synced(Missing(p, a, b, map[], map[q := {b}]), Only(p, b), Missing(p, a, b, map[], map[p := {b}]),
        map[a := 4, b := 4])
  {
    LimitsAre(p, a, b);
    hide Stage, Limited, DenyList;
    assert map[a := 4, b := 4].Keys == map[a := 0, b := 0].Keys == {a, b};
  }

  /** The pass that fails withdraws p and may not hand over q. */
  lemma LosingPass(t: Trace, w0: World, p: Prefix, q: Prefix, a: Peer, b: Peer) returns (t': Trace)
    requires a != b && p.addr.V4? && q.addr.V6?
    requires Leads(t, w0, World(Holding(map[a := 0, b := 0], map[a := {p}, b := {}], Only(p, b), map[p := {b}]),
        Resting(true), Free))
    ensures Leads(t', w0, World(Missing(p, a, b, map[], map[q := {b}]), Resting(false), Free))
  {
    hide Leads, Synced;
    LosingSync(p, q, a, b);
    var done := map[a := 2, b := 4];
    var n := Holding(map[a := 0, b := 0], map[a := {p}, b := {}], Only(p, b), map[p := {b}]);
    var w := World(n, Resting(true), Free);
    var w1 := World(Missing(p, a, b, Only(p, b), map[q := {b}]), Working(Withdrawing, Only(q, b), false, true, {p}),
        Free);
    assert n.advertised.Keys == {p} by { HoldingRoutes(p, a, b); }
    assert done[a] != 4;
    ThenLeads(t, w0, w, Sync(Only(q, b), done), w1);
    t' := Then(t, Sync(Only(q, b), done), w1);
    t' := WithdrawnAndSkipped(t', w0, w1, p, q);
    assert WithdrawnFrom(w1.net, p) == Missing(p, a, b, map[], map[q := {b}]) by { HoldingRoutes(p, a, b); }
  }

  lemma HoldingRoutes(p: Prefix, a: Peer, b: Peer)
    ensures Holding(map[a := 0, b := 0], map[a := {p}, b := {}], Only(p, b), map[p := {b}]).advertised == Only(p, b)
    ensures forall r :: WithdrawnFrom(Missing(p, a, b, Only(p, b), r), p) == Missing(p, a, b, map[], r)
  {
    assert Only(p, b) - {p} == map[];
  }

  lemma WithdrawnAndSkipped(t: Trace, w0: World, w: World, p: Prefix, q: Prefix) returns (t': Trace)
    requires Leads(t, w0, w) && InPhase(w, Withdrawing) && w.pass.todo == {p} && !w.pass.denyOk && w.pass.errors
    requires Stale(w.net, w.pass.desired, p) && w.pass.desired.Keys == {q} && w.pass.desired[q].peers.Some?
    ensures Leads(t', w0, w.(net := WithdrawnFrom(w.net, p), pass := Resting(false)))
  {
    hide Leads;
    var w1 := Withdrawn(w, p, true);
    WithdrawLeads(t, w0, w, p, true);
    t' := Then(t, Withdraw(p, true), w1);
    assert w1.pass.todo == {};
    ThenLeads(t', w0, w1, Turn, Turned(w1));
    t' := Then(t', Turn, Turned(w1));
    var w2 := Looked(Turned(w1), q);
    SkipLeads(t', w0, Turned(w1), q);
    t' := Then(t', Skip(q), w2);
    assert w2.pass.todo == {};
    ThenLeads(t', w0, w2, Finish, w2.(pass := Resting(false)));
    t' := Then(t', Finish, w2.(pass := Resting(false)));
  }

  /** From the start: two peers and an IPv4 route limited to b. A pass that wants another limited route
      instead, an IPv6 one, fails to update peer a's deny set after deleting the IPv4 entry. The next pass,
      in which no call fails, wants the first route again and hands it over while nothing keeps peer
      a from it; the pass reports no error, and peer a has the route. */
  lemma LostEntryLeaks(p: Prefix, q: Prefix, a: Peer, b: Peer) returns (t: Trace, i: nat)
    requires a != b && p.addr.V4? && q.addr.V6?
    ensures Behaviour(t) && i + 1 < |t.acts| && t.acts[i] == Advertise(p, true)
    ensures t.ws[i].pass.Working? && Forbids(t.ws[i].pass.desired, p, a) && a in t.ws[i].net.live
        && !Blocked(t.ws[i].net, p, a)
    ensures t.Last().pass == Resting(true) && Exposed(t.Last().net, p, a) && !NoLeak(t.Last().net)
  {
    var w0;
    t, w0 := LimitedRoute(p, a, b);
    t := LosingPass(t, w0, p, q, a, b);
    hide Leads, Synced;
    BlindSync(p, q, a, b);
    var done := map[a := 4, b := 4];
    var w := World(Missing(p, a, b, map[], map[q := {b}]), Resting(false), Free);
    var w1 := World(Missing(p, a, b, map[], map[p := {b}]), Working(Withdrawing, Only(p, b), true, false, {}), Free);
    assert AllFine(done) && w.net.advertised.Keys == {};
    ThenLeads(t, w0, w, Sync(Only(p, b), done), w1);
    t := Then(t, Sync(Only(p, b), done), w1);
    i := |t.acts| + 1;
    t := Advertised(t, w0, w1, p);
    Ends(t, w0, w1.(net := AdvertisedIn(w1.net, p, w1.pass.desired[p]), pass := Resting(true)));
  }

  // ---- An entry left behind.

  /** Two routes limited to b. */
  function Both(p: Prefix, q: Prefix, b: Peer): Routes {
    map[p := Route([], Some({b})), q := Route([], Some({b}))]
  }

  /** One route for every peer. */
  function Open(p: Prefix): Routes {
    map[p := Route([], None)]
  }

  /** Peer a is denied p, and the speaker does not know. */
  function Unnoticed(p: Prefix, a: Peer, b: Peer, restrict: map<Prefix, set<Peer>>): Net {
    Holding(map[a := 0, b := 0], map[a := {}, b := {}], map[], restrict).(deny := map[a := {p}, b := {}])
  }

  /** Two limited routes are wanted; peer a's edit fails after adding the IPv4 entry. */
  lemma StrayingSync(p: Prefix, q: Prefix, a: Peer, b: Peer)
    requires a != b && p.addr.V4? && q.addr.V6?
    ensures Synced(Holding(map[a := 0, b := 0], map[a := {}, b := {}], map[], map[]), Both(p, q, b),
        Unnoticed(p, a, b, map[p := {b}, q := {b}]), map[a := 2, b := 4])
  {
    var restrict := map[p := {b}, q := {b}];
    assert Limited(Both(p, q, b)) == restrict;
    assert DenyList(a, restrict) == {p, q} && DenyList(b, restrict) == {};
    assert Stage({}, {}, {p, q}, 2) == {p} by { AddedFirst(p, q); }
    hide Stage, Limited, DenyList;
    assert map[a := 2, b := 4].Keys == map[a := 0, b := 0].Keys == {a, b};
  }

  lemma AddedFirst(p: Prefix, q: Prefix)
    requires p.addr.V4? && q.addr.V6?
    ensures Stage({}, {}, {p, q}, 2) == {p}
  {
    hide Stage;
    forall x
      ensures x in Stage({}, {}, {p, q}, 2) <==> x in {p}
    {
      EntryAfter({}, {}, {p, q}, x, 2);
    }
  }

  /** In the next pass nothing is limited, and the record says that there is nothing to do. */
  lemma OpenSync(p: Prefix, a: Peer, b: Peer, restrict: map<Prefix, set<Peer>>)
    requires a != b
    ensures Synced(Unnoticed(p, a, b, restrict), Open(p), Unnoticed(p, a, b, map[]), map[a := 4, b := 4])
  {
    NoLimits(a, b);
    assert Limited(Open(p)) == map[];
    hide Stage, Limited, DenyList;
    assert map[a := 4, b := 4].Keys == map[a := 0, b := 0].Keys == {a, b};
  }

  /** The pass that fails may hand over neither route. */
  lemma StrayingPass(t: Trace, w0: World, p: Prefix, q: Prefix, a: Peer, b: Peer) returns (t': Trace)
    requires a != b && p.addr.V4? && q.addr.V6?
    requires Leads(t, w0, World(Holding(map[a := 0, b := 0], map[a := {}, b := {}], map[], map[]), Resting(true), Free))
    ensures Leads(t', w0, World(Unnoticed(p, a, b, map[p := {b}, q := {b}]), Resting(false), Free))
  {
    hide Leads, Synced;
    StrayingSync(p, q, a, b);
    var done := map[a := 2, b := 4];
    var n := Holding(map[a := 0, b := 0], map[a := {}, b := {}], map[], map[]);
    var w := World(n, Resting(true), Free);
    var w1 := World(Unnoticed(p, a, b, map[p := {b}, q := {b}]), Working(Withdrawing, Both(p, q, b), false, true, {}),
        Free);
    assert n.advertised.Keys == {} && done[a] != 4;
    ThenLeads(t, w0, w, Sync(Both(p, q, b), done), w1);
    t' := Then(t, Sync(Both(p, q, b), done), w1);
    ThenLeads(t', w0, w1, Turn, Turned(w1));
    t' := Then(t', Turn, Turned(w1));
    t' := BothSkipped(t', w0, Turned(w1), p, q);
  }

  lemma BothSkipped(t: Trace, w0: World, w: World, p: Prefix, q: Prefix) returns (t': Trace)
    requires Leads(t, w0, w) && InPhase(w, Advertising) && w.pass.todo == {p, q} && p != q && !w.pass.denyOk
        && w.pass.errors
    requires p in w.pass.desired && w.pass.desired[p].peers.Some?
    requires q in w.pass.desired && w.pass.desired[q].peers.Some?
    ensures Leads(t', w0, w.(pass := Resting(false)))
  {
    hide Leads;
    var w1 := Looked(w, p);
    SkipLeads(t, w0, w, p);
    t' := Then(t, Skip(p), w1);
    var w2 := Looked(w1, q);
    SkipLeads(t', w0, w1, q);
    t' := Then(t', Skip(q), w2);
    assert w2.pass.todo == {};
    ThenLeads(t', w0, w2, Finish, w2.(pass := Resting(false)));
    t' := Then(t', Finish, w2.(pass := Resting(false)));
  }

  /** From the start: two peers. A pass that wants two routes limited to b, one per family, fails to
      update peer a's deny set after adding the IPv4 entry. The next pass, in which no call fails, wants
      that route for everyone; it reports no error, and peer a does not get the route. */
  lemma StrayEntryWithholds(p: Prefix, q: Prefix, a: Peer, b: Peer) returns (t: Trace)
    requires a != b && p.addr.V4? && q.addr.V6?
    ensures Behaviour(t) && t.Last().pass == Resting(true)
    ensures p in t.Last().net.rib && t.Last().net.rib[p].peers.None? && a in t.Last().net.live
    ensures !Exposed(t.Last().net, p, a) && Exposed(t.Last().net, p, b)
  {
    var w0;
    t, w0 := TwoPeers(a, b);
    t := StrayingPass(t, w0, p, q, a, b);
    hide Leads, Synced;
    var restrict := map[p := {b}, q := {b}];
    OpenSync(p, a, b, restrict);
    var done := map[a := 4, b := 4];
    var w := World(Unnoticed(p, a, b, restrict), Resting(false), Free);
    var w1 := World(Unnoticed(p, a, b, map[]), Working(Withdrawing, Open(p), true, false, {}), Free);
    assert AllFine(done) && w.net.advertised.Keys == {};
    ThenLeads(t, w0, w, Sync(Open(p), done), w1);
    t := Then(t, Sync(Open(p), done), w1);
    t := Advertised(t, w0, w1, p);
    Ends(t, w0, w1.(net := AdvertisedIn(w1.net, p, w1.pass.desired[p]), pass := Resting(true)));
  }

  lemma Ends(t: Trace, w0: World, w: World)
    requires Start(w0) && Leads(t, w0, w)
    ensures Behaviour(t) && t.Last() == w
  {
  }
}
