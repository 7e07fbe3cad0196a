/** What holds in every interleaving of a resync pass and SetPeers (internal/bgp/bgp.go,
    peerselect.go). Only a pass's deny-set update and a whole SetPeers exclude each other. */
module BgpProtocol {
  import opened Common
  import opened Types
  import opened BgpRoutes
  import opened BgpState
  import opened BgpSteps

  ghost predicate Start(w: World) {
    w == World(Net(map[], {}, map[], {}, map[], map[], map[], map[]), Resting(true), Free)
  }

  // ---- The invariant.

  /** Every running peer's rule is in force. */
  ghost predicate RulesHold(n: Net) {
    n.live <= n.ruled
  }

  /** Every running peer's record is exactly what it must be denied. */
  ghost predicate RecordsExact(n: Net) {
    forall a :: a in n.live ==> At(n.denied, a) == DenyList(a, n.restrict)
  }

  /** Nothing is recorded of a peer that is neither listed nor about to be. */
  ghost predicate OthersUnrecorded(n: Net, lock: Lock) {
    forall a :: a !in n.peers && (lock.Free? || lock.ready != Some(a)) ==> At(n.denied, a) == {}
  }

  ghost predicate PeersMatch(n: Net, lock: Lock) {
    match lock
    case Free => n.peers.Keys == n.live
    case Setting(leaving, ready) =>
      && n.peers.Keys == n.live + (if leaving.Some? then {leaving.value} else {})
      && (leaving.Some? ==> leaving.value !in n.live)
      && (ready.Some? ==>
            && ready.value !in n.peers && ready.value in n.ruled
            && At(n.denied, ready.value) == DenyList(ready.value, n.restrict) <= At(n.deny, ready.value))
  }

  /** How far a pass that met no error has got: what it has looked at is as wanted. */
  ghost predicate OnTrack(n: Net, phase: Phase, desired: Routes, todo: set<Prefix>) {
    match phase
    case Withdrawing => forall p :: p in n.advertised && p !in todo ==> p in desired && desired[p] == n.advertised[p]
    case Advertising =>
      && (forall p :: p in n.advertised ==> p in desired && desired[p] == n.advertised[p])
      && (forall p :: p in desired && p !in todo ==> p in n.advertised)
  }

  ghost predicate PassMatches(n: Net, pass: Pass) {
    match pass
    case Resting(clean) => clean ==> RecordsExact(n) && n.restrict == Limited(n.rib)
    case Working(phase, desired, denyOk, errors, todo) =>
      && n.restrict == Limited(desired) && (denyOk ==> RecordsExact(n))
      && (!errors ==> denyOk && OnTrack(n, phase, desired, todo))
  }

  ghost predicate Inv(w: World) {
    && w.net.rib == w.net.advertised && RulesHold(w.net) && PeersMatch(w.net, w.lock) && PassMatches(w.net, w.pass)
    && OthersUnrecorded(w.net, w.lock)
  }

  lemma SyncKeeps(w: World, act: Act, w': World)
    requires Inv(w) && Step(w, act, w') && act.Sync?
    ensures Inv(w')
  {
    hide Limited, DenyList, Stage;
  }

  /** When a pass that met no error has looked at everything, the routes are the wanted ones. */
  lemma DoneIsDesired(n: Net, desired: Routes)
    requires OnTrack(n, Advertising, desired, {})
    ensures n.advertised == desired
  {
    assert n.advertised.Keys == desired.Keys;
  }

  lemma WithdrawalsKeep(w: World, act: Act, w': World)
    requires Inv(w) && Step(w, act, w') && (act.Withdraw? || act.Keep? || act.Turn?)
    ensures Inv(w')
  {
    hide Limited, DenyList;
  }

  lemma AdditionsKeep(w: World, act: Act, w': World)
    requires Inv(w) && Step(w, act, w') && (act.Advertise? || act.Skip?)
    ensures Inv(w')
  {
    hide Limited, DenyList;
  }

  lemma FinishKeeps(w: World, act: Act, w': World)
    requires Inv(w) && Step(w, act, w') && act.Finish?
    ensures Inv(w')
  {
    hide Limited, DenyList, OnTrack;
    if !w.pass.errors {
      DoneIsDesired(w.net, w.pass.desired);
    }
  }

  lemma LeavingKeeps(w: World, act: Act, w': World)
    requires Inv(w) && Step(w, act, w') && (act.Delete? || act.Drop? || act.Take? || act.Release?)
    ensures Inv(w')
  {
    hide Limited, DenyList, OnTrack;
    if w.pass.Working? {
      TrackSame(w, w');
    }
  }

  /** What SetPeers does has no bearing on how far a pass has got. */
  lemma TrackSame(w: World, w': World)
    requires w'.pass == w.pass && w'.net.advertised == w.net.advertised && w.pass.Working?
    ensures OnTrack(w'.net, w.pass.phase, w.pass.desired, w.pass.todo) == OnTrack(w.net, w.pass.phase, w.pass.desired,
        w.pass.todo)
  {
  }

  lemma CreateKeeps(w: World, act: Act, w': World)
    requires Inv(w) && Step(w, act, w') && act.Create?
    ensures Inv(w')
  {
    CreatedShields(w.net, act.a, w'.net, act.ok, act.gone, act.put);
    hide Limited, DenyList, OnTrack;
    if w.pass.Working? {
      TrackSame(w, w');
    }
  }

  lemma AddKeeps(w: World, act: Act, w': World)
    requires Inv(w) && Step(w, act, w') && act.Add?
    ensures Inv(w')
  {
    hide Limited, DenyList, OnTrack;
    if w.pass.Working? {
      TrackSame(w, w');
    }
  }

  lemma StepKeeps(w: World, act: Act, w': World)
    requires Inv(w) && Step(w, act, w')
    ensures Inv(w')
  {
    hide Step, Inv;
    match act
    case Sync(_, _) => SyncKeeps(w, act, w');
    case Withdraw(_, _) => WithdrawalsKeep(w, act, w');
    case Keep(_) => WithdrawalsKeep(w, act, w');
    case Turn => WithdrawalsKeep(w, act, w');
    case Advertise(_, _) => AdditionsKeep(w, act, w');
    case Skip(_) => AdditionsKeep(w, act, w');
    case Finish => FinishKeeps(w, act, w');
    case Create(_, _, _, _) => CreateKeeps(w, act, w');
    case Add(_, _, _, _) => AddKeeps(w, act, w');
    case _ => LeavingKeeps(w, act, w');
  }

  /** Any sequence of steps from the start, whatever fails on the way. */
  ghost predicate Behaviour(t: Trace) {
    t.Valid() && Start(t.First())
  }

  lemma {:induction false} AlwaysInv(t: Trace, i: nat)
    requires Behaviour(t) && i < |t.ws|
    ensures Inv(t.ws[i])
  {
    if i == 0 {
      assert t.ws[0].net.restrict == Limited(t.ws[0].net.rib);
    } else {
      AlwaysInv(t, i - 1);
      assert t.Steps(i - 1);
      hide Step, Inv;
      StepKeeps(t.ws[i - 1], t.acts[i - 1], t.ws[i]);
    }
  }

  // ---- How an entry is lost, and for how long.

  /** The routes wanted keep the prefix from the peer. */
  ghost predicate Forbids(desired: Routes, p: Prefix, a: Peer) {
    p in desired && desired[p].peers.Some? && a !in desired[p].peers.value
  }

  lemma ForbidsIs(desired: Routes, p: Prefix, a: Peer)
    ensures Forbids(desired, p, a) <==> p in DenyList(a, Limited(desired))
  {
  }

  /** This step is an update of the deny sets in which the edit of peer a fails after its IPv4 calls, and IPv4
      entry p is recorded and no longer wanted. */
  ghost predicate Loses(w: World, act: Act, a: Peer, p: Prefix) {
    && act.Sync? && a in act.done && 2 <= act.done[a] < 4
    && p.addr.V4? && p in At(w.net.denied, a) && !Forbids(act.desired, p, a)
  }

  ghost predicate Recorded(n: Net, a: Peer, p: Prefix) {
    a in n.live && p in At(n.denied, a)
  }

  /** Peer a lost entry p at step j, and in every state after it up to i the peer runs and the entry is
      recorded. */
  ghost predicate LostSince(t: Trace, j: nat, i: nat, a: Peer, p: Prefix) {
    && j < i < |t.ws| && j < |t.acts| && Loses(t.ws[j], t.acts[j], a, p)
    && forall k: nat :: j < k <= i ==> Recorded(t.ws[k].net, a, p)
  }

  lemma SyncLoss(w: World, act: Act, w': World, a: Peer, p: Prefix)
    requires Inv(w) && Step(w, act, w') && act.Sync? && a in w'.net.live
    ensures a in w.net.live
    ensures Lost(w'.net, a, p) <==> Recorded(w'.net, a, p) && (Lost(w.net, a, p) || Loses(w, act, a, p))
  {
    var held, have, want := At(w.net.deny, a), At(w.net.denied, a), DenyList(a, Limited(act.desired));
    ForbidsIs(act.desired, p, a);
    hide Limited, DenyList, Stage, Forbids;
    assert PeerEdit(held, have, want, At(w'.net.deny, a), At(w'.net.denied, a), act.done[a]);
    if have != want {
      EntryAfter(held, have, want, p, act.done[a]);
    }
  }

  lemma OtherLoss(w: World, act: Act, w': World, a: Peer, p: Prefix)
    requires Inv(w) && Step(w, act, w') && !act.Sync? && a in w'.net.live
    ensures Lost(w'.net, a, p) <==> a in w.net.live && Lost(w.net, a, p)
  {
    hide Limited, DenyList, OnTrack, PassMatches, Stale, MayAdvertise, Lost;
    if a in w.net.live {
      SetsStay(w, act, w', a);
      LostSame(w.net, w'.net, a, p);
    } else {
      assert act.Add? && act.a == a && act.ok;
      JustStarted(w, act, w', a, p);
    }
  }

  /** Only an update of the deny sets touches those of a peer that runs. */
  lemma SetsStay(w: World, act: Act, w': World, a: Peer)
    requires Inv(w) && Step(w, act, w') && !act.Sync? && a in w.net.live
    ensures At(w'.net.deny, a) == At(w.net.deny, a) && At(w'.net.denied, a) == At(w.net.denied, a)
  {
    hide Limited, DenyList, OnTrack, PassMatches, Stale, MayAdvertise, Shielded;
  }

  lemma LostSame(n: Net, n': Net, a: Peer, p: Prefix)
    requires At(n'.deny, a) == At(n.deny, a) && At(n'.denied, a) == At(n.denied, a)
    ensures Lost(n', a, p) <==> Lost(n, a, p)
  {
  }

  lemma JustStarted(w: World, act: Act, w': World, a: Peer, p: Prefix)
    requires Inv(w) && Step(w, act, w') && act.Add? && act.a == a && act.ok
    ensures !Lost(w'.net, a, p)
  {
    hide Limited, DenyList, OnTrack, PassMatches;
  }

  /** In one step, what is missing afterwards was missing before or is lost in it. */
  lemma StepLoss(w: World, act: Act, w': World, a: Peer, p: Prefix)
    requires Inv(w) && Step(w, act, w') && a in w'.net.live
    ensures Lost(w'.net, a, p) <==>
        Recorded(w'.net, a, p) && ((a in w.net.live && Lost(w.net, a, p)) || Loses(w, act, a, p))
  {
    hide Inv, Step, Forbids;
    if act.Sync? {
      SyncLoss(w, act, w', a, p);
    } else {
      OtherLoss(w, act, w', a, p);
    }
  }

  lemma LostNext(t: Trace, i: nat, i': nat, a: Peer, p: Prefix)
    requires i' == i + 1 && i < |t.acts| && i' < |t.ws| && Inv(t.ws[i]) && Step(t.ws[i], t.acts[i], t.ws[i'])
    requires a in t.ws[i'].net.live
    requires a in t.ws[i].net.live ==> (Lost(t.ws[i].net, a, p) <==> exists j: nat :: LostSince(t, j, i, a, p))
    ensures Lost(t.ws[i'].net, a, p) <==> exists j: nat :: LostSince(t, j, i', a, p)
  {
    hide Inv, Step, Loses, Lost;
    StepLoss(t.ws[i], t.acts[i], t.ws[i'], a, p);
    if Lost(t.ws[i'].net, a, p) {
      if Loses(t.ws[i], t.acts[i], a, p) {
        assert LostSince(t, i, i', a, p);
      } else {
        var j: nat :| LostSince(t, j, i, a, p);
        assert LostSince(t, j, i', a, p);
      }
    }
    if j: nat :| LostSince(t, j, i', a, p) {
      assert Recorded(t.ws[i'].net, a, p);
      if j < i {
        assert LostSince(t, j, i, a, p) && Recorded(t.ws[i].net, a, p);
      }
    }
  }

  lemma NoneAtStart(t: Trace, a: Peer, p: Prefix)
    requires Behaviour(t)
    ensures !Lost(t.ws[0].net, a, p) && forall j: nat :: !LostSince(t, j, 0, a, p)
  {
  }

  /** Exactly when the speaker records an entry that a running peer's deny set does not hold: an edit of
      that peer failed after deleting it, and ever since the peer has run and the entry has been
      recorded, so that every later edit took it to be there. */
  lemma {:induction false} LostIff(t: Trace, i: nat, a: Peer, p: Prefix)
    requires Behaviour(t) && i < |t.ws| && a in t.ws[i].net.live
    ensures Lost(t.ws[i].net, a, p) <==> exists j: nat :: LostSince(t, j, i, a, p)
  {
    hide Inv, Step, LostSince, Lost, Start;
    if i == 0 {
      NoneAtStart(t, a, p);
    } else {
      AlwaysInv(t, i - 1);
      assert t.Steps(i - 1);
      if a in t.ws[i - 1].net.live {
        LostIff(t, i - 1, a, p);
      }
      LostNext(t, i - 1, i, a, p);
    }
  }

  // ---- What it is for.

  /** A limited route in the table must not reach the peer, which runs. */
  ghost predicate KeptFrom(n: Net, p: Prefix, a: Peer) {
    p in n.rib && n.rib[p].peers.Some? && a in n.live && a !in n.rib[p].peers.value
  }

  /** Throughout a pass whose deny sets are up to date, in any interleaving, a running peer is kept
      from a route it must not get, peers added during the pass included, if and only if that very
      entry of its deny set is not lost. */
  lemma PassBlocksIff(t: Trace, i: nat, p: Prefix, a: Peer)
    requires Behaviour(t) && i < |t.ws| && t.ws[i].pass.Working? && t.ws[i].pass.denyOk
    requires Forbids(t.ws[i].pass.desired, p, a) && a in t.ws[i].net.live
    ensures Blocked(t.ws[i].net, p, a) <==> !Lost(t.ws[i].net, a, p)
    ensures Blocked(t.ws[i].net, p, a) <==> !exists j: nat :: LostSince(t, j, i, a, p)
  {
    AlwaysInv(t, i);
    LostIff(t, i, a, p);
    ForbidsIs(t.ws[i].pass.desired, p, a);
    hide Limited, OnTrack, LostSince, PeersMatch;
  }

  /** So it is whenever a route limited to some peers is handed to gobgp. */
  lemma HandedOverSafely(t: Trace, i: nat)
    requires Behaviour(t) && i < |t.acts| && t.acts[i].Advertise?
    ensures t.ws[i].pass.Working? && t.acts[i].p in t.ws[i].pass.desired
    ensures forall a :: a in t.ws[i].net.live && Forbids(t.ws[i].pass.desired, t.acts[i].p, a) ==>
        && (Blocked(t.ws[i].net, t.acts[i].p, a) <==> !Lost(t.ws[i].net, a, t.acts[i].p))
        && (Blocked(t.ws[i].net, t.acts[i].p, a) <==> !exists j: nat :: LostSince(t, j, i, a, t.acts[i].p))
  {
    assert t.Steps(i);
    hide Behaviour, LostSince, Blocked, Lost;
    forall a | a in t.ws[i].net.live && Forbids(t.ws[i].pass.desired, t.acts[i].p, a)
      ensures Blocked(t.ws[i].net, t.acts[i].p, a) <==> !Lost(t.ws[i].net, a, t.acts[i].p)
      ensures Blocked(t.ws[i].net, t.acts[i].p, a) <==> !exists j: nat :: LostSince(t, j, i, a, t.acts[i].p)
    {
      PassBlocksIff(t, i, t.acts[i].p, a);
    }
  }

  /** In every state from the end of an error-free pass to the next one, whatever SetPeers is in the
      middle of, the routes advertised are the routes in gobgp, and no limited route reaches a peer
      outside its list if and only if no entry that keeps one from a peer is lost. */
  lemma RestIsSafe(t: Trace, i: nat)
    requires Behaviour(t) && i < |t.ws| && t.ws[i].pass == Resting(true)
    ensures t.ws[i].net.advertised == t.ws[i].net.rib
    ensures NoLeak(t.ws[i].net) <==> forall p, a :: KeptFrom(t.ws[i].net, p, a) ==> !Lost(t.ws[i].net, a, p)
  {
    AlwaysInv(t, i);
    var n := t.ws[i].net;
    forall p, a | KeptFrom(n, p, a)
      ensures Exposed(n, p, a) <==> Lost(n, a, p)
    {
      ForbidsIs(n.rib, p, a);
    }
    if !NoLeak(n) {
      var p, a :| Exposed(n, p, a) && !(n.rib[p].peers.None? || a in n.rib[p].peers.value);
      assert KeptFrom(n, p, a);
    }
  }

  /** The same in terms of the run: a leak at rest has a cause in an earlier pass, and every such cause
      is a leak. */
  lemma RestLeaksIff(t: Trace, i: nat)
    requires Behaviour(t) && i < |t.ws| && t.ws[i].pass == Resting(true)
    ensures NoLeak(t.ws[i].net) <==>
        !exists p, a, j: nat :: KeptFrom(t.ws[i].net, p, a) && LostSince(t, j, i, a, p)
  {
    hide Behaviour, LostSince, Lost, KeptFrom, NoLeak;
    RestIsSafe(t, i);
    forall p, a | KeptFrom(t.ws[i].net, p, a)
      ensures Lost(t.ws[i].net, a, p) <==> exists j: nat :: LostSince(t, j, i, a, p)
    {
      KeptRuns(t.ws[i].net, p, a);
      LostIff(t, i, a, p);
    }
  }

  lemma KeptRuns(n: Net, p: Prefix, a: Peer)
    requires KeptFrom(n, p, a)
    ensures a in n.live
  {
  }

  /** A pass that ends without an error has put exactly the wanted routes into gobgp, whatever
      SetPeers did meanwhile. */
  lemma CleanPassIsComplete(t: Trace, i: nat)
    requires Behaviour(t) && i < |t.acts| && t.acts[i].Finish? && t.ws[i + 1].pass == Resting(true)
    ensures t.ws[i].pass.Working? && t.ws[i + 1].net.rib == t.ws[i].pass.desired
  {
    AlwaysInv(t, i);
    assert t.Steps(i);
    DoneIsDesired(t.ws[i].net, t.ws[i].pass.desired);
  }

  // ---- The gap inside a pass.

  /** The peer is kept from the prefix after k calls of its edit. */
  ghost predicate StillHeld(n: Net, desired: Routes, p: Prefix, a: Peer, k: nat) {
    HeldAfter(p in At(n.deny, a), p in At(n.denied, a), Forbids(desired, p, a), p.addr.V4?, k)
  }

  /** When the edit succeeds: the prefix is still to be kept from the peer and its entry is not lost, or an edit
      or a drop that failed has left an entry behind unrecorded. */
  ghost predicate FineHeld(n: Net, desired: Routes, p: Prefix, a: Peer) {
    if Forbids(desired, p, a) then !Lost(n, a, p) else p in At(n.deny, a) && p !in At(n.denied, a)
  }

  lemma FineIs(n: Net, desired: Routes, p: Prefix, a: Peer)
    ensures StillHeld(n, desired, p, a, 4) <==> FineHeld(n, desired, p, a)
  {
  }

  /** A limited route in the table that must not reach a running peer does not, after the update. */
  ghost predicate AllHeld(n: Net, desired: Routes, done: map<Peer, nat>) {
    forall p, a :: KeptFrom(n, p, a) ==> a in done && StillHeld(n, desired, p, a, done[a])
  }

  /** "No limited route ever reaches another peer" is false in the middle of a pass: the deny sets
      follow the routes now wanted before the routes no longer wanted are withdrawn. After an update,
      whatever failed in it, no limited route reaches another peer exactly when every one in the table goes
      on being kept from every running peer it must not reach: by an entry that was held and is not
      deleted, or by one that is added. */
  lemma GapIff(t: Trace, i: nat)
    requires Behaviour(t) && i < |t.acts| && t.acts[i].Sync?
    ensures NoLeak(t.ws[i + 1].net) <==> AllHeld(t.ws[i].net, t.acts[i].desired, t.acts[i].done)
    ensures AllFine(t.acts[i].done) ==> (NoLeak(t.ws[i + 1].net) <==>
                forall p, a :: KeptFrom(t.ws[i].net, p, a) ==> FineHeld(t.ws[i].net, t.acts[i].desired, p, a))
  {
    AlwaysInv(t, i);
    assert t.Steps(i);
    var w, act, w' := t.ws[i], t.acts[i], t.ws[i + 1];
    hide Behaviour;
    forall p, a | KeptFrom(w.net, p, a)
      ensures a in act.done && (Exposed(w'.net, p, a) <==> !StillHeld(w.net, act.desired, p, a, act.done[a]))
    {
      HeldByEntry(w, act, w', p, a);
    }
    forall p, a
      ensures StillHeld(w.net, act.desired, p, a, 4) <==> FineHeld(w.net, act.desired, p, a)
    {
      FineIs(w.net, act.desired, p, a);
    }
    hide Step, StillHeld, FineHeld, KeptFrom;
    LeakIs(w.net, w'.net, act.desired, act.done);
  }

  lemma HeldByEntry(w: World, act: Act, w': World, p: Prefix, a: Peer)
    requires Inv(w) && Step(w, act, w') && act.Sync? && KeptFrom(w.net, p, a)
    ensures a in act.done && (Exposed(w'.net, p, a) <==> !StillHeld(w.net, act.desired, p, a, act.done[a]))
  {
    var held, have, want := At(w.net.deny, a), At(w.net.denied, a), DenyList(a, Limited(act.desired));
    ForbidsIs(act.desired, p, a);
    hide Limited, DenyList, Stage, Forbids;
    assert PeerEdit(held, have, want, At(w'.net.deny, a), At(w'.net.denied, a), act.done[a]);
    if have != want {
      EntryAfter(held, have, want, p, act.done[a]);
    }
  }

  lemma LeakIs(n: Net, n': Net, desired: Routes, done: map<Peer, nat>)
    requires n'.rib == n.rib && n'.live == n.live
    requires forall p, a :: KeptFrom(n, p, a) ==>
        a in done && (Exposed(n', p, a) <==> !StillHeld(n, desired, p, a, done[a]))
    ensures NoLeak(n') <==> AllHeld(n, desired, done)
  {
    hide StillHeld;
    if !NoLeak(n') {
      var p, a :| Exposed(n', p, a) && !(n'.rib[p].peers.None? || a in n'.rib[p].peers.value);
      assert KeptFrom(n, p, a);
    }
  }
}
