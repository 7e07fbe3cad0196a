/** The other half of limiting routes: that a route reaches every peer it may, and exactly what keeps
    it from one (internal/bgp/bgp.go, peerselect.go). */
module BgpReach {
  import opened Common
  import opened Types
  import opened BgpRoutes
  import opened BgpState
  import opened BgpSteps
  import opened BgpProtocol

  // ---- How an entry is left behind, and for how long.

  /** After this step gobgp holds an entry for p that nothing records: an edit of peer a's set fails after
      adding it; a peer that is stopped, or fails to start, leaves it behind because its set is not
      deleted; or creating the peer's limits fails after its set is defined. */
  ghost predicate LeavesBehind(w: World, act: Act, a: Peer, p: Prefix) {
    match act
    case Sync(desired, done) =>
      && a in done && (if p.addr.V4? then 1 else 3) <= done[a] < 4
      && Forbids(desired, p, a) && p !in At(w.net.denied, a)
    case Drop(b, gone) => a == b && p.addr.V4? !in gone && p in At(w.net.denied, a) && p in At(w.net.deny, a)
    case Create(b, ok, _, put) => a == b && !ok && p.addr.V4? in put && p in DenyList(a, w.net.restrict)
    case Add(b, _, ok, gone) => a == b && !ok && p.addr.V4? !in gone && p in At(w.net.denied, a)
    case _ => false
  }

  /** The step deletes peer a's set of this family. */
  ghost predicate Clears(act: Act, a: Peer, v4: bool) {
    match act
    case Drop(b, gone) => a == b && v4 in gone
    case Create(b, _, gone, _) => a == b && v4 in gone
    case Add(b, _, ok, gone) => a == b && !ok && v4 in gone
    case _ => false
  }

  /** Entry p was left behind at step j, and since then it has not been recorded, nor its set deleted. */
  ghost predicate StraySince(t: Trace, j: nat, i: nat, a: Peer, p: Prefix) {
    && j < i < |t.ws| && i <= |t.acts| && LeavesBehind(t.ws[j], t.acts[j], a, p)
    && (forall k: nat :: j < k <= i ==> p !in At(t.ws[k].net.denied, a))
    && (forall k: nat :: j < k < i ==> !Clears(t.acts[k], a, p.addr.V4?))
  }

  ghost predicate StrayNext(w: World, act: Act, w': World, a: Peer, p: Prefix) {
    Stray(w'.net, a, p) <==>
      && p !in At(w'.net.denied, a)
      && ((Stray(w.net, a, p) && !Clears(act, a, p.addr.V4?)) || LeavesBehind(w, act, a, p))
  }

  lemma InsideIs(s: set<Prefix>, families: Families, p: Prefix)
    ensures p in Inside(s, families) <==> p in s && p.addr.V4? in families
    ensures p.addr.V4? in BOTH - families <==> p.addr.V4? !in families
  {
  }

  lemma SyncStray(w: World, act: Act, w': World, a: Peer, p: Prefix)
    requires Inv(w) && Step(w, act, w') && act.Sync?
    ensures StrayNext(w, act, w', a, p)
  {
    var held, have, want := At(w.net.deny, a), At(w.net.denied, a), DenyList(a, Limited(act.desired));
    ForbidsIs(act.desired, p, a);
    hide Limited, DenyList, Stage, Forbids, Inv;
    if a in w.net.peers {
      assert PeerEdit(held, have, want, At(w'.net.deny, a), At(w'.net.denied, a), act.done[a]);
      if have != want {
        EntryAfter(held, have, want, p, act.done[a]);
      }
    }
  }

  lemma DropStray(w: World, act: Act, w': World, a: Peer, p: Prefix)
    requires Inv(w) && Step(w, act, w') && act.Drop?
    ensures StrayNext(w, act, w', a, p)
  {
    hide Limited, DenyList, Inside, Inv;
    InsideIs(At(w.net.deny, a), BOTH - act.gone, p);
    InsideIs({}, act.gone, p);
  }

  lemma CreateStray(w: World, act: Act, w': World, a: Peer, p: Prefix)
    requires Inv(w) && Step(w, act, w') && act.Create?
    ensures StrayNext(w, act, w', a, p)
  {
    hide Limited, DenyList, Inside, OnTrack, PassMatches, RulesHold;
    InsideIs(At(w.net.deny, a), BOTH - act.gone, p);
    InsideIs({}, act.gone, p);
    InsideIs(DenyList(a, w.net.restrict), act.put, p);
  }

  lemma AddStray(w: World, act: Act, w': World, a: Peer, p: Prefix)
    requires Inv(w) && Step(w, act, w') && act.Add?
    ensures StrayNext(w, act, w', a, p)
  {
    hide Limited, DenyList, Inside, OnTrack, PassMatches, RulesHold;
    InsideIs(At(w.net.deny, a), BOTH - act.gone, p);
    InsideIs({}, act.gone, p);
  }

  lemma OtherStray(w: World, act: Act, w': World, a: Peer, p: Prefix)
    requires Step(w, act, w') && !act.Sync? && !act.Drop? && !act.Create? && !act.Add?
    ensures StrayNext(w, act, w', a, p)
  {
    hide Stale, MayAdvertise;
  }

  /** In one step, what is unrecorded afterwards was so before, in a set that is not deleted, or is left
      behind in it. */
  lemma StepStray(w: World, act: Act, w': World, a: Peer, p: Prefix)
    requires Inv(w) && Step(w, act, w')
    ensures StrayNext(w, act, w', a, p)
  {
    hide Inv, Step, StrayNext;
    match act
    case Sync(_, _) => SyncStray(w, act, w', a, p);
    case Drop(_, _) => DropStray(w, act, w', a, p);
    case Create(_, _, _, _) => CreateStray(w, act, w', a, p);
    case Add(_, _, _, _) => AddStray(w, act, w', a, p);
    case _ => OtherStray(w, act, w', a, p);
  }

  lemma StraySoFar(t: Trace, i: nat, i': nat, a: Peer, p: Prefix)
    requires i' == i + 1 && i < |t.acts| && i' < |t.ws| && Inv(t.ws[i]) && Step(t.ws[i], t.acts[i], t.ws[i'])
    requires Stray(t.ws[i].net, a, p) <==> exists j: nat :: StraySince(t, j, i, a, p)
    ensures Stray(t.ws[i'].net, a, p) <==> exists j: nat :: StraySince(t, j, i', a, p)
  {
    hide Inv, Step, LeavesBehind, Clears, Stray, At, StraySince;
    StepStray(t.ws[i], t.acts[i], t.ws[i'], a, p);
    if Stray(t.ws[i'].net, a, p) {
      if LeavesBehind(t.ws[i], t.acts[i], a, p) {
        LeftNow(t, i, a, p);
      } else {
        var j: nat :| StraySince(t, j, i, a, p);
        StillStray(t, j, i, a, p);
      }
    }
    if j: nat :| StraySince(t, j, i', a, p) {
      StrayBefore(t, j, i, a, p);
    }
  }

  lemma LeftNow(t: Trace, i: nat, a: Peer, p: Prefix)
    requires i < |t.acts| && i + 1 < |t.ws| && LeavesBehind(t.ws[i], t.acts[i], a, p)
    requires p !in At(t.ws[i + 1].net.denied, a)
    ensures StraySince(t, i, i + 1, a, p)
  {
    hide LeavesBehind, At;
  }

  lemma StillStray(t: Trace, j: nat, i: nat, a: Peer, p: Prefix)
    requires i < |t.acts| && i + 1 < |t.ws| && StraySince(t, j, i, a, p)
    requires p !in At(t.ws[i + 1].net.denied, a) && !Clears(t.acts[i], a, p.addr.V4?)
    ensures StraySince(t, j, i + 1, a, p)
  {
    hide LeavesBehind, At, Clears;
  }

  lemma StrayBefore(t: Trace, j: nat, i: nat, a: Peer, p: Prefix)
    requires StraySince(t, j, i + 1, a, p)
    ensures p !in At(t.ws[i + 1].net.denied, a)
    ensures if j == i then LeavesBehind(t.ws[i], t.acts[i], a, p)
            else StraySince(t, j, i, a, p) && !Clears(t.acts[i], a, p.addr.V4?)
  {
    hide LeavesBehind, At, Clears;
  }

  lemma NoStrayAtStart(t: Trace, a: Peer, p: Prefix)
    requires Behaviour(t)
    ensures !Stray(t.ws[0].net, a, p) && forall j: nat :: !StraySince(t, j, 0, a, p)
  {
  }

  /** Exactly when gobgp holds an entry of a peer's deny set that the speaker does not record: a step
      that failed left it behind, and since then it has not been recorded, nor its set deleted. */
  lemma {:induction false} StrayIff(t: Trace, i: nat, a: Peer, p: Prefix)
    requires Behaviour(t) && i < |t.ws|
    ensures Stray(t.ws[i].net, a, p) <==> exists j: nat :: StraySince(t, j, i, a, p)
  {
    hide Inv, Step, StraySince, Stray, Start;
    if i == 0 {
      NoStrayAtStart(t, a, p);
    } else {
      AlwaysInv(t, i - 1);
      assert t.Steps(i - 1);
      StrayIff(t, i - 1, a, p);
      StraySoFar(t, i - 1, i, a, p);
    }
  }

  // ---- Who has a route.

  /** The route in the table is for this peer. */
  ghost predicate MayHave(n: Net, p: Prefix, a: Peer)
    requires p in n.rib
  {
    n.rib[p].peers.None? || a in n.rib[p].peers.value
  }

  /** In every state at rest, in any interleaving and whatever has failed: a route reaches a running peer
      it is for exactly unless a stray entry blocks it, and one it is not for exactly if the entry that
      should block it is lost. */
  lemma ReachesIff(t: Trace, i: nat, p: Prefix, a: Peer)
    requires Behaviour(t) && i < |t.ws| && t.ws[i].pass == Resting(true)
    ensures var n := t.ws[i].net;
            Exposed(n, p, a) <==>
              p in n.rib && a in n.live && if MayHave(n, p, a) then !Stray(n, a, p) else Lost(n, a, p)
  {
    AlwaysInv(t, i);
    ForbidsIs(t.ws[i].net.rib, p, a);
    hide Limited, DenyList, PeersMatch, OthersUnrecorded;
  }

  /** The same in terms of the run: what keeps a route from a running peer it is for is an entry that a
      failed step left behind, and every such entry does. */
  lemma WithheldIff(t: Trace, i: nat, p: Prefix, a: Peer)
    requires Behaviour(t) && i < |t.ws| && t.ws[i].pass == Resting(true)
    requires p in t.ws[i].net.rib && a in t.ws[i].net.live && MayHave(t.ws[i].net, p, a)
    ensures !Exposed(t.ws[i].net, p, a) <==> exists j: nat :: StraySince(t, j, i, a, p)
  {
    hide Behaviour, StraySince, Stray, Lost, Exposed;
    ReachesIff(t, i, p, a);
    StrayIff(t, i, a, p);
  }

  /** The steps up to here are tidy. */
  ghost predicate TidySoFar(t: Trace, i: nat) {
    forall j: nat :: j < i && j < |t.acts| ==> Tidy(t.acts[j])
  }

  lemma TidyCausesNothing(w: World, act: Act, a: Peer, p: Prefix)
    requires Inv(w) && Tidy(act)
    ensures !LeavesBehind(w, act, a, p) && !Loses(w, act, a, p)
  {
    hide Forbids, DenyList;
  }

  /** In every state at rest of a behaviour in which no edit of a deny set, no removal and no start of a
      peer has failed, every route reaches exactly the running peers it is for. */
  lemma EveryoneServed(t: Trace, i: nat, p: Prefix, a: Peer)
    requires Behaviour(t) && i < |t.ws| && t.ws[i].pass == Resting(true) && TidySoFar(t, i)
    ensures var n := t.ws[i].net;
            Exposed(n, p, a) <==> p in n.rib && a in n.live && (n.rib[p].peers.None? || a in n.rib[p].peers.value)
  {
    hide Behaviour, Stray, Lost, Exposed, LeavesBehind, Loses, Tidy, Inv;
    ReachesIff(t, i, p, a);
    StrayIff(t, i, a, p);
    if a in t.ws[i].net.live {
      LostIff(t, i, a, p);
    }
    forall j: nat | j < i && j < |t.acts|
      ensures !LeavesBehind(t.ws[j], t.acts[j], a, p) && !Loses(t.ws[j], t.acts[j], a, p)
    {
      AlwaysInv(t, j);
      TidyCausesNothing(t.ws[j], t.acts[j], a, p);
    }
  }
}
