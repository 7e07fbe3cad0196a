/** The speaker's own code: a resync pass, and SetPeers, with every gobgp call liable to fail. */
module BgpSpeaker {
  import opened Common
  import opened Types
  import opened BgpRoutes
  import opened BgpState
  import opened BgpSteps

  datatype PeerChanges = PeerChanges(added: nat, removed: nat, updated: nat)

  class Speaker {
    /** Whether gobgp's n-th call succeeds. */
    const answers: nat -> bool
    var calls: nat
    var rib: Routes
    var live: set<Peer>
    var deny: DenySets
    var ruled: set<Peer>
    var advertised: Routes
    var peers: map<Peer, Settings>
    var restrict: map<Prefix, set<Peer>>
    var denied: DenySets

    ghost function State(): Net
      reads this
    {
      Net(rib, live, deny, ruled, advertised, peers, restrict, denied)
    }

    constructor (answers: nat -> bool)
      ensures this.answers == answers && calls == 0 && State() == Net(map[], {}, map[], {}, map[], map[], map[], map[])
    {
      this.answers := answers;
      calls, rib, live, deny, ruled := 0, map[], {}, map[], {};
      advertised, peers, restrict, denied := map[], map[], map[], map[];
    }

    /** One call to gobgp. */
    method Call() returns (ok: bool)
      modifies this`calls
      ensures ok == answers(old(calls)) && calls == old(calls) + 1
    {
      ok := answers(calls);
      calls := calls + 1;
    }

    // ---- Deny sets.

    /** editPrefixSet, on one family of peer a's deny set; a call that would change nothing is not
        made. done counts the calls whose effect is in place. */
    method EditPrefixSet(a: Peer, have: set<Prefix>, want: set<Prefix>) returns (ok: bool, ghost done: nat)
      modifies this`calls, this`deny
      ensures forall b :: b != a ==> At(deny, b) == old(At(deny, b))
      ensures done <= 2 && (ok <==> done == 2)
      ensures old(calls) <= calls && (ok <==> Smooth(answers, old(calls), calls))
      ensures At(deny, a) == if done == 0 then old(At(deny, a))
                             else if done == 1 then old(At(deny, a)) + (want - have)
                             else old(At(deny, a)) + (want - have) - (have - want)
    {
      hide Smooth;
      var add, del := want - have, have - want;
      ok, done := true, 0;
      SmoothNone(answers, calls);
      if add != {} {
        ok := Call();
        SmoothOne(answers, old(calls), old(calls), ok);
        if !ok {
          return;
        }
        deny := deny[a := At(deny, a) + add];
      }
      done := 1;
      if del != {} {
        ghost var made := calls;
        ok := Call();
        SmoothOne(answers, old(calls), made, ok);
        if !ok {
          return;
        }
        deny := deny[a := At(deny, a) - del];
      }
      done := 2;
    }

    /** editDeny: IPv4 first, then IPv6. */
    method EditDeny(a: Peer, have: set<Prefix>, want: set<Prefix>) returns (ok: bool, ghost done: nat)
      modifies this`calls, this`deny
      ensures forall b :: b != a ==> At(deny, b) == old(At(deny, b))
      ensures done <= 4 && (ok <==> done == 4) && At(deny, a) == Stage(old(At(deny, a)), have, want, done)
      ensures old(calls) <= calls && (ok <==> Smooth(answers, old(calls), calls))
    {
      hide Smooth;
      ghost var held := At(deny, a);
      ok, done := EditPrefixSet(a, OfFamily(have, true), OfFamily(want, true));
      Stages(held, have, want);
      if !ok {
        return;
      }
      ghost var made := calls;
      ok, done := EditPrefixSet(a, OfFamily(have, false), OfFamily(want, false));
      SmoothJoin(answers, old(calls), made, calls);
      done := done + 2;
    }

    /** syncDenySets: one peer that cannot be brought up to date does not stop the others, but the
        caller learns of it. */
    method SyncDenySets(desired: Routes) returns (ok: bool, ghost done: map<Peer, nat>)
      modifies this`calls, this`deny, this`denied, this`restrict
      ensures Synced(old(State()), desired, State(), done) && (ok <==> AllFine(done))
      ensures old(calls) <= calls && (ok <==> Smooth(answers, old(calls), calls))
    {
      hide PeerEdit, Limited, DenyList, SyncedFor, Smooth, AllFine;
      ghost var n := State();
      restrict := Limited(desired);
      ok, done := true, map[];
      SmoothNone(answers, calls);
      assert AllFine(map[]) by { NobodyFails(); }
      NobodySynced(n, desired);
      var todo := peers.Keys;
      while todo != {}
        invariant todo <= peers.Keys && done.Keys == peers.Keys - todo && (ok <==> AllFine(done))
        invariant SyncedFor(n, desired, State(), done)
        invariant old(calls) <= calls && (ok <==> Smooth(answers, old(calls), calls))
      {
        var a :| a in todo;
        ghost var was, before, made := done, State(), calls;
        var good;
        ghost var k;
        good, k := SyncPeer(a, DenyList(a, restrict));
        SmoothJoin(answers, old(calls), made, calls);
        ok := ok && good;
        done := done[a := k];
        SyncedNext(n, desired, before, was, State(), a, k);
        todo := todo - {a};
      }
      SyncedAll(n, desired, State(), done);
    }

    method SyncPeer(a: Peer, want: set<Prefix>) returns (ok: bool, ghost done: nat)
      modifies this`calls, this`deny, this`denied
      ensures PeerEdit(old(At(deny, a)), old(At(denied, a)), want, At(deny, a), At(denied, a), done)
          && (ok <==> done == 4)
      ensures forall b :: b != a ==> At(deny, b) == old(At(deny, b)) && At(denied, b) == old(At(denied, b))
      ensures old(calls) <= calls && (ok <==> Smooth(answers, old(calls), calls))
    {
      hide Stage, Smooth;
      if At(denied, a) == want {
        SmoothNone(answers, calls);
        return true, 4;
      }
      ok, done := EditDeny(a, At(denied, a), want);
      if ok {
        denied := denied[a := want];
      }
    }

    // ---- Peers.

    /** dropPeerLimits: best effort, in the order gobgp requires: the rule is taken out of force, then
        deleted, then the two deny sets and the neighbour set it used. If every call succeeds nothing
        of the peer's is left. */
    method DropPeerLimits(a: Peer) returns (ghost gone: Families)
      modifies this`calls, this`deny, this`ruled, this`denied
      ensures LimitsDropped(old(State()), a, State(), gone) && calls == old(calls) + 5
      ensures Smooth(answers, old(calls), calls) ==> a !in ruled && gone == BOTH
    {
      hide Inside, OfFamily, Gone;
      ghost var n := State();
      DropRule(a);
      var gone4 := DropFamily(a, true);
      var gone6 := DropFamily(a, false);
      var unnamed := Call();
      denied := denied - {a};
      gone := Gone(gone4, gone6);
      WhatIsLeft(At(n.deny, a), gone4, gone6);
    }

    method DropRule(a: Peer)
      modifies this`calls, this`ruled
      ensures calls == old(calls) + 2
      ensures ruled == if answers(old(calls)) || answers(old(calls) + 1) then old(ruled) - {a} else old(ruled)
    {
      var unassigned := Call();
      var undefined := Call();
      if unassigned || undefined {
        ruled := ruled - {a};
      }
    }

    /** One of the peer's two deny sets is deleted. */
    method DropFamily(a: Peer, v4: bool) returns (gone: bool)
      modifies this`calls, this`deny
      ensures gone == answers(old(calls)) && calls == old(calls) + 1
      ensures forall b :: b != a ==> At(deny, b) == old(At(deny, b))
      ensures At(deny, a) == if gone then OfFamily(old(At(deny, a)), !v4) else old(At(deny, a))
    {
      gone := Call();
      if gone {
        deny := deny[a := OfFamily(At(deny, a), !v4)];
      }
    }

    /** createPeerLimits: what a previous peer left behind is cleared, then come the neighbour set and the
        two deny sets, then the rule, then its being put in force; only a complete rule is recorded. If
        no call fails, the peer is denied exactly what it must not receive. */
    method CreatePeerLimits(a: Peer) returns (ok: bool, ghost gone: Families, ghost put: Families)
      modifies this`calls, this`deny, this`ruled, this`denied
      ensures LimitsCreated(old(State()), a, State(), ok, gone, put)
      ensures old(calls) <= calls && (Smooth(answers, old(calls), calls) ==> ok && gone == BOTH)
    {
      hide Smooth, DenyList, LimitsOf, LimitsCreated, Inside;
      ghost var n := State();
      var list := DenyList(a, restrict);
      gone := DropPeerLimits(a);
      ghost var dropped, from := State(), calls;
      ok, put := DefineLimits(a, list);
      SmoothJoin(answers, old(calls), from, calls);
      if ok {
        denied := denied[a := list];
      }
      CreatedFrom(n, a, dropped, State(), list, ok, gone, put);
    }

    /** The neighbour set, the deny sets and the rule. */
    method DefineLimits(a: Peer, list: set<Prefix>) returns (ok: bool, ghost put: Families)
      modifies this`calls, this`deny, this`ruled
      ensures old(calls) <= calls && (ok <==> Smooth(answers, old(calls), calls))
      ensures forall b :: b != a ==> At(deny, b) == old(At(deny, b)) && (b in ruled <==> b in old(ruled))
      ensures At(deny, a) == old(At(deny, a)) + Inside(list, put) && (ok ==> put == BOTH && a in ruled)
    {
      hide Smooth, Inside;
      SmoothNone(answers, calls);
      ok := Call();
      put := {};
      AllInside(list);
      SmoothOne(answers, old(calls), old(calls), ok);
      if !ok {
        return;
      }
      ok, put := DefineDenySets(a, list, old(calls));
      if !ok {
        return;
      }
      ok := PutRule(a, old(calls));
    }

    /** The rule is defined, and put in force. */
    method PutRule(a: Peer, ghost from: nat) returns (ok: bool)
      requires from <= calls && Smooth(answers, from, calls)
      modifies this`calls, this`ruled
      ensures old(calls) <= calls && (ok <==> Smooth(answers, from, calls))
      ensures ruled == if ok then old(ruled) + {a} else old(ruled)
    {
      hide Smooth;
      ok := Call();
      SmoothOne(answers, from, old(calls), ok);
      if ok {
        ok := Call();
        SmoothOne(answers, from, old(calls) + 1, ok);
      }
      if ok {
        ruled := ruled + {a};
      }
    }

    /** The two deny sets, in either order. */
    method DefineDenySets(a: Peer, list: set<Prefix>, ghost from: nat) returns (ok: bool, ghost put: Families)
      requires from <= calls && Smooth(answers, from, calls)
      modifies this`calls, this`deny
      ensures old(calls) <= calls && (ok <==> Smooth(answers, from, calls))
      ensures forall b :: b != a ==> At(deny, b) == old(At(deny, b))
      ensures At(deny, a) == old(At(deny, a)) + Inside(list, put) && (ok ==> put == BOTH)
    {
      hide Smooth, Inside;
      ok, put := true, {};
      AllInside(list);
      var todo := {true, false};
      while ok && todo != {}
        invariant old(calls) <= calls && (ok <==> Smooth(answers, from, calls))
        invariant forall b :: b != a ==> At(deny, b) == old(At(deny, b))
        invariant At(deny, a) == old(At(deny, a)) + Inside(list, put)
        invariant todo <= BOTH && (ok ==> put == BOTH - todo)
        decreases todo, ok
      {
        var v4 :| v4 in todo;
        ghost var made := calls;
        ok := Call();
        SmoothOne(answers, from, made, ok);
        if ok {
          deny := deny[a := At(deny, a) + OfFamily(list, v4)];
          MoreInside(list, put, v4);
          put := put + {v4};
        }
        todo := todo - {v4};
      }
    }

    /** addPeer: the limits go in before the session. */
    method AddPeer(a: Peer, settings: Settings, ghost t: Trace, ghost w0: World, ghost pass: Pass)
      returns (ok: bool, ghost t': Trace)
      requires a !in peers && Leads(t, w0, World(State(), pass, IDLE))
      modifies this`calls, this`deny, this`ruled, this`denied, this`live, this`peers
      ensures PeerAdded(old(State()), a, settings, State(), ok)
      ensures old(calls) <= calls
      ensures Smooth(answers, old(calls), calls) ==>
          ok && At(deny, a) == DenyList(a, restrict) && (AllTidy(t) ==> AllTidy(t'))
      ensures Leads(t', w0, World(State(), pass, IDLE))
    {
      hide DenyList, Smooth, Leads, LimitsCreated, LimitsDropped, Shielded, LimitsOf, PeerAdded, AllTidy, Step, AllFine;
      ghost var n := State();
      t' := t;
      ghost var gone, put;
      ok, gone, put := CreatePeerLimits(a);
      t' := CreatedSteps(t, w0, n, State(), pass, a, ok, gone, put, settings);
      if !ok {
        return;
      }
      ghost var ready, made, mid := State(), calls, t';
      ok := Call();
      SmoothNone(answers, old(calls));
      SmoothJoin(answers, old(calls), made, calls);
      SmoothNone(answers, made);
      SmoothOne(answers, made, made, ok);
      if !ok {
        ghost var before := calls;
        gone := DropPeerLimits(a);
        SmoothJoin(answers, old(calls), before, calls);
        AddFailedSteps(mid, w0, n, ready, State(), pass, a, settings, gone);
        t' := Then(t', Add(a, settings, false, gone), World(State(), pass, IDLE));
        return;
      }
      live := live + {a};
      peers := peers[a := settings];
      AddedSteps(mid, w0, n, ready, State(), pass, a, settings);
      t' := Then(t', Add(a, settings, true, {}), World(State(), pass, IDLE));
      ThenTidy(mid, Add(a, settings, true, {}), World(State(), pass, IDLE));
    }

    /** A peer's session is ended before its limits are dropped. */
    method StopPeer(a: Peer, ghost t: Trace, ghost w0: World, ghost pass: Pass)
      returns (ok: bool, ghost t': Trace)
      requires a in peers && Leads(t, w0, World(State(), pass, IDLE))
      modifies this`calls, this`deny, this`ruled, this`denied, this`live, this`peers
      ensures PeerStopped(old(State()), a, State(), ok)
      ensures old(calls) <= calls && (Smooth(answers, old(calls), calls) ==> ok && (AllTidy(t) ==> AllTidy(t')))
      ensures Leads(t', w0, World(State(), pass, IDLE))
    {
      hide Leads, LimitsDropped, Smooth, Step, PeerStopped, AllTidy;
      ghost var n := State();
      ok := Call();
      SmoothNone(answers, old(calls));
      SmoothOne(answers, old(calls), old(calls), ok);
      if !ok {
        t' := StaysSteps(t, w0, n, pass, a);
        return;
      }
      live := live - {a};
      ghost var ended := State();
      ghost var gone := DropPeerLimits(a);
      SmoothJoin(answers, old(calls), old(calls) + 1, calls);
      ghost var dropped := State();
      peers := peers - {a};
      t' := StoppedSteps(t, w0, n, ended, dropped, State(), pass, a, gone);
    }

    /** The first half of SetPeers: peers that are to go, or to be restarted with other settings, are
        stopped. */
    method StopPeers(want: map<Peer, Settings>, ghost t: Trace, ghost w0: World, ghost pass: Pass)
      returns (removed: nat, restarted: set<Peer>, ok: bool, ghost t': Trace)
      requires peers.Keys == live && Leads(t, w0, World(State(), pass, IDLE))
      modifies this`calls, this`deny, this`ruled, this`denied, this`live, this`peers
      ensures Stopped(old(State()), State(), want, {}, ok)
          && StopCount(old(peers), want, {}, restarted, old(peers).Keys - want.Keys, ok)
      ensures ok ==> removed == |old(peers).Keys - want.Keys|
      ensures old(calls) <= calls && (Smooth(answers, old(calls), calls) ==> ok && (AllTidy(t) ==> AllTidy(t')))
      ensures Leads(t', w0, World(State(), pass, IDLE))
    {
      hide Stopped, StopCount, PeerStopped, Leads, Smooth, Step, AsWanted, Untouched, Changed, AllTidy;
      ghost var was := State();
      removed, restarted, ok, t' := 0, {}, true, t;
      ghost var gone: set<Peer> := {};
      var todo := peers.Keys;
      NoneStopped(was, want);
      while todo != {}
        invariant todo <= was.peers.Keys && Stopped(was, State(), want, todo, ok)
        invariant StopCount(was.peers, want, todo, restarted, gone, ok) && removed == |gone|
        invariant old(calls) <= calls && (Smooth(answers, old(calls), calls) ==> ok && (AllTidy(t) ==> AllTidy(t')))
        invariant Leads(t', w0, World(State(), pass, IDLE))
      {
        var a :| a in todo;
        ghost var n, made, before := State(), calls, t';
        StopRest(was, n, want, todo, ok, a);
        var good, acted := true, !(a in want && want[a] == peers[a]);
        if acted {
          good, t' := StopPeer(a, t', w0, pass);
        }
        StopTurn(was, n, State(), want, todo, ok, a, acted, good);
        StopCountTurn(was.peers, want, todo, restarted, gone, ok, a, acted, good);
        SmoothTurn(answers, old(calls), made, calls, ok && (AllTidy(t) ==> AllTidy(before)),
          good && (AllTidy(before) ==> AllTidy(t')));
        if acted && good {
          if a in want {
            restarted := restarted + {a};
          } else {
            OnePeerMore(gone, a);
            removed, gone := removed + 1, gone + {a};
          }
        }
        ok := ok && good;
        todo := todo - {a};
      }
      CountDone(was.peers, want, restarted, gone, ok);
    }

    /** SetPeers: if no call fails, exactly the wanted peers run, with the wanted settings, each
        denied everything it must not receive, and the counts say what changed; a peer that was
        already as wanted is left alone in any case. Every run of it is a sequence of steps of the
        protocol. */
    method SetPeers(want: map<Peer, Settings>, ghost pass: Pass)
      returns (changes: PeerChanges, ok: bool, ghost t: Trace)
      requires peers.Keys == live
      modifies this`calls, this`deny, this`ruled, this`denied, this`live, this`peers
      ensures PeersSet(old(State()), State(), want, ok)
      ensures ok ==> && changes.removed == |old(peers).Keys - want.Keys|
                     && changes.added == |want.Keys - old(peers).Keys|
                     && changes.updated == |Changed(old(peers), want)|
      ensures old(calls) <= calls
      ensures Smooth(answers, old(calls), calls) ==>
          ok && peers == want && Exactly(old(State()), State(), want) && AllTidy(t)
      ensures Leads(t, World(old(State()), pass, Free), World(State(), pass, Free))
    {
      hide Stopped, StopCount, Started, StartCount, Changed, Leads, Smooth, PeersSet, Step, AllTidy, Exactly, Tight;
      ghost var was := State();
      ghost var w0 := World(was, pass, Free);
      BegunLeads(w0);
      LockLeads(Begun(w0), w0, w0, Take, World(was, pass, IDLE));
      t := Then(Begun(w0), Take, World(was, pass, IDLE));
      TakenTidy(w0, World(was, pass, IDLE));
      var removed, restarted, clean;
      removed, restarted, clean, t := StopPeers(want, t, w0, pass);
      ghost var kept, made := State(), calls;
      NoneStarted(was, kept, want, restarted, clean);
      var added, updated;
      ghost var brandNew, again;
      added, updated, ok, brandNew, again, t := StartPeers(want, restarted, clean, t, w0, pass);
      SmoothJoin(answers, old(calls), made, calls);
      changes := PeerChanges(added, removed, updated);
      AllStarted(was, kept, State(), want, clean, ok);
      if ok {
        PeersAre(was, State(), want);
        StartCounted(was, kept, want, restarted, brandNew, again);
        TightIsExact(was, kept, State(), want);
      }
      ghost var w := World(State(), pass, Free);
      LockLeads(t, w0, w.(lock := IDLE), Release, w);
      ThenTidy(t, Release, w);
      t := Then(t, Release, w);
    }

    /** The second half of SetPeers: wanted peers that do not run are started. */
    method StartPeers(want: map<Peer, Settings>, restarted: set<Peer>, clean: bool, ghost t: Trace, ghost w0: World,
        ghost pass: Pass)
      returns (added: nat, updated: nat, ok: bool, ghost brandNew: set<Peer>, ghost again: set<Peer>, ghost t': Trace)
      requires Started(State(), State(), want, want.Keys, clean)
          && StartCount(peers.Keys, want.Keys, restarted, want.Keys, {}, {}, clean)
      requires Leads(t, w0, World(State(), pass, IDLE))
      modifies this`calls, this`deny, this`ruled, this`denied, this`live, this`peers
      ensures Started(old(State()), State(), want, {}, ok) && (ok ==> clean)
      ensures StartCount(old(peers).Keys, want.Keys, restarted, {}, brandNew, again, ok) && added == |brandNew|
          && updated == |again|
      ensures old(calls) <= calls && (Smooth(answers, old(calls), calls) && clean ==> ok)
      ensures Smooth(answers, old(calls), calls) ==> Tight(old(State()), State()) && (AllTidy(t) ==> AllTidy(t'))
      ensures Leads(t', w0, World(State(), pass, IDLE))
    {
      hide Started, StartCount, PeerAdded, Leads, Smooth, Step, AsWanted, Untouched, Shielded, AllTidy, Tight;
      ghost var kept := State();
      added, updated, ok, t' := 0, 0, clean, t;
      brandNew, again := {}, {};
      NobodyNew(kept);
      var todo := want.Keys;
      while todo != {}
        invariant todo <= want.Keys && (ok ==> clean)
        invariant Started(kept, State(), want, todo, ok) && added == |brandNew| && updated == |again|
        invariant StartCount(kept.peers.Keys, want.Keys, restarted, todo, brandNew, again, ok)
        invariant old(calls) <= calls && (Smooth(answers, old(calls), calls) && clean ==> ok)
        invariant Smooth(answers, old(calls), calls) ==> Tight(kept, State()) && (AllTidy(t) ==> AllTidy(t'))
        invariant Leads(t', w0, World(State(), pass, IDLE))
      {
        var a :| a in todo;
        ghost var n, made := State(), calls;
        StartRest(kept, n, want, todo, ok, a);
        StartCountNext(kept.peers.Keys, want.Keys, restarted, todo, brandNew, again, ok, a);
        if a !in peers {
          var good;
          good, t' := AddPeer(a, want[a], t', w0, pass);
          SmoothJoin(answers, old(calls), made, calls);
          StartGo(kept, n, State(), want, todo, ok, a, good);
          TightGo(kept, n, State(), want[a], a, good);
          if good {
            if a in restarted {
              updated, again := updated + 1, again + {a};
            } else {
              added, brandNew := added + 1, brandNew + {a};
            }
          }
          ok := ok && good;
        }
        todo := todo - {a};
      }
    }

    // ---- A resync pass.

    /** resync, once the desired routes are known. It is clean exactly when no call fails, and then
        gobgp ends with exactly those routes, the speaker's record says so, and every peer's deny set
        follows them; whatever fails, the record is right, and no limited route was added unless
        every deny set was. Every run of it is a pass of the protocol from rest to rest. */
    method Resync(desired: Routes, ghost rested: bool)
      returns (clean: bool, ghost done: map<Peer, nat>, ghost mid: Net, ghost t: Trace)
      requires rib == advertised
      modifies this`calls, this`deny, this`denied, this`restrict, this`rib, this`advertised
      ensures Synced(old(State()), desired, mid, done) && State() == mid.(rib := rib, advertised := advertised)
          && rib == advertised
      ensures old(calls) <= calls && (clean <==> Smooth(answers, old(calls), calls))
      ensures clean ==> rib == desired && AllFine(done)
      ensures forall p :: p in rib ==>
                || (p in mid.rib && rib[p] == mid.rib[p])
                || (p in desired && rib[p] == desired[p] && (desired[p].peers.Some? ==> AllFine(done)))
      ensures Leads(t, World(old(State()), Resting(rested), Free),
                    World(State(), Resting(clean), Free)) && (clean ==> AllTidy(t))
    {
      hide Synced, AllFine, Leads, Smooth, Stale, MayAdvertise, WithdrawnSome, AdvertisedSome, AllTidy;
      ghost var w0 := World(State(), Resting(rested), Free);
      var denyOk;
      denyOk, done := SyncDenySets(desired);
      mid := State();
      ghost var made := calls;
      ghost var w := World(mid, Working(Withdrawing, desired, denyOk, !denyOk, advertised.Keys), Free);
      SyncLeads(w0, desired, done, w);
      t := Then(Begun(w0), Sync(desired, done), w);
      SyncTidy(w0, desired, done, w);
      var withdrawn, added;
      withdrawn, t, w := WithdrawStale(desired, t, w0, w);
      ghost var kept, made2 := rib, calls;
      SmoothJoin(answers, old(calls), made, calls);
      ThenLeads(t, w0, w, Turn, Turned(w));
      ThenTidy(t, Turn, Turned(w));
      t, w := Then(t, Turn, Turned(w)), Turned(w);
      added, t, w := AdvertiseMissing(desired, denyOk, t, w0, w);
      SmoothJoin(answers, old(calls), made2, calls);
      clean := denyOk && withdrawn && added;
      ThenLeads(t, w0, w, Finish, w.(pass := Resting(clean)));
      ThenTidy(t, Finish, w.(pass := Resting(clean)));
      t := Then(t, Finish, w.(pass := Resting(clean)));
      PassDone(mid.rib, kept, rib, desired, denyOk, withdrawn, added);
    }

    method WithdrawStale(desired: Routes, ghost t: Trace, ghost w0: World, ghost w: World)
      returns (ok: bool, ghost t': Trace, ghost w': World)
      requires rib == advertised && Leads(t, w0, w) && w.net == State() && InPhase(w, Withdrawing)
      requires w.pass.desired == desired && w.pass.todo == advertised.Keys
      modifies this`calls, this`rib, this`advertised
      ensures rib == advertised && WithdrawnSome(old(rib), rib, desired, {}, ok)
      ensures old(calls) <= calls && (ok <==> Smooth(answers, old(calls), calls))
      ensures AllTidy(t) ==> AllTidy(t')
      ensures Leads(t', w0, w') && w' == w.(net := State(), pass := w.pass.(errors := w.pass.errors || !ok, todo := {}))
    {
      hide Leads, Smooth, WithdrawnSome, Step, AllTidy;
      ok, t', w' := true, t, w;
      SmoothNone(answers, calls);
      var todo := advertised.Keys;
      NoneWithdrawn(rib, desired);
      while todo != {}
        invariant rib == advertised && WithdrawnSome(old(rib), rib, desired, todo, ok)
        invariant old(calls) <= calls && (ok <==> Smooth(answers, old(calls), calls))
        invariant AllTidy(t) ==> AllTidy(t')
        invariant Leads(t', w0, w') && w' == w.(net := State(), pass := w.pass.(errors := w.pass.errors
            || !ok, todo := todo))
      {
        var p :| p in todo;
        ghost var made, before := calls, rib;
        StillThere(old(rib), rib, desired, todo, ok, p);
        var good;
        good, t', w' := WithdrawIfStale(p, desired, t', w0, w');
        SmoothJoin(answers, old(calls), made, calls);
        MoreWithdrawn(old(rib), before, rib, desired, todo, ok, p, good);
        ok := ok && good;
        todo := todo - {p};
      }
    }

    /** One turn of that loop. */
    method WithdrawIfStale(p: Prefix, desired: Routes, ghost t: Trace, ghost w0: World, ghost w: World)
      returns (good: bool, ghost t': Trace, ghost w': World)
      requires rib == advertised && p in rib && Leads(t, w0, w) && w.net == State() && InPhase(w, Withdrawing)
      requires w.pass.desired == desired && p in w.pass.todo
      modifies this`calls, this`rib, this`advertised
      ensures rib == advertised && old(calls) <= calls && (good <==> Smooth(answers, old(calls), calls))
      ensures rib == if (p in desired && desired[p] == old(rib)[p]) || !good then old(rib) else old(rib) - {p}
      ensures p in desired && desired[p] == old(rib)[p] ==> good
      ensures AllTidy(t) ==> AllTidy(t')
      ensures Leads(t', w0, w') && w' == w.(net := State(),
          pass := w.pass.(errors := w.pass.errors || !good, todo := w.pass.todo - {p}))
    {
      hide Leads, Step, Smooth, AllTidy;
      SmoothNone(answers, calls);
      if p in desired && desired[p] == advertised[p] {
        KeepLeads(t, w0, w, p);
        ThenTidy(t, Keep(p), Looked(w, p));
        return true, Then(t, Keep(p), Looked(w, p)), Looked(w, p);
      }
      good := Call();
      SmoothOne(answers, old(calls), old(calls), good);
      if good {
        rib := rib - {p};
        advertised := advertised - {p};
      }
      WithdrawLeads(t, w0, w, p, good);
      ThenTidy(t, Withdraw(p, good), Withdrawn(w, p, good));
      t', w' := Then(t, Withdraw(p, good), Withdrawn(w, p, good)), Withdrawn(w, p, good);
    }

    method AdvertiseMissing(desired: Routes, denyOk: bool, ghost t: Trace, ghost w0: World, ghost w: World)
      returns (ok: bool, ghost t': Trace, ghost w': World)
      requires rib == advertised && Leads(t, w0, w) && w.net == State() && InPhase(w, Advertising)
      requires w.pass.desired == desired && w.pass.denyOk == denyOk && w.pass.todo == desired.Keys
      modifies this`calls, this`rib, this`advertised
      ensures rib == advertised && AdvertisedSome(old(rib), rib, desired, denyOk, {}, ok)
      ensures old(calls) <= calls && (ok <==> Smooth(answers, old(calls), calls))
      ensures AllTidy(t) ==> AllTidy(t')
      ensures Leads(t', w0, w') && w' == w.(net := State(), pass := w.pass.(errors := w.pass.errors || !ok, todo := {}))
    {
      hide Leads, Smooth, AdvertisedSome, Step, AllTidy;
      ok, t', w' := true, t, w;
      SmoothNone(answers, calls);
      var todo := desired.Keys;
      NoneAdvertised(rib, desired, denyOk);
      while todo != {}
        invariant todo <= desired.Keys && rib == advertised && AdvertisedSome(old(rib), rib, desired, denyOk, todo, ok)
        invariant old(calls) <= calls && (ok <==> Smooth(answers, old(calls), calls))
        invariant AllTidy(t) ==> AllTidy(t')
        invariant Leads(t', w0, w') && w' == w.(net := State(), pass := w.pass.(errors := w.pass.errors
            || !ok, todo := todo))
      {
        var p :| p in todo;
        ghost var made, before := calls, rib;
        var good;
        good, t', w' := AdvertiseIfMissing(p, desired, denyOk, t', w0, w');
        SmoothJoin(answers, old(calls), made, calls);
        MoreAdvertised(old(rib), before, rib, desired, denyOk, todo, ok, p, good);
        ok := ok && good;
        todo := todo - {p};
      }
    }

    /** One turn of that loop. */
    method AdvertiseIfMissing(p: Prefix, desired: Routes, denyOk: bool, ghost t: Trace, ghost w0: World, ghost w: World)
      returns (good: bool, ghost t': Trace, ghost w': World)
      requires rib == advertised && p in desired && Leads(t, w0, w) && w.net == State() && InPhase(w, Advertising)
      requires w.pass.desired == desired && w.pass.denyOk == denyOk && p in w.pass.todo
      modifies this`calls, this`rib, this`advertised
      ensures rib == advertised && old(calls) <= calls && (good <==> Smooth(answers, old(calls), calls))
      ensures rib == if p !in old(rib) && (desired[p].peers.Some? ==> denyOk) && good then old(rib)[p := desired[p]]
          else old(rib)
      ensures p in old(rib) || (desired[p].peers.Some? && !denyOk) ==> good
      ensures AllTidy(t) ==> AllTidy(t')
      ensures Leads(t', w0, w') && w' == w.(net := State(),
          pass := w.pass.(errors := w.pass.errors || !good, todo := w.pass.todo - {p}))
    {
      hide Leads, Step, Smooth, AllTidy;
      SmoothNone(answers, calls);
      if p in advertised || (desired[p].peers.Some? && !denyOk) {
        SkipLeads(t, w0, w, p);
        ThenTidy(t, Skip(p), Looked(w, p));
        return true, Then(t, Skip(p), Looked(w, p)), Looked(w, p);
      }
      good := Call();
      SmoothOne(answers, old(calls), old(calls), good);
      if good {
        rib := rib[p := desired[p]];
        advertised := advertised[p := desired[p]];
      }
      AdvertiseLeads(t, w0, w, p, good);
      ThenTidy(t, Advertise(p, good), HandedOver(w, p, good));
      t', w' := Then(t, Advertise(p, good), HandedOver(w, p, good)), HandedOver(w, p, good);
    }
  }

  // ---- What the two loops of a pass do to the routes.

  /** Stale routes outside todo are gone if no call failed, and nothing else is. */
  ghost predicate WithdrawnSome(was: Routes, rib: Routes, desired: Routes, todo: set<Prefix>, ok: bool) {
    && (forall p :: p in rib ==> p in was && rib[p] == was[p])
    && (forall p :: p in was && (p in todo || (p in desired && desired[p] == was[p])) ==> p in rib)
    && todo <= was.Keys
    && (ok ==> forall p :: p in rib && p !in todo ==> p in desired && desired[p] == rib[p])
  }

  lemma NoneWithdrawn(rib: Routes, desired: Routes)
    ensures WithdrawnSome(rib, rib, desired, rib.Keys, true)
  {
  }

  lemma StillThere(was: Routes, rib: Routes, desired: Routes, todo: set<Prefix>, ok: bool, p: Prefix)
    requires WithdrawnSome(was, rib, desired, todo, ok) && p in todo
    ensures p in rib
  {
  }

  lemma MoreWithdrawn(was: Routes, before: Routes, rib: Routes, desired: Routes, todo: set<Prefix>, ok: bool, p: Prefix,
      good: bool)
    requires WithdrawnSome(was, before, desired, todo, ok) && p in todo && p in before
    requires rib == if (p in desired && desired[p] == before[p]) || !good then before else before - {p}
    ensures WithdrawnSome(was, rib, desired, todo - {p}, ok && good)
  {
  }

  /** Everything there stays; what is new is wanted, and limited only if every deny set is up to date;
      if no call failed nothing wanted outside todo is missing but what may not be added. */
  ghost predicate AdvertisedSome(was: Routes, rib: Routes, desired: Routes, denyOk: bool, todo: set<Prefix>, ok: bool) {
    && (forall p :: p in was ==> p in rib && rib[p] == was[p])
    && (forall p :: p in rib && p !in was ==>
        p in desired && rib[p] == desired[p] && (desired[p].peers.Some? ==> denyOk))
    && (ok && denyOk ==> forall p :: p in desired && p !in todo ==> p in rib)
  }

  lemma NoneAdvertised(rib: Routes, desired: Routes, denyOk: bool)
    ensures AdvertisedSome(rib, rib, desired, denyOk, desired.Keys, true)
  {
  }

  lemma MoreAdvertised(was: Routes, before: Routes, rib: Routes, desired: Routes, denyOk: bool, todo: set<Prefix>,
      ok: bool, p: Prefix, good: bool)
    requires AdvertisedSome(was, before, desired, denyOk, todo, ok) && p in todo && p in desired
    requires rib == if p !in before && (desired[p].peers.Some? ==> denyOk) && good then before[p := desired[p]]
        else before
    ensures AdvertisedSome(was, rib, desired, denyOk, todo - {p}, ok && good)
  {
  }

  lemma PassDone(was: Routes, kept: Routes, rib: Routes, desired: Routes, denyOk: bool, withdrawn: bool, added: bool)
    requires WithdrawnSome(was, kept, desired, {}, withdrawn) && AdvertisedSome(kept, rib, desired, denyOk, {}, added)
    ensures denyOk && withdrawn && added ==> rib == desired
    ensures forall p :: p in rib ==>
              || (p in was && rib[p] == was[p])
              || (p in desired && rib[p] == desired[p] && (desired[p].peers.Some? ==> denyOk))
  {
    if denyOk && withdrawn && added {
      assert rib.Keys == desired.Keys;
    }
  }

  // ---- The code takes steps of the protocol.

  lemma TakenTidy(w0: World, w: World)
    ensures AllTidy(Then(Begun(w0), Take, w))
  {
  }

  lemma SyncTidy(w0: World, desired: Routes, done: map<Peer, nat>, w: World)
    ensures AllFine(done) ==> AllTidy(Then(Begun(w0), Sync(desired, done), w))
  {
    hide AllFine;
  }

  lemma SyncLeads(w0: World, desired: Routes, done: map<Peer, nat>, w: World)
    requires Step(w0, Sync(desired, done), w)
    ensures Leads(Then(Begun(w0), Sync(desired, done), w), w0, w)
  {
    hide Step;
    BegunLeads(w0);
    ThenLeads(Begun(w0), w0, w0, Sync(desired, done), w);
  }

  ghost function Gone(gone4: bool, gone6: bool): Families {
    (if gone4 then {true} else {}) + (if gone6 then {false} else {})
  }

  lemma WhatIsLeft(s: set<Prefix>, gone4: bool, gone6: bool)
    ensures var s' := if gone4 then OfFamily(s, false) else s;
            (if gone6 then OfFamily(s', true) else s') == Inside(s, BOTH - Gone(gone4, gone6))
    ensures gone4 && gone6 ==> Gone(gone4, gone6) == BOTH
  {
  }

  lemma MoreInside(s: set<Prefix>, put: Families, v4: bool)
    ensures Inside(s, put) + OfFamily(s, v4) == Inside(s, put + {v4})
  {
  }

  lemma CreatedFrom(n: Net, a: Peer, dropped: Net, n': Net, list: set<Prefix>, ok: bool, gone: Families, put: Families)
    requires LimitsDropped(n, a, dropped, gone) && list == DenyList(a, n.restrict)
    requires n' == dropped.(deny := n'.deny, ruled := n'.ruled, denied := n'.denied)
    requires forall b :: b != a ==>
        && At(n'.deny, b) == At(dropped.deny, b) && At(n'.denied, b) == At(dropped.denied, b)
        && (b in n'.ruled <==> b in dropped.ruled)
    requires At(n'.deny, a) == At(dropped.deny, a) + Inside(list, put)
    requires At(n'.denied, a) == (if ok then list else At(dropped.denied, a)) && (ok ==> put == BOTH && a in n'.ruled)
    ensures LimitsCreated(n, a, n', ok, gone, put)
  {
    hide DenyList, Inside;
  }

  lemma CreatedSteps(t: Trace, w0: World, n: Net, n': Net, pass: Pass, a: Peer, ok: bool, gone: Families, put: Families,
      settings: Settings) returns (t': Trace)
    requires Leads(t, w0, World(n, pass, IDLE)) && a !in n.peers && LimitsCreated(n, a, n', ok, gone, put)
    ensures Leads(t', w0, World(n', pass, if ok then Setting(None, Some(a)) else IDLE))
    ensures ok && AllTidy(t) ==> AllTidy(t')
    ensures LimitsOf(n, a, n') && PeerAdded(n, a, settings, n', false) && (ok ==> Shielded(n', a))
    ensures ok && gone == BOTH ==> At(n'.deny, a) == DenyList(a, n'.restrict)
  {
    CreatedShields(n, a, n', ok, gone, put);
    hide DenyList, Inside, Leads, Shielded, AllTidy;
    var w := World(n', pass, if ok then Setting(None, Some(a)) else IDLE);
    ThenLeads(t, w0, World(n, pass, IDLE), Create(a, ok, gone, put), w);
    ThenTidy(t, Create(a, ok, gone, put), w);
    t' := Then(t, Create(a, ok, gone, put), w);
    AddedFails(n, a, settings, n');
  }

  lemma AddedFails(n: Net, a: Peer, settings: Settings, n': Net)
    requires LimitsOf(n, a, n')
    ensures PeerAdded(n, a, settings, n', false)
  {
    hide Shielded;
    assert n.live + {} == n.live;
  }

  lemma AddFailedSteps(t: Trace, w0: World, n: Net, ready: Net, n': Net, pass: Pass, a: Peer,
      settings: Settings, gone: Families)
    requires Leads(t, w0, World(ready, pass, Setting(None, Some(a)))) && LimitsOf(n, a, ready)
        && LimitsDropped(ready, a, n', gone)
    ensures PeerAdded(n, a, settings, n', false)
    ensures Leads(Then(t, Add(a, settings, false, gone), World(n', pass, IDLE)), w0, World(n', pass, IDLE))
  {
    hide Shielded, Inside, Leads;
    ThenLeads(t, w0, World(ready, pass, Setting(None, Some(a))), Add(a, settings, false, gone),
      World(n', pass, IDLE));
    assert n.live + {} == n.live;
  }

  lemma AddedSteps(t: Trace, w0: World, n: Net, ready: Net, n': Net, pass: Pass, a: Peer,
      settings: Settings)
    requires Leads(t, w0, World(ready, pass, Setting(None, Some(a)))) && LimitsOf(n, a, ready) && Shielded(ready, a)
    requires n' == ready.(live := ready.live + {a}, peers := ready.peers[a := settings])
    ensures PeerAdded(n, a, settings, n', true)
    ensures Leads(Then(t, Add(a, settings, true, {}), World(n', pass, IDLE)), w0, World(n', pass, IDLE))
  {
    hide DenyList, Leads;
    ThenLeads(t, w0, World(ready, pass, Setting(None, Some(a))), Add(a, settings, true, {}),
      World(n', pass, IDLE));
  }

  lemma StaysSteps(t: Trace, w0: World, n: Net, pass: Pass, a: Peer) returns (t': Trace)
    requires Leads(t, w0, World(n, pass, IDLE)) && a in n.peers
    ensures PeerStopped(n, a, n, false) && Leads(t', w0, World(n, pass, IDLE))
  {
    hide Leads;
    ThenLeads(t, w0, World(n, pass, IDLE), Delete(a, false), World(n, pass, IDLE));
    t' := Then(t, Delete(a, false), World(n, pass, IDLE));
    assert n.live - {} == n.live && n.peers - {} == n.peers;
  }

  lemma StoppedSteps(t: Trace, w0: World, n: Net, ended: Net, dropped: Net, n': Net, pass: Pass,
      a: Peer, gone: Families) returns (t': Trace)
    requires Leads(t, w0, World(n, pass, IDLE)) && a in n.peers && ended == n.(live := n.live - {a})
    requires LimitsDropped(ended, a, dropped, gone) && n' == dropped.(peers := n.peers - {a})
    ensures PeerStopped(n, a, n', true) && Leads(t', w0, World(n', pass, IDLE))
    ensures gone == BOTH && AllTidy(t) ==> AllTidy(t')
  {
    StoppedIs(n, ended, dropped, n', a, gone);
    hide Leads, LimitsDropped, PeerStopped, AllTidy;
    var w1, w2 := World(ended, pass, Setting(Some(a), None)), World(n', pass, IDLE);
    ThenLeads(t, w0, World(n, pass, IDLE), Delete(a, true), w1);
    ThenLeads(Then(t, Delete(a, true), w1), w0, w1, Drop(a, gone), w2);
    t' := Then(Then(t, Delete(a, true), w1), Drop(a, gone), w2);
    ThenTidy(t, Delete(a, true), w1);
    ThenTidy(Then(t, Delete(a, true), w1), Drop(a, gone), w2);
  }

  lemma StoppedIs(n: Net, ended: Net, dropped: Net, n': Net, a: Peer, gone: Families)
    requires ended == n.(live := n.live - {a}) && LimitsDropped(ended, a, dropped, gone)
        && n' == dropped.(peers := n.peers - {a})
    ensures PeerStopped(n, a, n', true) && LimitsDropped(ended.(peers := ended.peers - {a}), a, n', gone)
  {
  }

  /** The peers listed before and after with other settings. */
  ghost function Changed(peers: map<Peer, Settings>, want: map<Peer, Settings>): set<Peer> {
    set a | a in peers && a in want && want[a] != peers[a]
  }

  /** The peer runs as it did, with the limits it had. */
  ghost predicate Untouched(n: Net, n': Net, a: Peer) {
    && a in n.peers && a in n'.peers && n'.peers[a] == n.peers[a]
    && At(n'.deny, a) == At(n.deny, a) && At(n'.denied, a) == At(n.denied, a) && (a in n'.ruled <==> a in n.ruled)
  }

  ghost predicate AsWanted(n: Net, want: map<Peer, Settings>, a: Peer) {
    a in n.peers && a in want && want[a] == n.peers[a]
  }

  ghost predicate PeerAdded(n: Net, a: Peer, settings: Settings, n': Net, ok: bool) {
    && n' == n.(live := n.live + (if ok then {a} else {}), peers := if ok then n.peers[a := settings] else n.peers,
                deny := n'.deny, ruled := n'.ruled, denied := n'.denied)
    && (forall b :: b != a ==>
          && At(n'.deny, b) == At(n.deny, b) && At(n'.denied, b) == At(n.denied, b)
          && (b in n'.ruled <==> b in n.ruled))
    && (ok ==> Shielded(n', a))
  }

  ghost predicate PeerStopped(n: Net, a: Peer, n': Net, ok: bool) {
    && n' == n.(live := n.live - (if ok then {a} else {}), peers := n.peers - (if ok then {a} else {}),
                deny := n'.deny, ruled := n'.ruled, denied := n'.denied)
    && (if ok then LimitsOf(n, a, n'.(live := n.live, peers := n.peers)) else n' == n)
  }

  /** What SetPeers leaves. */
  ghost predicate PeersSet(n: Net, n': Net, want: map<Peer, Settings>, ok: bool) {
    && n'.peers.Keys == n'.live && n'.rib == n.rib && n'.restrict == n.restrict
    && (forall a :: AsWanted(n, want, a) ==> Untouched(n, n', a))
    && (ok ==> n'.peers == want && forall a :: a in want && !AsWanted(n, want, a) ==> Shielded(n', a))
  }

  /** Every peer that was started is denied exactly what it must not receive. */
  ghost predicate Exactly(n: Net, n': Net, want: map<Peer, Settings>) {
    forall a :: a in want && !AsWanted(n, want, a) ==> At(n'.deny, a) == DenyList(a, n'.restrict)
  }

  ghost predicate Tight(kept: Net, n: Net) {
    forall a :: a in n.peers && a !in kept.peers ==> At(n.deny, a) == DenyList(a, n.restrict)
  }

  lemma NobodyNew(n: Net)
    ensures Tight(n, n)
  {
  }

  lemma TightGo(kept: Net, n: Net, n': Net, settings: Settings, a: Peer, good: bool)
    requires PeerAdded(n, a, settings, n', good) && a !in n.peers
    ensures Tight(kept, n) && (good ==> At(n'.deny, a) == DenyList(a, n'.restrict)) ==> Tight(kept, n')
  {
    hide DenyList, Shielded;
  }

  lemma TightIsExact(was: Net, kept: Net, n: Net, want: map<Peer, Settings>)
    requires Stopped(was, kept, want, {}, true) && n.peers == want
    ensures Tight(kept, n) ==> Exactly(was, n, want)
  {
    hide Stopped, DenyList, AsWanted;
    forall a
      ensures a in kept.peers <==> AsWanted(was, want, a)
    {
      KeptAsWanted(was, kept, want, a);
    }
  }

  lemma PeersAre(n: Net, n': Net, want: map<Peer, Settings>)
    requires PeersSet(n, n', want, true)
    ensures n'.peers == want
  {
    hide Shielded, Untouched, AsWanted;
  }

  // ---- Stopping.

  /** Which peers still run, when those in todo are still to be looked at. */
  ghost predicate Stopped(was: Net, n: Net, want: map<Peer, Settings>, todo: set<Peer>, ok: bool) {
    && n.peers.Keys == n.live && n.restrict == was.restrict && n.rib == was.rib
    && (forall a :: a in n.peers ==> Untouched(was, n, a))
    && (forall a :: AsWanted(was, want, a) || a in todo ==> a in n.peers)
    && (ok ==> forall a :: a in n.peers && a !in todo ==> AsWanted(n, want, a))
  }

  ghost predicate StopCount(peers: map<Peer, Settings>, want: map<Peer, Settings>, todo: set<Peer>,
      restarted: set<Peer>, gone: set<Peer>, ok: bool) {
    && (ok ==> restarted == Changed(peers, want) - todo && gone == peers.Keys - want.Keys - todo)
    && restarted !! todo && gone !! todo
  }

  lemma NoneStopped(was: Net, want: map<Peer, Settings>)
    requires was.peers.Keys == was.live
    ensures Stopped(was, was, want, was.peers.Keys, true) && StopCount(was.peers, want, was.peers.Keys, {}, {}, true)
  {
  }

  lemma StopRest(was: Net, n: Net, want: map<Peer, Settings>, todo: set<Peer>, ok: bool, a: Peer)
    requires Stopped(was, n, want, todo, ok) && a in todo
    ensures a in n.peers && a in was.peers && n.peers[a] == was.peers[a]
    ensures AsWanted(n, want, a) ==> Stopped(was, n, want, todo - {a}, ok)
  {
    assert Untouched(was, n, a);
  }

  lemma StopGo(was: Net, n: Net, n': Net, want: map<Peer, Settings>, todo: set<Peer>, ok: bool, a: Peer, good: bool)
    requires Stopped(was, n, want, todo, ok) && a in todo && a in was.peers && !AsWanted(was, want, a)
        && PeerStopped(n, a, n', good)
    ensures Stopped(was, n', want, todo - {a}, ok && good)
  {
    forall b | b in n'.peers
      ensures Untouched(was, n', b)
    {
      assert Untouched(was, n, b);
    }
    if ok && good {
      forall b | b in n'.peers && b !in todo - {a}
        ensures AsWanted(n', want, b)
      {
        assert AsWanted(n, want, b);
      }
    }
  }

  lemma OnePeerMore(s: set<Peer>, a: Peer)
    requires a !in s
    ensures |s + {a}| == |s| + 1
  {
  }

  lemma StopTurn(was: Net, n: Net, n': Net, want: map<Peer, Settings>, todo: set<Peer>, ok: bool, a: Peer, acted: bool,
      good: bool)
    requires Stopped(was, n, want, todo, ok) && a in todo && a in was.peers && a in n.peers
        && n.peers[a] == was.peers[a]
    requires acted == !(a in want && want[a] == n.peers[a])
    requires if acted then PeerStopped(n, a, n', good) else n' == n && good
    ensures Stopped(was, n', want, todo - {a}, ok && good)
  {
    hide Stopped, PeerStopped;
    if acted {
      StopGo(was, n, n', want, todo, ok, a, good);
    } else {
      StopRest(was, n, want, todo, ok, a);
    }
  }

  lemma StopCountTurn(peers: map<Peer, Settings>, want: map<Peer, Settings>, todo: set<Peer>, restarted: set<Peer>,
      gone: set<Peer>, ok: bool, a: Peer, acted: bool, good: bool)
    requires StopCount(peers, want, todo, restarted, gone, ok) && a in todo && a in peers
    requires acted == !(a in want && want[a] == peers[a]) && (!acted ==> good)
    ensures a !in gone
    ensures var again, left := if acted && good && a in want then restarted + {a}
        else restarted, if acted && good && a !in want then gone + {a} else gone;
            StopCount(peers, want, todo - {a}, again, left, ok && good)
  {
    hide StopCount;
    StopCountNext(peers, want, todo, restarted, gone, ok, a);
  }

  /** Nothing failed so far if every call so far succeeded. */
  lemma SmoothTurn(answers: nat -> bool, from: nat, mid: nat, to: nat, ok: bool, good: bool)
    requires from <= mid <= to && (Smooth(answers, from, mid) ==> ok) && (Smooth(answers, mid, to) ==> good)
    ensures Smooth(answers, from, to) ==> ok && good
  {
    hide Smooth;
    SmoothJoin(answers, from, mid, to);
  }

  lemma StopCountNext(peers: map<Peer, Settings>, want: map<Peer, Settings>, todo: set<Peer>, restarted: set<Peer>,
      gone: set<Peer>, ok: bool, a: Peer)
    requires StopCount(peers, want, todo, restarted, gone, ok) && a in todo && a in peers
    ensures a !in gone
    ensures a in want && want[a] == peers[a] ==> StopCount(peers, want, todo - {a}, restarted, gone, ok)
    ensures StopCount(peers, want, todo - {a}, restarted, gone, false)
    ensures a in want && want[a] != peers[a] ==> StopCount(peers, want, todo - {a}, restarted + {a}, gone, ok)
    ensures a !in want ==> StopCount(peers, want, todo - {a}, restarted, gone + {a}, ok)
  {
    CountMinus(Changed(peers, want), todo, a);
    CountMinus(peers.Keys - want.Keys, todo, a);
  }

  lemma CountMinus(s: set<Peer>, todo: set<Peer>, a: Peer)
    requires a in todo
    ensures s - (todo - {a}) == if a in s then s - todo + {a} else s - todo
  {
  }

  lemma CountDone(peers: map<Peer, Settings>, want: map<Peer, Settings>, restarted: set<Peer>, gone: set<Peer>,
      ok: bool)
    requires StopCount(peers, want, {}, restarted, gone, ok)
    ensures StopCount(peers, want, {}, restarted, peers.Keys - want.Keys, ok) && (ok ==> gone == peers.Keys - want.Keys)
  {
    assert peers.Keys - want.Keys - {} == peers.Keys - want.Keys;
  }

  // ---- Starting.

  /** Which peers have been started, when those in todo are still to be looked at. */
  ghost predicate Started(kept: Net, n: Net, want: map<Peer, Settings>, todo: set<Peer>, ok: bool) {
    && n.peers.Keys == n.live && n.restrict == kept.restrict && n.rib == kept.rib
    && (forall a :: a in kept.peers ==> Untouched(kept, n, a))
    && (forall a :: a in n.peers && a !in kept.peers ==> AsWanted(n, want, a) && a !in todo && Shielded(n, a))
    && (ok ==> forall a :: a in want && a !in todo ==> a in n.peers)
  }

  ghost predicate StartCount(kept: set<Peer>, want: set<Peer>, restarted: set<Peer>, todo: set<Peer>,
      brandNew: set<Peer>, again: set<Peer>, ok: bool) {
    && (ok ==> brandNew == want - kept - restarted - todo && again == want * restarted - kept - todo)
    && brandNew !! todo && again !! todo
  }

  lemma NoneStarted(was: Net, kept: Net, want: map<Peer, Settings>, restarted: set<Peer>, ok: bool)
    requires Stopped(was, kept, want, {}, ok)
    ensures Started(kept, kept, want, want.Keys, ok)
        && StartCount(kept.peers.Keys, want.Keys, restarted, want.Keys, {}, {}, ok)
  {
  }

  lemma StartRest(kept: Net, n: Net, want: map<Peer, Settings>, todo: set<Peer>, ok: bool, a: Peer)
    requires Started(kept, n, want, todo, ok) && a in todo
    ensures a in n.peers <==> a in kept.peers
    ensures a in n.peers ==> Started(kept, n, want, todo - {a}, ok)
  {
    hide DenyList;
    assert a in kept.peers ==> Untouched(kept, n, a);
  }

  lemma StartGo(kept: Net, n: Net, n': Net, want: map<Peer, Settings>, todo: set<Peer>, ok: bool, a: Peer, good: bool)
    requires Started(kept, n, want, todo, ok) && a in todo && a in want && a !in kept.peers
        && PeerAdded(n, a, want[a], n', good)
    ensures Started(kept, n', want, todo - {a}, ok && good)
  {
    hide DenyList;
    forall b | b in kept.peers
      ensures Untouched(kept, n', b)
    {
      assert Untouched(kept, n, b);
    }
    forall b | b in n'.peers && b !in kept.peers
      ensures AsWanted(n', want, b) && b !in todo - {a} && Shielded(n', b)
    {
      assert b != a ==> AsWanted(n, want, b) && Shielded(n, b);
    }
  }

  lemma StartCountNext(kept: set<Peer>, want: set<Peer>, restarted: set<Peer>, todo: set<Peer>, brandNew: set<Peer>,
      again: set<Peer>, ok: bool, a: Peer)
    requires StartCount(kept, want, restarted, todo, brandNew, again, ok) && a in todo && a in want
    ensures a !in brandNew && a !in again
    ensures a in kept ==> StartCount(kept, want, restarted, todo - {a}, brandNew, again, ok)
    ensures StartCount(kept, want, restarted, todo - {a}, brandNew, again, false)
    ensures a !in kept && a in restarted ==> StartCount(kept, want, restarted, todo - {a}, brandNew, again + {a}, ok)
    ensures a !in kept && a !in restarted ==> StartCount(kept, want, restarted, todo - {a}, brandNew + {a}, again, ok)
  {
    CountMinus(want - kept - restarted, todo, a);
    CountMinus(want * restarted - kept, todo, a);
  }

  lemma AllStarted(was: Net, kept: Net, n: Net, want: map<Peer, Settings>, clean: bool, ok: bool)
    requires Stopped(was, kept, want, {}, clean) && (ok ==> clean) && Started(kept, n, want, {}, ok)
    ensures PeersSet(was, n, want, ok)
  {
    hide DenyList, Shielded;
    forall a | AsWanted(was, want, a)
      ensures Untouched(was, n, a)
    {
      assert Untouched(was, kept, a) && Untouched(kept, n, a);
    }
    if ok {
      forall a | a in n.peers
        ensures AsWanted(n, want, a)
      {
        assert a in kept.peers ==> AsWanted(kept, want, a) && Untouched(kept, n, a);
      }
      assert n.peers.Keys == want.Keys;
      forall a | a in want && !AsWanted(was, want, a)
        ensures Shielded(n, a)
      {
        KeptAsWanted(was, kept, want, a);
      }
    }
  }

  lemma KeptAsWanted(was: Net, kept: Net, want: map<Peer, Settings>, a: Peer)
    requires Stopped(was, kept, want, {}, true)
    ensures a in kept.peers <==> AsWanted(was, want, a)
  {
    assert a in kept.peers ==> Untouched(was, kept, a) && AsWanted(kept, want, a);
  }

  lemma StartCounted(was: Net, kept: Net, want: map<Peer, Settings>, restarted: set<Peer>, brandNew: set<Peer>,
      again: set<Peer>)
    requires Stopped(was, kept, want, {}, true)
        && StopCount(was.peers, want, {}, restarted, was.peers.Keys - want.Keys, true)
    requires StartCount(kept.peers.Keys, want.Keys, restarted, {}, brandNew, again, true)
    ensures brandNew == want.Keys - was.peers.Keys && again == Changed(was.peers, want)
  {
    hide Stopped;
    forall a
      ensures a in kept.peers <==> AsWanted(was, want, a)
    {
      KeptAsWanted(was, kept, want, a);
    }
  }

  /** syncDenySets has been through the peers in done. */
  ghost predicate SyncedFor(n: Net, desired: Routes, n': Net, done: map<Peer, nat>) {
    && n' == n.(restrict := Limited(desired), deny := n'.deny, denied := n'.denied)
    && (forall a :: a in done ==>
        PeerEdit(At(n.deny, a), At(n.denied, a), DenyList(a, Limited(desired)), At(n'.deny, a), At(n'.denied, a),
        done[a]))
    && (forall a :: a !in done ==> At(n'.deny, a) == At(n.deny, a) && At(n'.denied, a) == At(n.denied, a))
  }

  lemma NobodyFails()
    ensures AllFine(map[])
  {
  }

  lemma NobodySynced(n: Net, desired: Routes)
    ensures SyncedFor(n, desired, n.(restrict := Limited(desired)), map[])
  {
  }

  lemma SyncedAll(n: Net, desired: Routes, n': Net, done: map<Peer, nat>)
    requires SyncedFor(n, desired, n', done) && done.Keys == n.peers.Keys
    ensures Synced(n, desired, n', done)
  {
    hide PeerEdit, Limited, DenyList;
  }

  lemma SyncedNext(n: Net, desired: Routes, n1: Net, done: map<Peer, nat>, n': Net, a: Peer, k: nat)
    requires SyncedFor(n, desired, n1, done) && a !in done && n' == n1.(deny := n'.deny, denied := n'.denied)
    requires PeerEdit(At(n1.deny, a), At(n1.denied, a), DenyList(a, n1.restrict), At(n'.deny, a), At(n'.denied, a),
        k)
    requires forall b :: b != a ==> At(n'.deny, b) == At(n1.deny, b) && At(n'.denied, b) == At(n1.denied, b)
    ensures SyncedFor(n, desired, n', done[a := k]) && (AllFine(done[a := k]) <==> AllFine(done) && k == 4)
  {
    hide PeerEdit, Limited, DenyList, AllFine, At;
    var done' := done[a := k];
    FineNext(done, a, k);
    forall b | b in done'
      ensures PeerEdit(At(n.deny, b), At(n.denied, b), DenyList(b, Limited(desired)), At(n'.deny, b), At(n'.denied, b),
          done'[b])
    {
      if b != a {
        assert done'[b] == done[b];
        assert PeerEdit(At(n.deny, b), At(n.denied, b), DenyList(b, Limited(desired)), At(n1.deny, b), At(n1.denied, b),
            done[b]);
      }
    }
  }

  lemma FineNext(done: map<Peer, nat>, a: Peer, k: nat)
    requires a !in done
    ensures AllFine(done[a := k]) <==> AllFine(done) && k == 4
  {
    var done' := done[a := k];
    assert forall b :: b in done ==> done'[b] == done[b];
    assert done'[a] == k;
  }

  lemma Stages(held: set<Prefix>, have: set<Prefix>, want: set<Prefix>)
    ensures Stage(held, have, want, 1) == held + (OfFamily(want, true) - OfFamily(have, true))
    ensures Stage(held, have, want, 2) == Stage(held, have, want, 1) - (OfFamily(have, true) - OfFamily(want, true))
    ensures Stage(held, have, want, 3) == Stage(held, have, want, 2) + (OfFamily(want, false) - OfFamily(have, false))
    ensures Stage(held, have, want, 4) == Stage(held, have, want, 3) - (OfFamily(have, false) - OfFamily(want, false))
  {
  }
}
