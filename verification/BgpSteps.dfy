/** A resync pass and SetPeers as steps that may interleave (internal/bgp/bgp.go, peerselect.go). A
    step is one call to gobgp, or a turn of a loop that makes none; the whole update of the deny
    sets, which holds the lock on the peers, is one step, and so is each of createPeerLimits and
    dropPeerLimits, which run under that lock for a peer without a session; a peer that is stopped is
    struck off in the same step. */
module BgpSteps {
  import opened Common
  import opened Types
  import opened BgpRoutes
  import opened BgpState

  /** clean: the last pass met no error. denyOk: this pass could bring every deny set up to date. todo:
      what the loop under way has still to look at. */
  datatype Pass = Resting(clean: bool) | Working(phase: Phase, desired: Routes, denyOk: bool, errors: bool,
    todo: set<Prefix>)

  datatype Phase = Withdrawing | Advertising

  /** Who holds the lock on the peers. In SetPeers, leaving is a peer gobgp has stopped but the
      speaker still lists, and ready one whose limits exist but whose session does not. */
  datatype Lock = Free | Setting(leaving: Option<Peer>, ready: Option<Peer>)

  datatype World = World(net: Net, pass: Pass, lock: Lock)

  datatype Act =
    | Sync(desired: Routes, done: map<Peer, nat>)
    | Withdraw(p: Prefix, ok: bool)
    | Keep(p: Prefix)
    | Turn
    | Advertise(p: Prefix, ok: bool)
    | Skip(p: Prefix)
    | Finish
    | Take
    | Delete(a: Peer, ok: bool)
    | Drop(a: Peer, gone: Families)
    | Create(a: Peer, ok: bool, gone: Families, put: Families)
    | Add(a: Peer, settings: Settings, ok: bool, gone: Families)
    | Release

  const IDLE := Setting(None, None)

  ghost predicate Stale(n: Net, desired: Routes, p: Prefix) {
    p in n.advertised && !(p in desired && desired[p] == n.advertised[p])
  }

  /** The route may be handed to gobgp. */
  ghost predicate MayAdvertise(n: Net, desired: Routes, denyOk: bool, p: Prefix) {
    p in desired && p !in n.advertised && (desired[p].peers.Some? ==> denyOk)
  }

  predicate InPhase(w: World, phase: Phase) {
    w.pass.Working? && w.pass.phase == phase
  }

  /** The loop under way has looked at p. */
  function Looked(w: World, p: Prefix): World
    requires w.pass.Working?
  {
    w.(pass := w.pass.(todo := w.pass.todo - {p}))
  }

  function Tried(w: World, p: Prefix, ok: bool): World
    requires w.pass.Working?
  {
    w.(pass := w.pass.(errors := w.pass.errors || !ok, todo := w.pass.todo - {p}))
  }

  function Withdrawn(w: World, p: Prefix, ok: bool): World
    requires w.pass.Working?
  {
    Tried(if ok then w.(net := WithdrawnFrom(w.net, p)) else w, p, ok)
  }

  function HandedOver(w: World, p: Prefix, ok: bool): World
    requires w.pass.Working? && p in w.pass.desired
  {
    Tried(if ok then w.(net := AdvertisedIn(w.net, p, w.pass.desired[p])) else w, p, ok)
  }

  function Turned(w: World): World
    requires w.pass.Working?
  {
    w.(pass := w.pass.(phase := Advertising, todo := w.pass.desired.Keys))
  }

  ghost predicate Step(w: World, act: Act, w': World) {
    match act
    case Sync(desired, done) =>
      && w.pass.Resting? && w.lock.Free? && Synced(w.net, desired, w'.net, done)
      && w' == World(w'.net, Working(Withdrawing, desired, AllFine(done), !AllFine(done), w.net.advertised.Keys),
          w.lock)
    case Withdraw(p, ok) =>
      InPhase(w, Withdrawing) && p in w.pass.todo && Stale(w.net, w.pass.desired, p) && w' == Withdrawn(w, p, ok)
    case Keep(p) =>
      InPhase(w, Withdrawing) && p in w.pass.todo && !Stale(w.net, w.pass.desired, p) && w' == Looked(w, p)
    case Turn =>
      InPhase(w, Withdrawing) && w.pass.todo == {} && w' == Turned(w)
    case Advertise(p, ok) =>
      InPhase(w, Advertising) && p in w.pass.todo && MayAdvertise(w.net, w.pass.desired, w.pass.denyOk, p)
        && w' == HandedOver(w, p, ok)
    case Skip(p) =>
      InPhase(w, Advertising) && p in w.pass.todo && !MayAdvertise(w.net, w.pass.desired, w.pass.denyOk, p)
        && w' == Looked(w, p)
    case Finish =>
      InPhase(w, Advertising) && w.pass.todo == {} && w' == w.(pass := Resting(!w.pass.errors))
    case Take =>
      w.lock.Free? && w' == w.(lock := IDLE)
    case Delete(a, ok) =>
      && w.lock == IDLE && a in w.net.peers
      && w' == if ok then w.(net := w.net.(live := w.net.live - {a}), lock := Setting(Some(a), None)) else w
    case Drop(a, gone) =>
      && w.lock == Setting(Some(a), None) && w' == w.(net := w'.net, lock := IDLE)
      && LimitsDropped(w.net.(peers := w.net.peers - {a}), a, w'.net, gone)
    case Create(a, ok, gone, put) =>
      && w.lock == IDLE && a !in w.net.peers && LimitsCreated(w.net, a, w'.net, ok, gone, put)
      && w' == w.(net := w'.net, lock := if ok then Setting(None, Some(a)) else IDLE)
    case Add(a, settings, ok, gone) =>
      && w.lock == Setting(None, Some(a))
      && w' == World(w'.net, w.pass, IDLE)
      && (if ok then w'.net == w.net.(live := w.net.live + {a}, peers := w.net.peers[a := settings])
          else LimitsDropped(w.net, a, w'.net, gone))
    case Release =>
      w.lock == IDLE && w' == w.(lock := Free)
  }

  /** No edit of a deny set, no removal and no start of a peer failed in this step. */
  ghost predicate Tidy(act: Act) {
    match act
    case Sync(_, done) => AllFine(done)
    case Drop(_, gone) => gone == BOTH
    case Create(_, ok, _, _) => ok
    case Add(_, _, ok, _) => ok
    case _ => true
  }

  // ---- Sequences of steps.

  datatype Trace = Trace(ws: seq<World>, acts: seq<Act>) {
    ghost predicate Steps(i: nat) {
      i < |acts| && i + 1 < |ws| && Step(ws[i], acts[i], ws[i + 1])
    }

    ghost predicate Valid() {
      |ws| == |acts| + 1 && forall i: nat :: i < |acts| ==> Steps(i)
    }

    ghost function First(): World
      requires Valid()
    {
      ws[0]
    }

    ghost function Last(): World
      requires Valid()
    {
      ws[|acts|]
    }
  }

  ghost predicate AllTidy(t: Trace) {
    forall i: nat :: i < |t.acts| ==> Tidy(t.acts[i])
  }

  /** A trace from one world to another. */
  ghost predicate Leads(t: Trace, w: World, w': World) {
    t.Valid() && t.First() == w && t.Last() == w'
  }

  function Begun(w: World): Trace {
    Trace([w], [])
  }

  function Then(t: Trace, act: Act, w: World): Trace {
    Trace(t.ws + [w], t.acts + [act])
  }

  lemma BegunLeads(w: World)
    ensures Leads(Begun(w), w, w)
  {
  }

  lemma ThenLeads(t: Trace, w0: World, w: World, act: Act, w': World)
    requires Leads(t, w0, w) && Step(w, act, w')
    ensures Leads(Then(t, act, w'), w0, w')
  {
    hide Step;
    var t' := Then(t, act, w');
    forall i: nat | i < |t'.acts|
      ensures t'.Steps(i)
    {
      if i < |t.acts| {
        assert t.Steps(i);
      }
    }
  }

  lemma ThenTidy(t: Trace, act: Act, w: World)
    ensures AllTidy(t) && Tidy(act) ==> AllTidy(Then(t, act, w))
  {
    hide Tidy;
  }

  lemma WithdrawLeads(t: Trace, w0: World, w: World, p: Prefix, ok: bool)
    requires Leads(t, w0, w) && InPhase(w, Withdrawing) && p in w.pass.todo && Stale(w.net, w.pass.desired, p)
    ensures Leads(Then(t, Withdraw(p, ok), Withdrawn(w, p, ok)), w0, Withdrawn(w, p, ok))
  {
    hide Leads;
    ThenLeads(t, w0, w, Withdraw(p, ok), Withdrawn(w, p, ok));
  }

  lemma KeepLeads(t: Trace, w0: World, w: World, p: Prefix)
    requires Leads(t, w0, w) && InPhase(w, Withdrawing) && p in w.pass.todo && !Stale(w.net, w.pass.desired, p)
    ensures Leads(Then(t, Keep(p), Looked(w, p)), w0, Looked(w, p))
  {
    hide Leads;
    ThenLeads(t, w0, w, Keep(p), Looked(w, p));
  }

  lemma AdvertiseLeads(t: Trace, w0: World, w: World, p: Prefix, ok: bool)
    requires Leads(t, w0, w) && InPhase(w, Advertising) && p in w.pass.todo
        && MayAdvertise(w.net, w.pass.desired, w.pass.denyOk, p)
    ensures Leads(Then(t, Advertise(p, ok), HandedOver(w, p, ok)), w0, HandedOver(w, p, ok))
  {
    hide Leads;
    ThenLeads(t, w0, w, Advertise(p, ok), HandedOver(w, p, ok));
  }

  lemma SkipLeads(t: Trace, w0: World, w: World, p: Prefix)
    requires Leads(t, w0, w) && InPhase(w, Advertising) && p in w.pass.todo
        && !MayAdvertise(w.net, w.pass.desired, w.pass.denyOk, p)
    ensures Leads(Then(t, Skip(p), Looked(w, p)), w0, Looked(w, p))
  {
    hide Leads;
    ThenLeads(t, w0, w, Skip(p), Looked(w, p));
  }

  lemma LockLeads(t: Trace, w0: World, w: World, act: Act, w': World)
    requires Leads(t, w0, w) && (act == Take || act == Release) && w' == w.(lock := w'.lock)
    requires if act == Take then w.lock.Free? && w'.lock == IDLE else w.lock == IDLE && w'.lock.Free?
    ensures Leads(Then(t, act, w'), w0, w')
  {
    hide Leads;
    ThenLeads(t, w0, w, act, w');
  }
}
