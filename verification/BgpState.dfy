/** What the BGP speaker and gobgp hold between them, and what keeps a route limited to some peers
    from the others: one deny set per peer (internal/bgp/peerselect.go). gobgp is a route table,
    the peers it runs, those deny sets, and the export rules that apply them; each call to it takes
    effect or fails as a whole. */
module BgpState {
  import opened Common
  import opened Types
  import opened BgpRoutes

  /** Everything else configured about a peer. */
  type Settings = nat

  type DenySets = map<Peer, set<Prefix>>

  /** rib, live, deny and ruled are gobgp's, ruled being the peers whose export rule is in force; the
      rest is the speaker's record of them. */
  datatype Net = Net(
    rib: Routes,
    live: set<Peer>,
    deny: DenySets,
    ruled: set<Peer>,
    advertised: Routes,
    peers: map<Peer, Settings>,
    restrict: map<Prefix, set<Peer>>,
    denied: DenySets)

  function At(sets: DenySets, a: Peer): set<Prefix> {
    if a in sets then sets[a] else {}
  }

  /** The limited routes and whom they are limited to. */
  function Limited(desired: Routes): map<Prefix, set<Peer>> {
    map p | p in desired && desired[p].peers.Some? :: desired[p].peers.value
  }

  /** denyList: what peer a must not receive. */
  function DenyList(a: Peer, restrict: map<Prefix, set<Peer>>): set<Prefix> {
    set p | p in restrict && a !in restrict[p]
  }

  /** The peer's rule keeps the prefix from it. */
  predicate Blocked(net: Net, p: Prefix, a: Peer) {
    a in net.ruled && p in At(net.deny, a)
  }

  /** The route reaches the peer. */
  predicate Exposed(net: Net, p: Prefix, a: Peer) {
    p in net.rib && a in net.live && !Blocked(net, p, a)
  }

  /** The speaker records an entry of the peer's deny set that gobgp does not hold. */
  predicate Lost(net: Net, a: Peer, p: Prefix) {
    p in At(net.denied, a) && p !in At(net.deny, a)
  }

  /** gobgp holds an entry of the peer's deny set that the speaker does not record. */
  predicate Stray(net: Net, a: Peer, p: Prefix) {
    p in At(net.deny, a) && p !in At(net.denied, a)
  }

  /** No route limited to some peers reaches another. */
  ghost predicate NoLeak(net: Net) {
    forall p, a :: Exposed(net, p, a) ==> net.rib[p].peers.None? || a in net.rib[p].peers.value
  }

  // ---- Editing a peer's deny set.

  function OfFamily(s: set<Prefix>, v4: bool): set<Prefix> {
    set p | p in s && p.addr.V4? == v4
  }

  function Adds(have: set<Prefix>, want: set<Prefix>, v4: bool): set<Prefix> {
    OfFamily(want, v4) - OfFamily(have, v4)
  }

  /** What gobgp holds after k of editDeny's four calls: additions then deletions, IPv4 then IPv6,
      computed from what the speaker believes it holds. */
  function Stage(held: set<Prefix>, have: set<Prefix>, want: set<Prefix>, k: nat): set<Prefix> {
    if k == 0 then held
    else if k == 1 then held + Adds(have, want, true)
    else if k == 2 then Stage(held, have, want, 1) - Adds(want, have, true)
    else if k == 3 then Stage(held, have, want, 2) + Adds(have, want, false)
    else Stage(held, have, want, 3) - Adds(want, have, false)
  }

  lemma EditedSet(held: set<Prefix>, have: set<Prefix>, want: set<Prefix>)
    ensures Stage(held, have, want, 4) == (held + (want - have)) - (have - want)
  {
    var s1 := held + Adds(have, want, true);
    var s2 := s1 - Adds(want, have, true);
    var s3 := s2 + Adds(have, want, false);
    assert Stage(held, have, want, 1) == s1 && Stage(held, have, want, 2) == s2 && Stage(held, have, want, 3) == s3;
    assert Stage(held, have, want, 4) == s3 - Adds(want, have, false);
  }

  /** An edit that succeeds denies everything wanted exactly when gobgp still held what was already
      wanted and believed held; if the belief was exact, so is the result. */
  lemma EditWorksIff(held: set<Prefix>, have: set<Prefix>, want: set<Prefix>)
    ensures want <= Stage(held, have, want, 4) <==> want * have <= held
    ensures held == have ==> Stage(held, have, want, 4) == want
  {
    EditedSet(held, have, want);
    hide Stage;
    var after := (held + (want - have)) - (have - want);
    if want <= after {
      forall p | p in want * have
        ensures p in held
      {
        assert p in after;
      }
    }
    if want * have <= held {
      forall p | p in want
        ensures p in after
      {
        assert p in want * have || p in want - have;
      }
    }
    if held == have {
      forall p
        ensures p in after <==> p in want
      {
      }
    }
  }

  /** An edit that fails part of the way leaves the belief safe exactly when it failed before
      deleting, or had nothing IPv4 to delete. */
  lemma FailedEditIff(held: set<Prefix>, have: set<Prefix>, want: set<Prefix>, k: nat)
    requires have <= held && k < 4
    ensures have <= Stage(held, have, want, k) <==> k < 2 || OfFamily(have, true) <= OfFamily(want, true)
  {
    var s1 := held + Adds(have, want, true);
    var dropped := Adds(want, have, true);
    assert have <= s1;
    if k >= 2 {
      if p :| p in dropped {
        assert p in have && p !in Stage(held, have, want, 2) && p !in Adds(have, want, false);
        assert p in OfFamily(have, true) && p !in OfFamily(want, true);
      } else {
        forall p | p in OfFamily(have, true)
          ensures p in OfFamily(want, true)
        {
          assert p !in dropped;
        }
        assert have <= Stage(held, have, want, 2);
      }
    }
  }

  /** Whether an entry is in the deny set after k of the four calls, given whether it was, whether it is
      recorded and whether it is wanted. */
  predicate HeldAfter(held: bool, recorded: bool, wanted: bool, v4: bool, k: nat) {
    if wanted && !recorded then held || k >= (if v4 then 1 else 3)
    else if recorded && !wanted then held && k < (if v4 then 2 else 4)
    else held
  }

  lemma EntryAfter(held: set<Prefix>, have: set<Prefix>, want: set<Prefix>, p: Prefix, k: nat)
    requires k <= 4
    ensures p in Stage(held, have, want, k) <==> HeldAfter(p in held, p in have, p in want, p.addr.V4?, k)
  {
    assert forall v4: bool :: p in Adds(have, want, v4) <==> p in want && p !in have && p.addr.V4? == v4;
    assert forall v4: bool :: p in Adds(want, have, v4) <==> p in have && p !in want && p.addr.V4? == v4;
    hide Adds;
    assert p in Stage(held, have, want, 1) <==> p in held || p in Adds(have, want, true);
    assert p in Stage(held, have, want, 2) <==> p in Stage(held, have, want, 1) && p !in Adds(want, have, true);
    assert p in Stage(held, have, want, 3) <==> p in Stage(held, have, want, 2) || p in Adds(have, want, false);
    assert p in Stage(held, have, want, 4) <==> p in Stage(held, have, want, 3) && p !in Adds(want, have, false);
  }

  /** One peer's turn in syncDenySets: k of the calls took effect, and four is success. */
  ghost predicate PeerEdit(held: set<Prefix>, have: set<Prefix>, want: set<Prefix>, held': set<Prefix>,
      have': set<Prefix>, k: nat) {
    if have == want then k == 4 && held' == held && have' == have
    else k <= 4 && held' == Stage(held, have, want, k) && have' == if k == 4 then want else have
  }

  /** A transient failure can cost a deny entry that nobody notices missing: IPv4 entry p is
      deleted, the IPv6 call fails, and the record still shows p, so when p must be denied again
      the next pass finds nothing to do and reports no error. */
  lemma FailedEditCanLeak(p: Prefix, q: Prefix) returns (held': set<Prefix>)
    requires p.addr.V4? && q.addr.V6?
    ensures PeerEdit({p}, {p}, {q}, held', {p}, 2)
    ensures PeerEdit(held', {p}, {p}, held', {p}, 4) && held' == {}
  {
    held' := Stage({p}, {p}, {q}, 2);
    assert p in {p} && p !in {q};
    assert Adds({p}, {q}, true) == {} && Adds({q}, {p}, true) == {p};
    assert held' == Stage({p}, {p}, {q}, 1) - {p} && Stage({p}, {p}, {q}, 1) == {p} + {};
  }

  // ---- What each operation does to the whole.

  /** syncDenySets: done says how many calls of each peer's edit took effect. */
  ghost predicate Synced(n: Net, desired: Routes, n': Net, done: map<Peer, nat>) {
    && n' == n.(restrict := Limited(desired), deny := n'.deny, denied := n'.denied)
    && done.Keys == n.peers.Keys
    && (forall a :: a in n.peers ==>
        PeerEdit(At(n.deny, a), At(n.denied, a), DenyList(a, Limited(desired)), At(n'.deny, a), At(n'.denied, a),
        done[a]))
    && (forall a :: a !in n.peers ==> At(n'.deny, a) == At(n.deny, a) && At(n'.denied, a) == At(n.denied, a))
  }

  ghost predicate AllFine(done: map<Peer, nat>) {
    forall a :: a in done ==> done[a] == 4
  }

  function WithdrawnFrom(n: Net, p: Prefix): Net {
    n.(rib := n.rib - {p}, advertised := n.advertised - {p})
  }

  function AdvertisedIn(n: Net, p: Prefix, r: Route): Net {
    n.(rib := n.rib[p := r], advertised := n.advertised[p := r])
  }

  /** Only peer a's limits may differ. */
  ghost predicate LimitsOf(n: Net, a: Peer, n': Net) {
    && n' == n.(deny := n'.deny, ruled := n'.ruled, denied := n'.denied)
    && forall b :: b != a ==>
         && At(n'.deny, b) == At(n.deny, b) && At(n'.denied, b) == At(n.denied, b)
         && (b in n'.ruled <==> b in n.ruled)
  }

  /** A deny set is two, one per family; these are the families that a step deletes or defines. */
  type Families = set<bool>

  const BOTH: Families := {true, false}

  function Inside(s: set<Prefix>, families: Families): set<Prefix> {
    set p | p in s && p.addr.V4? in families
  }

  /** dropPeerLimits: the sets in gone are deleted; a call that fails leaves its set or its rule behind,
      but the record is gone. */
  ghost predicate LimitsDropped(n: Net, a: Peer, n': Net, gone: Families) {
    && LimitsOf(n, a, n') && At(n'.denied, a) == {} && n'.ruled <= n.ruled
    && At(n'.deny, a) == Inside(At(n.deny, a), BOTH - gone)
  }

  /** The peer is denied everything it must not receive, its rule is in force, and the record says so. */
  ghost predicate Shielded(n: Net, a: Peer) {
    a in n.ruled && At(n.denied, a) == DenyList(a, n.restrict) && DenyList(a, n.restrict) <= At(n.deny, a)
  }

  /** createPeerLimits: of what was there the sets in gone are deleted first, and then those in put are
      defined to deny the peer what it must not receive, both if it succeeds. */
  ghost predicate LimitsCreated(n: Net, a: Peer, n': Net, ok: bool, gone: Families, put: Families) {
    && LimitsOf(n, a, n')
    && At(n'.deny, a) == Inside(At(n.deny, a), BOTH - gone) + Inside(DenyList(a, n.restrict), put)
    && At(n'.denied, a) == (if ok then DenyList(a, n.restrict) else {})
    && (ok ==> put == BOTH && a in n'.ruled)
  }

  lemma CreatedShields(n: Net, a: Peer, n': Net, ok: bool, gone: Families, put: Families)
    requires LimitsCreated(n, a, n', ok, gone, put)
    ensures ok ==> Shielded(n', a)
    ensures ok && (gone == BOTH || At(n.deny, a) == {}) ==> At(n'.deny, a) == DenyList(a, n'.restrict)
  {
    hide DenyList;
    AllInside(DenyList(a, n.restrict));
    AllInside(At(n.deny, a));
  }

  lemma AllInside(s: set<Prefix>)
    ensures Inside(s, BOTH) == s && Inside(s, {}) == {}
  {
  }
}
