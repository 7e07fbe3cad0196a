/** What a reload does to the memory of the control plane, operation by operation. */
module ReloadSteps {
  import opened Common
  import opened Types
  import opened VipLookup
  import opened BpfMaps
  import opened ExtentAllocation
  import opened Maglev
  import opened DataplaneState
  import opened MapAgreement
  import opened Watching
  import opened UpsertConditions
  import opened UpsertSteps
  import opened ReloadPlanning

  /** Every VIP's backends are within its scope. */
  ghost predicate InScope(services: Services, scope: map<VipId, set<Endpoint>>) {
    forall w :: w in services ==> w in scope && services[w].backends.Keys <= scope[w]
  }

  ghost predicate WantInScope(want: map<VipId, Vip>, scope: map<VipId, set<Endpoint>>) {
    forall w :: w in want ==> w in scope && WeightsOf(want[w].backends).Keys <= scope[w]
  }

  /** For every VIP, the backends it has and the backends it is configured to have. */
  ghost function ReloadScope(services: Services, want: map<VipId, Vip>): map<VipId, set<Endpoint>> {
    map w | w in services.Keys + want.Keys ::
      (if w in services then services[w].backends.Keys else {}) + (if w in want then WeightsOf(want[w].backends).Keys
        else {})
  }

  lemma ScopeHolds(services: Services, want: map<VipId, Vip>)
    ensures InScope(services, ReloadScope(services, want)) && WantInScope(want, ReloadScope(services, want))
  {
  }

  ghost function Without(services: Services, removes: seq<VipId>): Services {
    services - (set k | k in removes)
  }

  lemma WithoutNone(services: Services)
    ensures forall removes: seq<VipId> :: Without(services, removes[..0]) == services
  {
    forall removes: seq<VipId>
      ensures Without(services, removes[..0]) == services
    {
      assert removes[..0] == [];
    }
  }

  lemma WithoutNext(services: Services, removes: seq<VipId>, i: nat, scope: map<VipId, set<Endpoint>>)
    requires i < |removes| && Distinct(removes) && (forall k :: k in removes ==> k in services)
        && InScope(services, scope)
    ensures Without(services, removes[..i]) - {removes[i]} == Without(services, removes[..i + 1])
    ensures removes[i] in scope && InScope(Without(services, removes[..i]), scope)
  {
    assert removes[..i + 1] == removes[..i] + [removes[i]];
    assert removes[i] in removes;
  }

  lemma DuringInScope(services: Services, v: VipId, wanted: set<Endpoint>, scope: map<VipId, set<Endpoint>>)
    requires InScope(services, scope) && v in scope && wanted <= scope[v]
    ensures forall w :: w in During(services, map[], v, wanted) ==>
        w in scope && During(services, map[], v, wanted)[w] <= scope[w]
  {
  }

  /** A VIP that stays keeps its service ID, and the backends it is to keep keep theirs. */
  ghost predicate KeepsIds(was: Services, services: Services, want: map<VipId, Vip>) {
    forall w :: w in was && w in services ==>
      && services[w].sid == was[w].sid
      && (w in want ==> forall ep :: ep in was[w].backends && ep in WeightsOf(want[w].backends) ==>
            ep in services[w].backends && services[w].backends[ep] == was[w].backends[ep])
  }

  // ---- Backends that stay listed.

  ghost predicate StaysListed(services: Services, want: map<VipId, Vip>, w: VipId, ep: Endpoint) {
    w in services && w in want && ep in services[w].backends && ep in WeightsOf(want[w].backends)
  }

  /** Every backend in keep is listed by a VIP that is to keep it. */
  ghost predicate Stays(services: Services, want: map<VipId, Vip>, keep: set<Endpoint>) {
    forall ep :: ep in keep ==> exists w :: StaysListed(services, want, w, ep)
  }

  ghost function Staying(services: Services, want: map<VipId, Vip>): set<Endpoint> {
    set w, ep | w in services && ep in services[w].backends && StaysListed(services, want, w, ep) :: ep
  }

  /** The health and drain flags of the backends in keep are what they were. */
  ghost predicate FlagsHeld(was: States, wasIds: map<Endpoint, nat>, states: States, ids: map<Endpoint, nat>,
      keep: set<Endpoint>) {
    forall ep :: ep in keep ==> FlagsOf(states, ids, ep) == FlagsOf(was, wasIds, ep)
  }

  lemma StayingStays(services: Services, want: map<VipId, Vip>)
    ensures Stays(services, want, Staying(services, want))
  {
  }

  lemma StaysWithout(services: Services, v: VipId, want: map<VipId, Vip>, keep: set<Endpoint>)
    requires Stays(services, want, keep) && v !in want
    ensures Stays(services - {v}, want, keep)
  {
    hide WeightsOf;
    forall ep | ep in keep
      ensures exists w :: StaysListed(services - {v}, want, w, ep)
    {
      var w :| StaysListed(services, want, w, ep);
      assert StaysListed(services - {v}, want, w, ep);
    }
  }

  lemma StaysOn(before: Services, services: Services, want: map<VipId, Vip>, keep: set<Endpoint>)
    requires Stays(before, want, keep) && KeepsIds(before, services, want) && forall w :: w in before ==> w in services
    ensures Stays(services, want, keep)
  {
    hide WeightsOf;
    forall ep | ep in keep
      ensures exists w :: StaysListed(services, want, w, ep)
    {
      var w :| StaysListed(before, want, w, ep);
      assert StaysListed(services, want, w, ep);
    }
  }

  lemma StaysHaveFlags(services: Services, want: map<VipId, Vip>, keep: set<Endpoint>, states: States,
      ids: map<Endpoint, nat>)
    requires Stays(services, want, keep) && Named(services, states, ids)
    ensures forall ep :: ep in keep ==> FlagsOf(states, ids, ep).Some?
  {
    hide WeightsOf;
    forall ep | ep in keep
      ensures FlagsOf(states, ids, ep).Some?
    {
      var w :| StaysListed(services, want, w, ep);
      assert ep in services[w].backends;
    }
  }

  lemma FlagsHeldNext(before: Services, services: Services, want: map<VipId, Vip>, keep: set<Endpoint>, states0: States,
      ids0: map<Endpoint, nat>, states1: States, ids1: map<Endpoint, nat>, states: States, ids: map<Endpoint, nat>)
    requires Stays(before, want, keep) && Named(before, states1, ids1)
    requires Stays(services, want, keep) && Named(services, states, ids)
    requires FlagsHeld(states0, ids0, states1, ids1, keep) && FlagsKept(states1, ids1, states, ids)
    ensures FlagsHeld(states0, ids0, states, ids, keep)
  {
    hide Stays, Named, FlagsOf;
    StaysHaveFlags(before, want, keep, states1, ids1);
    StaysHaveFlags(services, want, keep, states, ids);
  }

  lemma KeepsOwnIds(services: Services, want: map<VipId, Vip>)
    ensures KeepsIds(services, services, want)
  {
    hide WeightsOf;
  }

  lemma KeepsIdsOn(was: Services, mid: Services, services: Services, want: map<VipId, Vip>)
    requires KeepsIds(was, mid, want) && KeepsIds(mid, services, want) && was.Keys <= mid.Keys
    ensures KeepsIds(was, services, want)
  {
    hide WeightsOf;
  }

  /** The VIP is programmed as specified. */
  ghost predicate Programmed(services: Services, spec: Vip) {
    && spec.id in services && services[spec.id].spec == Some(spec) && services[spec.id].vip == spec
    && services[spec.id].backends.Keys == WeightsOf(spec.backends).Keys
  }

  /** The VIPs that none of the first i upserts is for are as they were. */
  ghost predicate OthersSame(was: Services, services: Services, upserts: seq<Vip>, i: nat) {
    forall w :: w in was && (forall j :: 0 <= j < i && j < |upserts| ==> upserts[j].id != w) ==>
      w in services && services[w] == was[w]
  }

  lemma AllSame(services: Services, upserts: seq<Vip>)
    ensures OthersSame(services, services, upserts, 0)
  {
  }

  /** Everything the configuration lists. */
  ghost function AllWanted(want: map<VipId, Vip>): set<Endpoint> {
    set k, ep | k in want && ep in WeightsOf(want[k].backends) :: ep
  }

  /** Every VIP's table fits where the VIP's table is, and there are IDs for all backends, old and new. */
  ghost predicate FitsWhereItIs(services: Services, ids: map<Endpoint, nat>, want: map<VipId, Vip>) {
    RoomFor(ids.Keys, AllWanted(want)) && forall k :: k in want ==> Refits(services, want[k])
  }

  lemma RefitAfterRemovals(was: Services, ids: map<Endpoint, nat>, ids': map<Endpoint, nat>, want: map<VipId, Vip>,
      removes: seq<VipId>, upserts: seq<Vip>)
    requires FitsWhereItIs(was, ids, want) && ids'.Keys <= ids.Keys && forall k :: k in want ==> want[k].id == k
    requires forall k :: k in removes ==> k !in want
    requires forall i :: 0 <= i < |upserts| ==> upserts[i].id in want && want[upserts[i].id] == upserts[i]
    ensures AllRefit(Without(was, removes), ids', upserts, 0, AllWanted(want))
  {
    hide WeightsOf, MacsOf, MacsParse, Outgrown, ClassFor, Load, RoomFor;
    LessRoom(ids'.Keys, ids.Keys, AllWanted(want), AllWanted(want));
    forall i | 0 <= i < |upserts|
      ensures Refits(Without(was, removes), upserts[i]) && WeightsOf(upserts[i].backends).Keys <= AllWanted(want)
    {
      assert Refits(was, want[upserts[i].id]);
      ListsWanted(want, upserts[i].id);
    }
  }

  lemma ListsWanted(want: map<VipId, Vip>, k: VipId)
    requires k in want
    ensures WeightsOf(want[k].backends).Keys <= AllWanted(want)
  {
    hide WeightsOf;
  }

  lemma OthersNext(was: Services, before: Services, services: Services, upserts: seq<Vip>, i: nat)
    requires i < |upserts| && OthersSame(was, before, upserts, i)
    requires forall w :: w in before && w != upserts[i].id ==> w in services && services[w] == before[w]
    ensures OthersSame(was, services, upserts, i + 1)
  {
  }

  lemma ProgrammedOn(before: Services, services: Services, upserts: seq<Vip>, i: nat)
    requires i < |upserts| && forall j, k :: 0 <= j < k < |upserts| ==> upserts[j].id != upserts[k].id
    requires forall w :: w in before && w != upserts[i].id ==> w in services && services[w] == before[w]
    ensures forall j :: 0 <= j < i && Programmed(before, upserts[j]) ==> Programmed(services, upserts[j])
  {
    hide WeightsOf;
  }

  lemma WantedInScope(want: map<VipId, Vip>, v: VipId, scope: map<VipId, set<Endpoint>>)
    requires WantInScope(want, scope) && v in want
    ensures v in scope && WeightsOf(want[v].backends).Keys <= scope[v]
  {
    hide WeightsOf;
  }

  lemma GuardScope(services: Services, states: States, want: map<VipId, Vip>)
    ensures var g := ReloadGuard(services, states, want); InScope(services, g.allowed) && WantInScope(want, g.allowed)
  {
    hide HealthOf, Staying;
    ScopeHolds(services, want);
  }

  function SpecsOf(services: Services): (specs: map<VipId, Option<Vip>>)
    ensures specs.Keys == services.Keys
  {
    map v | v in services :: services[v].spec
  }

  lemma AllHeld(states: States, ids: map<Endpoint, nat>, keep: set<Endpoint>)
    ensures FlagsHeld(states, ids, states, ids, keep)
  {
    hide FlagsOf;
  }

  lemma HeldOn(st0: States, ids0: map<Endpoint, nat>, st1: States, ids1: map<Endpoint, nat>, st: States,
      ids: map<Endpoint, nat>, keep: set<Endpoint>)
    requires FlagsHeld(st0, ids0, st1, ids1, keep) && FlagsHeld(st1, ids1, st, ids, keep)
    ensures FlagsHeld(st0, ids0, st, ids, keep)
  {
    hide FlagsOf;
  }

  lemma SubsetCompatible(some: set<VipId>, all: set<VipId>)
    requires Compatible(all) && some <= all
    ensures Compatible(some)
  {
  }

  lemma UpsertInReload(before: Services, services: Services, spec: Vip, ok: bool, want: map<VipId, Vip>,
      scope: map<VipId, set<Endpoint>>)
    requires Upserted(before, services, spec, ok) && before.Keys <= want.Keys && spec.id in want
        && want[spec.id] == spec
    requires WantInScope(want, scope)
    ensures services.Keys <= want.Keys && KeepsIds(before, services, want)
    ensures forall w :: w in before && w != spec.id ==> w in services && services[w] == before[w]
    ensures ok ==> Programmed(services, spec) && (InScope(before, scope) ==> InScope(services, scope))
    ensures forall w :: w in before ==> w in services
  {
    hide WeightsOf;
  }

  lemma RemovedOthers(was: Services, want: map<VipId, Vip>, removes: seq<VipId>, scope: map<VipId, set<Endpoint>>)
    requires InScope(was, scope) && forall k :: k in removes <==> k in was && k !in want
    ensures InScope(Without(was, removes), scope) && Without(was, removes).Keys <= want.Keys
  {
  }

  lemma ReloadIds(was: Services, kept: Services, services: Services, removes: seq<VipId>, want: map<VipId, Vip>)
    requires kept == Without(was, removes) && KeepsIds(kept, services, want)
    requires forall w :: w in kept ==> w in services
    requires forall w :: w in removes ==> w !in services
    ensures KeepsIds(was, services, want)
  {
  }

  lemma ReloadDone(was: Services, kept: Services, services: Services, current: map<VipId, Option<Vip>>,
      want: map<VipId, Vip>, plan: ReloadPlan)
    requires current == SpecsOf(was) && forall k :: k in plan.removes <==> k in current && k !in want
    requires forall k :: k in want ==> (want[k] in plan.upserts <==> !Same(current, want[k]))
    requires forall i :: 0 <= i < |plan.upserts| ==>
        plan.upserts[i].id in want && want[plan.upserts[i].id] == plan.upserts[i]
    requires kept == Without(was, plan.removes) && services.Keys <= want.Keys
    requires forall k :: k in want ==> want[k].id == k
    requires OthersSame(kept, services, plan.upserts, |plan.upserts|)
    requires forall i :: 0 <= i < |plan.upserts| ==> Programmed(services, plan.upserts[i])
    ensures services.Keys == want.Keys && forall k :: k in services ==> services[k].spec == Some(want[k])
  {
    hide WeightsOf;
    forall k | k in want
      ensures k in services && services[k].spec == Some(want[k])
    {
      if want[k] in plan.upserts {
        var i :| 0 <= i < |plan.upserts| && plan.upserts[i] == want[k];
        assert Programmed(services, plan.upserts[i]);
      } else {
        assert Same(current, want[k]);
        assert k in kept && kept[k] == was[k];
        forall i | 0 <= i < |plan.upserts|
          ensures plan.upserts[i].id != k
        {
          assert plan.upserts[i] in plan.upserts;
        }
      }
    }
  }

  // ---- What a reload keeps to.

  ghost predicate PinListed(services: Services, want: map<VipId, Vip>, w: VipId, id: nat, ep: Endpoint) {
    StaysListed(services, want, w, ep) && services[w].backends[ep] == id
  }

  ghost predicate PinsStay(services: Services, want: map<VipId, Vip>, pins: map<nat, Endpoint>) {
    forall id :: id in pins ==> exists w :: PinListed(services, want, w, id, pins[id])
  }

  ghost predicate HealthStays(states: States, g: Guard) {
    forall id :: id in g.health ==> id in g.pins && id in states && HealthOf(states[id]) in g.health[id]
  }

  /** During the reload packets reach only backends the VIP had or is configured to have, a VIP that
      is there before and after is found throughout, and a backend that some VIP keeps listing keeps
      its ID and its health. */
  ghost function ReloadGuard(services: Services, states: States, want: map<VipId, Vip>): Guard {
    var pins := map id | id in states && states[id].ep in Staying(services, want) :: states[id].ep;
    Guard(ReloadScope(services, want), services.Keys * want.Keys, pins,
      map id | id in pins && id in states :: {HealthOf(states[id])}, map[])
  }

  /** The guard asks for nothing that has been given up by now. */
  ghost predicate StillMet(services: Services, states: States, want: map<VipId, Vip>, g: Guard) {
    && InScope(services, g.allowed) && g.installed <= services.Keys && g.installed <= want.Keys && g.frozen == map[]
    && PinsStay(services, want, g.pins) && HealthStays(states, g)
  }

  lemma MetAtStart(services: Services, states: States, ids: map<Endpoint, nat>, want: map<VipId, Vip>)
    requires Named(services, states, ids)
    ensures StillMet(services, states, want, ReloadGuard(services, states, want))
  {
    hide HealthOf, ReloadScope, InScope, PinsStay, Staying, Named;
    ScopeHolds(services, want);
    PinsAtStart(services, states, ids, want);
  }

  lemma PinsAtStart(services: Services, states: States, ids: map<Endpoint, nat>, want: map<VipId, Vip>)
    requires Named(services, states, ids)
    ensures PinsStay(services, want, ReloadGuard(services, states, want).pins)
  {
    hide HealthOf, WeightsOf, ReloadScope;
    var g := ReloadGuard(services, states, want);
    forall id | id in g.pins
      ensures exists w :: PinListed(services, want, w, id, g.pins[id])
    {
      var w :| w in services && g.pins[id] in services[w].backends && StaysListed(services, want, w, g.pins[id]);
      assert PinListed(services, want, w, id, g.pins[id]);
    }
  }

  /** One operation of the reload is watched at least as closely as the reload. */
  lemma StepWeaker(services: Services, states: States, ids: map<Endpoint, nat>, m: Maps, want: map<VipId, Vip>,
      g: Guard, v: VipId, wanted: set<Endpoint>, removing: bool)
    requires StillMet(services, states, want, g) && Named(services, states, ids) && v in g.allowed
        && wanted <= g.allowed[v]
    requires if removing then v !in want else v in want && wanted == WeightsOf(want[v].backends).Keys
    ensures Weaker(g, WatchOf(services, states, m, NOTHING, v, wanted, removing).guard)
  {
    hide HealthOf, WeightsOf, During, LeftAlone, Anchored, InScope, PinsStay, Named;
    DuringInScope(services, v, wanted, g.allowed);
    forall id | id in g.pins
      ensures id in states && states[id].ep == g.pins[id] && Anchored(services, v, wanted, g.pins[id])
    {
      PinIsKnown(services, states, ids, want, g.pins, id);
      PinIsAnchored(services, want, g.pins, v, wanted, id);
    }
  }

  /** The ID of a pinned backend is the one it is known under. */
  lemma PinIsKnown(services: Services, states: States, ids: map<Endpoint, nat>, want: map<VipId, Vip>,
      pins: map<nat, Endpoint>, id: nat)
    requires PinsStay(services, want, pins) && Named(services, states, ids) && id in pins
    ensures id in states && states[id].ep == pins[id] && pins[id] in ids && ids[pins[id]] == id
  {
    hide WeightsOf;
    var w :| PinListed(services, want, w, id, pins[id]);
    var ep := pins[id];
    assert services[w].backends[ep] == id;
    assert ep in ids && ids[ep] == id;
  }

  lemma PinIsAnchored(services: Services, want: map<VipId, Vip>, pins: map<nat, Endpoint>, v: VipId,
      wanted: set<Endpoint>, id: nat)
    requires PinsStay(services, want, pins) && id in pins
    requires v in want ==> wanted == WeightsOf(want[v].backends).Keys
    ensures Anchored(services, v, wanted, pins[id])
  {
    hide WeightsOf;
    var w :| PinListed(services, want, w, id, pins[id]);
    if w != v {
      assert ListsToo(services, v, w, pins[id]);
    }
  }

  lemma PinsWithout(services: Services, v: VipId, want: map<VipId, Vip>, pins: map<nat, Endpoint>)
    requires PinsStay(services, want, pins) && v !in want
    ensures PinsStay(services - {v}, want, pins)
  {
    hide WeightsOf;
    forall id | id in pins
      ensures exists w :: PinListed(services - {v}, want, w, id, pins[id])
    {
      var w :| PinListed(services, want, w, id, pins[id]);
      assert PinListed(services - {v}, want, w, id, pins[id]);
    }
  }

  lemma PinsOn(before: Services, services: Services, want: map<VipId, Vip>, pins: map<nat, Endpoint>)
    requires PinsStay(before, want, pins) && KeepsIds(before, services, want) && forall w :: w in before ==>
        w in services
    ensures PinsStay(services, want, pins)
  {
    hide WeightsOf;
    forall id | id in pins
      ensures exists w :: PinListed(services, want, w, id, pins[id])
    {
      var w :| PinListed(before, want, w, id, pins[id]);
      assert PinListed(services, want, w, id, pins[id]);
    }
  }

  /** A backend that keeps its ID and its flags keeps its health. */
  lemma HealthOn(before: Services, states: States, ids: map<Endpoint, nat>, after: Services, states': States,
      ids': map<Endpoint, nat>, want: map<VipId, Vip>, g: Guard)
    requires PinsStay(before, want, g.pins) && Named(before, states, ids) && PinsStay(after, want, g.pins)
        && Named(after, states', ids')
    requires FlagsKept(states, ids, states', ids') && HealthStays(states, g)
    ensures HealthStays(states', g)
  {
    hide Named, PinsStay;
    forall id | id in g.health
      ensures id in states' && HealthOf(states'[id]) in g.health[id]
    {
      PinIsKnown(before, states, ids, want, g.pins, id);
      PinIsKnown(after, states', ids', want, g.pins, id);
      assert FlagsOf(states, ids, g.pins[id]).Some? && FlagsOf(states', ids', g.pins[id]).Some?;
    }
  }

  lemma MetAfterRemove(services: Services, states: States, ids: map<Endpoint, nat>, states': States,
      ids': map<Endpoint, nat>, want: map<VipId, Vip>, g: Guard, v: VipId)
    requires StillMet(services, states, want, g) && Named(services, states, ids) && Named(services - {v}, states', ids')
        && v !in want
    requires FlagsKept(states, ids, states', ids')
    ensures StillMet(services - {v}, states', want, g)
  {
    hide Named, PinsStay, FlagsKept, HealthStays;
    PinsWithout(services, v, want, g.pins);
    HealthOn(services, states, ids, services - {v}, states', ids', want, g);
  }

  lemma MetAfterUpsert(services: Services, states: States, ids: map<Endpoint, nat>, after: Services, states': States,
      ids': map<Endpoint, nat>, want: map<VipId, Vip>, g: Guard)
    requires StillMet(services, states, want, g) && Named(services, states, ids) && Named(after, states', ids')
    requires KeepsIds(services, after, want) && (forall w :: w in services ==> w in after) && InScope(after, g.allowed)
    requires FlagsKept(states, ids, states', ids')
    ensures StillMet(after, states', want, g)
  {
    hide Named, PinsStay, FlagsKept, HealthStays, KeepsIds, InScope;
    PinsOn(services, after, want, g.pins);
    HealthOn(services, states, ids, after, states', ids', want, g);
  }

  // ---- Which drains a reload keeps.

  ghost predicate Lists(c: map<VipId, set<Endpoint>>, ep: Endpoint) {
    exists v :: v in c && ep in c[v]
  }

  /** The configuration after the first i upserts. */
  ghost function AfterUpserts(c: map<VipId, set<Endpoint>>, upserts: seq<Vip>, i: nat): map<VipId, set<Endpoint>>
    requires i <= |upserts|
  {
    if i == 0 then c else AfterUpserts(c, upserts, i - 1)[upserts[i - 1].id := WeightsOf(upserts[i - 1].backends).Keys]
  }

  /** Some VIP lists ep before the first upsert and after each one. */
  ghost predicate Throughout(c: map<VipId, set<Endpoint>>, upserts: seq<Vip>, n: nat, ep: Endpoint)
    requires n <= |upserts|
  {
    forall i :: 0 <= i <= n ==> Lists(AfterUpserts(c, upserts, i), ep)
  }

  /** A backend listed now has the flags it had if it was listed throughout, else fresh ones. */
  ghost predicate FlagsFollow(was: States, wasIds: map<Endpoint, nat>, states: States, ids: map<Endpoint, nat>,
      c: map<VipId, set<Endpoint>>, upserts: seq<Vip>, n: nat)
    requires n <= |upserts|
  {
    forall ep :: Lists(AfterUpserts(c, upserts, n), ep) ==>
      FlagsOf(states, ids, ep) == if Throughout(c, upserts, n, ep) then FlagsOf(was, wasIds, ep) else FRESH_FLAGS
  }

  ghost predicate FlagsWhileListed(was: States, wasIds: map<Endpoint, nat>, states: States, ids: map<Endpoint, nat>,
      c: map<VipId, set<Endpoint>>) {
    forall ep :: Lists(c, ep) ==> FlagsOf(states, ids, ep) == FlagsOf(was, wasIds, ep)
  }

  /** Without lost references the known backends are the listed ones. */
  lemma KnownIffListed(services: Services, states: States, ids: map<Endpoint, nat>, ep: Endpoint)
    requires BackendsAgree(services, states, ids)
    ensures FlagsOf(states, ids, ep).Some? <==> Lists(Current(services), ep)
  {
    if FlagsOf(states, ids, ep).Some? {
      assert states[ids[ep]].ep == ep && |Users(services, ep)| > 0;
      var v :| v in Users(services, ep);
      assert v in Current(services) && ep in Current(services)[v];
    }
    if Lists(Current(services), ep) {
      var v :| v in Current(services) && ep in Current(services)[v];
      assert ep in services[v].backends;
    }
  }

  lemma ListedStart(states: States, ids: map<Endpoint, nat>, c: map<VipId, set<Endpoint>>, upserts: seq<Vip>)
    ensures FlagsFollow(states, ids, states, ids, c, upserts, 0) && FlagsWhileListed(states, ids, states, ids, c)
    ensures AfterUpserts(c, upserts, 0) == c
  {
    hide FlagsOf;
    forall ep | Lists(AfterUpserts(c, upserts, 0), ep)
      ensures Throughout(c, upserts, 0, ep)
    {
    }
  }

  lemma WhileListedNext(before: Services, after: Services, st0: States, ids0: map<Endpoint, nat>, st1: States,
      ids1: map<Endpoint, nat>, st: States, ids: map<Endpoint, nat>, v: VipId)
    requires BackendsAgree(before, st1, ids1) && after == before - {v}
    requires FlagsWhileListed(st0, ids0, st1, ids1, Current(before)) && FlagsKept(st1, ids1, st, ids)
        && BackendsAgree(after, st, ids)
    ensures FlagsWhileListed(st0, ids0, st, ids, Current(after))
  {
    hide BackendsAgree, FlagsOf;
    forall ep | Lists(Current(after), ep)
      ensures FlagsOf(st, ids, ep) == FlagsOf(st0, ids0, ep)
    {
      var w :| w in Current(after) && ep in Current(after)[w];
      assert w in Current(before) && ep in Current(before)[w];
      KnownIffListed(before, st1, ids1, ep);
      KnownIffListed(after, st, ids, ep);
      assert Carried(FlagsOf(st1, ids1, ep), FlagsOf(st, ids, ep));
    }
  }

  lemma FollowNext(before: Services, after: Services, st0: States, ids0: map<Endpoint, nat>, st1: States,
      ids1: map<Endpoint, nat>, st: States, ids: map<Endpoint, nat>, c: map<VipId, set<Endpoint>>, upserts: seq<Vip>,
      i: nat)
    requires i < |upserts| && BackendsAgree(before, st1, ids1) && BackendsAgree(after, st, ids)
    requires Current(before) == AfterUpserts(c, upserts, i) && Current(after) == AfterUpserts(c, upserts, i + 1)
    requires FlagsFollow(st0, ids0, st1, ids1, c, upserts, i) && FlagsKept(st1, ids1, st, ids)
    ensures FlagsFollow(st0, ids0, st, ids, c, upserts, i + 1)
  {
    hide BackendsAgree, FlagsOf, Current, AfterUpserts, Lists;
    forall ep | Lists(AfterUpserts(c, upserts, i + 1), ep)
      ensures FlagsOf(st, ids, ep) == if Throughout(c, upserts, i + 1, ep) then FlagsOf(st0, ids0, ep) else FRESH_FLAGS
    {
      KnownIffListed(before, st1, ids1, ep);
      KnownIffListed(after, st, ids, ep);
      assert Carried(FlagsOf(st1, ids1, ep), FlagsOf(st, ids, ep));
      ThroughoutNext(c, upserts, i, ep);
    }
  }

  lemma ThroughoutNext(c: map<VipId, set<Endpoint>>, upserts: seq<Vip>, i: nat, ep: Endpoint)
    requires i < |upserts|
    ensures Throughout(c, upserts, i + 1, ep) <==>
        Throughout(c, upserts, i, ep) && Lists(AfterUpserts(c, upserts, i + 1), ep)
    ensures Throughout(c, upserts, i, ep) ==> Lists(AfterUpserts(c, upserts, i), ep)
  {
    hide AfterUpserts, Lists;
  }

  lemma CurrentNext(before: Services, after: Services, c: map<VipId, set<Endpoint>>, upserts: seq<Vip>, i: nat)
    requires i < |upserts| && Current(before) == AfterUpserts(c, upserts, i)
        && Upserted(before, after, upserts[i], true)
    ensures Current(after) == AfterUpserts(c, upserts, i + 1)
  {
    hide WeightsOf, NewExtent, ClassFor;
    assert after.Keys == before.Keys + {upserts[i].id};
  }

  /** What becomes of the flags: removals first, then the upserts in their order. */
  ghost predicate FlagsReloaded(was: Services, wasStates: States, wasIds: map<Endpoint, nat>, plan: ReloadPlan,
      services: Services, states: States, ids: map<Endpoint, nat>) {
    forall ep :: Lists(Current(services), ep) ==>
      FlagsOf(states, ids, ep) ==
        if Throughout(Current(Without(was, plan.removes)), plan.upserts, |plan.upserts|, ep) then FlagsOf(wasStates,
            wasIds, ep) else FRESH_FLAGS
  }

  lemma ReloadedFlags(was: Services, wasStates: States, wasIds: map<Endpoint, nat>, kept: Services, st: States,
      keptIds: map<Endpoint, nat>, plan: ReloadPlan, services: Services, states: States, ids: map<Endpoint, nat>)
    requires kept == Without(was, plan.removes) && FlagsWhileListed(wasStates, wasIds, st, keptIds, Current(kept))
    requires FlagsFollow(st, keptIds, states, ids, Current(kept), plan.upserts, |plan.upserts|)
    requires Current(services) == AfterUpserts(Current(kept), plan.upserts, |plan.upserts|)
    ensures FlagsReloaded(was, wasStates, wasIds, plan, services, states, ids)
  {
    hide FlagsOf, Current, Without, Lists;
    var c := Current(kept);
    forall ep | Throughout(c, plan.upserts, |plan.upserts|, ep)
      ensures Lists(c, ep)
    {
      assert AfterUpserts(c, plan.upserts, 0) == c;
    }
  }

  /** A backend drained before a reload and listed after it is still drained if and only if it was
      listed throughout. */
  lemma DrainKeptIff(was: Services, wasStates: States, wasIds: map<Endpoint, nat>, plan: ReloadPlan, services: Services,
      states: States, ids: map<Endpoint, nat>, ep: Endpoint)
    requires FlagsReloaded(was, wasStates, wasIds, plan, services, states, ids) && Lists(Current(services), ep)
    requires FlagsOf(wasStates, wasIds, ep).Some? && FlagsOf(wasStates, wasIds, ep).value.2
    ensures FlagsOf(states, ids, ep).Some?
    ensures FlagsOf(states, ids, ep).value.2 <==>
              Throughout(Current(Without(was, plan.removes)), plan.upserts, |plan.upserts|, ep)
  {
    hide Throughout, Current, Without, Lists;
  }

  /** Moving a backend from one VIP to another: it is listed throughout if the VIP that gets it comes
      first in the configuration, and not if the VIP that gives it up does. */
  lemma MoveDependsOnOrder(a: VipId, b: VipId, moved: Endpoint, other: Endpoint, giver: Vip, taker: Vip)
    requires a != b && moved != other && giver.id == a && taker.id == b
    requires WeightsOf(giver.backends).Keys == {other} && WeightsOf(taker.backends).Keys == {moved}
    ensures var c := map[a := {moved}, b := {other}];
            && !Throughout(c, [giver, taker], 2, moved) && Throughout(c, [taker, giver], 2, moved)
            && Lists(AfterUpserts(c, [giver, taker], 2), moved)
  {
    hide WeightsOf;
    var c := map[a := {moved}, b := {other}];
    var gave, took := [giver, taker], [taker, giver];
    assert AfterUpserts(c, gave, 1) == c[a := {other}];
    assert !Lists(c[a := {other}], moved);
    assert AfterUpserts(c, gave, 2) == c[a := {other}][b := {moved}];
    assert moved in c[a := {other}][b := {moved}][b];
    assert AfterUpserts(c, took, 0) == c && moved in c[a];
    assert AfterUpserts(c, took, 1) == c[b := {moved}] && moved in c[b := {moved}][b];
    assert AfterUpserts(c, took, 2) == c[b := {moved}][a := {other}] && moved in c[b := {moved}][a := {other}][b];
    hide AfterUpserts, Lists;
    forall i | 0 <= i <= 2
      ensures Lists(AfterUpserts(c, took, i), moved)
    {
      assert i == 0 || i == 1 || i == 2;
    }
  }

  // ---- The upserts of a reload, one by one.

  /** What the control plane knows. */
  datatype Memory = Memory(services: Services, states: States, ids: map<Endpoint, nat>, lost: multiset<Endpoint>)

  ghost predicate Unbroken(m: Memory) {
    Counted(m.services, m.states, m.ids, m.lost)
  }

  /** Every upsert so far was fine, and the memory is what they asked for. */
  ghost predicate AllDone(was: Memory, now: Memory, upserts: seq<Vip>, i: nat, scope: map<VipId, set<Endpoint>>)
    requires i <= |upserts|
  {
    && now.lost == was.lost && InScope(now.services, scope)
    && (forall j :: 0 <= j < i ==> Programmed(now.services, upserts[j]))
    && Current(now.services) == AfterUpserts(Current(was.services), upserts, i)
    && (was.lost == multiset{} ==>
        FlagsFollow(was.states, was.ids, now.states, now.ids, Current(was.services), upserts, i))
  }

  /** After i upserts, failed ones included. */
  ghost predicate UpsertsDone(was: Memory, now: Memory, upserts: seq<Vip>, i: nat, want: map<VipId, Vip>,
      keep: set<Endpoint>, scope: map<VipId, set<Endpoint>>, ok: bool)
    requires i <= |upserts|
  {
    && was.services.Keys <= now.services.Keys <= want.Keys && KeepsIds(was.services, now.services, want)
    && OthersSame(was.services, now.services, upserts, i)
    && Stays(now.services, want, keep) && FlagsHeld(was.states, was.ids, now.states, now.ids, keep)
    && (ok ==> AllDone(was, now, upserts, i, scope))
  }

  lemma NoneDone(was: Memory, upserts: seq<Vip>, want: map<VipId, Vip>, keep: set<Endpoint>,
      scope: map<VipId, set<Endpoint>>)
    requires was.services.Keys <= want.Keys && InScope(was.services, scope) && Stays(was.services, want, keep)
    ensures UpsertsDone(was, was, upserts, 0, want, keep, scope, true)
  {
    hide InScope, Stays, FlagsFollow, AfterUpserts, KeepsIds, OthersSame, FlagsHeld;
    AllHeld(was.states, was.ids, keep);
    AllSame(was.services, upserts);
    ListedStart(was.states, was.ids, Current(was.services), upserts);
    KeepsOwnIds(was.services, want);
  }

  /** What one upsert does, as far as a reload is concerned. */
  ghost predicate OneDone(before: Memory, now: Memory, spec: Vip, ok: bool) {
    && Unbroken(before) && Unbroken(now) && Upserted(before.services, now.services, spec, ok)
    && FlagsKept(before.states, before.ids, now.states, now.ids) && (ok ==> now.lost == before.lost)
  }

  lemma MoreDone(was: Memory, before: Memory, now: Memory, upserts: seq<Vip>, i: nat, want: map<VipId, Vip>,
      keep: set<Endpoint>, scope: map<VipId, set<Endpoint>>, ok: bool, this1: bool)
    requires i < |upserts| && UpsertsDone(was, before, upserts, i, want, keep, scope, ok)
        && OneDone(before, now, upserts[i], this1)
    requires upserts[i].id in want && want[upserts[i].id] == upserts[i] && WantInScope(want, scope)
    requires forall j, k :: 0 <= j < k < |upserts| ==> upserts[j].id != upserts[k].id
    ensures UpsertsDone(was, now, upserts, i + 1, want, keep, scope, ok && this1)
  {
    hide InScope, WantInScope, Stays, FlagsFollow, AfterUpserts, KeepsIds, OthersSame, FlagsHeld, Upserted, FlagsKept,
      Current, Programmed, CountsMatch, Named;
    UpsertInReload(before.services, now.services, upserts[i], this1, want, scope);
    StaysOn(before.services, now.services, want, keep);
    FlagsHeldNext(before.services, now.services, want, keep, was.states, was.ids, before.states, before.ids, now.states,
      now.ids);
    KeepsIdsOn(was.services, before.services, now.services, want);
    OthersNext(was.services, before.services, now.services, upserts, i);
    if ok && this1 {
      AllMoreDone(was, before, now, upserts, i, scope);
    }
  }

  lemma AllMoreDone(was: Memory, before: Memory, now: Memory, upserts: seq<Vip>, i: nat,
      scope: map<VipId, set<Endpoint>>)
    requires i < |upserts| && AllDone(was, before, upserts, i, scope) && OneDone(before, now, upserts[i], true)
    requires InScope(now.services, scope) && Programmed(now.services, upserts[i])
    requires forall w :: w in before.services && w != upserts[i].id ==>
        w in now.services && now.services[w] == before.services[w]
    requires forall j, k :: 0 <= j < k < |upserts| ==> upserts[j].id != upserts[k].id
    ensures AllDone(was, now, upserts, i + 1, scope)
  {
    hide InScope, FlagsFollow, AfterUpserts, Upserted, FlagsKept, Current, Programmed, Counted;
    ProgrammedOn(before.services, now.services, upserts, i);
    CurrentNext(before.services, now.services, Current(was.services), upserts, i);
    if was.lost == multiset{} {
      FollowNext(before.services, now.services, was.states, was.ids, before.states, before.ids, now.states, now.ids,
        Current(was.services), upserts, i);
    }
  }

  lemma KeysDone(was: Memory, now: Memory, upserts: seq<Vip>, i: nat, want: map<VipId, Vip>, keep: set<Endpoint>,
      scope: map<VipId, set<Endpoint>>, ok: bool)
    requires i <= |upserts| && UpsertsDone(was, now, upserts, i, want, keep, scope, ok)
    ensures now.services.Keys <= want.Keys
  {
    hide Stays, KeepsIds, OthersSame, FlagsHeld, AllDone;
  }

  lemma UpsertKeepsRefits(before: Memory, after: Memory, upserts: seq<Vip>, i: nat, ok: bool, all: set<Endpoint>)
    requires i < |upserts| && AllRefit(before.services, before.ids, upserts, i, all)
        && Upserted(before.services, after.services, upserts[i], ok)
        && Wider(before.ids, after.ids, WeightsOf(upserts[i].backends).Keys)
    requires forall j, k :: 0 <= j < k < |upserts| ==> upserts[j].id != upserts[k].id
    ensures AllRefit(after.services, after.ids, upserts, i + 1, all)
  {
    hide AllRefit, WeightsOf, NewExtent, ClassFor;
    RefitOn(before.services, before.ids, after.services, after.ids, upserts, i, all);
  }

  lemma DoneFacts(was: Memory, now: Memory, upserts: seq<Vip>, i: nat, want: map<VipId, Vip>, keep: set<Endpoint>,
      scope: map<VipId, set<Endpoint>>, ok: bool)
    requires i <= |upserts| && UpsertsDone(was, now, upserts, i, want, keep, scope, ok)
    ensures was.services.Keys <= now.services.Keys <= want.Keys && KeepsIds(was.services, now.services, want)
    ensures OthersSame(was.services, now.services, upserts, i)
        && FlagsHeld(was.states, was.ids, now.states, now.ids, keep)
    ensures ok ==> now.lost == was.lost && (forall j :: 0 <= j < i ==> Programmed(now.services, upserts[j]))
    ensures ok ==> Current(now.services) == AfterUpserts(Current(was.services), upserts, i)
    ensures ok && was.lost == multiset{} ==>
              FlagsFollow(was.states, was.ids, now.states, now.ids, Current(was.services), upserts, i)
  {
    hide InScope, Stays, FlagsFollow, AfterUpserts, KeepsIds, OthersSame, FlagsHeld, Current, Programmed;
  }

  /** A successful upsert keeps to what the reload keeps to. */
  lemma UpsertSafe(before: Memory, now: Memory, m: Maps, upserts: seq<Vip>, i: nat, want: map<VipId, Vip>, g: Guard,
      log0: seq<Maps>, log1: seq<Maps>, log: seq<Maps>)
    requires i < |upserts| && upserts[i].id in want && want[upserts[i].id] == upserts[i]
        && before.services.Keys <= want.Keys
    requires StillMet(before.services, before.states, want, g) && WantInScope(want, g.allowed)
        && OneDone(before, now, upserts[i], true)
    requires SafeSince(log0, log1, g) && SafeSince(log1, log, UpsertGuard(before.services, before.states, m, NOTHING,
        upserts[i],
        Ok(())))
    ensures StillMet(now.services, now.states, want, g) && SafeSince(log0, log, g)
  {
    hide StillMet, WantInScope, SafeSince, Safe, Weaker, WatchOf, Upserted, FlagsKept, CountsMatch, Named, InScope,
      KeepsIds, WeightsOf;
    var v, wanted := upserts[i].id, WeightsOf(upserts[i].backends).Keys;
    MetInScope(before.services, before.states, want, g);
    UpsertInReload(before.services, now.services, upserts[i], true, want, g.allowed);
    MetAfterUpsert(before.services, before.states, before.ids, now.services, now.states, now.ids, want, g);
    WantedInScope(want, v, g.allowed);
    StepWeaker(before.services, before.states, before.ids, m, want, g, v, wanted, false);
    SafeOn(log0, log1, log, WatchOf(before.services, before.states, m, NOTHING, v, wanted, false).guard, g);
  }

  lemma MetInScope(services: Services, states: States, want: map<VipId, Vip>, g: Guard)
    requires StillMet(services, states, want, g)
    ensures InScope(services, g.allowed)
  {
  }
}
