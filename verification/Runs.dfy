/** Whole runs of the control plane: any sequence of VIP changes, reloads, probe verdicts and
    drains, against what that sequence configures. */
module ControlRuns {
  import opened Common
  import opened Types
  import opened PortRange
  import opened VipLookup
  import opened BpfMaps
  import opened IdAllocation
  import opened ExtentAllocation
  import opened Maglev
  import opened DataplaneState
  import opened MapAgreement
  import opened Watching
  import opened UpsertConditions
  import opened UpsertSteps
  import opened ReloadSteps
  import opened DataplaneControl
  import opened ReloadPlanning

  /** Which backends each VIP is configured with. */
  type Config = map<VipId, set<Endpoint>>

  datatype Op =
    | Upserting(spec: Vip)
    | Removing(vip: VipId)
    | Reloading(desired: seq<Vip>)
    | Probed(bid: nat, healthy: bool)
    | Draining(bid: nat, on: bool)
    | AdminDraining(bid: nat, on: bool)

  ghost function Next(c: Config, op: Op): Config {
    match op
    case Upserting(spec) => c[spec.id := WeightsOf(spec.backends).Keys]
    case Removing(v) => c - {v}
    case Reloading(desired) => map v | v in Want(desired) :: WeightsOf(Want(desired)[v].backends).Keys
    case _ => c
  }

  ghost function After(c: Config, ops: seq<Op>): Config {
    if ops == [] then c else Next(After(c, ops[..|ops| - 1]), ops[|ops| - 1])
  }

  /** What a VIP has before a change and is to have after it. */
  ghost function Scope(c: Config, c': Config): Config {
    map v | v in c.Keys + c'.Keys :: (if v in c then c[v] else {}) + (if v in c' then c'[v] else {})
  }

  /** The configuration after the first i operations. */
  ghost function At(c: Config, ops: seq<Op>, i: nat): Config
    requires i <= |ops|
  {
    After(c, ops[..i])
  }

  /** No configuration along the way has clashing ranges. */
  ghost predicate Legal(c: Config, ops: seq<Op>) {
    forall i :: 0 < i <= |ops| ==> Compatible(At(c, ops, i).Keys)
  }

  ghost predicate KeptBy(c: Config, c': Config, v: VipId, ep: Endpoint) {
    v in c && v in c' && ep in c[v] && ep in c'[v]
  }

  /** Some VIP lists ep both before and after. */
  ghost predicate Kept(c: Config, c': Config, ep: Endpoint) {
    exists v :: KeptBy(c, c', v, ep)
  }

  /** The operator has drained ep, known as id. */
  ghost predicate Drained(states: States, ids: map<Endpoint, nat>, ep: Endpoint, id: nat) {
    ep in ids && ids[ep] == id && id in states && states[id].adminDraining
  }

  /** What a probe verdict or a drain does to the flags of the backend it is about. */
  ghost function Marked(st: BackendState, id: nat, op: Op): BackendState {
    match op
    case Probed(bid, healthy) => if bid == id then st.(probeHealthy := healthy) else st
    case Draining(bid, on) => if bid == id then st.(draining := on) else st
    case AdminDraining(bid, on) => if bid == id then st.(adminDraining := on) else st
    case _ => st
  }

  ghost predicate SameFlags(st: BackendState, st': BackendState) {
    st.probeHealthy == st'.probeHealthy && st.draining == st'.draining && st.adminDraining == st'.adminDraining
  }

  // ---- One operation.

  /** Nothing clashes, and the maps agree with the memory. */
  ghost predicate Ready(d: Dataplane, op: Op)
    reads d
  {
    d.InSync() && Fair(d.services, op)
  }

  /** The operation makes no two ranges clash. */
  ghost predicate Fair(services: Services, op: Op) {
    Compatible(Next(Current(services), op).Keys)
  }

  /** What every snapshot during an operation keeps to: packets reach only backends their VIP had or
      is to have; a VIP there before and after is found; the ID of a backend that some VIP keeps
      listing means that backend; and its health is what its flags say before or after. */
  ghost function OpGuard(services: Services, states: States, op: Op): Guard {
    var c := Current(services);
    var c' := Next(c, op);
    var pins := map id | id in states && Kept(c, c', states[id].ep) :: states[id].ep;
    Guard(Scope(c, c'), c.Keys * c'.Keys, pins,
      map id | id in pins && id in states :: {HealthOf(states[id]), HealthOf(Marked(states[id], id, op))}, map[])
  }

  /** The operation did what it is configured to do, and nothing strayed meanwhile. */
  ghost predicate Applied(was: Services, wasStates: States, op: Op, services: Services, before: seq<Maps>,
      log: seq<Maps>) {
    Current(services) == Next(Current(was), op) && SafeSince(before, log, OpGuard(was, wasStates, op))
  }

  /** A backend that some VIP keeps listing keeps its ID, and its flags but for what is reported. */
  ghost predicate FlagsCarried(was: States, wasIds: map<Endpoint, nat>, c: Config, op: Op, states: States,
      ids: map<Endpoint, nat>) {
    forall ep :: Kept(c, Next(c, op), ep) ==>
      && ep in wasIds && ep in ids && ids[ep] == wasIds[ep] && ids[ep] in was && ids[ep] in states
      && SameFlags(states[ids[ep]], Marked(was[ids[ep]], ids[ep], op))
  }

  /** A VIP that keeps a backend keeps its ID. */
  ghost predicate SameKept(was: Services, services: Services) {
    forall v, ep :: v in was && v in services && ep in was[v].backends && ep in services[v].backends ==>
      services[v].backends[ep] == was[v].backends[ep]
  }

  ghost predicate KeptFlags(was: States, wasIds: map<Endpoint, nat>, c: Config, c': Config, states: States,
      ids: map<Endpoint, nat>) {
    forall ep :: Kept(c, c', ep) ==> FlagsOf(states, ids, ep) == FlagsOf(was, wasIds, ep)
  }

  lemma KeptIsListed(was: Services, services: Services, states0: States, ids0: map<Endpoint, nat>, states: States,
      ids: map<Endpoint, nat>, ep: Endpoint)
    requires Named(was, states0, ids0) && Named(services, states, ids) && SameKept(was, services)
    requires Kept(Current(was), Current(services), ep)
    ensures ep in ids0 && ep in ids && ids0[ep] == ids[ep] && ids[ep] in states0 && ids[ep] in states
  {
    var v :| KeptBy(Current(was), Current(services), v, ep);
    assert ep in was[v].backends && ep in services[v].backends;
  }

  lemma KeptFromAll(was: Services, services: Services, states0: States, ids0: map<Endpoint, nat>, states: States,
      ids: map<Endpoint, nat>)
    requires Named(was, states0, ids0) && Named(services, states, ids) && SameKept(was, services)
    requires FlagsKept(states0, ids0, states, ids)
    ensures KeptFlags(states0, ids0, Current(was), Current(services), states, ids)
  {
    hide Named, SameKept, Kept, Current;
    forall ep | Kept(Current(was), Current(services), ep)
      ensures FlagsOf(states, ids, ep) == FlagsOf(states0, ids0, ep)
    {
      KeptIsListed(was, services, states0, ids0, states, ids, ep);
      assert FlagsOf(states0, ids0, ep).Some? && FlagsOf(states, ids, ep).Some?;
    }
  }

  lemma KeptFollow(was: Services, services: Services, states0: States, ids0: map<Endpoint, nat>, states: States,
      ids: map<Endpoint, nat>, op: Op)
    requires Named(was, states0, ids0) && Named(services, states, ids) && SameKept(was, services)
    requires KeptFlags(states0, ids0, Current(was), Current(services), states, ids)
    requires Current(services) == Next(Current(was), op) && !IsFlagOp(op)
    ensures FlagsCarried(states0, ids0, Current(was), op, states, ids)
  {
    hide Named, SameKept, Kept, Current, Next;
    forall ep | Kept(Current(was), Next(Current(was), op), ep)
      ensures ep in ids0 && ep in ids && ids[ep] == ids0[ep] && ids[ep] in states0 && ids[ep] in states
      ensures SameFlags(states[ids[ep]], states0[ids[ep]])
    {
      KeptIsListed(was, services, states0, ids0, states, ids, ep);
      assert FlagsOf(states, ids, ep) == FlagsOf(states0, ids0, ep);
    }
  }

  method Apply(d: Dataplane, op: Op) returns (ok: bool)
    requires d.Mem() && Sized(d.services)
    modifies d`services, d`states, d`maps, d`log, d`calls, d`lost, d`loose, d`stale, d.serviceIds, d.backendIds,
      d.maglev
    ensures d.Mem() && Sized(d.services) && old(d.log) <= d.log
    ensures old(d.Partly()) && Fair(old(d.services), op) ==> d.Partly()
    ensures d.services.Keys <= Next(Current(old(d.services)), op).Keys
    ensures ok && old(Ready(d, op)) ==>
              && d.InSync() && Applied(old(d.services), old(d.states), op, d.services, old(d.log), d.log)
              && FlagsCarried(old(d.states), old(d.backendIds.ids), Current(old(d.services)), op, d.states,
                  d.backendIds.ids)
  {
    match op
    case Upserting(spec) => ok := ApplyUpsert(d, spec);
    case Removing(v) => ApplyRemove(d, v); ok := true;
    case Reloading(desired) => ok := ApplyReload(d, desired);
    case _ => ok := ApplyFlags(d, op);
  }

  method ApplyUpsert(d: Dataplane, spec: Vip) returns (ok: bool)
    requires d.Mem() && Sized(d.services)
    modifies d`services, d`states, d`maps, d`log, d`calls, d`lost, d`loose, d`stale, d.serviceIds, d.backendIds,
      d.maglev
    ensures d.Mem() && Sized(d.services) && old(d.log) <= d.log
    ensures old(d.Partly()) && Fair(old(d.services), Upserting(spec)) ==> d.Partly()
    ensures d.services.Keys <= Next(Current(old(d.services)), Upserting(spec)).Keys
    ensures ok && old(Ready(d, Upserting(spec))) ==>
              && d.InSync() && Applied(old(d.services), old(d.states), Upserting(spec), d.services, old(d.log), d.log)
              && FlagsCarried(old(d.states), old(d.backendIds.ids), Current(old(d.services)), Upserting(spec), d.states,
                  d.backendIds.ids)
  {
    hide Agree, AgreeBut, Compatible, Sized, WeightsOf, Safe, SafeSince, Named, Counted, ExtentsAgree, PoolValid,
      FreeListValid,
      Slots, FlagsKept, Upserted, SidsOf, FlagsCarried, Shaped, Next, Current, OpGuard, WatchOf, Weaker,
      SameKept, KeptFlags, Why, BackendsAgree, Acceptable;
    UpsertReady(d.services, spec);
    d.Matched();
    d.InSyncIff();
    var r := d.Upsert(spec);
    UpsertKeys(old(d.services), d.services, spec, r.Ok?);
    d.Matched();
    ok := r.Ok?;
    if ok {
      UpsertFollows(old(d.services), d.services, old(d.states), old(d.backendIds.ids), d.states, d.backendIds.ids,
        spec);
      UpsertRelaxes(old(d.log), d.log, old(d.services), old(d.states), old(d.maps), spec, r);
    }
  }

  lemma UpsertRelaxes(from: seq<Maps>, log: seq<Maps>, services: Services, states: States, m: Maps, spec: Vip,
      r: Result<(), UpsertError>)
    requires r.Ok?
    ensures SafeSince(from, log, UpsertGuard(services, states, m, NOTHING, spec, r)) ==>
        SafeSince(from, log, OpGuard(services, states, Upserting(spec)))
  {
    UpsertWeaker(services, states, m, spec);
    hide SafeSince, Weaker, WatchOf, OpGuard, WeightsOf;
    var g', g := UpsertGuard(services, states, m, NOTHING, spec, r), OpGuard(services, states, Upserting(spec));
    if SafeSince(from, log, g') {
      SafeRelaxes(from, log, g', g);
    }
  }

  lemma UpsertFollows(was: Services, services: Services, states0: States, ids0: map<Endpoint, nat>, states: States,
      ids: map<Endpoint, nat>, spec: Vip)
    requires Named(was, states0, ids0) && Named(services, states, ids) && Upserted(was, services, spec, true)
    requires FlagsKept(states0, ids0, states, ids)
    ensures Current(services) == Next(Current(was), Upserting(spec))
    ensures FlagsCarried(states0, ids0, Current(was), Upserting(spec), states, ids)
  {
    hide Named, Upserted, FlagsKept, FlagsCarried, Next, Current, SameKept, KeptFlags;
    UpsertCurrent(was, services, spec);
    KeptFromAll(was, services, states0, ids0, states, ids);
    KeptFollow(was, services, states0, ids0, states, ids, Upserting(spec));
  }

  /** A backend some VIP keeps listing through an operation on v stays anchored. */
  lemma KeptIsAnchored(services: Services, v: VipId, wanted: set<Endpoint>, c': Config, ep: Endpoint)
    requires Kept(Current(services), c', ep) && (v in c' ==> c'[v] == wanted)
    ensures Anchored(services, v, wanted, ep)
  {
    var u :| KeptBy(Current(services), c', u, ep);
    if u != v {
      assert ListsToo(services, v, u, ep);
    }
  }

  /** What one operation on one VIP is watched for covers what is asked of it. */
  lemma WatchWeaker(services: Services, states: States, m: Maps, op: Op, v: VipId, wanted: set<Endpoint>,
      removing: bool)
    requires During(services, map[], v, wanted) == Scope(Current(services), Next(Current(services), op))
    requires v in Next(Current(services), op) ==> Next(Current(services), op)[v] == wanted
    requires removing ==> v !in Next(Current(services), op)
    ensures Weaker(OpGuard(services, states, op), WatchOf(services, states, m, NOTHING, v, wanted, removing).guard)
  {
    hide During, Scope, Next, LeftAlone, Kept, Anchored;
    var c' := Next(Current(services), op);
    forall id | id in states && Kept(Current(services), c', states[id].ep)
      ensures Anchored(services, v, wanted, states[id].ep)
    {
      KeptIsAnchored(services, v, wanted, c', states[id].ep);
    }
  }

  lemma UpsertWeaker(services: Services, states: States, m: Maps, spec: Vip)
    ensures Weaker(OpGuard(services, states, Upserting(spec)), UpsertGuard(services, states, m, NOTHING, spec, Ok(())))
  {
    hide WeightsOf, OpGuard, WatchOf, Weaker, During, Scope;
    UpsertReady(services, spec);
    WatchWeaker(services, states, m, Upserting(spec), spec.id, WeightsOf(spec.backends).Keys, false);
  }

  lemma UpsertReady(services: Services, spec: Vip)
    ensures Next(Current(services), Upserting(spec)).Keys == services.Keys + {spec.id}
    ensures During(services, map[], spec.id, WeightsOf(spec.backends).Keys) == Scope(Current(services),
        Next(Current(services), Upserting(spec)))
  {
    hide WeightsOf;
    DuringScope(services, spec.id, WeightsOf(spec.backends).Keys);
  }

  lemma DuringScope(services: Services, v: VipId, wanted: set<Endpoint>)
    ensures During(services, map[], v, wanted) == Scope(Current(services), Current(services)[v := wanted])
  {
    var during, scope := During(services, map[], v, wanted), Scope(Current(services), Current(services)[v := wanted]);
    assert during.Keys == services.Keys + {v} == scope.Keys;
    hide During, Scope;
    forall w | w in services.Keys + {v}
      ensures during[w] == scope[w]
    {
      DuringAt(services, v, wanted, w);
    }
  }

  lemma DuringAt(services: Services, v: VipId, wanted: set<Endpoint>, w: VipId)
    requires w in services.Keys + {v}
    ensures w in During(services, map[], v, wanted)
    ensures w in Scope(Current(services), Current(services)[v := wanted])
    ensures During(services, map[], v, wanted)[w] == Scope(Current(services), Current(services)[v := wanted])[w]
  {
    if w != v {
      assert services[w].backends.Keys + services[w].backends.Keys == services[w].backends.Keys;
    }
  }

  lemma UpsertCurrent(was: Services, services: Services, spec: Vip)
    requires Upserted(was, services, spec, true)
    ensures Current(services) == Next(Current(was), Upserting(spec)) && SameKept(was, services)
  {
    hide WeightsOf, NewExtent, ClassFor;
    UpsertedKeeps(was, services, spec);
    UpsertedOthers(was, services, spec);
    hide Upserted;
    assert services.Keys == was.Keys + {spec.id};
  }

  lemma UpsertKeys(was: Services, services: Services, spec: Vip, ok: bool)
    requires Upserted(was, services, spec, ok)
    ensures services.Keys <= was.Keys + {spec.id}
  {
    hide WeightsOf, NewExtent, ClassFor;
  }

  lemma UpsertedOthers(was: Services, services: Services, spec: Vip)
    requires Upserted(was, services, spec, true)
    ensures services.Keys == was.Keys + {spec.id} && services[spec.id].backends.Keys == WeightsOf(spec.backends).Keys
    ensures forall w :: w in was && w != spec.id ==> services[w] == was[w]
  {
    hide WeightsOf, NewExtent, ClassFor;
    assert forall w :: w in services <==> w in was.Keys + {spec.id};
  }

  lemma UpsertedKeeps(was: Services, services: Services, spec: Vip)
    requires Upserted(was, services, spec, true)
    ensures SameKept(was, services)
  {
    hide WeightsOf, NewExtent, ClassFor;
  }

  method ApplyRemove(d: Dataplane, v: VipId)
    requires d.Mem() && Sized(d.services)
    modifies d`services, d`states, d`maps, d`log, d`calls, d`lost, d`loose, d`stale, d.serviceIds, d.backendIds,
      d.maglev
    ensures d.Mem() && Sized(d.services) && old(d.log) <= d.log
    ensures old(d.Partly()) && Fair(old(d.services), Removing(v)) ==> d.Partly()
    ensures d.services.Keys <= Next(Current(old(d.services)), Removing(v)).Keys
    ensures old(Ready(d, Removing(v))) ==>
              && d.InSync() && Applied(old(d.services), old(d.states), Removing(v), d.services, old(d.log), d.log)
              && FlagsCarried(old(d.states), old(d.backendIds.ids), Current(old(d.services)), Removing(v), d.states,
                  d.backendIds.ids)
  {
    hide Agree, AgreeBut, Compatible, Sized, Safe, SafeSince, Named, Counted, ExtentsAgree, PoolValid, FreeListValid,
      Slots,
      FlagsKept, SidsOf, FlagsCarried, Shaped, Next, Current, OpGuard, WatchOf, Weaker, SameKept, KeptFlags;
    d.Matched();
    d.InSyncIff();
    d.Remove(v);
    d.Matched();
    RemoveCurrent(old(d.services), v);
    CurrentKeys(d.services);
    KeptFromAll(old(d.services), d.services, old(d.states), old(d.backendIds.ids), d.states, d.backendIds.ids);
    KeptFollow(old(d.services), d.services, old(d.states), old(d.backendIds.ids), d.states, d.backendIds.ids,
      Removing(v));
    if old(Ready(d, Removing(v))) {
      if v in old(d.services) {
        RemoveWeaker(old(d.services), old(d.states), old(d.maps), v);
        SafeRelaxes(old(d.log), d.log, WatchOf(old(d.services), old(d.states), old(d.maps), NOTHING, v, {}, true).guard,
          OpGuard(old(d.services), old(d.states), Removing(v)));
      } else {
        NothingWritten(d.log, OpGuard(old(d.services), old(d.states), Removing(v)));
      }
    }
  }

  lemma RemoveWeaker(services: Services, states: States, m: Maps, v: VipId)
    requires v in services
    ensures Weaker(OpGuard(services, states, Removing(v)), WatchOf(services, states, m, NOTHING, v, {}, true).guard)
  {
    hide OpGuard, WatchOf, Weaker, During, Scope;
    RemoveCurrent(services, v);
    WatchWeaker(services, states, m, Removing(v), v, {}, true);
  }

  lemma RemoveCurrent(was: Services, v: VipId)
    ensures Current(was - {v}) == Next(Current(was), Removing(v)) && SameKept(was, was - {v})
    ensures v in was ==> During(was, map[], v, {}) == Scope(Current(was), Next(Current(was), Removing(v)))
  {
    hide During, Scope;
    if v in was {
      RemoveScope(was, v);
    }
  }

  lemma CurrentKeys(services: Services)
    ensures Current(services).Keys == services.Keys
  {
  }

  lemma RemoveScope(was: Services, v: VipId)
    requires v in was
    ensures During(was, map[], v, {}) == Scope(Current(was), Current(was) - {v})
  {
    forall w | w in was
      ensures During(was, map[], v, {})[w] == Scope(Current(was), Current(was) - {v})[w]
    {
    }
  }

  method ApplyReload(d: Dataplane, desired: seq<Vip>) returns (ok: bool)
    requires d.Mem() && Sized(d.services)
    modifies d`services, d`states, d`maps, d`log, d`calls, d`lost, d`loose, d`stale, d.serviceIds, d.backendIds,
      d.maglev
    ensures d.Mem() && Sized(d.services) && old(d.log) <= d.log
    ensures old(d.Partly()) && Fair(old(d.services), Reloading(desired)) ==> d.Partly()
    ensures d.services.Keys <= Next(Current(old(d.services)), Reloading(desired)).Keys
    ensures ok && old(Ready(d, Reloading(desired))) ==>
              && d.InSync() && Applied(old(d.services), old(d.states), Reloading(desired), d.services, old(d.log),
                  d.log)
              && FlagsCarried(old(d.states), old(d.backendIds.ids), Current(old(d.services)), Reloading(desired),
                  d.states, d.backendIds.ids)
  {
    hide Agree, AgreeBut, Compatible, Sized, WeightsOf, Safe, SafeSince, Named, Counted, ExtentsAgree, PoolValid,
      FreeListValid,
      Slots, FlagsHeld, KeepsIds, Staying, SidsOf, FlagsCarried, Shaped, Next, Current, OpGuard, ReloadGuard,
      Weaker, SameKept, KeptFlags, Want;
    ghost var good := Ready(d, Reloading(desired));
    ReloadReady(d.services, desired);
    d.Matched();
    var plan;
    ok, plan := d.Reload(desired);
    d.Matched();
    if ok && good {
      ReloadCurrent(d.hash, d.maps, old(d.services), d.services, d.states, desired);
      KeptFromStaying(old(d.services), d.services, old(d.states), old(d.backendIds.ids), d.states, d.backendIds.ids,
        desired);
      KeptFollow(old(d.services), d.services, old(d.states), old(d.backendIds.ids), d.states, d.backendIds.ids,
        Reloading(desired));
      ReloadWeaker(old(d.services), old(d.states), desired);
      SafeRelaxes(old(d.log), d.log, ReloadGuard(old(d.services), old(d.states), Want(desired)),
        OpGuard(old(d.services), old(d.states), Reloading(desired)));
    }
  }

  lemma KeptIsStaying(services: Services, desired: seq<Vip>, ep: Endpoint)
    requires Kept(Current(services), Next(Current(services), Reloading(desired)), ep)
    ensures ep in Staying(services, Want(desired))
  {
    hide WeightsOf, Want;
    var v :| KeptBy(Current(services), Next(Current(services), Reloading(desired)), v, ep);
    assert ep in services[v].backends && StaysListed(services, Want(desired), v, ep);
  }

  lemma ReloadWeaker(services: Services, states: States, desired: seq<Vip>)
    ensures Weaker(OpGuard(services, states, Reloading(desired)), ReloadGuard(services, states, Want(desired)))
  {
    hide WeightsOf, Want, Staying, ReloadScope, Scope, Next, Kept;
    ReloadReady(services, desired);
    forall id | id in states && Kept(Current(services), Next(Current(services), Reloading(desired)), states[id].ep)
      ensures states[id].ep in Staying(services, Want(desired))
    {
      KeptIsStaying(services, desired, states[id].ep);
    }
  }

  lemma ReloadReady(services: Services, desired: seq<Vip>)
    ensures Next(Current(services), Reloading(desired)).Keys == Want(desired).Keys
    ensures ReloadScope(services, Want(desired)) == Scope(Current(services),
        Next(Current(services), Reloading(desired)))
  {
    hide WeightsOf, Want;
  }

  lemma SettledKeys(hash: Hash<Endpoint>, m: Maps, services: Services, states: States, v: VipId)
    requires Agree(hash, m, services, states) && v in services && services[v].spec.Some?
    ensures services[v].backends.Keys == WeightsOf(services[v].spec.value.backends).Keys
  {
    hide Installed, Compatible, Reachable, SlotsHold, AllNamed, Table, WeightsOf;
    assert Settled(hash, m, v, services[v]);
  }

  lemma ReloadCurrent(hash: Hash<Endpoint>, m: Maps, was: Services, services: Services, states: States,
      desired: seq<Vip>)
    requires Agree(hash, m, services, states) && services.Keys == Want(desired).Keys
    requires forall k :: k in services ==> services[k].spec == Some(Want(desired)[k])
    requires KeepsIds(was, services, Want(desired))
    ensures Current(services) == Next(Current(was), Reloading(desired)) && SameKept(was, services)
  {
    hide Agree, WeightsOf, Want, KeepsIds, Current, Next, SameKept;
    forall v | v in services
      ensures services[v].backends.Keys == WeightsOf(Want(desired)[v].backends).Keys
    {
      SettledKeys(hash, m, services, states, v);
    }
    WantedIsCurrent(was, services, desired);
    WantedKept(was, services, Want(desired));
  }

  lemma WantedIsCurrent(was: Services, services: Services, desired: seq<Vip>)
    requires services.Keys == Want(desired).Keys
    requires forall v :: v in services ==> services[v].backends.Keys == WeightsOf(Want(desired)[v].backends).Keys
    ensures Current(services) == Next(Current(was), Reloading(desired))
  {
    hide WeightsOf, Want;
  }

  lemma WantedKept(was: Services, services: Services, want: map<VipId, Vip>)
    requires KeepsIds(was, services, want) && services.Keys == want.Keys
    requires forall v :: v in services ==> services[v].backends.Keys == WeightsOf(want[v].backends).Keys
    ensures SameKept(was, services)
  {
    hide WeightsOf;
    forall v, ep | v in was && v in services && ep in was[v].backends && ep in services[v].backends
      ensures services[v].backends[ep] == was[v].backends[ep]
    {
      assert ep in WeightsOf(want[v].backends);
    }
  }

  lemma KeptFromStaying(was: Services, services: Services, states0: States, ids0: map<Endpoint, nat>, states: States,
      ids: map<Endpoint, nat>, desired: seq<Vip>)
    requires FlagsHeld(states0, ids0, states, ids, Staying(was, Want(desired)))
    requires Current(services) == Next(Current(was), Reloading(desired))
    ensures KeptFlags(states0, ids0, Current(was), Current(services), states, ids)
  {
    hide WeightsOf, Want, FlagsOf;
    forall ep | Kept(Current(was), Current(services), ep)
      ensures ep in Staying(was, Want(desired))
    {
      KeptIsStaying(was, desired, ep);
    }
  }

  method ApplyFlags(d: Dataplane, op: Op) returns (ok: bool)
    requires d.Mem() && Sized(d.services) && IsFlagOp(op)
    modifies d`services, d`states, d`maps, d`log, d`calls, d`lost, d`loose, d`stale, d.serviceIds, d.backendIds,
      d.maglev
    ensures d.Mem() && Sized(d.services) && old(d.log) <= d.log
    ensures old(d.Partly()) && Fair(old(d.services), op) ==> d.Partly()
    ensures d.services.Keys <= Next(Current(old(d.services)), op).Keys
    ensures ok && old(Ready(d, op)) ==>
              && d.InSync() && Applied(old(d.services), old(d.states), op, d.services, old(d.log), d.log)
              && FlagsCarried(old(d.states), old(d.backendIds.ids), Current(old(d.services)), op, d.states,
                  d.backendIds.ids)
  {
    hide Agree, AgreeBut, Compatible, Safe, SafeSince, Named, ExtentsAgree, PoolValid, FreeListValid, Slots, SidsOf,
      Shaped,
      Current, OpGuard, RestGuard, Weaker, FlagsCarried, Next, Counted, WithHealth;
    NextFlags(Current(d.services), op);
    CurrentKeys(d.services);
    d.Matched();
    d.InSyncIff();
    match op {
      case Probed(id, healthy) => ok := d.SetBackendHealth(id, healthy);
      case Draining(id, on) => ok := d.SetBackendDraining(id, on);
      case AdminDraining(id, on) => ok := d.SetBackendAdminDraining(id, on);
      case _ =>
    }
    MarkedFollow(d.services, old(d.states), d.states, d.backendIds.ids, op);
    if old(Ready(d, op)) {
      FlagsWeaker(d.services, old(d.states), d.states, old(d.maps), op);
      SafeRelaxes(old(d.log), d.log, RestGuard(d.services, d.states, old(d.maps), NOTHING),
        OpGuard(d.services, old(d.states), op));
    }
  }

  predicate IsFlagOp(op: Op) {
    op.Probed? || op.Draining? || op.AdminDraining?
  }

  lemma NextFlags(c: Config, op: Op)
    requires IsFlagOp(op)
    ensures Next(c, op) == c && Scope(c, c) == c
  {
    FlagScope(c);
  }

  /** What a probe verdict or a drain does to the flags. */
  ghost predicate Flagged(was: States, states: States, op: Op) {
    match op
    case Probed(id, healthy) => states == if id in was then was[id := was[id].(probeHealthy := healthy)] else was
    case Draining(id, on) => states == if id in was then was[id := was[id].(draining := on)] else was
    case AdminDraining(id, on) => states == if id in was then was[id := was[id].(adminDraining := on)] else was
    case _ => false
  }

  lemma MarkedFollow(services: Services, was: States, states: States, ids: map<Endpoint, nat>, op: Op)
    requires IsFlagOp(op) && Flagged(was, states, op) && Named(services, was, ids)
    ensures FlagsCarried(was, ids, Current(services), op, states, ids)
  {
    NextFlags(Current(services), op);
    FlaggedCarries(was, states, op);
    hide Current, Next, Named, Marked, Flagged;
    forall ep | Kept(Current(services), Current(services), ep)
      ensures ep in ids && ids[ep] in was
    {
      var v :| KeptBy(Current(services), Current(services), v, ep);
      ListedIsKnown(services, was, ids, v, ep);
    }
  }

  lemma ListedIsKnown(services: Services, states: States, ids: map<Endpoint, nat>, v: VipId, ep: Endpoint)
    requires Named(services, states, ids) && v in Current(services) && ep in Current(services)[v]
    ensures ep in ids && ids[ep] in states
  {
    assert ep in services[v].backends;
  }

  lemma FlagsWeaker(services: Services, was: States, states: States, m: Maps, op: Op)
    requires IsFlagOp(op) && Flagged(was, states, op)
    ensures Weaker(OpGuard(services, was, op), RestGuard(services, states, m, NOTHING))
  {
    hide Scope, Next, Kept, Flagged, Marked, HealthOf;
    NextFlags(Current(services), op);
    FlaggedCarries(was, states, op);
  }

  /** Nothing changes but the flag reported on. */
  lemma FlaggedCarries(was: States, states: States, op: Op)
    requires IsFlagOp(op) && Flagged(was, states, op)
    ensures states.Keys == was.Keys
    ensures forall id :: id in was ==> states[id].ep == was[id].ep
    ensures forall id :: id in was ==> states[id] == Marked(was[id], id, op)
  {
  }

  lemma FlagScope(c: Config)
    ensures Scope(c, c) == c
  {
    forall v | v in c
      ensures Scope(c, c)[v] == c[v]
    {
    }
  }

  // ---- Runs.

  /** Between two configurations: packets keep to what their VIP had or is to have, and a VIP of
      both is found. */
  ghost predicate Between(m: Maps, c: Config, c': Config) {
    Confined(m, Scope(c, c')) && AllInstalled(m, c.Keys * c'.Keys)
  }

  ghost predicate AllBetween(log: seq<Maps>, from: nat, to: nat, c: Config, c': Config) {
    from <= to <= |log| && forall j :: from <= j < to ==> Between(log[j], c, c')
  }

  /** During each of the first n operations every snapshot was between the configurations before
      and after it. */
  ghost predicate Steps(log: seq<Maps>, marks: seq<nat>, c: Config, ops: seq<Op>, n: nat) {
    && n <= |ops| && |marks| == n + 1
    && forall i: nat :: i < n ==> AllBetween(log, marks[i], marks[i + 1], At(c, ops, i), At(c, ops, i + 1))
  }

  lemma MoreSteps(log: seq<Maps>, log': seq<Maps>, marks: seq<nat>, c: Config, ops: seq<Op>, n: nat, services: Services,
      states: States)
    requires n < |ops| && Steps(log, marks, c, ops, n) && marks[n] == |log| && Current(services) == At(c, ops, n)
    requires SafeSince(log, log', OpGuard(services, states, ops[n]))
    ensures Steps(log', marks + [|log'|], c, ops, n + 1)
  {
    hide Between, Scope, At, Safe, OpGuard, Current;
    AtNext(c, ops, n);
    var marks' := marks + [|log'|];
    forall i: nat | i < n + 1
      ensures AllBetween(log', marks'[i], marks'[i + 1], At(c, ops, i), At(c, ops, i + 1))
    {
      if i < n {
        assert AllBetween(log, marks[i], marks[i + 1], At(c, ops, i), At(c, ops, i + 1));
        assert forall j :: 0 <= j < |log| ==> log'[j] == log[j];
      } else {
        GuardedBetween(log, log', services, states, ops[n]);
      }
    }
  }

  lemma GuardedBetween(log: seq<Maps>, log': seq<Maps>, services: Services, states: States, op: Op)
    requires SafeSince(log, log', OpGuard(services, states, op))
    ensures AllBetween(log', |log|, |log'|, Current(services), Next(Current(services), op))
  {
    hide Confined, Scope, Next, Kept, Installed, Current, Pinned, HealthIn, Frozen;
    forall j | |log| <= j < |log'|
      ensures Between(log'[j], Current(services), Next(Current(services), op))
    {
      assert Safe(log'[j], OpGuard(services, states, op));
    }
  }

  lemma AtNext(c: Config, ops: seq<Op>, n: nat)
    requires n < |ops|
    ensures At(c, ops, n + 1) == Next(At(c, ops, n), ops[n])
  {
    assert ops[..n + 1][..n] == ops[..n];
  }

  ghost predicate KeptAlong(c: Config, ops: seq<Op>, ep: Endpoint) {
    forall i :: 0 <= i < |ops| ==> Kept(At(c, ops, i), At(c, ops, i + 1), ep)
  }

  ghost predicate NeverChosen(m: Maps, id: nat) {
    forall addr, port, proto, h :: var c := SelectNew(m, addr, port, proto, h); c.Chosen? ==> c.bid != id
  }

  /** The ID means this backend. */
  ghost predicate Means(m: Maps, id: nat, ep: Endpoint) {
    id in m.backend && m.backend[id] == ep
  }

  /** No new flow goes to the backend of this ID. */
  ghost predicate Silent(m: Maps, id: nat) {
    id < |m.health| && m.health[id] != Healthy && NeverChosen(m, id)
  }

  ghost predicate AllMean(log: seq<Maps>, from: nat, id: nat, ep: Endpoint) {
    forall j :: from <= j < |log| ==> Means(log[j], id, ep)
  }

  ghost predicate AllSilent(log: seq<Maps>, from: nat, id: nat) {
    forall j :: from <= j < |log| ==> Silent(log[j], id)
  }

  lemma NotHealthyNotChosen(m: Maps, id: nat)
    requires id < |m.health| && m.health[id] != Healthy
    ensures NeverChosen(m, id)
  {
    hide PickFrom, ServiceOf;
    forall addr, port, proto, h
      ensures var c := SelectNew(m, addr, port, proto, h); c.Chosen? ==> c.bid != id
    {
      UnhealthyNotPicked(m, addr, port, proto, h, id);
    }
  }

  lemma MoreMean(log: seq<Maps>, log': seq<Maps>, from: nat, services: Services, states: States,
      ids: map<Endpoint, nat>, op: Op, ep: Endpoint, id: nat)
    requires AllMean(log, from, id, ep) && SafeSince(log, log', OpGuard(services, states, op)) && from <= |log|
    requires Kept(Current(services), Next(Current(services), op), ep) && Named(services, states, ids) && ep in ids
        && ids[ep] == id
    ensures AllMean(log', from, id, ep)
  {
    hide Confined, Scope, Next, Kept, Installed, Current, AllInstalled, HealthIn, Frozen, ListedMatch;
    assert id in states && states[id].ep == ep;
    forall j | from <= j < |log'|
      ensures Means(log'[j], id, ep)
    {
      if j < |log| {
        assert log'[j] == log[j];
      } else {
        assert Safe(log'[j], OpGuard(services, states, op));
      }
    }
  }

  // ---- The health of a backend along a run.

  /** Its flags after the first i operations. */
  ghost function FlagsAt(st: BackendState, id: nat, ops: seq<Op>, i: nat): BackendState
    requires i <= |ops|
  {
    if i == 0 then st else Marked(FlagsAt(st, id, ops, i - 1), id, ops[i - 1])
  }

  ghost predicate HealthDuring(m: Maps, id: nat, st: BackendState, st': BackendState) {
    id < |m.health| && (m.health[id] == HealthOf(st) || m.health[id] == HealthOf(st'))
  }

  ghost predicate AllDuring(log: seq<Maps>, from: nat, to: nat, id: nat, st: BackendState, st': BackendState) {
    from <= to <= |log| && forall j :: from <= j < to ==> HealthDuring(log[j], id, st, st')
  }

  /** During each of the first n operations, the backend's health is what its flags say before or
      after it. */
  ghost predicate HealthSteps(log: seq<Maps>, marks: seq<nat>, st: BackendState, id: nat, ops: seq<Op>, n: nat) {
    && n <= |ops| && |marks| == n + 1
    && forall i: nat :: i < n ==>
         AllDuring(log, marks[i], marks[i + 1], id, FlagsAt(st, id, ops, i), FlagsAt(st, id, ops, i + 1))
  }

  lemma MoreHealth(log: seq<Maps>, log': seq<Maps>, marks: seq<nat>, st: BackendState, ops: seq<Op>, n: nat,
      services: Services, states: States, ep: Endpoint, id: nat)
    requires n < |ops| && HealthSteps(log, marks, st, id, ops, n) && marks[n] == |log|
    requires SafeSince(log, log', OpGuard(services, states, ops[n]))
    requires Kept(Current(services), Next(Current(services), ops[n]), ep) && id in states && states[id].ep == ep
    requires SameFlags(states[id], FlagsAt(st, id, ops, n))
    ensures HealthSteps(log', marks + [|log'|], st, id, ops, n + 1)
  {
    hide HealthDuring, Safe, OpGuard, Current, Kept, Next, FlagsAt;
    var marks' := marks + [|log'|];
    forall i: nat | i < n + 1
      ensures AllDuring(log', marks'[i], marks'[i + 1], id, FlagsAt(st, id, ops, i), FlagsAt(st, id, ops, i + 1))
    {
      if i < n {
        assert AllDuring(log, marks[i], marks[i + 1], id, FlagsAt(st, id, ops, i), FlagsAt(st, id, ops, i + 1));
        assert forall j :: 0 <= j < |log| ==> log'[j] == log[j];
      } else {
        GuardedHealth(log, log', st, ops, n, services, states, ep, id);
      }
    }
  }

  lemma GuardedHealth(log: seq<Maps>, log': seq<Maps>, st: BackendState, ops: seq<Op>, n: nat, services: Services,
      states: States, ep: Endpoint, id: nat)
    requires n < |ops| && SafeSince(log, log', OpGuard(services, states, ops[n]))
    requires Kept(Current(services), Next(Current(services), ops[n]), ep) && id in states && states[id].ep == ep
    requires SameFlags(states[id], FlagsAt(st, id, ops, n))
    ensures AllDuring(log', |log|, |log'|, id, FlagsAt(st, id, ops, n), FlagsAt(st, id, ops, n + 1))
  {
    hide Confined, Scope, Next, Kept, Installed, Current, AllInstalled, Pinned, Frozen;
    var g := OpGuard(services, states, ops[n]);
    assert id in g.health && g.health[id] == {HealthOf(states[id]), HealthOf(Marked(states[id], id, ops[n]))};
    SameHealth(states[id], FlagsAt(st, id, ops, n), id, ops[n]);
    hide OpGuard, HealthOf, FlagsAt, Marked;
    assert FlagsAt(st, id, ops, n + 1) == Marked(FlagsAt(st, id, ops, n), id, ops[n]) by { FlagsNext(st, id, ops, n); }
    forall j | |log| <= j < |log'|
      ensures HealthDuring(log'[j], id, FlagsAt(st, id, ops, n), FlagsAt(st, id, ops, n + 1))
    {
      assert Safe(log'[j], g);
    }
  }

  lemma FlagsNext(st: BackendState, id: nat, ops: seq<Op>, n: nat)
    requires n < |ops|
    ensures FlagsAt(st, id, ops, n + 1) == Marked(FlagsAt(st, id, ops, n), id, ops[n])
  {
  }

  lemma SameHealth(st: BackendState, st': BackendState, id: nat, op: Op)
    requires SameFlags(st, st')
    ensures HealthOf(st) == HealthOf(st') && HealthOf(Marked(st, id, op)) == HealthOf(Marked(st', id, op))
    ensures SameFlags(Marked(st, id, op), Marked(st', id, op))
  {
  }

  /** The flags of a backend that some VIP keeps listing are those reported so far. */
  lemma FlagsHere(was: States, wasIds: map<Endpoint, nat>, states: States, ids: map<Endpoint, nat>, c: Config,
      ops: seq<Op>, n: nat, ep: Endpoint, id: nat, st: BackendState)
    requires n < |ops| && KeptAlong(c, ops, ep) && FlagsCarried(was, wasIds, At(c, ops, n), ops[n], states, ids)
    requires ep in wasIds && wasIds[ep] == id && id in was && SameFlags(was[id], FlagsAt(st, id, ops, n))
    ensures Kept(At(c, ops, n), Next(At(c, ops, n), ops[n]), ep)
    ensures ep in ids && ids[ep] == id && id in states && SameFlags(states[id], FlagsAt(st, id, ops, n + 1))
  {
    hide Kept, Next, At, Marked;
    AtNext(c, ops, n);
    assert Kept(At(c, ops, n), At(c, ops, n + 1), ep);
    SameHealth(was[id], FlagsAt(st, id, ops, n), id, ops[n]);
  }

  /** The snapshots of the run from its first mark on, each in one operation. */
  lemma {:induction false} InSomeStep(marks: seq<nat>, n: nat, j: nat) returns (i: nat)
    requires |marks| == n + 1 && marks[0] <= j < marks[n]
    ensures i < n && marks[i] <= j < marks[i + 1]
  {
    if marks[n - 1] <= j {
      i := n - 1;
    } else {
      i := InSomeStep(marks[..n], n - 1, j);
    }
  }

  /** A drain the operator does not lift stays, and so do the verdict of the probes until they report
      another, and a Kubernetes drain. */
  lemma {:induction false} FlagStands(st: BackendState, id: nat, ops: seq<Op>, i: nat)
    requires i <= |ops|
    ensures st.adminDraining && AdminDraining(id, false) !in ops ==> FlagsAt(st, id, ops, i).adminDraining
    ensures st.draining && Op.Draining(id, false) !in ops ==> FlagsAt(st, id, ops, i).draining
    ensures st.probeHealthy && Probed(id, false) !in ops ==> FlagsAt(st, id, ops, i).probeHealthy
    ensures !st.probeHealthy && Probed(id, true) !in ops ==> !FlagsAt(st, id, ops, i).probeHealthy
  {
    if i > 0 {
      FlagStands(st, id, ops, i - 1);
      assert ops[i - 1] in ops;
    }
  }

  lemma DrainedSilent(log: seq<Maps>, marks: seq<nat>, st: BackendState, id: nat, ops: seq<Op>)
    requires HealthSteps(log, marks, st, id, ops, |ops|) && marks[|ops|] == |log|
    requires st.adminDraining && AdminDraining(id, false) !in ops
    ensures AllSilent(log, marks[0], id)
  {
    hide NeverChosen, FlagsAt;
    forall j | marks[0] <= j < |log|
      ensures Silent(log[j], id)
    {
      var i := InSomeStep(marks, |ops|, j);
      assert AllDuring(log, marks[i], marks[i + 1], id, FlagsAt(st, id, ops, i), FlagsAt(st, id, ops, i + 1));
      FlagStands(st, id, ops, i);
      FlagStands(st, id, ops, i + 1);
      NotHealthyNotChosen(log[j], id);
    }
  }

  ghost predicate AllUp(log: seq<Maps>, from: nat, id: nat) {
    forall j :: from <= j < |log| ==> id < |log[j].health| && log[j].health[id] != Down
  }

  ghost predicate AllDown(log: seq<Maps>, from: nat, id: nat) {
    forall j :: from <= j < |log| ==> id < |log[j].health| && log[j].health[id] == Down
  }

  /** While no probe fails a backend is down in no snapshot, whatever drains are set or lifted, and
      once one has failed it is down in every snapshot until one succeeds. */
  lemma ProbesDecide(log: seq<Maps>, marks: seq<nat>, st: BackendState, id: nat, ops: seq<Op>)
    requires HealthSteps(log, marks, st, id, ops, |ops|) && marks[|ops|] == |log|
    ensures st.probeHealthy && Probed(id, false) !in ops ==> AllUp(log, marks[0], id)
    ensures !st.probeHealthy && Probed(id, true) !in ops ==> AllDown(log, marks[0], id)
  {
    hide FlagsAt;
    forall j | marks[0] <= j < |log|
      ensures id < |log[j].health|
      ensures st.probeHealthy && Probed(id, false) !in ops ==> log[j].health[id] != Down
      ensures !st.probeHealthy && Probed(id, true) !in ops ==> log[j].health[id] == Down
    {
      var i := InSomeStep(marks, |ops|, j);
      assert AllDuring(log, marks[i], marks[i + 1], id, FlagsAt(st, id, ops, i), FlagsAt(st, id, ops, i + 1));
      FlagStands(st, id, ops, i);
      FlagStands(st, id, ops, i + 1);
    }
  }

  lemma FairNext(services: Services, c: Config, ops: seq<Op>, n: nat)
    requires n < |ops| && services.Keys <= At(c, ops, n).Keys
    ensures Next(Current(services), ops[n]).Keys <= At(c, ops, n + 1).Keys
    ensures Legal(c, ops) ==> Fair(services, ops[n])
  {
    AtNext(c, ops, n);
    hide At, WeightsOf, Want, Compatible;
    assert Next(Current(services), ops[n]).Keys <= At(c, ops, n + 1).Keys;
    if Legal(c, ops) {
      assert Compatible(At(c, ops, n + 1).Keys);
      SubsetCompatible(Next(Current(services), ops[n]).Keys, At(c, ops, n + 1).Keys);
    }
  }

  /** Any sequence of operations over compatible configurations, whatever fails: the maps agree with
      the memory but for what is known to be amiss. If none reports an error, the maps end in
      agreement with exactly what was configured, and in every snapshot during each operation every
      packet keeps to backends its VIP had before it or is to have after it, and every VIP of both is
      found. While some VIP goes on listing a backend, its ID means that backend in every snapshot of
      the run, and its health there is what the probe verdicts and drains reported for it so far say,
      with or without the one being reported. If the operator had drained it and nobody undrains it,
      it is healthy in none of them and no new flow goes to it, whatever probes and reloads happen. */
  method Run(d: Dataplane, ops: seq<Op>, ghost ep: Endpoint, ghost id: nat) returns (ok: bool, ghost marks: seq<nat>)
    requires d.Mem() && Sized(d.services)
    modifies d`services, d`states, d`maps, d`log, d`calls, d`lost, d`loose, d`stale, d.serviceIds, d.backendIds,
      d.maglev
    ensures d.Mem() && Sized(d.services) && old(d.log) <= d.log && |marks| == |ops| + 1 && marks[0] == |old(d.log)|
        && marks[|ops|] == |d.log|
    ensures old(d.Partly()) && Legal(Current(old(d.services)), ops) ==> d.Partly()
    ensures ok && old(d.InSync()) && Legal(Current(old(d.services)), ops) ==>
              && d.InSync() && Current(d.services) == After(Current(old(d.services)), ops)
              && Steps(d.log, marks, Current(old(d.services)), ops, |ops|)
    ensures && ok && old(d.InSync()) && Legal(Current(old(d.services)), ops)
            && ep in old(d.backendIds.ids) && old(d.backendIds.ids)[ep] == id
                && KeptAlong(Current(old(d.services)), ops, ep)
            ==> && AllMean(d.log, |old(d.log)|, id, ep) && ep in d.backendIds.ids && d.backendIds.ids[ep] == id
                && id in old(d.states) && HealthSteps(d.log, marks, old(d.states)[id], id, ops, |ops|)
                && id in d.states && SameFlags(d.states[id], FlagsAt(old(d.states)[id], id, ops, |ops|))
    ensures && ok && old(d.InSync()) && Legal(Current(old(d.services)), ops)
            && Drained(old(d.states), old(d.backendIds.ids), ep, id)
            && KeptAlong(Current(old(d.services)), ops, ep) && AdminDraining(id, false) !in ops
            ==> AllSilent(d.log, |old(d.log)|, id) && Silent(d.maps, id)
  {
    hide Agree, AgreeBut, Compatible, Sized, Safe, SafeSince, OpGuard, Counted, Named, ExtentsAgree, PoolValid,
      FreeListValid,
      Slots, SidsOf, Shaped, Current, Kept, Next, FlagsCarried, NeverChosen, Silent, AllMean, AllSilent, Steps,
      KeptAlong, HealthSteps, SameFlags, FlagsAt;
    ok, marks := true, [|d.log|];
    ghost var c := Current(d.services);
    ghost var good := d.InSync() && Legal(c, ops);
    ghost var kept := good && ep in d.backendIds.ids && d.backendIds.ids[ep] == id && KeptAlong(c, ops, ep);
    d.Matched();
    NamedIs(d.services, d.states, d.backendIds.ids, ep, id);
    ghost var st := if id in d.states then d.states[id] else FreshState(ep);
    RunStarts(d.log, c, ops, id, ep, st);
    CurrentKeys(d.services);
    for n := 0 to |ops|
      invariant d.Mem() && Sized(d.services) && old(d.log) <= d.log && |marks| == n + 1 && marks[0] == |old(d.log)|
          && marks[n] == |d.log|
      invariant d.services.Keys <= At(c, ops, n).Keys && (old(d.Partly()) && Legal(c, ops) ==> d.Partly())
      invariant ok && good ==> d.InSync() && Current(d.services) == At(c, ops, n) && Steps(d.log, marks, c, ops, n)
      invariant ok && kept ==>
          ep in d.backendIds.ids && d.backendIds.ids[ep] == id && AllMean(d.log, |old(d.log)|, id, ep)
      invariant ok && kept ==>
          && id in d.states && SameFlags(d.states[id], FlagsAt(st, id, ops, n))
          && HealthSteps(d.log, marks, st, id, ops, n)
    {
      ghost var log, m, svcs, states, ids := d.log, marks, d.services, d.states, d.backendIds.ids;
      AtNext(c, ops, n);
      FairNext(d.services, c, ops, n);
      d.Matched();
      var step := Apply(d, ops[n]);
      ok := ok && step;
      marks := marks + [|d.log|];
      if ok && good {
        MoreSteps(log, d.log, m, c, ops, n, svcs, states);
      }
      if ok && kept {
        NamedIs(svcs, states, ids, ep, id);
        FlagsHere(states, ids, d.states, d.backendIds.ids, c, ops, n, ep, id, st);
        MoreMean(log, d.log, |old(d.log)|, svcs, states, ids, ops[n], ep, id);
        MoreHealth(log, d.log, m, st, ops, n, svcs, states, ep, id);
      }
    }
    assert ops[..|ops|] == ops;
    if ok && kept && st.adminDraining && AdminDraining(id, false) !in ops {
      DrainedSilent(d.log, marks, st, id, ops);
      FlagStands(st, id, ops, |ops|);
      d.Matched();
      DrainedAtRest(d.hash, d.maps, d.services, d.states, id, FlagsAt(st, id, ops, |ops|));
    }
  }

  lemma RunStarts(log: seq<Maps>, c: Config, ops: seq<Op>, id: nat, ep: Endpoint, st: BackendState)
    ensures At(c, ops, 0) == c && Steps(log, [|log|], c, ops, 0) && AllMean(log, |log|, id, ep)
    ensures HealthSteps(log, [|log|], st, id, ops, 0) && FlagsAt(st, id, ops, 0) == st && SameFlags(st, st)
  {
    assert ops[..0] == [];
  }

  lemma NamedIs(services: Services, states: States, ids: map<Endpoint, nat>, ep: Endpoint, id: nat)
    requires Named(services, states, ids)
    ensures ep in ids && ids[ep] == id ==> id in states && states[id].ep == ep
  {
  }

  lemma DrainedAtRest(hash: Hash<Endpoint>, m: Maps, services: Services, states: States, id: nat, st: BackendState)
    requires Agree(hash, m, services, states) && id in states && SameFlags(states[id], st) && st.adminDraining
    ensures Silent(m, id)
  {
    hide Agree, NeverChosen;
    AgreeFacts(hash, m, services, states);
    NotHealthyNotChosen(m, id);
  }

  // ---- Which VIP a packet belongs to meanwhile.

  /** The VIP a packet belongs to under one configuration. */
  ghost predicate Owner(c: Config, addr: Addr, port: Word, proto: Proto, v: VipId) {
    && v in c && v.Serves(addr, port, proto)
    && (ExactVip(ExactKey(addr, port, proto)) in c ==> v == ExactVip(ExactKey(addr, port, proto)))
  }

  /** There is only one. */
  lemma OneOwner(c: Config, addr: Addr, port: Word, proto: Proto, v: VipId, w: VipId)
    requires Compatible(c.Keys) && Owner(c, addr, port, proto, v) && Owner(c, addr, port, proto, w)
    ensures v == w
  {
    if v.IsRange() && w.IsRange() && v != w {
      assert Conflict(v, w);
    }
  }

  /** The VIP a packet may belong to while one configuration gives way to another: the exact VIP
      of its port if both have it, a range if neither has, and of ranges only the one both have. */
  ghost predicate Meanwhile(c: Config, c': Config, addr: Addr, port: Word, proto: Proto, v: VipId) {
    var exact := ExactVip(ExactKey(addr, port, proto));
    && v in c.Keys + c'.Keys && v.Serves(addr, port, proto)
    && (exact in c && exact in c' ==> v == exact)
    && (exact !in c && exact !in c' ==> v.IsRange())
    && (v.IsRange() ==> forall r :: r in c && r in c' && r.IsRange() && r.Serves(addr, port, proto) ==> r == v)
  }

  lemma BetweenRoutes(m: Maps, c: Config, c': Config, addr: Addr, port: Word, proto: Proto, v: VipId)
    requires Between(m, c, c') && Compatible(c.Keys) && Compatible(c'.Keys)
    requires Routes(m, Scope(c, c'), addr, port, proto, v)
    ensures Meanwhile(c, c', addr, port, proto, v)
  {
    var key := ExactKey(addr, port, proto);
    var exact := ExactVip(key);
    if exact in c && exact in c' {
      assert exact in c.Keys * c'.Keys && Installed(m, exact);
    }
    forall r | v.IsRange() && r in c && r in c' && r.IsRange() && r.Serves(addr, port, proto)
      ensures r == v
    {
      if r != v {
        assert Conflict(r, v);
      }
    }
  }

  /** When the configurations differ in at most one VIP, as they do around every operation but a
      reload, that is the packet's VIP under the one or under the other. */
  lemma OwnerBeforeOrAfter(c: Config, c': Config, u: VipId, addr: Addr, port: Word, proto: Proto, v: VipId)
    requires Meanwhile(c, c', addr, port, proto, v) && c.Keys - {u} == c'.Keys - {u}
    ensures Owner(c, addr, port, proto, v) || Owner(c', addr, port, proto, v)
  {
    var exact := ExactVip(ExactKey(addr, port, proto));
    assert forall x :: x != u ==> (x in c <==> x in c.Keys - {u}) && (x in c' <==> x in c'.Keys - {u});
  }

  lemma DifferInOne(c: Config, op: Op) returns (u: VipId)
    requires !op.Reloading?
    ensures c.Keys - {u} == Next(c, op).Keys - {u}
  {
    u := if op.Upserting? then op.spec.id else if op.Removing? then op.vip else VipId(V4(0, 0), 0, 0, TCP);
  }

  /** A packet of a VIP that both configurations have finds a service in every snapshot. */
  lemma KeptVipIsFound(m: Maps, c: Config, c': Config, addr: Addr, port: Word, proto: Proto, v: VipId)
    requires Between(m, c, c') && v in c && v in c' && v.Serves(addr, port, proto)
    ensures ServiceOf(m.vip, m.ranges, addr, port, proto).Some?
  {
    hide Confined, Longest;
    assert v in c.Keys * c'.Keys && Installed(m, v);
    if v.IsRange() {
      var k := ServedKey(v, addr, port, proto);
      LongestFinds(m.ranges, addr, proto, port, 16);
      MatchBits(v, k);
    }
  }

  lemma MatchBits(v: VipId, k: RangeKey)
    requires Owns(v, k)
    ensures k.block.bits <= 16
  {
    TilingTiles(v.port, v.portEnd);
    hide Tiling;
  }
}
