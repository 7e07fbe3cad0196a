/** What the parts of an upsert do to the memory of the control plane, as relations between the
    values before and after. */
module UpsertSteps {
  import opened Common
  import opened Types
  import opened Primes
  import opened PortRange
  import opened VipLookup
  import opened BpfMaps
  import opened ExtentAllocation
  import opened IdAllocation
  import opened Maglev
  import opened MaglevFairness
  import opened DataplaneState
  import opened MapAgreement
  import opened Watching
  import opened UpsertConditions

  /** Why an upsert failed. NotAcquired is a new backend whose map entry or health could not be
      written, or whose hardware address does not parse. */
  datatype UpsertError =
    | NoServiceId
    | NoBackendId
    | NotAcquired(ep: Endpoint)
    | NotRefreshed
    | NoExtent
    | BadTable
    | SlotRefused
    | ConfigRefused
    | VipRefused

  // ---- Why it failed.

  ghost predicate TurnWhy(e: UpsertError, ep: Endpoint, listed: bool, room: bool, mac: Mac, smooth: bool) {
    match e
    case NoBackendId => !room
    case NotAcquired(x) => x == ep && !listed && (mac.Malformed? || !smooth)
    case NotRefreshed => listed && (mac.Malformed? || !smooth)
    case _ => false
  }

  /** Why the VIP's backends could not be brought to the wanted ones: there are too many, or the
      hardware address of one does not parse, or the kernel refused an update. A reference is lost
      only for a backend that is new to the VIP. */
  ghost predicate GroupWhy(e: UpsertError, listed: set<Endpoint>, known: set<Endpoint>, macs: map<Endpoint, Mac>,
      smooth: bool) {
    match e
    case NoBackendId => !RoomFor(known, macs.Keys)
    case NotAcquired(ep) => ep in macs && ep !in listed && (macs[ep].Malformed? || !smooth)
    case NotRefreshed => !smooth || exists ep :: ep in macs && ep in listed && macs[ep].Malformed?
    case _ => false
  }

  lemma RefusedWhy(e: UpsertError, ep: Endpoint, listed: bool, room: bool, mac: Mac, smooth: bool)
    requires !(room && !mac.Malformed? && smooth)
    requires e == if !room then NoBackendId else if listed then NotRefreshed else NotAcquired(ep)
    ensures TurnWhy(e, ep, listed, room, mac, smooth)
  {
  }

  lemma KnownHasRoom(ids: map<Endpoint, nat>, ep: Endpoint)
    requires ep in ids
    ensures HasRoom(ids, ep) && ids.Keys + {ep} == ids.Keys
  {
  }

  lemma GroupWhyOf(e: UpsertError, was: set<Endpoint>, mid: set<Endpoint>, known: set<Endpoint>,
      macs: map<Endpoint, Mac>, smooth: bool)
    requires GroupWhy(e, mid, known, macs, smooth) && mid == was * macs.Keys
    ensures GroupWhy(e, was, known, macs, smooth)
  {
  }

  /** Why an upsert failed, from what could be seen before it. */
  ghost predicate Why(e: UpsertError, services: Services, states: States, ids: map<Endpoint, nat>, free: seq<Extent>,
      spec: Vip, smooth: bool) {
    var v, weights := spec.id, WeightsOf(spec.backends);
    match e
    case NoServiceId => v !in services && |services| >= MAX_VIPS
    case NoExtent => MacsParse(MacsOf(spec.backends)) && Rebuilds(services, spec)
      && !CanBuild(free, EntryOf(services, v).ext, weights)
    case BadTable => MacsParse(MacsOf(spec.backends)) && Rebuilds(services, spec)
      && !CanBuild(free, EntryOf(services, v).ext, weights)
    case SlotRefused => !smooth
    case ConfigRefused => !smooth
    case VipRefused => !smooth
    case _ => GroupWhy(e, EntryOf(services, v).backends.Keys, KnownAfter(services, states, ids, v, weights.Keys),
      MacsOf(spec.backends), smooth)
  }

  /** The same once the VIP has an entry. */
  ghost predicate WhyNot(e: UpsertError, services: Services, states: States, ids: map<Endpoint, nat>, free: seq<Extent>,
      spec: Vip, isNew: bool, smooth: bool) {
    var v, weights := spec.id, WeightsOf(spec.backends);
    v in services &&
    match e
    case NoExtent => MacsParse(MacsOf(spec.backends)) && TableChanges(services[v], weights, isNew)
      && !CanBuild(free, services[v].ext, weights)
    case BadTable => MacsParse(MacsOf(spec.backends)) && TableChanges(services[v], weights, isNew)
      && !CanBuild(free, services[v].ext, weights)
    case SlotRefused => !smooth
    case ConfigRefused => !smooth
    case VipRefused => !smooth
    case _ => GroupWhy(e, services[v].backends.Keys, KnownAfter(services, states, ids, v, weights.Keys),
      MacsOf(spec.backends), smooth)
  }

  ghost predicate TableChanges(e: Service, weights: map<Endpoint, nat>, isNew: bool) {
    isNew || e.backends.Keys != weights.Keys || Reweighted(WeightsOf(e.vip.backends), weights)
  }

  lemma KnownHasId(r: Result<(), UpsertError>, services: Services, states: States, ids: map<Endpoint, nat>,
      free: seq<Extent>, spec: Vip, isNew: bool, smooth: bool)
    requires r.Err? ==> WhyNot(r.error, services, states, ids, free, spec, isNew, smooth)
    ensures r != Err(NoServiceId)
  {
    hide WeightsOf, MacsOf, MacsParse, TableChanges, CanBuild, KnownAfter;
  }

  /** A VIP without backends has none to drop. */
  lemma KnownWhenNew(was: Services, services: Services, states: States, ids: map<Endpoint, nat>, v: VipId,
      wanted: set<Endpoint>)
    requires v !in was && v in services && services[v].backends == map[]
    ensures KnownAfter(was, states, ids, v, wanted) == KnownAfter(services, states, ids, v, wanted) == ids.Keys
  {
    hide Frees;
  }

  lemma NoIdIsWhy(services: Services, states: States, ids: map<Endpoint, nat>, free: seq<Extent>, spec: Vip,
      smooth: bool)
    requires spec.id !in services && |services| >= MAX_VIPS
    ensures Why(NoServiceId, services, states, ids, free, spec, smooth)
  {
  }

  lemma TurnWhyOn(e: UpsertError, listed: set<Endpoint>, known: set<Endpoint>, macs: map<Endpoint, Mac>, turn: bool,
      smooth: bool)
    requires GroupWhy(e, listed, known, macs, turn) && (smooth ==> turn)
    ensures GroupWhy(e, listed, known, macs, smooth)
  {
  }

  /** The VIP has an entry: the one it had, or the one it starts with. */
  ghost predicate Entered(was: Services, entered: Services, v: VipId) {
    v in entered &&
    if v in was then entered == was else entered == was[v := EntryOf(was, v).(sid := entered[v].sid)]
  }

  lemma EntersAs(services: Services, v: VipId, sid: nat)
    requires v !in services && Sized(services)
    ensures var now := services[v := EntryOf(services, v).(sid := sid)];
            Entered(services, now, v) && Sized(now) && SidsOf(now) == SidsOf(services)[v := sid]
  {
  }

  lemma EnteredFacts(was: Services, entered: Services, v: VipId)
    requires Entered(was, entered, v)
    ensures v in entered && entered - {v} == was - {v}
  {
  }

  lemma WhyOnce(r: Result<(), UpsertError>, was: Services, entered: Services, states: States, ids: map<Endpoint, nat>,
      free: seq<Extent>, spec: Vip, smooth: bool)
    requires Entered(was, entered, spec.id)
    requires r.Err? ==> WhyNot(r.error, entered, states, ids, free, spec, spec.id !in was, smooth)
    ensures r.Err? ==> Why(r.error, was, states, ids, free, spec, smooth)
  {
    hide WhyNot, Why;
    if r.Err? {
      if spec.id in was {
        WhyWhenKnown(r.error, was, states, ids, free, spec, smooth);
      } else {
        WhyWhenNew(r.error, was, entered, states, ids, free, spec, smooth);
      }
    }
  }

  lemma MetOnce(was: Services, entered: Services, states: States, ids: map<Endpoint, nat>, free: seq<Extent>, spec: Vip)
    requires Entered(was, entered, spec.id) && (spec.id !in was ==> |was| < MAX_VIPS)
    ensures Met(entered, states, ids, free, spec, spec.id !in was) <==> Acceptable(was, states, ids, free, spec)
  {
    hide Met, Acceptable;
    if spec.id in was {
      MetWhenKnown(was, states, ids, free, spec);
    } else {
      MetWhenNew(was, entered, states, ids, free, spec);
    }
  }

  lemma WhyWhenKnown(e: UpsertError, services: Services, states: States, ids: map<Endpoint, nat>, free: seq<Extent>,
      spec: Vip, smooth: bool)
    requires WhyNot(e, services, states, ids, free, spec, false, smooth)
    ensures Why(e, services, states, ids, free, spec, smooth)
  {
    hide KnownAfter, CanBuild, WeightsOf, MacsParse, MacsOf, Reweighted;
  }

  lemma WhyWhenNew(e: UpsertError, was: Services, services: Services, states: States, ids: map<Endpoint, nat>,
      free: seq<Extent>, spec: Vip, smooth: bool)
    requires spec.id !in was && spec.id in services && services[spec.id].backends == map[]
        && services[spec.id].ext == NO_EXTENT
    requires WhyNot(e, services, states, ids, free, spec, true, smooth)
    ensures Why(e, was, states, ids, free, spec, smooth)
  {
    hide CanBuild, WeightsOf, MacsParse, MacsOf, Reweighted, KnownAfter;
    KnownWhenNew(was, services, states, ids, spec.id, WeightsOf(spec.backends).Keys);
  }

  predicate PublishFailure(e: UpsertError) {
    e == ConfigRefused || e == VipRefused
  }

  predicate RebuildFailure(e: UpsertError) {
    e == NoExtent || e == BadTable || e == SlotRefused
  }

  /** What an upsert does to the known VIPs: only its own changes, keeping its service ID and the
      IDs of the backends it keeps; on success it is what was asked for, in its old extent or,
      when that was outgrown, in one of the right class; even a failed one that got past finding a
      service ID has dropped every backend that is not asked for, but the recorded specification is
      not advanced. */
  ghost predicate Upserted(was: Services, services: Services, spec: Vip, ok: bool) {
    var v := spec.id;
    && (forall w :: w != v ==> (w in services <==> w in was) && (w in services ==> services[w] == was[w]))
    && (v in was ==>
          && v in services && services[v].sid == was[v].sid
          && forall ep :: ep in was[v].backends && ep in WeightsOf(spec.backends) ==>
               ep in services[v].backends && services[v].backends[ep] == was[v].backends[ep])
    && (v in services ==> services[v].backends.Keys <= WeightsOf(spec.backends).Keys)
    && (v in was && v in services && !ok ==> services[v].spec == was[v].spec && services[v].vip == was[v].vip)
    && (ok ==>
          && v in services && services[v].spec == Some(spec) && services[v].vip == spec
          && services[v].backends.Keys == WeightsOf(spec.backends).Keys
          && (|| services[v].ext == EntryOf(was, v).ext
              || NewExtent(EntryOf(was, v).ext, ClassFor(|services[v].backends|), services[v].ext)))
  }

  ghost predicate Sized(services: Services) {
    forall v :: v in services ==> services[v].ext.size == 0 || services[v].ext.size in SIZE_CLASSES
  }

  /** A table stays where it is as long as it has a hundred slots a backend, however many backends go,
      and moves only to a larger class. */
  lemma TableMovesOnlyToGrow(was: Services, services: Services, spec: Vip)
    requires Upserted(was, services, spec, true) && Sized(was) && spec.id in was && was[spec.id].ext.size > 0
    ensures var ext, ext' := was[spec.id].ext, services[spec.id].ext;
            && (100 * |services[spec.id].backends| <= ext.size || ext.size == 65537 ==> ext' == ext)
            && (ext' != ext ==> ext'.size in SIZE_CLASSES && ext'.size > ext.size)
  {
    hide WeightsOf;
    var ext, size := was[spec.id].ext, ClassFor(|services[spec.id].backends|);
    assert ext.size in SIZE_CLASSES;
  }

  /** The VIP's table is where it was, if anywhere. */
  ghost predicate SameExtent(was: Services, services: Services, v: VipId) {
    v in services ==> services[v].ext == EntryOf(was, v).ext
  }

  lemma ResizedIsSized(services: Services, v: VipId, e: Service)
    requires Sized(services) && e.ext.size in SIZE_CLASSES
    ensures Sized(services[v := e])
  {
  }

  // ---- References lost.

  function Outcome(r: Result<bool, UpsertError>): Result<(), UpsertError> {
    match r
    case Ok(_) => Ok(())
    case Err(e) => Err(e)
  }

  /** The references lost once an upsert has ended like this. */
  ghost function LostAfter(lost: multiset<Endpoint>, r: Result<(), UpsertError>): multiset<Endpoint> {
    if r.Err? && r.error.NotAcquired? then lost + multiset{r.error.ep} else lost
  }

  /** There are IDs for everything, and the backends already listed have good hardware addresses. */
  ghost predicate Foreseen(services: Services, states: States, ids: map<Endpoint, nat>, spec: Vip) {
    var v, macs := spec.id, MacsOf(spec.backends);
    && (v in services || |services| < MAX_VIPS)
    && RoomFor(KnownAfter(services, states, ids, v, macs.Keys), macs.Keys)
    && forall ep :: ep in macs && ep in EntryOf(services, v).backends ==> !macs[ep].Malformed?
  }

  /** The hardware addresses of the backends that the VIP is to list and does not. */
  ghost predicate NewMacsParse(services: Services, spec: Vip) {
    var macs := MacsOf(spec.backends);
    forall ep :: ep in macs && ep !in EntryOf(services, spec.id).backends ==> !macs[ep].Malformed?
  }

  /** Then, if the kernel accepts every update, a reference is lost if and only if the hardware address
      of a newly listed backend does not parse. */
  lemma LosesIff(services: Services, states: States, ids: map<Endpoint, nat>, free: seq<Extent>, spec: Vip,
      r: Result<(), UpsertError>, smooth: bool)
    requires r.Ok? <==> Acceptable(services, states, ids, free, spec) && smooth
    requires r.Err? ==> Why(r.error, services, states, ids, free, spec, smooth)
    ensures Foreseen(services, states, ids, spec) && smooth ==>
        (r.Err? && r.error.NotAcquired? <==> !NewMacsParse(services, spec))
  {
    hide WeightsOf, MacsOf, CanBuild, Rebuilds, KnownAfter;
  }

  lemma LostOrNot(was: Services, wasStates: States, wasIds: map<Endpoint, nat>, wasLost: multiset<Endpoint>,
      services: Services, states: States, ids: map<Endpoint, nat>, lost: multiset<Endpoint>, r: Result<(), UpsertError>)
    requires Counted(was, wasStates, wasIds, wasLost) && Counted(services, states, ids, lost)
        && lost == LostAfter(wasLost, r)
    ensures BackendsAgree(was, wasStates, wasIds) ==>
              (BackendsAgree(services, states, ids) <==> r.Ok? || !r.error.NotAcquired?)
  {
    hide Counted, BackendsAgree;
    AgreeIffNothingLost(was, wasStates, wasIds, wasLost);
    AgreeIffNothingLost(services, states, ids, lost);
  }

  // ---- Acquiring one backend.

  ghost predicate AcquiredAs(ids: map<Endpoint, nat>, ids': map<Endpoint, nat>, states: States, states': States,
      ep: Endpoint, id: nat) {
    && id < MAX_BACKENDS && ids' == ids[ep := id] && states' == Acquired(states, id, ep)
    && (ep in ids ==> ids[ep] == id) && (ep !in ids ==> forall x :: x in ids ==> ids[x] != id)
  }

  lemma AcquiredHas(states: States, id: nat, ep: Endpoint)
    ensures id in Acquired(states, id, ep)
  {
  }

  ghost predicate AcquireWrote(m: Maps, m': Maps, log: seq<Maps>, log': seq<Maps>, ep: Endpoint, id: nat, h: Health) {
    && id < |m.health| && m' == WithHealth(WithBackend(m, id, ep), id, h)
    && log' == log + [WithBackend(m, id, ep), m']
  }

  ghost predicate AcquireStopped(m: Maps, m': Maps, log: seq<Maps>, log': seq<Maps>, ep: Endpoint, id: nat) {
    || (m' == m && log' == log)
    || (m' == WithBackend(m, id, ep) && log' == log + [m'])
  }

  lemma LogGrows(m: Maps, m': Maps, log: seq<Maps>, log': seq<Maps>, ep: Endpoint, id: nat, h: Health, ok: bool)
    requires if ok then AcquireWrote(m, m', log, log', ep, id, h) else AcquireStopped(m, m', log, log', ep, id)
    ensures log <= log' && (ok ==> id < |m.health| && m' == WithHealth(WithBackend(m, id, ep), id, h))
    ensures !ok ==> m' == m || m' == WithBackend(m, id, ep)
  {
  }

  /** Both ways an acquisition ends keep to the guard. */
  lemma AcquireSafe(m: Maps, m': Maps, log: seq<Maps>, log': seq<Maps>, ep: Endpoint, id: nat, h: Health, g: Guard,
      ok: bool)
    requires id < |m.health| && Safe(WithBackend(m, id, ep), g) && Safe(WithHealth(WithBackend(m, id, ep), id, h), g)
    requires if ok then AcquireWrote(m, m', log, log', ep, id, h) else AcquireStopped(m, m', log, log', ep, id)
    ensures SafeSince(log, log', g)
  {
    hide Safe;
  }

  lemma AllFlagsCome(states: States, ids: map<Endpoint, nat>, states': States, ids': map<Endpoint, nat>, ep: Endpoint,
      id: nat)
    requires IdsMatch(states, ids) && AcquiredAs(ids, ids', states, states', ep, id)
    ensures FlagsComeFor(states, ids, states', ids', ep)
  {
    hide FlagsOf, Acquired;
    forall x
      ensures FlagsCome(states, ids, states', ids', x, ep)
    {
      AcquireFlags(states, ids, ep, id, x);
    }
  }

  // ---- Flags.

  /** A backend that is known after either kept its flags or is new and has fresh ones. */
  ghost predicate Carried(was: Option<(bool, bool, bool)>, now: Option<(bool, bool, bool)>) {
    now.Some? ==> now == if was.Some? then was else FRESH_FLAGS
  }

  /** A backend that stays listed keeps its probe result and its drains; one that comes starts afresh. */
  ghost predicate FlagsKept(was: States, wasIds: map<Endpoint, nat>, states: States, ids: map<Endpoint, nat>) {
    forall ep :: Carried(FlagsOf(was, wasIds, ep), FlagsOf(states, ids, ep))
  }

  ghost predicate FlagsGone(was: States, wasIds: map<Endpoint, nat>, states: States, ids: map<Endpoint, nat>,
      x: Endpoint, ep: Endpoint) {
    x != ep || FlagsOf(states, ids, x).Some? ==> FlagsOf(states, ids, x) == FlagsOf(was, wasIds, x)
  }

  ghost predicate FlagsCome(was: States, wasIds: map<Endpoint, nat>, states: States, ids: map<Endpoint, nat>,
      x: Endpoint, ep: Endpoint) {
    && (x != ep || FlagsOf(was, wasIds, x).Some? ==> FlagsOf(states, ids, x) == FlagsOf(was, wasIds, x))
    && Carried(FlagsOf(was, wasIds, x), FlagsOf(states, ids, x))
  }

  ghost predicate FlagsComeFor(was: States, wasIds: map<Endpoint, nat>, states: States, ids: map<Endpoint, nat>,
      ep: Endpoint) {
    forall x :: FlagsCome(was, wasIds, states, ids, x, ep)
  }

  /** Only backends that are not wanted may have lost their flags. */
  ghost predicate FlagsDropped(was: States, wasIds: map<Endpoint, nat>, states: States, ids: map<Endpoint, nat>,
      wanted: set<Endpoint>) {
    forall x :: x in wanted || FlagsOf(states, ids, x).Some? ==> FlagsOf(states, ids, x) == FlagsOf(was, wasIds, x)
  }

  /** Only wanted backends without flags may have got some, and those are fresh. */
  ghost predicate FlagsAdded(was: States, wasIds: map<Endpoint, nat>, states: States, ids: map<Endpoint, nat>,
      wanted: set<Endpoint>) {
    forall x ::
      && (x !in wanted || FlagsOf(was, wasIds, x).Some? ==> FlagsOf(states, ids, x) == FlagsOf(was, wasIds, x))
      && Carried(FlagsOf(was, wasIds, x), FlagsOf(states, ids, x))
  }

  lemma FlagsDroppedNext(st0: States, ids0: map<Endpoint, nat>, st1: States, ids1: map<Endpoint, nat>, st: States,
      ids: map<Endpoint, nat>, wanted: set<Endpoint>, ep: Endpoint)
    requires FlagsDropped(st0, ids0, st1, ids1, wanted) && ep !in wanted
        && forall x :: FlagsGone(st1, ids1, st, ids, x, ep)
    ensures FlagsDropped(st0, ids0, st, ids, wanted)
  {
    hide FlagsOf;
    forall x | x in wanted || FlagsOf(st, ids, x).Some?
      ensures FlagsOf(st, ids, x) == FlagsOf(st0, ids0, x)
    {
      assert FlagsGone(st1, ids1, st, ids, x, ep);
    }
  }

  lemma FlagsAddedNext(st0: States, ids0: map<Endpoint, nat>, st1: States, ids1: map<Endpoint, nat>, st: States,
      ids: map<Endpoint, nat>, wanted: set<Endpoint>, ep: Endpoint)
    requires FlagsAdded(st0, ids0, st1, ids1, wanted) && ep in wanted && FlagsComeFor(st1, ids1, st, ids, ep)
    ensures FlagsAdded(st0, ids0, st, ids, wanted)
  {
    hide FlagsOf;
    forall x
      ensures x !in wanted || FlagsOf(st0, ids0, x).Some? ==> FlagsOf(st, ids, x) == FlagsOf(st0, ids0, x)
      ensures Carried(FlagsOf(st0, ids0, x), FlagsOf(st, ids, x))
    {
      assert FlagsCome(st1, ids1, st, ids, x, ep);
    }
  }

  lemma FlagsBoth(st0: States, ids0: map<Endpoint, nat>, st1: States, ids1: map<Endpoint, nat>, st: States,
      ids: map<Endpoint, nat>, wanted: set<Endpoint>)
    requires FlagsDropped(st0, ids0, st1, ids1, wanted) && FlagsAdded(st1, ids1, st, ids, wanted)
    ensures FlagsKept(st0, ids0, st, ids)
  {
    hide FlagsOf;
  }

  lemma FlagsOnlyDropped(st0: States, ids0: map<Endpoint, nat>, st: States, ids: map<Endpoint, nat>)
    requires FlagsDropped(st0, ids0, st, ids, {})
    ensures FlagsKept(st0, ids0, st, ids)
  {
    hide FlagsOf;
  }

  lemma SameFlags(st: States, ids: map<Endpoint, nat>)
    ensures FlagsKept(st, ids, st, ids)
  {
    hide FlagsOf;
  }

  lemma FlagsStayPut(st: States, ids: map<Endpoint, nat>, ep: Endpoint)
    ensures FlagsComeFor(st, ids, st, ids, ep)
  {
    hide FlagsOf;
  }

  lemma FlagsUntouched(st: States, ids: map<Endpoint, nat>, wanted: set<Endpoint>)
    ensures FlagsDropped(st, ids, st, ids, wanted) && FlagsAdded(st, ids, st, ids, wanted)
  {
    hide FlagsOf;
  }

  lemma MinusNothing(a: set<Endpoint>, b: set<Endpoint>)
    ensures a - b == {} <==> a <= b
  {
    if a - b == {} {
      forall x | x in a
        ensures x in b
      {
        assert x !in a - b;
      }
    }
  }

  lemma OneMoreDone(wanted: set<Endpoint>, todo: set<Endpoint>, ep: Endpoint)
    requires ep in todo && ep in wanted
    ensures wanted - (todo - {ep}) == (wanted - todo) + {ep}
  {
  }

  lemma SomeDone(was: set<Endpoint>, now: set<Endpoint>, wanted: set<Endpoint>, todo: set<Endpoint>, ep: Endpoint,
      isNew: bool)
    requires now == was + (wanted - todo) && ep in todo && ep in wanted && isNew == (ep !in now)
    ensures now + {ep} == was + (wanted - (todo - {ep}))
    ensures wanted - (todo - {ep}) <= was <==> !isNew && wanted - todo <= was
  {
    OneMoreDone(wanted, todo, ep);
  }

  // ---- The release loop.

  ghost predicate Dropped(was: Services, services: Services, wasStates: States, states: States,
      wasIds: map<Endpoint, nat>, ids: map<Endpoint, nat>, v: VipId, ep: Endpoint) {
    && v in was && ep in was[v].backends && was[v].backends[ep] in wasStates
    && services == was[v := was[v].(backends := was[v].backends - {ep})]
    && states == Released(wasStates, was[v].backends[ep])
    && ids == (if wasStates[was[v].backends[ep]].refCount - 1 > 0 then wasIds else wasIds - {ep})
  }

  /** v's backends are those kept and those of todo. */
  ghost predicate Shrunk(was: Services, services: Services, v: VipId, wanted: set<Endpoint>, todo: set<Endpoint>) {
    && v in was && v in services && services == was[v := was[v].(backends := services[v].backends)]
    && services[v].backends.Keys == was[v].backends.Keys * (wanted + todo)
    && forall ep :: ep in services[v].backends ==> services[v].backends[ep] == was[v].backends[ep]
  }

  /** What is still to be dropped is as it was, and what is dropped has no ID if that was the last reference. */
  ghost predicate DroppedSome(was: Services, services: Services, wasStates: States, states: States,
      wasIds: map<Endpoint, nat>, ids: map<Endpoint, nat>, v: VipId, wanted: set<Endpoint>, todo: set<Endpoint>) {
    && Shrunk(was, services, v, wanted, todo)
    && ids.Keys == KnownAfter(was, wasStates, wasIds, v, wanted + todo)
    && (forall ep :: ep in todo && ep in was[v].backends ==> Frees(states, ids, ep) == Frees(wasStates, wasIds, ep))
  }

  ghost predicate DroppedAll(was: Services, services: Services, v: VipId, wanted: set<Endpoint>) {
    Shrunk(was, services, v, wanted, {})
  }

  lemma NoneDropped(services: Services, states: States, ids: map<Endpoint, nat>, v: VipId, wanted: set<Endpoint>)
    requires v in services
    ensures DroppedSome(services, services, states, states, ids, ids, v, wanted, services[v].backends.Keys - wanted)
  {
    hide Frees;
    assert services == services[v := services[v].(backends := services[v].backends)];
  }

  lemma DropSomeHas(was: Services, services: Services, wasStates: States, states: States, wasIds: map<Endpoint, nat>,
      ids: map<Endpoint, nat>, v: VipId, wanted: set<Endpoint>, todo: set<Endpoint>, ep: Endpoint)
    requires DroppedSome(was, services, wasStates, states, wasIds, ids, v, wanted, todo)
    requires todo <= was[v].backends.Keys - wanted && ep in todo
    ensures v in services && ep in services[v].backends && ep !in wanted
  {
    hide Frees, KnownAfter;
  }

  lemma DropSomeNext(was: Services, mid: Services, services: Services, wasStates: States, midStates: States,
      states: States, wasIds: map<Endpoint, nat>, midIds: map<Endpoint, nat>, ids: map<Endpoint, nat>, v: VipId,
      wanted: set<Endpoint>, todo: set<Endpoint>, ep: Endpoint)
    requires DroppedSome(was, mid, wasStates, midStates, wasIds, midIds, v, wanted, todo) && ep in todo && ep !in wanted
    requires Named(mid, midStates, midIds) && Dropped(mid, services, midStates, states, midIds, ids, v, ep)
    ensures DroppedSome(was, services, wasStates, states, wasIds, ids, v, wanted, todo - {ep})
  {
    var id := mid[v].backends[ep];
    assert ep in midIds && midIds[ep] == id && midStates[id].ep == ep;
    ShrinkNext(was, mid, services, v, wanted, todo, ep);
    forall x | x != ep
      ensures Frees(states, ids, x) == Frees(midStates, midIds, x)
    {
      FreesSame(midStates, midIds, states, ids, ep, id, x);
    }
    assert Frees(midStates, midIds, ep) == (midStates[id].refCount - 1 <= 0);
    hide Frees, Released, Named;
    KnownNext(was, wasStates, wasIds, midIds, ids, v, wanted + todo, ep);
    assert wanted + todo - {ep} == wanted + (todo - {ep});
  }

  lemma ShrinkNext(was: Services, mid: Services, services: Services, v: VipId, wanted: set<Endpoint>,
      todo: set<Endpoint>, ep: Endpoint)
    requires Shrunk(was, mid, v, wanted, todo) && ep !in wanted
    requires services == mid[v := mid[v].(backends := mid[v].backends - {ep})]
    ensures Shrunk(was, services, v, wanted, todo - {ep})
  {
    assert services == was[v := was[v].(backends := services[v].backends)];
  }

  lemma FreesSame(states: States, ids: map<Endpoint, nat>, states': States, ids': map<Endpoint, nat>, ep: Endpoint,
      id: nat, x: Endpoint)
    requires IdsMatch(states, ids) && ep in ids && ids[ep] == id && x != ep
    requires states' == Released(states, id) && ids' == (if states[id].refCount - 1 > 0 then ids else ids - {ep})
    ensures Frees(states', ids', x) == Frees(states, ids, x)
  {
  }

  lemma KnownNext(was: Services, states: States, wasIds: map<Endpoint, nat>, midIds: map<Endpoint, nat>,
      ids: map<Endpoint, nat>, v: VipId, kept: set<Endpoint>, ep: Endpoint)
    requires midIds.Keys == KnownAfter(was, states, wasIds, v, kept) && v in was && ep in was[v].backends && ep in kept
    requires ids.Keys == (if Frees(states, wasIds, ep) then midIds.Keys - {ep} else midIds.Keys)
    ensures ids.Keys == KnownAfter(was, states, wasIds, v, kept - {ep})
  {
    hide Frees;
  }

  lemma AllDropped(was: Services, services: Services, wasStates: States, states: States, wasIds: map<Endpoint, nat>,
      ids: map<Endpoint, nat>, v: VipId, wanted: set<Endpoint>)
    requires DroppedSome(was, services, wasStates, states, wasIds, ids, v, wanted, {})
    ensures DroppedAll(was, services, v, wanted) && ids.Keys == KnownAfter(was, wasStates, wasIds, v, wanted)
  {
    hide Frees, KnownAfter;
    assert wanted + {} == wanted;
  }

  lemma DroppedFacts(was: Services, services: Services, v: VipId, wanted: set<Endpoint>)
    requires DroppedAll(was, services, v, wanted)
    ensures v in services && services[v].backends.Keys == was[v].backends.Keys * wanted && services - {v} == was - {v}
    ensures wanted == {} ==> services[v].backends == map[]
    ensures Sized(was) ==> Sized(services)
  {
  }

  // ---- The acquire loop.

  ghost predicate AddedOne(was: Services, services: Services, ids: map<Endpoint, nat>, v: VipId, ep: Endpoint) {
    v in was && ep in ids && services == was[v := was[v].(backends := was[v].backends[ep := ids[ep]])]
  }

  ghost predicate AddedSome(was: Services, services: Services, v: VipId, wanted: set<Endpoint>) {
    && v in was && v in services && services == was[v := was[v].(backends := services[v].backends)]
    && services[v].backends.Keys <= was[v].backends.Keys + wanted
    && forall ep :: ep in was[v].backends ==>
        ep in services[v].backends && services[v].backends[ep] == was[v].backends[ep]
  }

  lemma NoneAdded(services: Services, v: VipId, wanted: set<Endpoint>)
    requires v in services
    ensures AddedSome(services, services, v, wanted)
  {
    assert services == services[v := services[v].(backends := services[v].backends)];
  }

  lemma AddedIsTakenUp(was: Services, services: Services, ids: map<Endpoint, nat>, v: VipId, ep: Endpoint)
    requires v in was && ep !in was[v].backends && AddedOne(was, services, ids, v, ep)
    ensures v in services && TakenUp(was, services, v, ep, true)
  {
    assert services == was[v := was[v].(backends := services[v].backends)];
  }

  lemma StaysTakenUp(services: Services, v: VipId, ep: Endpoint, ok: bool)
    requires v in services && (ok ==> ep in services[v].backends)
    ensures TakenUp(services, services, v, ep, ok)
  {
    NoneAdded(services, v, {ep});
  }

  /** One wanted backend has been looked at. */
  ghost predicate TakenUp(was: Services, services: Services, v: VipId, ep: Endpoint, ok: bool) {
    && AddedSome(was, services, v, {ep})
    && if ok then services[v].backends.Keys == was[v].backends.Keys + {ep} else services == was
  }

  /** The backend whose reference was lost is not one the VIP lists. */
  ghost predicate NotTaken(e: UpsertError, services: Services, v: VipId) {
    e.NotAcquired? && v in services ==> e.ep !in services[v].backends
  }

  lemma TakenUpNext(was: Services, mid: Services, services: Services, v: VipId, wanted: set<Endpoint>, ep: Endpoint,
      ok: bool)
    requires AddedSome(was, mid, v, wanted) && ep in wanted && TakenUp(mid, services, v, ep, ok)
    ensures AddedSome(was, services, v, wanted) && (ok ==> services[v].backends.Keys == mid[v].backends.Keys + {ep})
  {
    assert services == was[v := was[v].(backends := services[v].backends)];
  }

  /** Every wanted backend but those of todo has been taken up. */
  ghost predicate TakenSome(was: Services, services: Services, wasIds: map<Endpoint, nat>, ids: map<Endpoint, nat>,
      v: VipId, macs: map<Endpoint, Mac>, todo: set<Endpoint>, changed: bool) {
    && v in was && v in services && AddedSome(was, services, v, macs.Keys)
    && services[v].backends.Keys == was[v].backends.Keys + (macs.Keys - todo)
    && ids.Keys == wasIds.Keys + (macs.Keys - todo)
    && (forall ep :: ep in macs && ep !in todo ==> !macs[ep].Malformed?)
    && (changed <==> !(macs.Keys - todo <= was[v].backends.Keys))
  }

  lemma NoneTaken(services: Services, ids: map<Endpoint, nat>, v: VipId, macs: map<Endpoint, Mac>)
    requires v in services
    ensures TakenSome(services, services, ids, ids, v, macs, macs.Keys, false)
  {
    NoneAdded(services, v, macs.Keys);
    assert macs.Keys - macs.Keys == {};
  }

  lemma TakenSomeNext(was: Services, mid: Services, services: Services, wasIds: map<Endpoint, nat>,
      midIds: map<Endpoint, nat>, ids: map<Endpoint, nat>, v: VipId, macs: map<Endpoint, Mac>, todo: set<Endpoint>,
      changed: bool, ep: Endpoint, isNew: bool)
    requires TakenSome(was, mid, wasIds, midIds, v, macs, todo, changed) && todo <= macs.Keys && ep in todo
        && !macs[ep].Malformed?
    requires TakenUp(mid, services, v, ep, true) && ids.Keys == midIds.Keys + {ep} && isNew == (ep !in mid[v].backends)
    ensures TakenSome(was, services, wasIds, ids, v, macs, todo - {ep}, changed || isNew)
  {
    hide AddedSome;
    SomeDone(was[v].backends.Keys, mid[v].backends.Keys, macs.Keys, todo, ep, isNew);
    SomeDone(wasIds.Keys, midIds.Keys, macs.Keys, todo, ep, ep !in midIds);
    TakenUpNext(was, mid, services, v, macs.Keys, ep, true);
  }

  /** How the acquire loop ends: it succeeds exactly when all hardware addresses parse, there are IDs for
      all backends together and no update was refused, and then the VIP lists the wanted ones; else it
      says why not. */
  ghost predicate Added(was: Services, services: Services, wasIds: map<Endpoint, nat>, v: VipId,
      macs: map<Endpoint, Mac>, r: Result<bool, UpsertError>, smooth: bool) {
    && v in was && AddedSome(was, services, v, macs.Keys)
    && (r.Ok? <==> MacsParse(macs) && RoomFor(wasIds.Keys, macs.Keys) && smooth)
    && (r.Ok? ==> services[v].backends.Keys == macs.Keys && (r.value <==> was[v].backends.Keys != macs.Keys))
    && (r.Err? ==> NotTaken(r.error, services, v) && GroupWhy(r.error, was[v].backends.Keys, wasIds.Keys, macs, smooth))
  }

  lemma AddedFacts(was: Services, services: Services, wasIds: map<Endpoint, nat>, v: VipId, macs: map<Endpoint, Mac>,
      r: Result<bool, UpsertError>, smooth: bool)
    requires Added(was, services, wasIds, v, macs, r, smooth)
    ensures v in was && v in services && AddedSome(was, services, v, macs.Keys)
    ensures r.Ok? <==> MacsParse(macs) && RoomFor(wasIds.Keys, macs.Keys) && smooth
    ensures r.Ok? ==> services[v].backends.Keys == macs.Keys && (r.value <==> was[v].backends.Keys != macs.Keys)
    ensures r.Err? ==> NotTaken(r.error, services, v)
    ensures r.Err? ==> GroupWhy(r.error, was[v].backends.Keys, wasIds.Keys, macs, smooth)
  {
    hide MacsParse, NotTaken, GroupWhy;
  }

  /** A turn of the loop that fails, fails for a reason the whole loop has. */
  lemma TakenSomeStops(was: Services, mid: Services, services: Services, wasIds: map<Endpoint, nat>,
      midIds: map<Endpoint, nat>, v: VipId, macs: map<Endpoint, Mac>, todo: set<Endpoint>, changed: bool, ep: Endpoint,
      e: UpsertError, turn: bool, smooth: bool)
    requires TakenSome(was, mid, wasIds, midIds, v, macs, todo, changed) && todo <= macs.Keys && ep in todo
    requires |midIds| <= MAX_BACKENDS && TakenUp(mid, services, v, ep, false) && (smooth ==> turn)
    requires TurnWhy(e, ep, ep in mid[v].backends, HasRoom(midIds, ep), macs[ep], turn)
    ensures Added(was, services, wasIds, v, macs, Err(e), smooth)
  {
    hide AddedSome, GroupWhy, MacsParse, TakenUp;
    assert services == mid by { StoppedSame(mid, services, v, ep); }
    StopsForAll(was, mid, wasIds, midIds, v, macs, todo, changed, ep, e, turn);
    hide TakenSome, TurnWhy;
    TurnWhyOn(e, was[v].backends.Keys, wasIds.Keys, macs, turn, smooth);
  }

  lemma StoppedSame(was: Services, services: Services, v: VipId, ep: Endpoint)
    requires TakenUp(was, services, v, ep, false)
    ensures services == was
  {
  }

  lemma StopsForAll(was: Services, mid: Services, wasIds: map<Endpoint, nat>, midIds: map<Endpoint, nat>, v: VipId,
      macs: map<Endpoint, Mac>, todo: set<Endpoint>, changed: bool, ep: Endpoint, e: UpsertError, turn: bool)
    requires TakenSome(was, mid, wasIds, midIds, v, macs, todo, changed) && todo <= macs.Keys && ep in todo
    requires |midIds| <= MAX_BACKENDS && TurnWhy(e, ep, ep in mid[v].backends, HasRoom(midIds, ep), macs[ep], turn)
    ensures GroupWhy(e, was[v].backends.Keys, wasIds.Keys, macs, turn) && NotTaken(e, mid, v)
    ensures !(MacsParse(macs) && RoomFor(wasIds.Keys, macs.Keys) && turn)
  {
    hide AddedSome;
    if !HasRoom(midIds, ep) {
      assert |midIds.Keys| == |midIds|;
      TooMany(wasIds.Keys, midIds.Keys, macs.Keys, ep);
    }
  }

  lemma AllTaken(was: Services, services: Services, wasIds: map<Endpoint, nat>, ids: map<Endpoint, nat>, v: VipId,
      macs: map<Endpoint, Mac>, changed: bool)
    requires TakenSome(was, services, wasIds, ids, v, macs, {}, changed) && was[v].backends.Keys <= macs.Keys
    requires |ids| <= MAX_BACKENDS
    ensures Added(was, services, wasIds, v, macs, Ok(changed), true)
  {
    hide AddedSome, MacsParse;
    AllLooked(was[v].backends.Keys, macs.Keys);
    assert macs.Keys - {} == macs.Keys;
    assert |ids.Keys| == |ids|;
    AllParse(macs);
  }

  lemma AllLooked(was: set<Endpoint>, wanted: set<Endpoint>)
    requires was <= wanted
    ensures was + (wanted - {}) == wanted && (!(wanted - {} <= was) <==> was != wanted)
  {
    assert wanted - {} == wanted;
  }

  lemma AllParse(macs: map<Endpoint, Mac>)
    requires forall ep :: ep in macs && ep !in {} ==> !macs[ep].Malformed?
    ensures MacsParse(macs)
  {
  }

  // ---- Both loops.

  lemma ChangedByEither(was: set<Endpoint>, mid: set<Endpoint>, wanted: set<Endpoint>, dropped: bool, added: bool)
    requires mid == was * wanted && (!dropped <==> was <= wanted) && (added <==> mid != wanted)
    ensures dropped || added <==> was != wanted
  {
  }

  ghost predicate Regrouped(was: Services, services: Services, v: VipId, wanted: set<Endpoint>) {
    && v in was && v in services && services == was[v := was[v].(backends := services[v].backends)]
    && services[v].backends.Keys <= wanted
    && forall ep :: ep in was[v].backends && ep in wanted ==>
         ep in services[v].backends && services[v].backends[ep] == was[v].backends[ep]
  }

  lemma RegroupedBy(was: Services, mid: Services, services: Services, v: VipId, wanted: set<Endpoint>)
    requires DroppedAll(was, mid, v, wanted) && AddedSome(mid, services, v, wanted)
    ensures Regrouped(was, services, v, wanted)
  {
    assert services == was[v := was[v].(backends := services[v].backends)];
  }

  lemma RegroupedFacts(was: Services, services: Services, v: VipId, wanted: set<Endpoint>)
    requires Regrouped(was, services, v, wanted)
    ensures v in was && v in services && services == was[v := was[v].(backends := services[v].backends)]
    ensures services[v].ext == was[v].ext && services[v].vip == was[v].vip && services[v].sid == was[v].sid
    ensures forall ep :: ep in was[v].backends && ep in wanted ==>
              ep in services[v].backends && services[v].backends[ep] == was[v].backends[ep]
    ensures Sized(was) ==> Sized(services)
  {
  }

  lemma RegroupedSame(was: Services, services: Services, v: VipId, wanted: set<Endpoint>)
    requires Regrouped(was, services, v, wanted)
    ensures services[v].backends.Keys == was[v].backends.Keys == wanted ==> services == was
  {
    assert services[v].backends.Keys == was[v].backends.Keys == wanted ==> services[v].backends == was[v].backends;
  }

  // ---- The rebuild.

  /** No slot of the extent is frozen. */
  ghost predicate Untouched(target: Extent, frozen: map<nat, nat>) {
    forall s :: s in frozen ==> !Within(target, s)
  }

  /** Every frozen slot is one a rebuild leaves alone. */
  ghost predicate FrozenLeft(services: Services, w: Watch) {
    forall s :: s in w.guard.frozen ==> LeftAlone(services, w.vip, w.wanted, s)
  }

  lemma LeftEntered(was: Services, services: Services, v: VipId, wanted: set<Endpoint>, s: int)
    requires Entered(was, services, v) && LeftAlone(was, v, wanted, s)
    ensures LeftAlone(services, v, wanted, s)
  {
    EnteredFacts(was, services, v);
    hide Live, ExtentSlots, Outgrown, ClassFor;
  }

  lemma FrozenLeftStart(was: Services, services: Services, states: States, m: Maps, a: Amiss, v: VipId,
      wanted: set<Endpoint>)
    requires Entered(was, services, v)
    ensures FrozenLeft(services, WatchOf(was, states, m, a, v, wanted, false))
  {
    hide Entered, LeftAlone, During, PinsOf, HealthOf, Loosened;
    var w := WatchOf(was, states, m, a, v, wanted, false);
    forall s | s in w.guard.frozen
      ensures LeftAlone(services, v, wanted, s)
    {
      LeftEntered(was, services, v, wanted, s);
    }
  }

  lemma FrozenStays(was: Services, services: Services, w: Watch)
    requires w.vip in was && w.vip in services
    requires services == was[w.vip := services[w.vip]] && services[w.vip].ext == was[w.vip].ext
    ensures FrozenLeft(was, w) ==> FrozenLeft(services, w)
  {
    hide ExtentSlots, Outgrown;
    assert services - {w.vip} == was - {w.vip};
  }

  /** The extent a rebuild writes to holds no frozen slot. */
  lemma TargetUntouched(services: Services, free: seq<Extent>, w: Watch, target: Extent, moved: bool)
    requires ExtentsAgree(services, free) && w.vip in services && FrozenLeft(services, w)
    requires moved == Outgrown(services[w.vip].ext, ClassFor(|w.wanted|))
    requires if moved then ExtentSlots(target) <= Slots(free) else target == services[w.vip].ext
    ensures Untouched(target, w.guard.frozen)
  {
    hide Slots, Outgrown, ExtentsAgree;
    forall s | s in w.guard.frozen
      ensures !Within(target, s)
    {
      SlotUntouched(services, free, w.vip, w.wanted, target, moved, s);
    }
  }

  lemma SlotUntouched(services: Services, free: seq<Extent>, v: VipId, wanted: set<Endpoint>, target: Extent,
      moved: bool, s: nat)
    requires ExtentsAgree(services, free) && v in services && LeftAlone(services, v, wanted, s)
    requires moved == Outgrown(services[v].ext, ClassFor(|wanted|))
    requires if moved then ExtentSlots(target) <= Slots(free) else target == services[v].ext
    ensures !Within(target, s)
  {
    if Live(services - {v}, s) {
      var u :| u in services - {v} && s in ExtentSlots((services - {v})[u].ext);
      assert (services - {v})[u] == services[u];
      OutsideFree(services, free, u);
      assert Within(target, s) ==> s in ExtentSlots(target);
    } else {
      OutsideFree(services, free, v);
      assert Within(target, s) ==> s in ExtentSlots(target);
    }
  }

  /** An extent carved out of the free list has no slot of the one the table leaves. */
  lemma MovedApart(services: Services, free: seq<Extent>, v: VipId, target: Extent)
    requires ExtentsAgree(services, free) && v in services && ExtentSlots(target) <= Slots(free)
    ensures ExtentSlots(target) !! ExtentSlots(services[v].ext)
  {
    hide Slots, ExtentSlots;
    OutsideFree(services, free, v);
  }

  lemma NoExtentSlots(ext: Extent)
    ensures ExtentSlots(NO_EXTENT) !! ExtentSlots(ext)
  {
  }

  /** The table of v's backends is in place, in its old extent or, when that was outgrown, in a new one. */
  ghost predicate Rebuilt(hash: Hash<Endpoint>, was: Services, services: Services, m: Maps, v: VipId,
      weights: map<Endpoint, nat>) {
    && v in was && v in services && services == was[v := was[v].(ext := services[v].ext)]
    && NewExtent(was[v].ext, ClassFor(|services[v].backends|), services[v].ext)
    && services[v].ext.End() <= MAGLEV_M && services[v].ext.End() <= |m.maglev| && services[v].ext.size in SIZE_CLASSES
    && exists names ::
         TableOf(hash, m.maglev[services[v].ext.offset..services[v].ext.End()], names, services[v].backends, weights)
  }

  lemma RebuiltSettles(hash: Hash<Endpoint>, was: Services, services: Services, m: Maps, v: VipId, spec: Vip)
    requires Rebuilt(hash, was, services, m, v, WeightsOf(spec.backends)) && |m.maglev| == MAGLEV_M
    ensures TableSettled(hash, m, services[v].(spec := Some(spec), vip := spec))
    ensures services == was[v := was[v].(ext := services[v].ext)]
    ensures NewExtent(was[v].ext, ClassFor(|services[v].backends|), services[v].ext)
  {
    hide TableOf, WeightsOf, TableSettled, ClassFor;
    var e := services[v].(spec := Some(spec), vip := spec);
    var names :| TableOf(hash, m.maglev[e.ext.offset..e.ext.End()], names, e.backends, WeightsOf(spec.backends));
    TableSettles(hash, m, e, names);
  }

  lemma SameEntry(services: Services, v: VipId)
    ensures v in services ==> services == services[v := services[v]]
    ensures v in services ==> services == services[v := services[v].(ext := services[v].ext)]
  {
  }

  /** Where a table goes, the table, and the backends it numbers. */
  datatype Placement = Placement(ext: Extent, table: seq<int>, names: seq<Endpoint>)

  ghost predicate TableFor(hash: Hash<Endpoint>, p: Placement, backends: map<Endpoint, nat>,
      weights: map<Endpoint, nat>) {
    && IsPrime(p.ext.size) && p.names != [] && Distinct(p.names) && InOrder(hash, p.names)
    && (forall ep :: ep in p.names <==> ep in backends)
    && weights.Keys == backends.Keys && TotalWeight(Listed(p.names, weights)) < p.ext.size
    && p.table == Table(p.ext.size, hash, Listed(p.names, weights)) && |p.table| == p.ext.size
    && forall s :: 0 <= s < |p.table| ==> 0 <= p.table[s] < |p.names|
  }

  ghost predicate Taken(ext: Extent, moved: bool, was: Extent, before: seq<Extent>, after: seq<Extent>) {
    if moved then ExtentSlots(ext) <= Slots(before) && Slots(after) == Slots(before) - ExtentSlots(ext)
    else ext == was && after == before
  }

  ghost predicate Placed(hash: Hash<Endpoint>, e: Service, before: seq<Extent>, after: seq<Extent>, p: Placement,
      weights: map<Endpoint, nat>) {
    && NewExtent(e.ext, ClassFor(|weights|), p.ext) && p.ext.size in SIZE_CLASSES && p.ext.End() <= MAGLEV_M
    && Taken(p.ext, Outgrown(e.ext, ClassFor(|weights|)), e.ext, before, after)
    && TableFor(hash, p, e.backends, weights)
  }

  lemma PlacedFacts(hash: Hash<Endpoint>, services: Services, free: seq<Extent>, after: seq<Extent>, v: VipId,
      p: Placement, weights: map<Endpoint, nat>)
    requires ExtentsAgree(services, free) && v in services && Placed(hash, services[v], free, after, p, weights)
    ensures p.ext.End() <= MAGLEV_M && |p.table| == p.ext.size && p.ext.size in SIZE_CLASSES
    ensures forall s :: 0 <= s < |p.table| ==> 0 <= p.table[s] < |p.names|
    ensures forall ep :: ep in p.names ==> ep in services[v].backends
    ensures Taken(p.ext, Outgrown(services[v].ext, ClassFor(|weights|)), services[v].ext, free, after)
    ensures forall w :: w in services && w != v ==> ExtentSlots(services[w].ext) !! ExtentSlots(p.ext)
    ensures Outgrown(services[v].ext, ClassFor(|weights|)) ==> ExtentSlots(p.ext) !! ExtentSlots(services[v].ext)
  {
    hide Outgrown, NewExtent, ExtentsAgree, Slots, ExtentSlots, IsPrime, TotalWeight, Table;
    var moved := Outgrown(services[v].ext, ClassFor(|weights|));
    TargetApart(services, free, v, p.ext, moved);
    if moved {
      MovedApart(services, free, v, p.ext);
    }
  }

  lemma PlacedRebuilds(hash: Hash<Endpoint>, was: Services, services: Services, m: Maps, v: VipId, before: seq<Extent>,
      after: seq<Extent>, p: Placement, weights: map<Endpoint, nat>)
    requires v in was && Placed(hash, was[v], before, after, p, weights) && |m.maglev| == MAGLEV_M
    requires services == was[v := was[v].(ext := p.ext)]
    ensures Rebuilt(hash, was, services, WithSlice(m, p.ext.offset, Resolved(p.table, p.names, was[v].backends)), v,
        weights)
  {
    hide NewExtent, Taken, IsPrime, TotalWeight, Table, TableOf;
    TableWritten(hash, m, p.ext, p.table, p.names, was[v].backends, weights);
    assert |weights| == |weights.Keys| == |was[v].backends.Keys| == |was[v].backends|;
  }

  lemma WithSliceNothing(m: Maps, offset: nat)
    requires offset <= |m.maglev|
    ensures WithSlice(m, offset, []) == m
  {
    assert m.maglev[..offset] + [] + m.maglev[offset..] == m.maglev;
  }

  lemma OtherSlots(services: Services, v: VipId, target: Extent, slot: nat)
    requires forall w :: w in services && w != v ==> ExtentSlots(services[w].ext) !! ExtentSlots(target)
    requires Within(target, slot)
    ensures forall w :: w in services && w != v ==> !Within(services[w].ext, slot)
  {
    forall w | w in services && w != v
      ensures !Within(services[w].ext, slot)
    {
      assert slot in ExtentSlots(target);
    }
  }

  lemma TargetIsPrime(was: Extent, size: nat, ext: Extent)
    requires size in SIZE_CLASSES && (was.size == 0 || was.size in SIZE_CLASSES) && NewExtent(was, size, ext)
    ensures ext.size in SIZE_CLASSES && IsPrime(ext.size)
  {
    ClassesArePrime(ext.size);
  }

  lemma TargetApart(services: Services, free: seq<Extent>, v: VipId, target: Extent, moved: bool)
    requires ExtentsAgree(services, free) && v in services
    requires if moved then ExtentSlots(target) <= Slots(free) else target == services[v].ext
    ensures forall w :: w in services && w != v ==> ExtentSlots(services[w].ext) !! ExtentSlots(target)
  {
    hide Slots, ExtentSlots;
    forall w | w in services && w != v
      ensures ExtentSlots(services[w].ext) !! ExtentSlots(target)
    {
      OutsideFree(services, free, w);
    }
  }

  lemma NoNames(names: seq<Endpoint>, weights: map<Endpoint, nat>)
    requires |names| == |weights| && forall ep :: ep in names ==> ep in weights
    ensures Listed(names, weights) == [] <==> weights == map[]
  {
  }

  lemma TableInRange(m: nat, hash: Hash<Endpoint>, names: seq<Endpoint>, weights: map<Endpoint, nat>)
    requires IsPrime(m) && names != [] && (forall ep :: ep in names ==> ep in weights)
        && TotalWeight(Listed(names, weights)) < m
    ensures forall s :: 0 <= s < m ==> 0 <= Table(m, hash, Listed(names, weights))[s] < |names|
  {
    TableCoversBackends(m, hash, Listed(names, weights));
  }

  lemma TableWritten(hash: Hash<Endpoint>, m: Maps, target: Extent, table: seq<int>, names: seq<Endpoint>,
      backends: map<Endpoint, nat>, weights: map<Endpoint, nat>)
    requires target.End() <= |m.maglev| && IsPrime(target.size) && names != [] && Distinct(names)
        && InOrder(hash, names)
    requires (forall ep :: ep in names <==> ep in backends) && weights.Keys == backends.Keys
    requires TotalWeight(Listed(names, weights)) < target.size
        && table == Table(target.size, hash, Listed(names, weights))
    requires forall s :: 0 <= s < |table| ==> 0 <= table[s] < |names|
    ensures var m' := WithSlice(m, target.offset, Resolved(table, names, backends));
            target.End() <= |m'.maglev| && TableOf(hash, m'.maglev[target.offset..target.End()], names, backends,
              weights)
  {
    var slice := Resolved(table, names, backends);
    assert WithSlice(m, target.offset, slice).maglev[target.offset..target.End()] == slice;
  }

  /** After a new extent was carved out, the old one is still held. */
  lemma StillHeld(services: Services, free: seq<Extent>, v: VipId, target: Extent, taken: seq<Extent>)
    requires ExtentsAgree(services, free) && v in services && Slots(taken) == Slots(free) - ExtentSlots(target)
    ensures services[v].ext.End() <= MAGLEV_M && ExtentSlots(services[v].ext) !! Slots(taken)
  {
    hide Slots, ExtentSlots;
    OutsideFree(services, free, v);
  }

  lemma ExtentMoved(services: Services, free: seq<Extent>, v: VipId, e: Service, moved: bool, taken: seq<Extent>,
      after: seq<Extent>)
    requires ExtentsAgree(services, free) && v in services && e.ext.End() <= MAGLEV_M
    requires if moved then
               && ExtentSlots(e.ext) <= Slots(free) && Slots(taken) == Slots(free) - ExtentSlots(e.ext)
               && Slots(after) == Slots(taken) + ExtentSlots(services[v].ext)
             else e.ext == services[v].ext && after == free
    ensures ExtentsAgree(services[v := e], after)
  {
    hide ExtentsAgree, Slots, ExtentSlots;
    if moved {
      MoveKeeps(services, free, v, e, taken, after);
    } else {
      SameExtents(services, free, v, e);
    }
  }

  /** Backends do not depend on extents, modes or specifications. */
  lemma BackendsKept(services: Services, states: States, ids: map<Endpoint, nat>, lost: multiset<Endpoint>, v: VipId,
      e: Service)
    requires Counted(services, states, ids, lost) && v in services && e.backends == services[v].backends
    ensures Counted(services[v := e], states, ids, lost)
  {
    var services' := services[v := e];
    forall ep
      ensures Users(services', ep) == Users(services, ep)
    {
    }
  }

  lemma ExtentHeld(services: Services, free: seq<Extent>, v: VipId)
    requires ExtentsAgree(services, free) && v in services
    ensures services[v].ext.End() <= MAGLEV_M && ExtentSlots(services[v].ext) !! Slots(free)
    ensures services[v].ext.size == 0 ==> ExtentSlots(services[v].ext) == {}
  {
    OutsideFree(services, free, v);
  }

  // ---- The VIP maps.

  /** The keys of the first i blocks of a range. */
  ghost function BlockKeys(v: VipId, i: nat): set<RangeKey> {
    set j | 0 <= j < i && j < |Tiling(v.port, v.portEnd)| :: RangeKey(v.addr, v.proto, Tiling(v.port, v.portEnd)[j])
  }

  lemma BlockKeysNext(v: VipId, i: nat)
    requires i < |Tiling(v.port, v.portEnd)|
    ensures BlockKeys(v, i + 1) == BlockKeys(v, i) + {RangeKey(v.addr, v.proto, Tiling(v.port, v.portEnd)[i])}
  {
    hide Tiling;
  }

  lemma AllBlockKeys(v: VipId)
    requires v.IsRange()
    ensures forall k :: Owns(v, k) ==> k in BlockKeys(v, |Tiling(v.port, v.portEnd)|)
  {
    hide Tiling;
    forall k | Owns(v, k)
      ensures k in BlockKeys(v, |Tiling(v.port, v.portEnd)|)
    {
      var j :| 0 <= j < |Tiling(v.port, v.portEnd)| && Tiling(v.port, v.portEnd)[j] == k.block;
      assert k == RangeKey(v.addr, v.proto, Tiling(v.port, v.portEnd)[j]);
    }
  }

  /** What a refused write leaves: a range has lost the blocks before the refused one, whether they
      were there before or not. */
  ghost predicate RolledBack(was: map<RangeKey, nat>, now: map<RangeKey, nat>, v: VipId, written: int) {
    written >= 0 && now == if v.IsRange() then was - BlockKeys(v, written) else was
  }

  /** The first i blocks are written and everything else is as it was. */
  ghost predicate RangesGrown(was: map<RangeKey, nat>, now: map<RangeKey, nat>, v: VipId, i: nat) {
    && now.Keys == was.Keys + BlockKeys(v, i)
    && forall k :: k in now && k !in BlockKeys(v, i) ==> k in was && now[k] == was[k]
  }

  lemma NoneGrown(was: map<RangeKey, nat>, v: VipId)
    ensures RangesGrown(was, was, v, 0)
  {
    assert BlockKeys(v, 0) == {};
  }

  lemma GrownNext(was: map<RangeKey, nat>, mid: map<RangeKey, nat>, v: VipId, i: nat, k: RangeKey, sid: nat)
    requires RangesGrown(was, mid, v, i) && i < |Tiling(v.port, v.portEnd)|
        && k == RangeKey(v.addr, v.proto, Tiling(v.port, v.portEnd)[i])
    ensures RangesGrown(was, mid[k := sid], v, i + 1)
  {
    BlockKeysNext(v, i);
    hide BlockKeys, Tiling;
  }

  lemma AllGrown(was: map<RangeKey, nat>, m: Maps, v: VipId)
    requires v.IsRange() && RangesGrown(was, m.ranges, v, |Tiling(v.port, v.portEnd)|)
    ensures Installed(m, v)
  {
    AllBlockKeys(v);
    hide BlockKeys, Tiling, Owns;
  }

  lemma GrownRollsBack(was: map<RangeKey, nat>, mid: map<RangeKey, nat>, now: map<RangeKey, nat>, v: VipId, i: nat)
    requires v.IsRange() && RangesGrown(was, mid, v, i) && now == mid - BlockKeys(v, i)
    ensures RolledBack(was, now, v, i)
  {
    hide BlockKeys;
  }

  lemma BlockOwned(v: VipId, i: nat)
    requires v.IsRange() && i < |Tiling(v.port, v.portEnd)|
    ensures Owns(v, RangeKey(v.addr, v.proto, Tiling(v.port, v.portEnd)[i]))
  {
    hide Tiling;
  }

  lemma ExactWritten(m: Maps, v: VipId, k: ExactKey, sid: nat)
    requires !v.IsRange() && k == ExactKey(v.addr, v.port, v.proto)
    ensures Installed(WithVip(m, k, sid), v) && RolledBack(m.ranges, m.ranges, v, 0)
    ensures WithVip(m, k, sid) == m.(vip := WithVip(m, k, sid).vip, ranges := m.ranges)
  {
    hide Tiling;
  }

  lemma OneWritten(m: Maps, m': Maps, log: seq<Maps>, log': seq<Maps>, ok: bool, g: Guard)
    requires ok ==> Safe(m', g)
    requires log' == if ok then log + [m'] else log
    ensures SafeSince(log, log', g)
  {
    hide Safe;
  }

  // ---- The end of an upsert.

  lemma NotUpserted(services: Services, spec: Vip)
    requires spec.id !in services
    ensures Upserted(services, services, spec, false)
  {
  }

  lemma UpsertedFrom(was: Services, entered: Services, services: Services, spec: Vip, ok: bool)
    requires Entered(was, entered, spec.id) && Upserted(entered, services, spec, ok)
    ensures Upserted(was, services, spec, ok)
  {
    hide WeightsOf, NewExtent;
  }

  /** The part of an upsert after its backends are grouped: only v's extent may differ, and if it succeeded the
      VIP is recorded as specified, in its old extent or, when that was outgrown, in one of the right class. */
  ghost predicate Finished(was: Services, services: Services, spec: Vip, ok: bool) {
    var v := spec.id;
    && v in was && v in services
    && services == was[v := was[v].(ext := services[v].ext, spec := if ok then Some(spec) else was[v].spec,
         vip := if ok then spec else was[v].vip)]
    && (ok ==> services[v].ext == was[v].ext || NewExtent(was[v].ext, ClassFor(|was[v].backends|), services[v].ext))
  }

  lemma Finishes(was: Services, built: Services, services: Services, spec: Vip, ok: bool)
    requires Resized(was, built, spec.id)
    requires ok ==> || built[spec.id].ext == was[spec.id].ext
                    || NewExtent(was[spec.id].ext, ClassFor(|built[spec.id].backends|), built[spec.id].ext)
    requires services == if ok then built[spec.id := built[spec.id].(spec := Some(spec), vip := spec)] else built
    ensures Finished(was, services, spec, ok)
  {
    hide NewExtent, ClassFor;
  }

  lemma FinishedFacts(was: Services, services: Services, spec: Vip, ok: bool)
    requires Finished(was, services, spec, ok)
    ensures spec.id in services && services[spec.id].backends == was[spec.id].backends
    ensures services - {spec.id} == was - {spec.id}
  {
    hide NewExtent, ClassFor;
  }

  lemma FinishedUpserts(was: Services, grouped: Services, services: Services, spec: Vip, ok: bool)
    requires Regrouped(was, grouped, spec.id, WeightsOf(spec.backends).Keys) && Finished(grouped, services, spec, ok)
    requires ok ==> grouped[spec.id].backends.Keys == WeightsOf(spec.backends).Keys
    ensures Upserted(was, services, spec, ok)
  {
    hide WeightsOf, NewExtent, ClassFor;
  }

  lemma RegroupedUpserts(was: Services, grouped: Services, spec: Vip)
    requires Regrouped(was, grouped, spec.id, WeightsOf(spec.backends).Keys)
    ensures Upserted(was, grouped, spec, false)
  {
    hide WeightsOf, NewExtent, ClassFor;
  }

  /** The VIP's table is the one of the specification. */
  ghost predicate SettledAs(hash: Hash<Endpoint>, m: Maps, e: Service, spec: Vip) {
    TableSettled(hash, m, e.(spec := Some(spec), vip := spec))
  }

  /** It will be, if the upsert succeeds. */
  ghost predicate EndsSettled(hash: Hash<Endpoint>, m: Maps, e: Service, spec: Vip, isNew: bool) {
    TableChanges(e, WeightsOf(spec.backends), isNew) || SettledAs(hash, m, e, spec)
  }

  /** A successful upsert leaves the VIP with the right table: it rebuilds it, or there is nothing to rebuild. */
  ghost predicate Heals(hash: Hash<Endpoint>, m: Maps, services: Services, spec: Vip) {
    Rebuilds(services, spec) || SettledAs(hash, m, EntryOf(services, spec.id), spec)
  }

  ghost predicate Published(m: Maps, v: VipId, e: Service) {
    e.sid < |m.svc| && m.svc[e.sid] == ConfigOf(v, e)
  }

  /** Packets find the VIP, its configuration is published, and it agrees with the memory exactly if it
      was healed. */
  ghost predicate HealsIff(hash: Hash<Endpoint>, m: Maps, was: Services, spec: Vip, m': Maps, services: Services) {
    && spec.id in services && Installed(m', spec.id) && Published(m', spec.id, services[spec.id])
    && (Settled(hash, m', spec.id, services[spec.id]) <==> Heals(hash, m, was, spec))
  }

  /** Published, the VIP agrees exactly if its table is the one of the specification. */
  lemma SettledIs(hash: Hash<Endpoint>, m0: Maps, m: Maps, m': Maps, v: VipId, e: Service, spec: Vip)
    requires e.sid < |m0.svc| && spec.id == v && m' == m.(vip := m'.vip, ranges := m'.ranges)
    requires m == WithService(m0, e.sid, ConfigOf(v, e.(spec := Some(spec), vip := spec)))
    ensures Settled(hash, m', v, e.(spec := Some(spec), vip := spec)) <==> SettledAs(hash, m0, e, spec)
    ensures Published(m', v, e.(spec := Some(spec), vip := spec))
  {
    hide Settled, TableSettled;
    VipMapsSettled(hash, m, m', v, e.(spec := Some(spec), vip := spec));
    PublishSettles(hash, m0, v, e.(spec := Some(spec), vip := spec));
  }

  /** Which VIPs need not agree after an upsert, and what their packets may reach. */
  ghost function LooseAfter(hash: Hash<Endpoint>, m: Maps, services: Services, loose: map<VipId, set<Endpoint>>,
      spec: Vip, r: Result<(), UpsertError>): map<VipId, set<Endpoint>> {
    if r == Err(NoServiceId) then loose
    else
      var now := Loosened(services, loose, spec.id, WeightsOf(spec.backends).Keys);
      if r.Ok? && Heals(hash, m, services, spec) then now - {spec.id} else now
  }

  lemma NotLoosened(hash: Hash<Endpoint>, m: Maps, services: Services, loose: map<VipId, set<Endpoint>>, spec: Vip)
    ensures LooseAfter(hash, m, services, loose, spec, Err(NoServiceId)) == loose
  {
  }

  lemma NothingLoose(hash: Hash<Endpoint>, m: Maps, services: Services, loose: map<VipId, set<Endpoint>>, spec: Vip,
      r: Result<(), UpsertError>)
    ensures loose.Keys <= {spec.id} && r.Ok? ==>
        (LooseAfter(hash, m, services, loose, spec, r) == map[] <==> Heals(hash, m, services, spec))
  {
    hide Heals, WeightsOf;
    var now := Loosened(services, loose, spec.id, WeightsOf(spec.backends).Keys);
    if loose.Keys <= {spec.id} {
      assert now.Keys == {spec.id};
      assert now - {spec.id} == map[] && now != map[];
    }
  }

  lemma StillNothing(stale: set<nat>, ids: map<Endpoint, nat>, r: Result<(), UpsertError>)
    ensures StaleBy({}, stale, ids, r) && r.Ok? ==> stale == {}
  {
  }

  /** An operation that brings in no backends leaves other VIPs' packets what they had. */
  lemma NothingAdded(services: Services, loose: map<VipId, set<Endpoint>>, v: VipId)
    ensures Loosened(services, loose, v, {}) - {v} == loose - {v}
  {
    forall u | u in loose && u != v
      ensures Loosened(services, loose, v, {})[u] == loose[u]
    {
    }
  }

  /** In agreement every successful upsert does. */
  lemma AgreeHeals(hash: Hash<Endpoint>, m: Maps, services: Services, states: States, spec: Vip)
    requires Agree(hash, m, services, states)
    ensures Heals(hash, m, services, spec)
  {
    hide Agree, Settled, TableSettled, Reweighted, WeightsOf;
    var v := spec.id;
    if !Rebuilds(services, spec) {
      AgreeSettles(hash, m, services, states, v);
      Unchanged(hash, m, v, services[v], spec);
    }
  }

  /** The table part of an upsert, once the VIP has an entry. */
  lemma HealsWhenKnown(hash: Hash<Endpoint>, m: Maps, was: Services, services: Services, spec: Vip, isNew: bool)
    requires Entered(was, services, spec.id) && isNew == (spec.id !in was)
    ensures Heals(hash, m, was, spec) <==> EndsSettled(hash, m, services[spec.id], spec, isNew)
  {
    hide TableSettled, Reweighted, WeightsOf;
  }

  lemma TableSame(hash: Hash<Endpoint>, m: Maps, m': Maps, e: Service)
    requires m'.maglev == m.maglev
    ensures TableSettled(hash, m', e) <==> TableSettled(hash, m, e)
  {
    hide TableSettled;
    if TableSettled(hash, m, e) {
      TableFrame(hash, m, m', e);
    }
    if TableSettled(hash, m', e) {
      TableFrame(hash, m', m, e);
    }
  }

  /** Whether the table ends up right is settled before the backends are regrouped. */
  lemma TableFate(hash: Hash<Endpoint>, m: Maps, m': Maps, e: Service, e': Service, spec: Vip, changed: bool,
      isNew: bool)
    requires changed <==> e.backends.Keys != WeightsOf(spec.backends).Keys
    requires SameTables(m, m') && (!changed ==> e' == e)
    ensures EndsSettled(hash, m', e', spec, changed || isNew) <==> EndsSettled(hash, m, e, spec, isNew)
  {
    hide TableSettled, WeightsOf, Reweighted;
    TableSame(hash, m, m', e'.(spec := Some(spec), vip := spec));
  }

  /** A table just written names only the VIP's own backends. */
  lemma WrittenNames(m: Maps, services: Services, states: States, ids: map<Endpoint, nat>, v: VipId, target: Extent,
      table: seq<int>, names: seq<Endpoint>, eps: set<Endpoint>)
    requires Named(services, states, ids) && v in services && target.End() <= |m.maglev| && |table| == target.size
    requires forall s :: 0 <= s < |table| ==> 0 <= table[s] < |names|
    requires (forall ep :: ep in names ==> ep in services[v].backends) && services[v].backends.Keys <= eps
    ensures NamesOnly(WithSlice(m, target.offset, Resolved(table, names, services[v].backends)), states, target, eps)
  {
    var slice := Resolved(table, names, services[v].backends);
    var m' := WithSlice(m, target.offset, slice);
    forall s: nat | Within(target, s) && m'.maglev[s] in states
      ensures states[m'.maglev[s]].ep in eps
    {
      var ep := names[table[s - target.offset]];
      assert ep in names && m'.maglev[s] == slice[s - target.offset] == services[v].backends[ep];
      assert ids[ep] == m'.maglev[s];
    }
  }

  lemma AgreeSettles(hash: Hash<Endpoint>, m: Maps, services: Services, states: States, v: VipId)
    requires Agree(hash, m, services, states) && v in services
    ensures Settled(hash, m, v, services[v])
  {
  }

  /** With the same backends and weights the published table already serves the new specification. */
  lemma Unchanged(hash: Hash<Endpoint>, m: Maps, v: VipId, e: Service, spec: Vip)
    requires Settled(hash, m, v, e) && WeightsOf(spec.backends).Keys == e.backends.Keys
    requires !Reweighted(WeightsOf(e.vip.backends), WeightsOf(spec.backends))
    ensures TableSettled(hash, m, e.(spec := Some(spec), vip := spec))
  {
    hide WeightsOf, Settled, TableSettled;
    SettledKnown(hash, m, v, e);
    NoWeights();
    var ep :| ep in e.backends;
    assert ep in WeightsOf(spec.backends) && ep in WeightsOf(e.vip.backends);
    SettledLists(hash, m, e);
    assert WeightsOf(e.vip.backends) == WeightsOf(spec.backends);
    SameWeightsSettle(hash, m, e, spec);
  }

  lemma NoWeights()
    ensures WeightsOf([]) == map[]
  {
  }

  lemma SettledKnown(hash: Hash<Endpoint>, m: Maps, v: VipId, e: Service)
    requires Settled(hash, m, v, e)
    ensures TableSettled(hash, m, e) && e.backends != map[] && (e.spec.None? ==> e.vip.backends == [])
  {
    hide SlotsHold, AllNamed, Balanced;
  }

  /** Whether some listed backend's weight is new or different. */
  method WeightsDiffer(was: map<Endpoint, nat>, now: map<Endpoint, nat>) returns (differ: bool)
    ensures differ <==> Reweighted(was, now)
  {
    var todo := now.Keys;
    while todo != {}
      invariant todo <= now.Keys
      invariant forall ep :: ep in now && ep !in todo ==> ep in was && was[ep] == now[ep]
    {
      var ep :| ep in todo;
      if ep !in was || was[ep] != now[ep] {
        return true;
      }
      todo := todo - {ep};
    }
    return false;
  }

  lemma VipMapsSettled(hash: Hash<Endpoint>, m: Maps, m': Maps, v: VipId, e: Service)
    requires m' == m.(vip := m'.vip, ranges := m'.ranges)
    ensures Settled(hash, m', v, e) <==> Settled(hash, m, v, e)
  {
    hide TableSettled;
    TableSame(hash, m, m', e);
  }

  lemma FreshSid(services: Services, sids: map<VipId, nat>, sid: nat)
    requires sids == SidsOf(services) && forall k :: k in sids ==> sids[k] != sid
    ensures !SidUsed(services, sid)
  {
    forall v | v in services
      ensures services[v].sid != sid
    {
      assert sids[v] == services[v].sid;
    }
  }

  lemma SidsSame(services: Services, v: VipId, e: Service)
    requires v in services && e.sid == services[v].sid
    ensures SidsOf(services[v := e]) == SidsOf(services)
  {
  }

  /** The names in some order without repeats. */
  /** The backends of a VIP in the order of their names, so that the same backends give the same table. */
  method SortedNames(hash: Hash<Endpoint>, s: set<Endpoint>) returns (names: seq<Endpoint>)
    ensures Distinct(names) && InOrder(hash, names) && |names| == |s| && forall ep :: ep in names <==> ep in s
  {
    hide Distinct, InOrder, InsertByRank;
    NothingToSort(hash);
    names := [];
    var todo := s;
    while todo != {}
      invariant todo <= s && Distinct(names) && InOrder(hash, names) && |names| + |todo| == |s|
      invariant forall ep :: ep in names <==> ep in s - todo
    {
      var ep :| ep in todo;
      InsertKeepsOrder(hash, names, ep);
      names := InsertByRank(hash, names, ep);
      todo := todo - {ep};
    }
  }

  lemma NothingToSort(hash: Hash<Endpoint>)
    ensures Distinct<Endpoint>([]) && InOrder(hash, [])
  {
  }

  function InsertByRank(hash: Hash<Endpoint>, names: seq<Endpoint>, ep: Endpoint): (r: seq<Endpoint>)
    ensures |r| == |names| + 1
    ensures forall x :: x in r <==> x in names || x == ep
  {
    if names == [] then [ep]
    else if hash.rank(ep) <= hash.rank(names[0]) then [ep] + names
    else
      assert names == [names[0]] + names[1..];
      [names[0]] + InsertByRank(hash, names[1..], ep)
  }

  lemma {:induction false} InsertKeepsOrder(hash: Hash<Endpoint>, names: seq<Endpoint>, ep: Endpoint)
    requires Distinct(names) && InOrder(hash, names) && ep !in names
    ensures Distinct(InsertByRank(hash, names, ep)) && InOrder(hash, InsertByRank(hash, names, ep))
  {
    if names != [] && hash.rank(ep) > hash.rank(names[0]) {
      InsertKeepsOrder(hash, names[1..], ep);
      var rest := InsertByRank(hash, names[1..], ep);
      forall j | 0 <= j < |rest|
        ensures rest[j] != names[0] && hash.rank(names[0]) <= hash.rank(rest[j])
      {
        assert rest[j] in rest;
        if rest[j] != ep {
          var i :| 0 <= i < |names[1..]| && names[1..][i] == rest[j];
          assert names[i + 1] == rest[j];
        }
      }
      FirstOfAll(hash, names[0], rest);
    } else if names != [] {
      FirstOfAll(hash, ep, names);
    }
  }

  lemma FirstOfAll(hash: Hash<Endpoint>, first: Endpoint, rest: seq<Endpoint>)
    requires Distinct(rest) && InOrder(hash, rest) && first !in rest
    requires rest != [] ==> hash.rank(first) <= hash.rank(rest[0])
    ensures Distinct([first] + rest) && InOrder(hash, [first] + rest)
  {
    var all := [first] + rest;
    forall i, j | 0 <= i < j < |all|
      ensures all[i] != all[j] && hash.rank(all[i]) <= hash.rank(all[j])
    {
      assert all[j] == rest[j - 1] && (i > 0 ==> all[i] == rest[i - 1]);
      assert rest[j - 1] in rest && (j > 1 ==> hash.rank(rest[0]) <= hash.rank(rest[j - 1]));
    }
  }

  // ---- When it succeeds.

  /** The part of the success condition that is left once the VIP has an entry. */
  ghost predicate Met(services: Services, states: States, ids: map<Endpoint, nat>, free: seq<Extent>, spec: Vip,
      isNew: bool) {
    var v, weights := spec.id, WeightsOf(spec.backends);
    && v in services && MacsParse(MacsOf(spec.backends))
    && RoomFor(KnownAfter(services, states, ids, v, weights.Keys), weights.Keys)
    && (TableChanges(services[v], weights, isNew) ==> CanBuild(free, services[v].ext, weights))
  }

  lemma NeedsServiceId(services: Services, states: States, ids: map<Endpoint, nat>, free: seq<Extent>, spec: Vip)
    requires spec.id !in services && |services| >= MAX_VIPS
    ensures !Acceptable(services, states, ids, free, spec)
  {
  }

  lemma MetWhenKnown(services: Services, states: States, ids: map<Endpoint, nat>, free: seq<Extent>, spec: Vip)
    requires spec.id in services
    ensures Met(services, states, ids, free, spec, false) <==> Acceptable(services, states, ids, free, spec)
  {
    hide KnownAfter, CanBuild, WeightsOf, MacsParse, MacsOf, Reweighted;
  }

  lemma MetWhenNew(was: Services, services: Services, states: States, ids: map<Endpoint, nat>, free: seq<Extent>,
      spec: Vip)
    requires spec.id !in was && spec.id in services && services[spec.id].backends == map[]
        && services[spec.id].ext == NO_EXTENT
    ensures Acceptable(was, states, ids, free, spec) <==>
              |was| < MAX_VIPS && Met(services, states, ids, free, spec, true)
  {
    hide CanBuild, WeightsOf, MacsParse, MacsOf, Reweighted, KnownAfter;
    KnownWhenNew(was, services, states, ids, spec.id, WeightsOf(spec.backends).Keys);
  }

  lemma ChangesSame(was: Service, now: Service, weights: map<Endpoint, nat>, changed: bool, isNew: bool)
    requires now.vip == was.vip && now.backends.Keys == weights.Keys && (changed <==> was.backends.Keys != weights.Keys)
    ensures TableChanges(now, weights, changed || isNew) == TableChanges(was, weights, isNew)
  {
    hide Reweighted, WeightsOf;
  }

  /** Success exactly if the specification can be met and no update was refused, and why not. */
  ghost predicate Verdict(r: Result<(), UpsertError>, services: Services, states: States, ids: map<Endpoint, nat>,
      free: seq<Extent>, spec: Vip, isNew: bool, smooth: bool) {
    && (r.Ok? <==> Met(services, states, ids, free, spec, isNew) && smooth)
    && (r.Err? ==> WhyNot(r.error, services, states, ids, free, spec, isNew, smooth))
  }

  lemma VerdictFacts(r: Result<(), UpsertError>, services: Services, states: States, ids: map<Endpoint, nat>,
      free: seq<Extent>, spec: Vip, isNew: bool, smooth: bool)
    requires Verdict(r, services, states, ids, free, spec, isNew, smooth)
    ensures r.Ok? <==> Met(services, states, ids, free, spec, isNew) && smooth
    ensures r.Err? ==> WhyNot(r.error, services, states, ids, free, spec, isNew, smooth)
  {
    hide Met, WhyNot;
  }

  /** When the backends cannot be grouped as wanted. */
  lemma GroupVerdict(g: Result<bool, UpsertError>, services: Services, states: States, ids: map<Endpoint, nat>,
      free: seq<Extent>, spec: Vip, isNew: bool, smooth: bool)
    requires spec.id in services
    requires var wanted := WeightsOf(spec.backends).Keys;
             var known := KnownAfter(services, states, ids, spec.id, wanted);
             && (g.Ok? <==> MacsParse(MacsOf(spec.backends)) && smooth && RoomFor(known, wanted))
             && (g.Err? ==> GroupWhy(g.error, services[spec.id].backends.Keys, known, MacsOf(spec.backends), smooth))
    ensures g.Err? ==> Verdict(Outcome(g), services, states, ids, free, spec, isNew, smooth) && !PublishFailure(g.error)
  {
    hide KnownAfter, CanBuild, WeightsOf, MacsParse, MacsOf, TableChanges, RoomFor;
  }

  /** How the part after that ends, and why. */
  ghost predicate FinishVerdict(r: Result<(), UpsertError>, e: Service, free: seq<Extent>, weights: map<Endpoint, nat>,
      changed: bool, smooth: bool) {
    && (r.Ok? <==> (TableChanges(e, weights, changed) ==> CanBuild(free, e.ext, weights)) && smooth)
    && (r.Err? ==> RebuildFailure(r.error) || PublishFailure(r.error))
    && (r.Err? && PublishFailure(r.error) ==> !smooth)
    && (r.Err? && RebuildFailure(r.error) ==>
          && TableChanges(e, weights, changed)
          && if r.error == SlotRefused then !smooth else !CanBuild(free, e.ext, weights))
  }

  lemma PublishedVerdict(r1: Result<(), UpsertError>, r: Result<(), UpsertError>, e: Service, free: seq<Extent>,
      weights: map<Endpoint, nat>, changed: bool, before: bool, late: bool, smooth: bool)
    requires FinishVerdict(r1, e, free, weights, changed, before) && r1.Ok? && (smooth <==> before && late)
    requires (r.Ok? <==> late) && (r.Err? ==> PublishFailure(r.error))
    ensures FinishVerdict(r, e, free, weights, changed, smooth)
  {
    hide TableChanges, CanBuild;
  }

  lemma FinishFailure(r: Result<(), UpsertError>, e: Service, free: seq<Extent>, weights: map<Endpoint, nat>,
      changed: bool, late: bool, smooth: bool)
    requires FinishVerdict(r, e, free, weights, changed, late) && late == smooth
    ensures FinishVerdict(r, e, free, weights, changed, smooth)
    ensures r.Err? ==> (RebuildFailure(r.error) || PublishFailure(r.error)) && !GroupFailure(r.error)
  {
    hide TableChanges, CanBuild;
  }

  /** When they can. */
  lemma FinishIsVerdict(r: Result<(), UpsertError>, services: Services, states: States, ids: map<Endpoint, nat>,
      free: seq<Extent>, spec: Vip, isNew: bool, e: Service, changed: bool, smooth: bool)
    requires spec.id in services && MacsParse(MacsOf(spec.backends)) && e.ext == services[spec.id].ext
    requires RoomFor(KnownAfter(services, states, ids, spec.id, WeightsOf(spec.backends).Keys),
        WeightsOf(spec.backends).Keys)
    requires FinishVerdict(r, e, free, WeightsOf(spec.backends), changed, smooth)
    requires TableChanges(e, WeightsOf(spec.backends), changed) ==
        TableChanges(services[spec.id], WeightsOf(spec.backends), isNew)
    ensures Verdict(r, services, states, ids, free, spec, isNew, smooth)
  {
    hide KnownAfter, CanBuild, WeightsOf, MacsParse, MacsOf, TableChanges, RoomFor;
  }

  /** What may be behind after an upsert, or a part of one: no more than before, but for the backend it
      stopped at. */
  ghost predicate StaleBy(was: set<nat>, now: set<nat>, ids: map<Endpoint, nat>, r: Result<(), UpsertError>) {
    if r.Err? && r.error.NotAcquired? then r.error.ep in ids && now <= was + {ids[r.error.ep]} else now <= was
  }

  /** What may be behind after one backend has been taken up, or not. */
  lemma StaleAdded(was: set<nat>, states: States, ids: map<Endpoint, nat>, ep: Endpoint, id: nat)
    ensures StaleBy(was, was - {id}, ids, Ok(())) && StaleBy(was, was, ids, Err(NoBackendId))
    ensures ep in ids && ids[ep] == id ==> StaleBy(was, Unwritten(states, was, id), ids, Err(NotAcquired(ep)))
  {
  }

  lemma StaleOn(was: set<nat>, mid: set<nat>, now: set<nat>, ids: map<Endpoint, nat>, r: Result<(), UpsertError>)
    requires mid <= was && StaleBy(mid, now, ids, r)
    ensures StaleBy(was, now, ids, r)
  {
  }

  /** The later parts of an upsert count no backends. */
  lemma NothingLost(lost: multiset<Endpoint>, services: Services, v: VipId, r: Result<(), UpsertError>)
    requires r.Err? ==> RebuildFailure(r.error) || PublishFailure(r.error)
    ensures LostAfter(lost, r) == LostAfter(lost, Ok(())) == lost && (r.Err? ==> NotTaken(r.error, services, v))
  {
  }

  lemma NoServiceEnds(lost: multiset<Endpoint>, stale: set<nat>, ids: map<Endpoint, nat>, services: Services, v: VipId)
    ensures LostAfter(lost, Err(NoServiceId)) == lost && StaleBy(stale, stale, ids, Err(NoServiceId))
    ensures NotTaken(NoServiceId, services, v) && SameExtent(services, services, v)
    ensures forall wanted :: Wider(ids, ids, wanted)
  {
  }

  /** Only wanted backends have come to be known. */
  ghost predicate Wider(was: map<Endpoint, nat>, ids: map<Endpoint, nat>, wanted: set<Endpoint>) {
    ids.Keys <= was.Keys + wanted
  }

  lemma StaleSame(was: set<nat>, now: set<nat>, ids: map<Endpoint, nat>, r: Result<(), UpsertError>)
    requires r.Err? ==> RebuildFailure(r.error) || PublishFailure(r.error)
    ensures StaleBy(was, now, ids, r) <==> StaleBy(was, now, ids, Ok(()))
  {
  }

  lemma PeaksOn(was: nat, mid: nat, now: nat, ids1: map<Endpoint, nat>, ids2: map<Endpoint, nat>)
    requires Peaks(was, mid, ids1) && Peaks(mid, now, ids2) && ids1.Keys <= ids2.Keys
    ensures Peaks(was, now, ids2)
  {
    SubsetCardinality(ids1.Keys, ids2.Keys);
    assert |ids1.Keys| == |ids1| && |ids2.Keys| == |ids2|;
  }

  lemma WrittenNext(was: Services, mid: Services, now: Services, stale: set<nat>, stale': set<nat>, v: VipId,
      ep: Endpoint)
    requires Written(was, mid, stale, v) && stale' <= stale && Written(mid, now, stale', v)
        && TakenUp(mid, now, v, ep, true)
    ensures Written(was, now, stale', v)
  {
  }

  /** Dropping backends first makes no difference. */
  lemma WrittenSince(was: Services, mid: Services, now: Services, stale: set<nat>, v: VipId, wanted: set<Endpoint>)
    requires DroppedAll(was, mid, v, wanted) && v in now && now[v].backends.Keys <= wanted
    ensures Written(mid, now, stale, v) ==> Written(was, now, stale, v)
  {
  }

  /** Only v's extent may differ. */
  ghost predicate Resized(was: Services, services: Services, v: VipId) {
    v in was && v in services && services == was[v := was[v].(ext := services[v].ext)]
  }

  lemma ResizedFacts(mid: Services, services: Services, v: VipId)
    requires Resized(mid, services, v)
    ensures v in services && services[v].backends == mid[v].backends && services[v].sid == mid[v].sid
    ensures services - {v} == mid - {v}
  {
  }

  lemma WrittenThen(was: Services, mid: Services, now: Services, stale: set<nat>, v: VipId)
    requires Written(was, mid, stale, v) && v in now && now[v].backends == mid[v].backends
    ensures Written(was, now, stale, v)
  {
  }

  lemma WrittenFrom(was: Services, entered: Services, now: Services, stale: set<nat>, v: VipId)
    requires Entered(was, entered, v)
    ensures Written(entered, now, stale, v) ==> Written(was, now, stale, v)
  {
  }

  // ---- What an upsert leaves alone.

  /** Only entries and health of backends differ. */
  ghost predicate SameTables(m: Maps, m': Maps) {
    m' == m.(backend := m'.backend, health := m'.health)
  }

  /** Nothing of the other VIPs' differs: their configurations, the slots of their extents, their entries in
      the VIP maps. */
  ghost predicate Spares(m: Maps, m': Maps, others: Services, v: VipId) {
    && |m'.svc| == |m.svc| && |m'.maglev| == |m.maglev|
    && (forall u :: u in others && others[u].sid < |m.svc| ==> m'.svc[others[u].sid] == m.svc[others[u].sid])
    && (forall u, s: nat :: u in others && Within(others[u].ext, s) && s < |m.maglev| ==> m'.maglev[s] == m.maglev[s])
    && (forall k :: k in m.vip && ExactVip(k) != v ==> k in m'.vip && m'.vip[k] == m.vip[k])
    && (forall k :: k in m.ranges && !Owns(v, k) ==> k in m'.ranges && m'.ranges[k] == m.ranges[k])
  }

  lemma ApartThen(m0: Maps, m1: Maps, m2: Maps, others: Services, v: VipId)
    requires Spares(m0, m1, others, v) && Spares(m1, m2, others, v)
    ensures Spares(m0, m2, others, v)
  {
    hide Owns;
  }

  lemma TablesApart(m: Maps, m': Maps, others: Services, v: VipId)
    requires SameTables(m, m')
    ensures Spares(m, m', others, v)
  {
    hide Owns;
  }

  lemma SlotsApart(m: Maps, m': Maps, services: Services, v: VipId, target: Extent)
    requires SameOutside(m, m', target)
    requires forall u :: u in services && u != v ==> ExtentSlots(services[u].ext) !! ExtentSlots(target)
    ensures Spares(m, m', services - {v}, v)
  {
    hide Owns;
    forall u, s: nat | u in services - {v} && Within(services[u].ext, s) && s < |m.maglev|
      ensures m'.maglev[s] == m.maglev[s]
    {
      assert s in ExtentSlots(services[u].ext);
      assert Within(target, s) ==> s in ExtentSlots(target);
    }
  }

  lemma ConfigApart(m: Maps, services: Services, v: VipId, cfg: ServiceConfig)
    requires v in services && services[v].sid < |m.svc|
    requires forall u :: u in services && u != v ==> services[u].sid != services[v].sid
    ensures Spares(m, WithService(m, services[v].sid, cfg), services - {v}, v)
  {
    hide Owns;
  }

  /** How an upsert that never came to the table, or had no need to, ends. */
  ghost predicate TableLeft(m: Maps, services: Services, spec: Vip, r: Result<(), UpsertError>, m': Maps,
      services': Services) {
    && (r.Err? && GroupFailure(r.error) ==> SameTables(m, m'))
    && (!Rebuilds(services, spec) ==> m'.maglev == m.maglev && SameExtent(services, services', spec.id))
  }

  /** The same once the VIP has an entry. */
  ghost predicate TableKept(m: Maps, e: Service, spec: Vip, isNew: bool, r: Result<(), UpsertError>, m': Maps,
      e': Service) {
    && (r.Err? && GroupFailure(r.error) ==> SameTables(m, m'))
    && (!TableChanges(e, WeightsOf(spec.backends), isNew) ==> m'.maglev == m.maglev && e'.ext == e.ext)
  }

  /** The table is left alone if nothing about it changes. */
  ghost predicate TableStays(m: Maps, e: Service, spec: Vip, changed: bool, m': Maps, e': Service) {
    !TableChanges(e, WeightsOf(spec.backends), changed) ==> m'.maglev == m.maglev && e'.ext == e.ext
  }

  lemma TableStaysOn(m: Maps, m1: Maps, m': Maps, e: Service, e1: Service, e': Service, spec: Vip, changed: bool)
    requires TableStays(m, e, spec, changed, m1, e1) && m'.maglev == m1.maglev && e'.ext == e1.ext
    ensures TableStays(m, e, spec, changed, m', e')
  {
    hide WeightsOf, TableChanges;
  }

  lemma TableKeptBy(m: Maps, m1: Maps, m': Maps, e: Service, e1: Service, e': Service, spec: Vip, isNew: bool,
      changed: bool, r: Result<(), UpsertError>)
    requires SameTables(m, m1) && e1.ext == e.ext && (r.Err? && GroupFailure(r.error) ==> m' == m1)
    requires TableStays(m1, e1, spec, changed, m', e')
    requires TableChanges(e1, WeightsOf(spec.backends), changed) ==
        TableChanges(e, WeightsOf(spec.backends), isNew)
    ensures TableKept(m, e, spec, isNew, r, m', e')
  {
    hide WeightsOf, TableChanges;
  }

  lemma TableKeptSame(m: Maps, m': Maps, e: Service, e': Service, spec: Vip, isNew: bool, r: Result<(), UpsertError>)
    requires SameTables(m, m') && e'.ext == e.ext
    ensures TableKept(m, e, spec, isNew, r, m', e')
  {
    hide WeightsOf, TableChanges;
  }

  lemma TableLeftFrom(m: Maps, was: Services, entered: Services, spec: Vip, isNew: bool, r: Result<(), UpsertError>,
      m': Maps, services: Services)
    requires Entered(was, entered, spec.id) && isNew == (spec.id !in was) && spec.id in services
    requires TableKept(m, entered[spec.id], spec, isNew, r, m', services[spec.id])
    ensures TableLeft(m, was, spec, r, m', services)
  {
    hide WeightsOf, Reweighted;
  }

  lemma TableLeftAlone(m: Maps, services: Services, spec: Vip)
    ensures TableLeft(m, services, spec, Err(NoServiceId), m, services)
  {
    hide WeightsOf, Reweighted;
  }

  lemma ExactApart(m: Maps, others: Services, v: VipId, k: ExactKey, sid: nat)
    requires ExactVip(k) == v
    ensures Spares(m, WithVip(m, k, sid), others, v) && Spares(m, m, others, v)
  {
    hide Owns;
  }

  lemma GrownApart(m: Maps, m': Maps, others: Services, v: VipId, i: nat)
    requires m' == m.(ranges := m'.ranges) && RangesGrown(m.ranges, m'.ranges, v, i) && v.IsRange()
    ensures Spares(m, m', others, v)
  {
    BlocksOwned(v, i);
    hide Owns, BlockKeys;
  }

  lemma RolledApart(m: Maps, m': Maps, others: Services, v: VipId, written: int)
    requires m' == m.(ranges := m'.ranges) && RolledBack(m.ranges, m'.ranges, v, written) && v.IsRange()
    ensures Spares(m, m', others, v)
  {
    if written >= 0 {
      BlocksOwned(v, written);
    }
    hide Owns, BlockKeys;
  }

  lemma BlocksOwned(v: VipId, i: nat)
    requires v.IsRange()
    ensures forall k :: k in BlockKeys(v, i) ==> Owns(v, k)
  {
    hide Tiling;
  }

  predicate GroupFailure(e: UpsertError) {
    e == NoBackendId || e == NotRefreshed || e.NotAcquired?
  }

  // ---- What is watched.

  /** Whatever the VIP is to have, every VIP that need not agree may reach. */
  ghost predicate ReachAll(w: Watch) {
    w.vip in w.loose && forall u :: u in w.loose ==> w.wanted <= w.loose[u]
  }

  lemma ReachesEach(w: Watch, ep: Endpoint)
    requires ReachAll(w) && ep in w.wanted
    ensures Everywhere(w.loose, ep)
  {
  }

  /** Every backend that v has come to list is written. */
  ghost predicate Written(was: Services, services: Services, stale: set<nat>, v: VipId) {
    v in services && forall ep :: ep in services[v].backends && (v in was ==> ep !in was[v].backends) ==>
      services[v].backends[ep] !in stale
  }

  ghost function UpsertGuard(services: Services, states: States, m: Maps, a: Amiss, spec: Vip,
      r: Result<(), UpsertError>): Guard {
    var w := WatchOf(services, states, m, a, spec.id, WeightsOf(spec.backends).Keys, false);
    if r == Err(VipRefused) then Lax(w).guard else w.guard
  }

  lemma GuardIs(services: Services, states: States, m: Maps, a: Amiss, spec: Vip, r: Result<(), UpsertError>)
    ensures var w := WatchOf(services, states, m, a, spec.id, WeightsOf(spec.backends).Keys, false);
            UpsertGuard(services, states, m, a, spec, r) == if r == Err(VipRefused) then Lax(w).guard else w.guard
  {
  }

  /** While a table moves to another extent, in every snapshot of the upsert, failed or not, the slots
      that the configuration published before it points at are what they were. */
  lemma OutgrownStays(hash: Hash<Endpoint>, m: Maps, services: Services, states: States, a: Amiss, spec: Vip,
      r: Result<(), UpsertError>, was: seq<Maps>, log: seq<Maps>, j: nat, s: nat)
    requires AgreeBut(hash, m, services, states, a) && spec.id in services && spec.id !in a.loose
    requires SafeSince(was, log, UpsertGuard(services, states, m, a, spec, r)) && |was| <= j < |log|
    requires Outgrown(services[spec.id].ext, ClassFor(|WeightsOf(spec.backends).Keys|))
    requires services[spec.id].sid < |m.svc|
    requires var cfg := m.svc[services[spec.id].sid]; cfg.offset <= s < cfg.offset + cfg.size
    ensures s < |m.maglev| && s < |log[j].maglev| && log[j].maglev[s] == m.maglev[s]
  {
    hide Settled, Outgrown, WatchOf, Safe, WeightsOf, UpsertGuard, LeftAlone, Lax, ExtentSlots, Base, Contained,
      Installed;
    PublishedIs(hash, m, spec.id, services[spec.id]);
    OutgrownLeft(services, spec.id, WeightsOf(spec.backends).Keys, s);
    LeftIsFrozen(services, states, m, a, spec, r, s);
    assert Safe(log[j], UpsertGuard(services, states, m, a, spec, r));
    FrozenIs(log[j], UpsertGuard(services, states, m, a, spec, r), s);
  }

  lemma OutgrownLeft(services: Services, v: VipId, wanted: set<Endpoint>, s: nat)
    requires v in services && Within(services[v].ext, s) && Outgrown(services[v].ext, ClassFor(|wanted|))
    ensures LeftAlone(services, v, wanted, s)
  {
    hide Outgrown, ClassFor, Live;
    assert s in ExtentSlots(services[v].ext);
  }

  lemma LeftIsFrozen(services: Services, states: States, m: Maps, a: Amiss, spec: Vip, r: Result<(), UpsertError>,
      s: nat)
    requires LeftAlone(services, spec.id, WeightsOf(spec.backends).Keys, s) && s < |m.maglev|
    ensures var g := UpsertGuard(services, states, m, a, spec, r); s in g.frozen && g.frozen[s] == m.maglev[s]
  {
    hide LeftAlone, WeightsOf, PinsOf, During, HealthOf;
  }

  lemma FrozenIs(m: Maps, g: Guard, s: nat)
    requires Safe(m, g) && s in g.frozen
    ensures s < |m.maglev| && m.maglev[s] == g.frozen[s]
  {
    hide Confined, AllInstalled, Pinned, HealthIn;
  }

  lemma PublishedIs(hash: Hash<Endpoint>, m: Maps, v: VipId, e: Service)
    requires Settled(hash, m, v, e)
    ensures e.sid < |m.svc| && m.svc[e.sid].offset == e.ext.offset && m.svc[e.sid].size == e.ext.size
    ensures e.ext.End() <= |m.maglev|
  {
    hide AllNamed, Balanced, ClassFor, Outgrown;
  }

  lemma WatchFacts(services: Services, states: States, m: Maps, a: Amiss, v: VipId, wanted: set<Endpoint>,
      removing: bool)
    ensures var w := WatchOf(services, states, m, a, v, wanted, removing);
            && w.vip == v && w.wanted == wanted && ReachAll(w) && (removing ==> v !in w.guard.installed)
            && w.loose == Loosened(services, a.loose, v, wanted)
  {
    hide PinsOf, HealthOf, LeftAlone;
  }

  lemma LaxWeaker(w: Watch)
    ensures Weaker(Lax(w).guard, w.guard)
  {
  }

  lemma LaxJoins(log0: seq<Maps>, log1: seq<Maps>, log: seq<Maps>, w: Watch)
    ensures SafeSince(log0, log1, w.guard) && SafeSince(log1, log, Lax(w).guard) ==>
        SafeSince(log0, log, Lax(w).guard)
  {
    hide SafeSince, Weaker, Lax;
    if SafeSince(log0, log1, w.guard) && SafeSince(log1, log, Lax(w).guard) {
      LaxWeaker(w);
      SafeRelaxes(log0, log1, w.guard, Lax(w).guard);
      SafeJoin(log0, log1, log, Lax(w).guard);
    }
  }

  lemma SafeRelaxes(from: seq<Maps>, log: seq<Maps>, g': Guard, g: Guard)
    requires SafeSince(from, log, g') && Weaker(g, g')
    ensures SafeSince(from, log, g)
  {
    hide Safe, Weaker;
    forall i | |from| <= i < |log|
      ensures Safe(log[i], g)
    {
      SafeWidens(log[i], g', g);
    }
  }

  lemma NothingWritten(log: seq<Maps>, g: Guard)
    ensures SafeSince(log, log, g)
  {
    hide Safe;
  }

  /** What is amiss once the operation is over. */
  lemma UnderEnds(hash: Hash<Endpoint>, m: Maps, services: Services, states: States, stale: set<nat>, w: Watch)
    requires Under(hash, m, services, states, stale, w)
    ensures AgreeBut(hash, m, services, states, Amiss(w.loose, stale))
    ensures Settled(hash, m, w.vip, services[w.vip]) && Installed(m, w.vip) ==>
        AgreeBut(hash, m, services, states, Amiss(w.loose - {w.vip}, stale))
  {
    hide AgreeBut, Settled, Installed, Keeping, Allowed;
    if Settled(hash, m, w.vip, services[w.vip]) && Installed(m, w.vip) {
      Tightens(hash, m, services, states, w.vip, Amiss(w.loose, stale));
    }
  }

  lemma UnderRemoved(hash: Hash<Endpoint>, m: Maps, services: Services, states: States, stale: set<nat>, w: Watch)
    requires Under(hash, m, services, states, stale, w) && services[w.vip].sid < |m.svc|
        && m.svc[services[w.vip].sid] == ZERO_CONFIG
    requires (forall k :: k in m.vip ==> ExactVip(k) != w.vip) && (forall k :: k in m.ranges ==> !Owns(w.vip, k))
    ensures AgreeBut(hash, m, services - {w.vip}, states, Amiss(w.loose - {w.vip}, stale))
  {
    hide AgreeBut, Keeping, Allowed, Owns;
    RemoveEnds(hash, m, services, states, w.vip, Amiss(w.loose, stale));
  }

  /** The guard of an operation that only changes health flags. */
  ghost function RestGuard(services: Services, states: States, m: Maps, a: Amiss): Guard {
    Guard(Allowed(services, a.loose), services.Keys - a.loose.Keys,
      map id | id in states && id !in a.stale :: states[id].ep,
      map id | id in states && id !in a.stale :: {HealthOf(states[id])},
      map s: nat | s < |m.maglev| :: m.maglev[s])
  }

  lemma FlagsSafe(hash: Hash<Endpoint>, m: Maps, services: Services, states: States, ids: map<Endpoint, nat>, a: Amiss,
      id: nat, st: BackendState)
    requires AgreeBut(hash, m, services, states, a) && Named(services, states, ids) && id in states && id < |m.health|
    requires st.ep == states[id].ep && st.refCount == states[id].refCount
    ensures Safe(WithHealth(m, id, HealthOf(st)), RestGuard(services, states[id := st], m, a))
  {
    hide Confined, AgreeBut, Installed, Allowed, HealthOf, Named;
    var m', states' := WithHealth(m, id, HealthOf(st)), states[id := st];
    var a' := a.(stale := FlagsStale(m, a.stale, id, true));
    FlagsStep(hash, m, services, states, a, id, st, true);
    FlagsNamed(services, states, ids, id, st);
    ButConfined(hash, m', services, states', ids, a');
    ButFacts(hash, m', services, states', a');
  }

  lemma FlagsNamed(services: Services, states: States, ids: map<Endpoint, nat>, id: nat, st: BackendState)
    requires Named(services, states, ids) && id in states && st.ep == states[id].ep
    ensures Named(services, states[id := st], ids)
  {
  }

  lemma AgreeFacts(hash: Hash<Endpoint>, m: Maps, services: Services, states: States)
    requires Agree(hash, m, services, states)
    ensures BackendMapOk(m, states, {}) && HealthOk(m, states, {}) && (forall id :: id in states ==> id < |m.health|)
    ensures forall v :: v in services ==> Installed(m, v)
  {
    hide Settled, Installed, Reachable, Compatible, UnusedZero, BackendMapOk, HealthOk;
  }
}
