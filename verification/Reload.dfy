/** planReload (internal/dataplane/dataplane.go): what a reload will do, computed before any map
    is touched. */
module ReloadPlanning {
  import opened Common
  import opened Types
  import opened DataplaneState

  datatype ReloadPlan = ReloadPlan(upserts: seq<Vip>, removes: seq<VipId>, added: nat, updated: nat, same: nat)

  /** The configured VIPs by key; a later entry for the same key wins. */
  function Want(desired: seq<Vip>): (want: map<VipId, Vip>)
    ensures forall k :: k in want ==> want[k].id == k && want[k] in desired
    ensures forall i :: 0 <= i < |desired| ==> desired[i].id in want
  {
    if desired == [] then
      map[]
    else
      var last := desired[|desired| - 1];
      assert desired == desired[..|desired| - 1] + [last];
      Want(desired[..|desired| - 1])[last.id := last]
  }

  /** No later entry is for the same VIP. */
  ghost predicate LastFor(desired: seq<Vip>, i: nat) {
    i < |desired| && forall j :: i < j < |desired| ==> desired[j].id != desired[i].id
  }

  /** Of several entries for one VIP the last counts. */
  lemma {:induction false} LastEntryCounts(desired: seq<Vip>, i: nat)
    requires LastFor(desired, i)
    ensures desired[i].id in Want(desired) && Want(desired)[desired[i].id] == desired[i]
  {
    EntryAdded(desired);
    if i < |desired| - 1 {
      StillLast(desired, i);
      hide Want, LastFor;
      LastEntryCounts(desired[..|desired| - 1], i);
    }
  }

  lemma EntryAdded(desired: seq<Vip>)
    requires desired != []
    ensures var last := |desired| - 1; Want(desired) == Want(desired[..last])[desired[last].id := desired[last]]
  {
  }

  lemma StillLast(desired: seq<Vip>, i: nat)
    requires LastFor(desired, i) && i < |desired| - 1
    ensures var last := |desired| - 1;
            LastFor(desired[..last], i) && desired[..last][i] == desired[i] && desired[last].id != desired[i].id
  {
  }

  /** A VIP is left alone exactly when its recorded specification is what is wanted. */
  predicate Same(current: map<VipId, Option<Vip>>, v: Vip) {
    v.id in current && current[v.id] == Some(v)
  }

  /** The keys in the order they first appear. */
  function OrderOf(desired: seq<Vip>): (order: seq<VipId>)
    ensures forall k :: k in order <==> k in Want(desired)
  {
    if desired == [] then
      []
    else
      var order, last := OrderOf(desired[..|desired| - 1]), desired[|desired| - 1];
      if last.id in order then order else order + [last.id]
  }

  lemma {:induction false} OrderIsDistinct(desired: seq<Vip>)
    ensures Distinct(OrderOf(desired)) && |OrderOf(desired)| == |Want(desired)|
  {
    if desired != [] {
      OrderIsDistinct(desired[..|desired| - 1]);
    }
  }

  /** The wanted VIPs that are new or changed, in that order. */
  function UpsertsOf(current: map<VipId, Option<Vip>>, want: map<VipId, Vip>, order: seq<VipId>): (upserts: seq<Vip>)
    requires forall k :: k in order ==> k in want
  {
    if order == [] then
      []
    else
      var k := order[|order| - 1];
      assert k in order;
      var upserts := UpsertsOf(current, want, order[..|order| - 1]);
      if Same(current, want[k]) then upserts else upserts + [want[k]]
  }

  ghost function NewKeys(current: map<VipId, Option<Vip>>, keys: set<VipId>): set<VipId> {
    set k | k in keys && k !in current
  }

  ghost function ChangedKeys(current: map<VipId, Option<Vip>>, want: map<VipId, Vip>, keys: set<VipId>): set<VipId> {
    set k | k in keys && k in want && k in current && current[k] != Some(want[k])
  }

  /** What the plan is: removed is what is there and not wanted; upserted, in the order of the
      configuration, what is wanted and not there like that; and the counts say how many VIPs are new,
      changed and neither. */
  ghost predicate PlanOk(current: map<VipId, Option<Vip>>, desired: seq<Vip>, plan: ReloadPlan) {
    && Distinct(plan.removes)
    && (forall k :: k in plan.removes <==> k in current && k !in Want(desired))
    && plan.upserts == UpsertsOf(current, Want(desired), OrderOf(desired))
    && |plan.upserts| == plan.added + plan.updated
    && plan.added + plan.updated + plan.same == |Want(desired)|
    && plan.added == |NewKeys(current, Want(desired).Keys)|
    && plan.updated == |ChangedKeys(current, Want(desired), Want(desired).Keys)|
  }

  /** No VIP is upserted twice, and each exactly if it is new or changed. */
  lemma {:induction false} UpsertsAre(current: map<VipId, Option<Vip>>, want: map<VipId, Vip>, order: seq<VipId>)
    requires Distinct(order) && forall k :: k in order ==> k in want && want[k].id == k
    ensures var upserts := UpsertsOf(current, want, order);
            && (forall i :: 0 <= i < |upserts| ==> upserts[i].id in order && want[upserts[i].id] == upserts[i])
            && (forall i, j :: 0 <= i < j < |upserts| ==> upserts[i].id != upserts[j].id)
            && (forall k :: k in order ==> (want[k] in upserts <==> !Same(current, want[k])))
  {
    if order != [] {
      var init, k := order[..|order| - 1], order[|order| - 1];
      assert order == init + [k] && k !in init;
      hide Same;
      UpsertsAre(current, want, init);
      assert forall x :: x in init ==> want[x] != want[k];
    }
  }

  method FirstSeen(desired: seq<Vip>) returns (order: seq<VipId>, want: map<VipId, Vip>)
    ensures want == Want(desired) && order == OrderOf(desired)
  {
    order, want := [], map[];
    for i := 0 to |desired|
      invariant want == Want(desired[..i]) && order == OrderOf(desired[..i])
    {
      var v := desired[i];
      assert desired[..i + 1][..i] == desired[..i];
      if v.id !in want {
        order := order + [v.id];
      }
      want := want[v.id := v];
    }
    assert desired[..|desired|] == desired;
  }

  method PlanUpserts(current: map<VipId, Option<Vip>>, want: map<VipId, Vip>, order: seq<VipId>)
    returns (upserts: seq<Vip>, added: nat, updated: nat, same: nat)
    requires Distinct(order) && (forall k :: k in order <==> k in want) && forall k :: k in want ==> want[k].id == k
    ensures upserts == UpsertsOf(current, want, order)
    ensures |upserts| == added + updated && added + updated + same == |order|
    ensures added == |NewKeys(current, want.Keys)| && updated == |ChangedKeys(current, want, want.Keys)|
  {
    hide NewKeys, ChangedKeys;
    upserts, added, updated, same := [], 0, 0, 0;
    NoKeys(current, want);
    ghost var seen: set<VipId> := {};
    for i := 0 to |order|
      invariant upserts == UpsertsOf(current, want, order[..i])
      invariant |upserts| == added + updated && added + updated + same == i
      invariant forall k :: k in seen <==> k in order[..i]
      invariant added == |NewKeys(current, seen)| && updated == |ChangedKeys(current, want, seen)|
    {
      var k := order[i];
      var v := want[k];
      assert order[..i + 1][..i] == order[..i] && order[..i + 1] == order[..i] + [k];
      assert k !in seen;
      OneMoreKey(current, want, seen, k);
      seen := seen + {k};
      if k !in current {
        added, upserts := added + 1, upserts + [v];
      } else if current[k] != Some(v) {
        updated, upserts := updated + 1, upserts + [v];
      } else {
        same := same + 1;
      }
    }
    assert order[..|order|] == order;
    assert seen == want.Keys;
  }

  lemma NoKeys(current: map<VipId, Option<Vip>>, want: map<VipId, Vip>)
    ensures NewKeys(current, {}) == {} && ChangedKeys(current, want, {}) == {}
  {
  }

  lemma OneMoreKey(current: map<VipId, Option<Vip>>, want: map<VipId, Vip>, seen: set<VipId>, k: VipId)
    requires k !in seen && k in want
    ensures |NewKeys(current, seen + {k})| == |NewKeys(current, seen)| + if k !in current then 1 else 0
    ensures |ChangedKeys(current, want, seen + {k})|
            == |ChangedKeys(current, want, seen)| + if k in current && current[k] != Some(want[k]) then 1 else 0
  {
    OneMoreNew(current, seen, k);
    OneMoreChanged(current, want, seen, k);
  }

  lemma OneMoreNew(current: map<VipId, Option<Vip>>, seen: set<VipId>, k: VipId)
    requires k !in seen
    ensures |NewKeys(current, seen + {k})| == |NewKeys(current, seen)| + if k !in current then 1 else 0
  {
    var keys := NewKeys(current, seen);
    if k in current {
      assert NewKeys(current, seen + {k}) == keys;
    } else {
      assert NewKeys(current, seen + {k}) == keys + {k};
    }
  }

  lemma OneMoreChanged(current: map<VipId, Option<Vip>>, want: map<VipId, Vip>, seen: set<VipId>, k: VipId)
    requires k !in seen && k in want
    ensures |ChangedKeys(current, want, seen + {k})|
            == |ChangedKeys(current, want, seen)| + if k in current && current[k] != Some(want[k]) then 1 else 0
  {
    var keys := ChangedKeys(current, want, seen);
    if k in current && current[k] != Some(want[k]) {
      assert ChangedKeys(current, want, seen + {k}) == keys + {k};
    } else {
      assert ChangedKeys(current, want, seen + {k}) == keys;
    }
  }

  method PlanRemoves(current: map<VipId, Option<Vip>>, want: map<VipId, Vip>) returns (removes: seq<VipId>)
    ensures Distinct(removes) && forall k :: k in removes <==> k in current && k !in want
  {
    removes := [];
    var todo := current.Keys;
    while todo != {}
      invariant todo <= current.Keys && Distinct(removes)
      invariant forall k :: k in removes <==> k in current && k !in want && k !in todo
    {
      var k :| k in todo;
      if k !in want {
        assert k !in removes;
        removes := removes + [k];
      }
      todo := todo - {k};
    }
  }

  method PlanReload(current: map<VipId, Option<Vip>>, desired: seq<Vip>) returns (plan: ReloadPlan)
    ensures PlanOk(current, desired, plan)
  {
    hide Want, OrderOf, UpsertsOf, NewKeys, ChangedKeys;
    var order, want := FirstSeen(desired);
    OrderIsDistinct(desired);
    var upserts, added, updated, same := PlanUpserts(current, want, order);
    var removes := PlanRemoves(current, want);
    plan := ReloadPlan(upserts, removes, added, updated, same);
  }

  /** The configuration is the one already running. */
  ghost predicate AsRunning(current: map<VipId, Option<Vip>>, want: map<VipId, Vip>) {
    current.Keys == want.Keys && forall k :: k in want ==> current[k] == Some(want[k])
  }

  /** A reload plans nothing exactly when the configuration is the one already running. */
  lemma NothingPlannedIff(current: map<VipId, Option<Vip>>, desired: seq<Vip>, plan: ReloadPlan)
    requires PlanOk(current, desired, plan)
    ensures plan.upserts == [] && plan.removes == [] <==> AsRunning(current, Want(desired))
  {
    hide Want, OrderOf, UpsertsOf;
    var want := Want(desired);
    var added, changed := NewKeys(current, want.Keys), ChangedKeys(current, want, want.Keys);
    assert plan.upserts == [] <==> added == {} && changed == {};
    assert plan.removes == [] <==> forall k :: k in current ==> k in want by { NoneIn(plan.removes); }
    if added == {} && changed == {} && plan.removes == [] {
      forall k | k in want
        ensures k in current && current[k] == Some(want[k])
      {
        assert k !in added && k !in changed;
      }
      assert current.Keys == want.Keys;
    }
    if AsRunning(current, want) {
      assert added == {} && changed == {};
    }
  }

  lemma NoneIn(keys: seq<VipId>)
    ensures keys == [] <==> forall k :: k !in keys
  {
    if keys != [] {
      assert keys[0] in keys;
    }
  }

  /** What a plan amounts to. */
  lemma PlanFacts(current: map<VipId, Option<Vip>>, desired: seq<Vip>, plan: ReloadPlan)
    requires PlanOk(current, desired, plan)
    ensures Distinct(plan.removes) && (forall k :: k in plan.removes <==> k in current && k !in Want(desired))
    ensures forall i :: 0 <= i < |plan.upserts| ==>
        plan.upserts[i].id in Want(desired) && Want(desired)[plan.upserts[i].id] == plan.upserts[i]
    ensures forall i, j :: 0 <= i < j < |plan.upserts| ==> plan.upserts[i].id != plan.upserts[j].id
    ensures forall k :: k in Want(desired) ==> (Want(desired)[k] in plan.upserts <==> !Same(current, Want(desired)[k]))
  {
    hide Same, Want, OrderOf, UpsertsOf;
    OrderIsDistinct(desired);
    UpsertsAre(current, Want(desired), OrderOf(desired));
  }
}
