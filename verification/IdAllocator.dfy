/** Small stable integer IDs for keys (internal/dataplane/idalloc.go and its reserve method in
    adopt.go). Released IDs are handed out again before new ones. */
module IdAllocation {
  import opened Common

  datatype IdError = Exhausted | OutOfRange | HeldElsewhere

  /** Names and IDs correspond one to one. */
  ghost predicate OneToOne<K>(ids: map<K, nat>) {
    forall k, l :: k in ids && l in ids && ids[k] == ids[l] ==> k == l
  }

  /** Allocated and free IDs partition [0, next), and next is within capacity. */
  ghost predicate PoolValid<K>(ids: map<K, nat>, free: seq<nat>, next: nat, max: nat) {
    && next <= max
    && OneToOne(ids)
    && (forall k :: k in ids ==> ids[k] < next && ids[k] !in free)
    && Distinct(free)
    && (forall j :: 0 <= j < |free| ==> free[j] < next)
    && (forall i: nat :: i < next ==> i in free || exists k :: k in ids && ids[k] == i)
  }

  lemma {:induction false} ValuesOfOneToOne<K>(ids: map<K, nat>)
    requires OneToOne(ids)
    ensures |ids.Values| == |ids|
  {
    if ids == map[] {
      assert ids.Values == {};
    } else {
      var k :| k in ids;
      var rest := ids - {k};
      ValuesOfOneToOne(rest);
      ValuesWithout(ids, k);
      assert |rest| == |ids| - 1;
    }
  }

  lemma ValuesWithout<K>(ids: map<K, nat>, k: K)
    requires OneToOne(ids) && k in ids
    ensures ids.Values == (ids - {k}).Values + {ids[k]} && ids[k] !in (ids - {k}).Values
  {
    var rest := ids - {k};
    forall x | x in ids.Values
      ensures x in rest.Values + {ids[k]}
    {
      var j :| j in ids && ids[j] == x;
      if j != k {
        assert j in rest && rest[j] == x;
      }
    }
    forall x | x in rest.Values
      ensures x in ids.Values && x != ids[k]
    {
      var j :| j in rest && rest[j] == x;
      assert j in ids && ids[j] == x;
    }
  }

  /** Every ID below next is either allocated or free, never both, so the two add up. */
  /** The pool has grown only as far as the IDs in use now require. */
  ghost predicate Peaks<K>(was: nat, next: nat, ids: map<K, nat>) {
    next == if |ids| > was then |ids| else was
  }

  lemma PeaksStep<K>(ids: map<K, nat>, free: seq<nat>, next: nat, max: nat, key: K, id: nat)
    requires PoolValid(ids, free, next, max)
    ensures Peaks(next, next, ids)
    ensures key !in ids && free != [] ==> Peaks(next, next, ids[key := id])
    ensures key !in ids && free == [] ==> Peaks(next, next + 1, ids[key := id])
  {
    PoolCount(ids, free, next, max);
    hide PoolValid;
    if key !in ids {
      assert ids[key := id].Keys == ids.Keys + {key};
      assert |ids.Keys| == |ids| && |ids[key := id].Keys| == |ids[key := id]|;
    }
  }

  lemma PoolCount<K>(ids: map<K, nat>, free: seq<nat>, next: nat, max: nat)
    requires PoolValid(ids, free, next, max)
    ensures |ids| + |free| == next
  {
    ValuesOfOneToOne(ids);
    DistinctCardinality(free);
    var spare := set i | i in free;
    UsedOrSpare(ids, free, next, max);
    assert |spare + ids.Values| == |spare| + |ids.Values|;
  }

  lemma UsedOrSpare<K>(ids: map<K, nat>, free: seq<nat>, next: nat, max: nat)
    requires PoolValid(ids, free, next, max)
    ensures (set i | i in free) !! ids.Values
    ensures (set i | i in free) + ids.Values == Range(next)
  {
    var spare := set i | i in free;
    forall i: nat | i < next
      ensures i in spare + ids.Values
    {
      if i !in free {
        var k :| k in ids && ids[k] == i;
      }
    }
    forall i | i in spare
      ensures i < next && i !in ids.Values
    {
      var j :| 0 <= j < |free| && free[j] == i;
    }
    assert spare + ids.Values <= Range(next);
  }

  class IdAllocator<K(==, !new)> {
    const max: nat
    var ids: map<K, nat>
    var free: seq<nat>
    var next: nat

    ghost predicate Valid()
      reads this
    {
      PoolValid(ids, free, next, max)
    }

    constructor (max: nat)
      ensures Valid() && this.max == max && ids == map[] && next == 0
    {
      this.max := max;
      ids, free, next := map[], [], 0;
    }

    /** key's ID, a new one if it has none. Fails only when every ID is in use. */
    method Alloc(key: K) returns (r: Result<nat, IdError>)
      requires Valid()
      modifies this
      ensures Valid()
      ensures r.Err? <==> key !in old(ids) && |old(ids)| == max
      ensures r.Err? ==> r.error == Exhausted && unchanged(this)
      ensures r.Ok? ==> ids == old(ids)[key := r.value] && r.value < max
      ensures key in old(ids) ==> r == Ok(old(ids)[key]) && unchanged(this)
      ensures r.Ok? && key !in old(ids) ==> forall k :: k in old(ids) ==> old(ids)[k] != r.value
      ensures r.Ok? && key !in old(ids) && old(free) != [] ==> r.value == old(free[|free| - 1]) && next == old(next)
      ensures r.Ok? && key !in old(ids) && old(free) == [] ==> r.value == old(next)
      ensures Peaks(old(next), next, ids)
    {
      hide Peaks;
      PoolCount(ids, free, next, max);
      PeaksStep(ids, free, next, max, key, if free != [] then free[|free| - 1] else next);
      if key in ids {
        return Ok(ids[key]);
      }
      var id;
      if |free| > 0 {
        id := free[|free| - 1];
        TakeFreeKeeps(ids, free, next, max, key, |free| - 1);
        assert free[..|free| - 1] == free[..|free| - 1] + free[|free|..];
        free := free[..|free| - 1];
      } else {
        if next >= max {
          return Err(Exhausted);
        }
        id := next;
        TakeNextKeeps(ids, free, next, max, key);
        next := next + 1;
      }
      ids := ids[key := id];
      return Ok(id);
    }

    /** key's current ID, without allocating one. */
    method Get(key: K) returns (r: Option<nat>)
      ensures r == if key in ids then Some(ids[key]) else None
    {
      if key in ids {
        return Some(ids[key]);
      }
      return None;
    }

    /** Gives key's ID back; nothing happens when it has none. */
    method Release(key: K)
      requires Valid()
      modifies this
      ensures Valid()
      ensures ids == old(ids) - {key}
      ensures key in old(ids) ==> free == old(free) + [old(ids)[key]] && next == old(next)
      ensures key !in old(ids) ==> unchanged(this)
    {
      if key !in ids {
        assert ids - {key} == ids;
        return;
      }
      var id := ids[key];
      ids := ids - {key};
      free := free + [id];
      forall i: nat | i < next
        ensures i in free || exists k :: k in ids && ids[k] == i
      {
        if i !in free {
          assert i !in old(free);
          var k :| k in old(ids) && old(ids)[k] == i;
          assert k in ids && ids[k] == i;
        }
      }
    }

    /** Marks id as held by key, as if Alloc had returned it. Refuses exactly the conflicts. */
    method Reserve(key: K, id: nat) returns (r: Result<(), IdError>)
      requires Valid()
      modifies this
      ensures Valid()
      ensures r.Ok? <==> id < max && if key in old(ids) then old(ids)[key] == id
                                     else forall k :: k in old(ids) ==> old(ids)[k] != id
      ensures r.Ok? ==> ids == old(ids)[key := id]
      ensures r.Err? ==> unchanged(this)
    {
      if id >= max {
        return Err(OutOfRange);
      }
      if key in ids {
        if ids[key] == id {
          assert ids == ids[key := id];
          return Ok(());
        }
        return Err(HeldElsewhere);
      }
      var held := Holds(id);
      if held {
        return Err(HeldElsewhere);
      }
      GrowTo(id);
      if id == next {
        TakeNextKeeps(ids, free, next, max, key);
        next := next + 1;
      } else {
        var i := FindFree(id);
        TakeFreeKeeps(ids, free, next, max, key, i);
        free := free[..i] + free[i + 1..];
      }
      ids := ids[key := id];
      return Ok(());
    }

    method Holds(id: nat) returns (held: bool)
      ensures held <==> exists k :: k in ids && ids[k] == id
    {
      var todo := ids.Keys;
      while todo != {}
        invariant todo <= ids.Keys
        invariant forall k :: k in ids && k !in todo ==> ids[k] != id
      {
        var k :| k in todo;
        if ids[k] == id {
          return true;
        }
        todo := todo - {k};
      }
      return false;
    }

    /** IDs between next and id were never handed out: they become free rather than lost. */
    method GrowTo(id: nat)
      requires Valid() && id < max
      modifies this`free, this`next
      ensures Valid() && next == if old(next) < id then id else old(next)
    {
      while next < id
        invariant Valid() && next == if old(next) < next then next else old(next)
        invariant next <= id || next == old(next)
      {
        GrowKeeps(ids, free, next, max);
        free := free + [next];
        next := next + 1;
      }
    }

    method FindFree(id: nat) returns (i: nat)
      requires id in free
      ensures i < |free| && free[i] == id
    {
      i := 0;
      while free[i] != id
        invariant 0 <= i < |free| && id !in free[..i]
        decreases |free| - i
      {
        i := i + 1;
      }
    }
  }

  lemma TakeNextKeeps<K>(ids: map<K, nat>, free: seq<nat>, next: nat, max: nat, key: K)
    requires PoolValid(ids, free, next, max) && key !in ids && next < max
    ensures PoolValid(ids[key := next], free, next + 1, max)
  {
    var ids' := ids[key := next];
    forall i: nat | i < next + 1
      ensures i in free || exists k :: k in ids' && ids'[k] == i
    {
      if i == next {
        assert ids'[key] == i;
      } else if i !in free {
        var k :| k in ids && ids[k] == i;
        assert ids'[k] == i;
      }
    }
  }

  lemma TakeFreeKeeps<K>(ids: map<K, nat>, free: seq<nat>, next: nat, max: nat, key: K, j: nat)
    requires PoolValid(ids, free, next, max) && key !in ids && j < |free|
    ensures PoolValid(ids[key := free[j]], free[..j] + free[j + 1..], next, max)
  {
    var id, rest := free[j], free[..j] + free[j + 1..];
    var ids' := ids[key := id];
    RemoveFrom(free, j);
    assert id in free;
    forall i: nat | i < next
      ensures i in rest || exists k :: k in ids' && ids'[k] == i
    {
      if i == id {
        assert ids'[key] == i;
      } else if i !in free {
        var k :| k in ids && ids[k] == i;
        assert ids'[k] == i;
      }
    }
  }

  lemma GrowKeeps<K>(ids: map<K, nat>, free: seq<nat>, next: nat, max: nat)
    requires PoolValid(ids, free, next, max) && next < max
    ensures PoolValid(ids, free + [next], next + 1, max)
  {
    var free' := free + [next];
    forall i: nat | i < next + 1
      ensures i in free' || exists k :: k in ids && ids[k] == i
    {
      if i == next {
        assert free'[|free|] == i;
      } else if i in free {
      } else {
        assert exists k :: k in ids && ids[k] == i;
      }
    }
  }

  lemma RemoveFrom(free: seq<nat>, i: nat)
    requires Distinct(free) && i < |free|
    ensures Distinct(free[..i] + free[i + 1..])
    ensures forall x :: x in free[..i] + free[i + 1..] <==> x in free && x != free[i]
  {
    var rest := free[..i] + free[i + 1..];
    forall x | x in free && x != free[i]
      ensures x in rest
    {
      var j :| 0 <= j < |free| && free[j] == x;
      assert rest[if j < i then j else j - 1] == x;
    }
    forall x | x in rest
      ensures x in free && x != free[i]
    {
      var j :| 0 <= j < |rest| && rest[j] == x;
      assert free[if j < i then j else j + 1] == x;
    }
  }
}
