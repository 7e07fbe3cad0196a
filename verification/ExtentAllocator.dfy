/** First-fit, coalescing allocation of slices of the shared maglev_table
    (internal/dataplane/maglevalloc.go and its reserve method in adopt.go). */
module ExtentAllocation {
  import opened Common

  datatype Extent = Extent(offset: nat, size: nat) {
    function End(): nat { offset + size }
  }

  datatype ExtentError = TableExhausted | OutsideTable | AlreadyAllocated

  predicate Within(e: Extent, s: int) {
    e.offset <= s < e.End()
  }

  /** The slots of one extent. */
  ghost function ExtentSlots(e: Extent): (slots: set<int>)
    ensures forall s :: s in slots <==> e.offset <= s < e.End()
  {
    set s | e.offset <= s < e.End() && Within(e, s)
  }

  /** The slots of a list of extents. */
  ghost function Slots(free: seq<Extent>): set<int> {
    if free == [] then {} else Slots(free[..|free| - 1]) + ExtentSlots(free[|free| - 1])
  }

  ghost predicate Covered(free: seq<Extent>, s: int) {
    exists i :: 0 <= i < |free| && Within(free[i], s)
  }

  lemma {:induction false} SlotsCovered(free: seq<Extent>, s: int)
    ensures s in Slots(free) <==> Covered(free, s)
  {
    if free != [] {
      var init, last := free[..|free| - 1], free[|free| - 1];
      SlotsCovered(init, s);
      assert forall i :: 0 <= i < |init| ==> init[i] == free[i];
      if Within(last, s) {
        assert Within(free[|free| - 1], s);
      } else if Covered(init, s) {
        var i :| 0 <= i < |init| && Within(init[i], s);
        assert Within(free[i], s);
      }
    }
  }

  /** In offset order, without overlap; neighbours may touch. */
  ghost predicate Ordered(free: seq<Extent>) {
    && (forall i :: 0 <= i < |free| ==> free[i].size > 0)
    && (forall i, j :: 0 <= i < j < |free| ==> free[i].End() <= free[j].offset)
  }

  /** Ordered and fully coalesced: between two neighbours there is at least one allocated slot. */
  ghost predicate Coalesced(free: seq<Extent>) {
    && (forall i :: 0 <= i < |free| ==> free[i].size > 0)
    && (forall i, j :: 0 <= i < j < |free| ==> free[i].End() < free[j].offset)
  }

  ghost predicate FreeListValid(free: seq<Extent>, total: nat) {
    Coalesced(free) && forall i :: 0 <= i < |free| ==> free[i].End() <= total
  }

  /** A set of free slots has only one coalesced free list. */
  lemma {:induction false} CoalescedIsUnique(a: seq<Extent>, b: seq<Extent>)
    requires Coalesced(a) && Coalesced(b) && Slots(a) == Slots(b)
    ensures a == b
  {
    hide Slots, ExtentSlots;
    if a == [] || b == [] {
      EmptyHasNoSlots(a);
      EmptyHasNoSlots(b);
    } else {
      var x, y := a[|a| - 1], b[|b| - 1];
      LastEndBounds(a, b);
      LastEndBounds(b, a);
      LastStartBounds(a, b);
      LastStartBounds(b, a);
      assert x == y;
      SlotsWithoutLast(a);
      SlotsWithoutLast(b);
      CoalescedIsUnique(a[..|a| - 1], b[..|b| - 1]);
      assert a == a[..|a| - 1] + [x] && b == b[..|b| - 1] + [x];
    }
  }

  lemma EmptyHasNoSlots(a: seq<Extent>)
    requires Coalesced(a)
    ensures a == [] <==> Slots(a) == {}
  {
    if a != [] {
      assert Within(a[0], a[0].offset);
      SlotsCovered(a, a[0].offset);
    }
  }

  lemma LastEndBounds(a: seq<Extent>, b: seq<Extent>)
    requires a != [] && b != [] && Coalesced(a) && Coalesced(b) && Slots(a) == Slots(b)
    ensures a[|a| - 1].End() <= b[|b| - 1].End()
  {
    var x := a[|a| - 1];
    assert Within(x, x.End() - 1);
    SlotsCovered(a, x.End() - 1);
    SlotsCovered(b, x.End() - 1);
  }

  lemma LastStartBounds(a: seq<Extent>, b: seq<Extent>)
    requires a != [] && b != [] && Coalesced(a) && Coalesced(b) && Slots(a) == Slots(b)
    requires a[|a| - 1].End() == b[|b| - 1].End()
    ensures a[|a| - 1].offset <= b[|b| - 1].offset
  {
    var x, y := a[|a| - 1], b[|b| - 1];
    if y.offset < x.offset {
      assert Within(y, x.offset - 1);
      SlotsCovered(a, x.offset - 1);
      SlotsCovered(b, x.offset - 1);
    }
  }

  lemma SlotsWithoutLast(a: seq<Extent>)
    requires a != [] && Coalesced(a)
    ensures Slots(a[..|a| - 1]) == Slots(a) - ExtentSlots(a[|a| - 1])
    ensures Coalesced(a[..|a| - 1])
  {
    var init, x := a[..|a| - 1], a[|a| - 1];
    forall s | s in Slots(init)
      ensures s !in ExtentSlots(x)
    {
      SlotsCovered(init, s);
      var i :| 0 <= i < |init| && Within(init[i], s);
      assert a[i] == init[i];
    }
  }

  lemma {:induction false} SlotsOfParts(a: seq<Extent>, b: seq<Extent>)
    ensures Slots(a + b) == Slots(a) + Slots(b)
  {
    if b == [] {
      assert a + b == a;
    } else {
      SlotsOfParts(a, b[..|b| - 1]);
      assert (a + b)[..|a + b| - 1] == a + b[..|b| - 1];
    }
  }

  lemma SlotsOfOne(e: Extent)
    ensures Slots([e]) == ExtentSlots(e)
  {
    assert [e][..0] == [];
  }

  // ---- Free: append, sort, merge neighbours.

  /** Puts e in its place by offset. */
  function InsertByOffset(free: seq<Extent>, e: Extent): seq<Extent> {
    if free == [] || free[|free| - 1].offset <= e.offset then
      free + [e]
    else
      InsertByOffset(free[..|free| - 1], e) + [free[|free| - 1]]
  }

  /** The order sort.Slice gives (offsets are distinct, so stability plays no part). */
  function SortByOffset(free: seq<Extent>): seq<Extent> {
    if free == [] then [] else InsertByOffset(SortByOffset(free[..|free| - 1]), free[|free| - 1])
  }

  lemma {:induction false} SortOfOrdered(free: seq<Extent>)
    requires Ordered(free)
    ensures SortByOffset(free) == free
  {
    hide InsertByOffset, SortByOffset;
    SortUnfolds(free);
    if free != [] {
      var init, last := free[..|free| - 1], free[|free| - 1];
      InitOrdered(free);
      SortOfOrdered(init);
      InsertAtEnd(init, last);
      assert free == init + [last];
    }
  }

  lemma SortUnfolds(free: seq<Extent>)
    ensures SortByOffset([]) == []
    ensures free != [] ==> SortByOffset(free) == InsertByOffset(SortByOffset(free[..|free| - 1]), free[|free| - 1])
  {
    hide InsertByOffset;
  }

  lemma InitOrdered(free: seq<Extent>)
    requires Ordered(free) && free != []
    ensures var init, last := free[..|free| - 1], free[|free| - 1];
            Ordered(init) && (init == [] || init[|init| - 1].offset <= last.offset)
  {
  }

  lemma {:induction false} InsertAtEnd(init: seq<Extent>, last: Extent)
    requires init == [] || init[|init| - 1].offset <= last.offset
    ensures InsertByOffset(init, last) == init + [last]
  {
  }

  lemma SortOfAppended(free: seq<Extent>, e: Extent)
    requires Ordered(free)
    ensures SortByOffset(free + [e]) == InsertByOffset(free, e)
  {
    SortOfOrdered(free);
    assert (free + [e])[..|free|] == free;
  }

  ghost predicate Apart(e: Extent, f: Extent) {
    e.End() <= f.offset || f.End() <= e.offset
  }

  lemma {:induction false} InsertKeepsOrder(free: seq<Extent>, e: Extent)
    requires Ordered(free) && e.size > 0
    requires forall i :: 0 <= i < |free| ==> Apart(free[i], e)
    ensures Ordered(InsertByOffset(free, e))
    ensures forall f :: f in InsertByOffset(free, e) ==> f == e || f in free
  {
    if free == [] || free[|free| - 1].offset <= e.offset {
    } else {
      var init, x := free[..|free| - 1], free[|free| - 1];
      assert Ordered(init);
      InsertKeepsOrder(init, e);
      var r := InsertByOffset(init, e);
      forall i | 0 <= i < |r|
        ensures r[i].End() <= x.offset
      {
        assert r[i] in r;
      }
      assert Ordered(r + [x]);
    }
  }

  lemma {:induction false} InsertAddsSlots(free: seq<Extent>, e: Extent)
    ensures InsertByOffset(free, e) != []
    ensures Slots(InsertByOffset(free, e)) == Slots(free) + ExtentSlots(e)
  {
    hide Slots, ExtentSlots;
    if free == [] || free[|free| - 1].offset <= e.offset {
      SlotsOfParts(free, [e]);
      SlotsOfOne(e);
    } else {
      var init, x := free[..|free| - 1], free[|free| - 1];
      InsertAddsSlots(init, e);
      SlotsOfParts(InsertByOffset(init, e), [x]);
      SlotsOfParts(init, [x]);
      assert free == init + [x];
    }
  }

  /** What sorting leaves after an extent was appended to a coalesced list. */
  lemma SortedWith(free: seq<Extent>, e: Extent, total: nat)
    requires FreeListValid(free, total)
    requires e.size > 0 && e.End() <= total && ExtentSlots(e) !! Slots(free)
    ensures var sorted := SortByOffset(free + [e]);
            && Ordered(sorted) && sorted != []
            && (forall i :: 0 <= i < |sorted| ==> sorted[i].End() <= total)
            && Slots(sorted) == Slots(free) + ExtentSlots(e)
  {
    hide Slots, ExtentSlots, InsertByOffset, SortByOffset;
    ApartFromFree(free, e);
    SortOfAppended(free, e);
    var sorted := InsertByOffset(free, e);
    InsertKeepsOrder(free, e);
    InsertAddsSlots(free, e);
    forall i | 0 <= i < |sorted|
      ensures sorted[i].End() <= total
    {
      assert sorted[i] in sorted;
    }
  }

  class ExtentAllocator {
    const total: nat
    var free: seq<Extent>

    ghost predicate Valid()
      reads this
    {
      FreeListValid(free, total)
    }

    constructor (total: nat)
      requires total > 0
      ensures Valid() && this.total == total && free == [Extent(0, total)] && Slots(free) == Range(total)
    {
      this.total := total;
      free := [Extent(0, total)];
      SlotsOfOne(Extent(0, total));
    }

    /** The lowest slots of the first free extent that is large enough. */
    method Alloc(size: nat) returns (r: Result<Extent, ExtentError>)
      requires Valid() && size > 0
      modifies this
      ensures Valid()
      ensures r.Err? <==> forall i :: 0 <= i < |old(free)| ==> old(free)[i].size < size
      ensures r.Err? ==> unchanged(this)
      ensures r.Ok? ==> r.value.size == size && r.value.End() <= total
      ensures r.Ok? ==> ExtentSlots(r.value) <= old(Slots(free))
      ensures r.Ok? ==> Slots(free) == old(Slots(free)) - ExtentSlots(r.value)
      ensures r.Ok? ==> forall i :: 0 <= i < |old(free)| && old(free)[i].offset < r.value.offset ==>
          old(free)[i].size < size
    {
      hide Slots, ExtentSlots;
      var i := 0;
      while i < |free|
        invariant 0 <= i <= |free| && unchanged(this)
        invariant forall j :: 0 <= j < i ==> free[j].size < size
      {
        var e := free[i];
        if e.size >= size {
          var alloc := Extent(e.offset, size);
          var rest := if e.size == size then [] else [Extent(e.offset + size, e.size - size)];
          CarveOut(free, i, alloc, rest, total);
          if e.size - size == 0 {
            free := free[..i] + free[i + 1..];
            assert free == old(free)[..i] + rest + old(free)[i + 1..];
          } else {
            free := free[i := Extent(e.offset + size, e.size - size)];
            assert free == old(free)[..i] + rest + old(free)[i + 1..];
          }
          return Ok(alloc);
        }
        i := i + 1;
      }
      return Err(TableExhausted);
    }

    /** Gives an allocated extent back, merging it with free neighbours. */
    method Free(e: Extent)
      requires Valid()
      requires e.size > 0 ==> e.End() <= total && ExtentSlots(e) !! Slots(free)
      modifies this
      ensures Valid()
      ensures Slots(free) == old(Slots(free)) + ExtentSlots(e)
    {
      if e.size == 0 {
        assert ExtentSlots(e) == {};
        return;
      }
      SortedWith(free, e, total);
      free := Merge(SortByOffset(free + [e]), total);
    }

    /** Takes e out of the free space, as if Alloc had returned it: exactly when e is a
        non-empty slice of the table and all of it is free. The source's addition is 32 bits wide. */
    method Reserve(e: Extent) returns (r: Result<(), ExtentError>)
      requires Valid() && total < 0x1_0000_0000 && e.offset < 0x1_0000_0000 && e.size < 0x1_0000_0000
      modifies this
      ensures Valid()
      ensures r.Ok? <==> e.size > 0 && e.End() <= total && ExtentSlots(e) <= old(Slots(free))
      ensures r.Ok? ==> Slots(free) == old(Slots(free)) - ExtentSlots(e)
      ensures r.Err? ==> unchanged(this)
    {
      hide Slots, ExtentSlots;
      var end := (e.offset + e.size) % 0x1_0000_0000;
      if e.size == 0 || end > total || end < e.offset {
        return Err(OutsideTable);
      }
      var i := 0;
      while i < |free|
        invariant 0 <= i <= |free| && unchanged(this)
        invariant forall j :: 0 <= j < i ==> !(free[j].offset <= e.offset && e.End() <= free[j].End())
      {
        var f := free[i];
        if f.offset <= e.offset && end <= f.End() {
          var rest := if e.offset > f.offset then [Extent(f.offset, e.offset - f.offset)] else [];
          if end < f.End() {
            rest := rest + [Extent(end, f.End() - end)];
          }
          CarveOut(free, i, e, rest, total);
          free := free[..i] + rest + free[i + 1..];
          return Ok(());
        }
        i := i + 1;
      }
      ghost var slots := Slots(free);
      if ExtentSlots(e) <= slots {
        ContainedInOne(free, e);
      }
      return Err(AlreadyAllocated);
    }
  }

  /** Coalesces a list in offset order. */
  method Merge(sorted: seq<Extent>, ghost total: nat) returns (merged: seq<Extent>)
    requires Ordered(sorted) && sorted != []
    requires forall i :: 0 <= i < |sorted| ==> sorted[i].End() <= total
    ensures FreeListValid(merged, total) && Slots(merged) == Slots(sorted)
  {
    hide Slots;
    merged := [sorted[0]];
    assert sorted[..1] == [sorted[0]];
    for k := 1 to |sorted|
      invariant merged != [] && FreeListValid(merged, total)
      invariant Slots(merged) == Slots(sorted[..k])
      invariant merged[|merged| - 1].End() == sorted[k - 1].End()
    {
      var cur := sorted[k];
      var last := merged[|merged| - 1];
      assert sorted[..k + 1] == sorted[..k] + [cur];
      SlotsOfParts(sorted[..k], [cur]);
      if last.End() == cur.offset {
        GrowLast(merged, cur);
        merged := merged[|merged| - 1 := Extent(last.offset, last.size + cur.size)];
      } else {
        SlotsOfParts(merged, [cur]);
        merged := merged + [cur];
      }
    }
    assert sorted[..|sorted|] == sorted;
  }

  lemma GrowLast(merged: seq<Extent>, cur: Extent)
    requires merged != [] && merged[|merged| - 1].End() == cur.offset
    ensures var last := merged[|merged| - 1];
            Slots(merged[|merged| - 1 := Extent(last.offset, last.size + cur.size)]) == Slots(merged) + Slots([cur])
  {
    var init, last := merged[..|merged| - 1], merged[|merged| - 1];
    var grown := Extent(last.offset, last.size + cur.size);
    assert merged[|merged| - 1 := grown] == init + [grown];
    SlotsOfOne(cur);
    assert ExtentSlots(grown) == ExtentSlots(last) + ExtentSlots(cur);
  }

  /** Replacing a free extent by what is left of it when e is cut out. */
  lemma CarveOut(free: seq<Extent>, i: nat, e: Extent, rest: seq<Extent>, total: nat)
    requires FreeListValid(free, total) && i < |free| && e.size > 0
    requires free[i].offset <= e.offset && e.End() <= free[i].End()
    requires rest == (if e.offset > free[i].offset then [Extent(free[i].offset, e.offset - free[i].offset)] else [])
                     + if e.End() < free[i].End() then [Extent(e.End(), free[i].End() - e.End())] else []
    ensures FreeListValid(free[..i] + rest + free[i + 1..], total)
    ensures ExtentSlots(e) <= Slots(free)
    ensures Slots(free[..i] + rest + free[i + 1..]) == Slots(free) - ExtentSlots(e)
  {
    hide Slots, Coalesced, ExtentSlots;
    CarveOutOrder(free, i, e, rest, total);
    CarveOutSlots(free, i, e, rest);
  }

  lemma CarveOutSlots(free: seq<Extent>, i: nat, e: Extent, rest: seq<Extent>)
    requires Coalesced(free) && i < |free| && e.size > 0
    requires free[i].offset <= e.offset && e.End() <= free[i].End()
    requires rest == (if e.offset > free[i].offset then [Extent(free[i].offset, e.offset - free[i].offset)] else [])
                     + if e.End() < free[i].End() then [Extent(e.End(), free[i].End() - e.End())] else []
    ensures ExtentSlots(e) <= Slots(free)
    ensures Slots(free[..i] + rest + free[i + 1..]) == Slots(free) - ExtentSlots(e)
  {
    hide Slots, Coalesced, ExtentSlots;
    var left, right, f := free[..i], free[i + 1..], free[i];
    RestSlots(f, e, rest);
    OthersOutside(free, i);
    InnerSlots(f, e);
    assert free == left + [f] + right;
    SlotsOfThree(left, [f], right);
    SlotsOfThree(left, rest, right);
    SlotsOfOne(f);
    SetsCarve(Slots(left), Slots(right), ExtentSlots(f), ExtentSlots(e));
  }

  lemma InnerSlots(f: Extent, e: Extent)
    requires f.offset <= e.offset && e.End() <= f.End()
    ensures ExtentSlots(e) <= ExtentSlots(f)
  {
  }

  lemma SlotsOfThree(a: seq<Extent>, b: seq<Extent>, c: seq<Extent>)
    ensures Slots(a + b + c) == Slots(a) + Slots(b) + Slots(c)
  {
    hide Slots;
    SlotsOfParts(a + b, c);
    SlotsOfParts(a, b);
  }

  lemma SetsCarve(left: set<int>, right: set<int>, f: set<int>, e: set<int>)
    requires left !! f && right !! f && e <= f
    ensures e <= left + f + right
    ensures left + (f - e) + right == left + f + right - e
  {
  }

  lemma CarveOutOrder(free: seq<Extent>, i: nat, e: Extent, rest: seq<Extent>, total: nat)
    requires FreeListValid(free, total) && i < |free| && e.size > 0
    requires free[i].offset <= e.offset && e.End() <= free[i].End()
    requires rest == (if e.offset > free[i].offset then [Extent(free[i].offset, e.offset - free[i].offset)] else [])
                     + if e.End() < free[i].End() then [Extent(e.End(), free[i].End() - e.End())] else []
    ensures FreeListValid(free[..i] + rest + free[i + 1..], total)
  {
    var f, after := free[i], free[..i] + rest + free[i + 1..];
    RestFits(f, e, rest);
    PartsCoalesced(free, i);
    hide Coalesced;
    JoinCoalesced(free[..i], rest, free[i + 1..], f);
    forall j | 0 <= j < |after|
      ensures after[j].End() <= total
    {
      assert after[j] == if j < i then free[j] else if j < i + |rest| then rest[j - i] else free[j - |rest| + 1];
    }
  }

  lemma PartsCoalesced(free: seq<Extent>, i: nat)
    requires Coalesced(free) && i < |free|
    ensures Coalesced(free[..i]) && Coalesced(free[i + 1..])
    ensures forall j :: 0 <= j < i ==> free[..i][j].End() < free[i].offset
    ensures var after := free[i + 1..]; forall j :: 0 <= j < |after| ==> free[i].End() < after[j].offset
  {
  }

  /** What is left of an extent lies inside it, in order. */
  lemma RestFits(f: Extent, e: Extent, rest: seq<Extent>)
    requires e.size > 0 && f.offset <= e.offset && e.End() <= f.End()
    requires rest == (if e.offset > f.offset then [Extent(f.offset, e.offset - f.offset)] else [])
                     + if e.End() < f.End() then [Extent(e.End(), f.End() - e.End())] else []
    ensures Coalesced(rest) && forall j :: 0 <= j < |rest| ==> f.offset <= rest[j].offset && rest[j].End() <= f.End()
  {
  }

  lemma JoinCoalesced(a: seq<Extent>, b: seq<Extent>, c: seq<Extent>, f: Extent)
    requires Coalesced(a) && Coalesced(b) && Coalesced(c)
    requires forall j :: 0 <= j < |a| ==> a[j].End() < f.offset
    requires forall j :: 0 <= j < |b| ==> f.offset <= b[j].offset && b[j].End() <= f.End()
    requires forall j :: 0 <= j < |c| ==> f.End() < c[j].offset
    ensures Coalesced(a + b + c)
  {
    var all := a + b + c;
    forall i, j | 0 <= i < j < |all|
      ensures all[i].End() < all[j].offset
    {
      if j < |a| {
        assert all[i] == a[i] && all[j] == a[j];
      } else if j < |a| + |b| {
        assert all[j] == b[j - |a|];
        assert i >= |a| ==> all[i] == b[i - |a|];
      } else {
        assert all[j] == c[j - |a| - |b|];
        assert i >= |a| + |b| ==> all[i] == c[i - |a| - |b|];
      }
    }
  }

  lemma RestSlots(f: Extent, e: Extent, rest: seq<Extent>)
    requires e.size > 0 && f.offset <= e.offset && e.End() <= f.End()
    requires rest == (if e.offset > f.offset then [Extent(f.offset, e.offset - f.offset)] else [])
                     + if e.End() < f.End() then [Extent(e.End(), f.End() - e.End())] else []
    ensures Slots(rest) == ExtentSlots(f) - ExtentSlots(e)
  {
    var a := if e.offset > f.offset then [Extent(f.offset, e.offset - f.offset)] else [];
    var b := if e.End() < f.End() then [Extent(e.End(), f.End() - e.End())] else [];
    SlotsOfParts(a, b);
    SlotsOfOne(Extent(f.offset, e.offset - f.offset));
    SlotsOfOne(Extent(e.End(), f.End() - e.End()));
  }

  lemma OthersOutside(free: seq<Extent>, i: nat)
    requires Coalesced(free) && i < |free|
    ensures Slots(free[..i]) !! ExtentSlots(free[i]) && Slots(free[i + 1..]) !! ExtentSlots(free[i])
  {
    forall s | s in Slots(free[..i])
      ensures s !in ExtentSlots(free[i])
    {
      SlotsCovered(free[..i], s);
      var j :| 0 <= j < i && Within(free[..i][j], s);
      assert free[j] == free[..i][j];
    }
    forall s | s in Slots(free[i + 1..])
      ensures s !in ExtentSlots(free[i])
    {
      SlotsCovered(free[i + 1..], s);
      var j :| 0 <= j < |free[i + 1..]| && Within(free[i + 1..][j], s);
      assert free[i + 1 + j] == free[i + 1..][j];
    }
  }

  lemma ApartFromFree(free: seq<Extent>, e: Extent)
    requires Coalesced(free) && e.size > 0 && ExtentSlots(e) !! Slots(free)
    ensures Ordered(free) && forall i :: 0 <= i < |free| ==> Apart(free[i], e)
  {
    forall i | 0 <= i < |free|
      ensures Apart(free[i], e)
    {
      var f := free[i];
      var s := if f.offset <= e.offset then e.offset else f.offset;
      if s < f.End() && s < e.End() {
        assert Within(f, s);
        assert s in ExtentSlots(e);
        SlotsCovered(free, s);
      }
    }
  }

  /** A contiguous run of free slots lies inside one entry of a coalesced free list. */
  lemma ContainedInOne(free: seq<Extent>, e: Extent)
    requires Coalesced(free) && e.size > 0 && ExtentSlots(e) <= Slots(free)
    ensures exists i :: 0 <= i < |free| && free[i].offset <= e.offset && e.End() <= free[i].End()
  {
    assert e.offset in ExtentSlots(e);
    SlotsCovered(free, e.offset);
    var i :| 0 <= i < |free| && Within(free[i], e.offset);
    if free[i].End() < e.End() {
      assert free[i].End() in ExtentSlots(e);
      SlotsCovered(free, free[i].End());
    }
  }

  /** Giving back what was taken restores the free list exactly, entry by entry. */
  lemma FreeRestores(before: seq<Extent>, taken: seq<Extent>, after: seq<Extent>, e: Extent, total: nat)
    requires FreeListValid(before, total) && FreeListValid(after, total)
    requires ExtentSlots(e) <= Slots(before)
    requires Slots(taken) == Slots(before) - ExtentSlots(e)
    requires Slots(after) == Slots(taken) + ExtentSlots(e)
    ensures after == before
  {
    CoalescedIsUnique(before, after);
  }
}
