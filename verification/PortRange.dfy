/** Port ranges as aligned power-of-two blocks (internal/dataplane/portrange.go) and their
    recovery from a block list (blocksSpan in adopt.go). */
module PortRange {
  import opened Common
  import opened Primes

  /** The block of 2^(16 - bits) ports starting at port. */
  datatype PortBlock = PortBlock(port: nat, bits: int)

  function Pow2(k: nat): (p: nat)
    ensures p > 0
  {
    if k == 0 then 1 else 2 * Pow2(k - 1)
  }

  function Size(b: PortBlock): (n: nat)
    requires 0 <= b.bits <= 16
    ensures n > 0
  {
    Pow2(16 - b.bits)
  }

  predicate InBlock(b: PortBlock, p: int)
    requires 0 <= b.bits <= 16
  {
    b.port <= p < b.port + Size(b)
  }

  /** A block a trie prefix can express. */
  predicate Aligned(b: PortBlock) {
    0 <= b.bits <= 16 && b.port % Size(b) == 0 && b.port + Size(b) <= 0x1_0000
  }

  // ---- Powers of two.

  lemma {:induction false} Pow2Split(j: nat, k: nat)
    requires j <= k
    ensures Pow2(k) == Pow2(j) * Pow2(k - j)
  {
    if j > 0 {
      Pow2Split(j - 1, k - 1);
    }
  }

  lemma Pow2Values()
    ensures Pow2(15) == 0x8000 && Pow2(16) == 0x1_0000
  {
    assert Pow2(5) == 32;
    assert Pow2(10) == 1024;
  }

  lemma Pow2Monotone(j: nat, k: nat)
    requires j <= k
    ensures Pow2(j) <= Pow2(k)
    ensures j < k ==> 2 * Pow2(j) <= Pow2(k)
  {
    Pow2Split(j, k);
    MulMonotone(1, Pow2(k - j), Pow2(j));
    if j < k {
      Pow2Split(j + 1, k);
      MulMonotone(1, Pow2(k - j - 1), Pow2(j + 1));
    }
  }

  /** Alignment to a larger block is alignment to every smaller one. */
  lemma AlignedDown(x: nat, j: nat, k: nat)
    requires j <= k && x % Pow2(k) == 0
    ensures x % Pow2(j) == 0
  {
    Pow2Split(j, k);
    var q := x / Pow2(k);
    assert x == Pow2(j) * (Pow2(k - j) * q) by {
      assert x == Pow2(k) * q;
      MulAssoc(Pow2(j), Pow2(k - j), q);
    }
    MultipleHasNoRemainder(Pow2(j), Pow2(k - j) * q);
  }

  lemma MulAssoc(a: int, b: int, c: int)
    ensures a * b * c == a * (b * c)
  {
  }

  /** Two aligned blocks, the first no larger: if the first starts inside the second it ends
      inside it, and if they overlap at all it starts inside it. */
  lemma Nested(x: nat, j: nat, y: nat, k: nat)
    requires j <= k && x % Pow2(j) == 0 && y % Pow2(k) == 0
    requires x < y + Pow2(k) && y < x + Pow2(j)
    ensures y <= x && x + Pow2(j) <= y + Pow2(k)
  {
    AlignedDown(y, j, k);
    AlignedDown(Pow2End(y, k), j, k);
    MultiplesApart(x, y, Pow2(j));
    MultiplesApart(x, Pow2End(y, k), Pow2(j));
  }

  function Pow2End(y: nat, k: nat): (e: nat)
    requires y % Pow2(k) == 0
    ensures e == y + Pow2(k) && e % Pow2(k) == 0
  {
    assert y + Pow2(k) == Pow2(k) * (y / Pow2(k) + 1) + 0;
    DivModUnique(y + Pow2(k), Pow2(k), y / Pow2(k) + 1, 0);
    y + Pow2(k)
  }

  lemma MultiplesApart(x: nat, y: nat, n: nat)
    requires n > 0 && x % n == 0 && y % n == 0
    ensures x < y ==> x + n <= y
    ensures y < x + n ==> y <= x
  {
    var d := y / n - x / n;
    assert y - x == n * d;
    MulMonotone(d, 0, n);
    MulMonotone(1, d, n);
  }

  // ---- The greedy tiling.

  predicate Fits(cur: nat, end: nat, k: nat) {
    cur % Pow2(k) == 0 && cur + Pow2(k) - 1 <= end
  }

  lemma FitsDown(cur: nat, end: nat, j: nat, k: nat)
    requires j <= k && Fits(cur, end, k)
    ensures Fits(cur, end, j)
  {
    AlignedDown(cur, j, k);
    Pow2Monotone(j, k);
  }

  /** The exponent of the largest block, up to 2^15 ports, that starts at cur and ends by end. */
  function Grow(cur: nat, end: nat, k: nat): (r: nat)
    requires k <= 15 && Fits(cur, end, k)
    ensures k <= r <= 15 && Fits(cur, end, r)
    ensures r == 15 || !Fits(cur, end, r + 1)
    decreases 15 - k
  {
    if k < 15 && Fits(cur, end, k + 1) then Grow(cur, end, k + 1) else k
  }

  lemma GrowIsLargest(cur: nat, end: nat, j: nat)
    requires cur <= end && j <= 15 && Fits(cur, end, j)
    ensures Fits(cur, end, 0) && j <= Grow(cur, end, 0)
  {
    FitsDown(cur, end, 0, j);
    var r := Grow(cur, end, 0);
    if r < j {
      FitsDown(cur, end, r + 1, j);
    }
  }

  lemma FitsOne(cur: nat, end: nat)
    requires cur <= end
    ensures Fits(cur, end, 0)
  {
    DivModUnique(cur, 1, cur, 0);
  }

  /** The blocks of cur..end, largest first at every step. */
  function Tiling(cur: nat, end: nat): (out: seq<PortBlock>)
    requires end < 0x1_0000
    ensures cur > end <==> out == []
    ensures out != [] ==> out[0].port == cur
    decreases end + 1 - cur
  {
    if cur > end then
      []
    else
      FitsOne(cur, end);
      var k := Grow(cur, end, 0);
      [PortBlock(cur, 16 - k)] + Tiling(cur + Pow2(k), end)
  }

  function BitLen(n: nat): nat {
    if n == 0 then 0 else 1 + BitLen(n / 2)
  }

  lemma {:induction false} BitLenOfPow2(k: nat)
    ensures BitLen(Pow2(k)) == k + 1
  {
    if k > 0 {
      BitLenOfPow2(k - 1);
      assert Pow2(k) / 2 == Pow2(k - 1);
    } else {
      assert BitLen(1) == 1;
    }
  }

  /** rangeBlocks: tiles lo..hi. */
  method RangeBlocks(lo: nat, hi: nat) returns (out: seq<PortBlock>)
    requires lo < 0x1_0000 && hi < 0x1_0000
    ensures out == Tiling(lo, hi)
  {
    hide Fits, Grow, Tiling, Pow2, BitLen;
    out := [];
    var cur: int, end: int := lo, hi;
    while cur <= end
      invariant 0 <= cur && out + Tiling(cur, end) == Tiling(lo, hi)
      decreases end + 1 - cur
    {
      var size := BlockSizeAt(cur, end);
      ghost var k := Grow(cur, end, 0);
      BitLenOfPow2(k);
      TilingStep(cur, end);
      out := out + [PortBlock(cur, 16 - (BitLen(size) - 1))];
      cur := cur + size;
    }
  }

  lemma TilingStep(cur: nat, end: nat)
    requires cur <= end < 0x1_0000
    ensures Fits(cur, end, 0)
    ensures Tiling(cur, end) == [PortBlock(cur, 16 - Grow(cur, end, 0))] + Tiling(cur + Pow2(Grow(cur, end, 0)), end)
  {
    FitsOne(cur, end);
  }

  /** Doubles a block while it stays aligned to its own size and inside the range. */
  method BlockSizeAt(cur: nat, end: nat) returns (size: nat)
    requires cur <= end < 0x1_0000
    ensures Fits(cur, end, 0) && size == Pow2(Grow(cur, end, 0))
  {
    hide Fits, Grow;
    size := 1;
    ghost var k := 0;
    FitsOne(cur, end);
    ghost var goal := Grow(cur, end, 0);
    while size < 0x8000 && cur % (size * 2) == 0 && cur + size * 2 - 1 <= end
      invariant k <= goal && size == Pow2(k) && Fits(cur, end, k) && Grow(cur, end, k) == goal
      decreases goal - k
    {
      GrowStep(cur, end, k, size);
      k := k + 1;
      size := size * 2;
    }
    GrowStop(cur, end, k, size);
  }

  lemma GrowStep(cur: nat, end: nat, k: nat, size: nat)
    requires k <= 15 && size == Pow2(k) && size < 0x8000 && Fits(cur, end, k)
    requires cur % (size * 2) == 0 && cur + size * 2 - 1 <= end
    ensures k < 15 && Fits(cur, end, k + 1) && Grow(cur, end, k) == Grow(cur, end, k + 1)
  {
    Pow2Values();
    assert Pow2(k + 1) == size * 2;
  }

  lemma GrowStop(cur: nat, end: nat, k: nat, size: nat)
    requires k <= 15 && size == Pow2(k) && Fits(cur, end, k)
    requires !(size < 0x8000 && cur % (size * 2) == 0 && cur + size * 2 - 1 <= end)
    ensures Grow(cur, end, k) == k
  {
    Pow2Values();
    assert Pow2(k + 1) == size * 2;
    if k < 15 {
      Pow2Monotone(k, 14);
      assert 2 * Pow2(14) == Pow2(15);
    }
  }

  // ---- What the tiling is.

  /** Covers exactly lo..hi with aligned blocks, each port in one block only, in port order. */
  ghost predicate Tiles(out: seq<PortBlock>, lo: int, hi: int) {
    && (forall i :: 0 <= i < |out| ==> Aligned(out[i]) && lo <= out[i].port && out[i].port + Size(out[i]) - 1 <= hi)
    && (forall i, j :: 0 <= i < j < |out| ==> out[i].port + Size(out[i]) <= out[j].port)
    && (forall p :: lo <= p <= hi ==> InSome(out, p))
  }

  ghost predicate InSome(out: seq<PortBlock>, p: int) {
    exists i :: 0 <= i < |out| && Aligned(out[i]) && InBlock(out[i], p)
  }

  lemma {:induction false} TilingTiles(cur: nat, end: nat)
    requires end < 0x1_0000
    ensures Tiles(Tiling(cur, end), cur, end)
    decreases end + 1 - cur
  {
    hide Tiles, Pow2, Grow;
    if cur <= end {
      FitsOne(cur, end);
      var k := Grow(cur, end, 0);
      var b := PortBlock(cur, 16 - k);
      var next := cur + Pow2(k);
      TilingTiles(next, end);
      ConsTiles(b, Tiling(next, end), cur, end);
    } else {
      NothingTiles(cur, end);
    }
  }

  lemma NothingTiles(lo: int, hi: int)
    requires hi < lo
    ensures Tiles([], lo, hi)
  {
  }

  lemma ConsTiles(b: PortBlock, rest: seq<PortBlock>, lo: nat, hi: nat)
    requires Aligned(b) && b.port == lo && lo + Size(b) - 1 <= hi && Tiles(rest, lo + Size(b), hi)
    ensures Tiles([b] + rest, lo, hi)
  {
    var out := [b] + rest;
    forall p | lo <= p <= hi
      ensures InSome(out, p)
    {
      if p < lo + Size(b) {
        assert InBlock(out[0], p);
      } else {
        assert InSome(rest, p);
        var i :| 0 <= i < |rest| && Aligned(rest[i]) && InBlock(rest[i], p);
        assert InBlock(out[i + 1], p);
      }
    }
  }

  /** Any set of aligned blocks inside lo..hi that leaves no port uncovered. */
  ghost predicate Covers(s: set<PortBlock>, lo: int, hi: int) {
    && (forall b :: b in s ==> Aligned(b) && lo <= b.port && b.port + Size(b) - 1 <= hi)
    && (forall p :: lo <= p <= hi ==> InSet(s, p))
  }

  ghost predicate InSet(s: set<PortBlock>, p: int) {
    exists b :: b in s && Aligned(b) && InBlock(b, p)
  }

  /** A block of a cover that starts under the first greedy block ends under it too. */
  lemma UnderGreedy(cur: nat, end: nat, b: PortBlock)
    requires cur <= end < 0x1_0000 && !(cur == 0 && end == 0xffff)
    requires Aligned(b) && cur <= b.port && b.port + Size(b) - 1 <= end
    requires Fits(cur, end, 0) && b.port < cur + Pow2(Grow(cur, end, 0))
    ensures b.port + Size(b) <= cur + Pow2(Grow(cur, end, 0))
  {
    var k, j := Grow(cur, end, 0), 16 - b.bits;
    if j <= k {
      Nested(b.port, j, cur, k);
    } else {
      Nested(cur, k, b.port, j);
      assert b.port == cur && Fits(cur, end, j);
      Pow2Values();
      assert j <= 15;
      GrowIsLargest(cur, end, j);
    }
  }

  /** No cover of cur..end by aligned blocks is smaller, except for the one block 0..65535. */
  lemma {:induction false} TilingIsMinimal(cur: nat, end: nat, s: set<PortBlock>)
    requires end < 0x1_0000 && !(cur == 0 && end == 0xffff) && Covers(s, cur, end)
    ensures |Tiling(cur, end)| <= |s|
    decreases end + 1 - cur
  {
    hide Fits, Grow, Tiling, Pow2, Size;
    if cur <= end {
      TilingStep(cur, end);
      var next := cur + Pow2(Grow(cur, end, 0));
      var under := set b | b in s && b.port < next;
      assert InSet(s, cur);
      var first :| first in s && Aligned(first) && InBlock(first, cur);
      assert first in under;
      BeyondCovers(cur, end, s, next);
      TilingIsMinimal(next, end, s - under);
      assert s == under + (s - under);
      assert |under| >= 1;
    }
  }

  lemma BeyondCovers(cur: nat, end: nat, s: set<PortBlock>, next: nat)
    requires cur <= end < 0x1_0000 && !(cur == 0 && end == 0xffff) && Covers(s, cur, end)
    requires Fits(cur, end, 0) && next == cur + Pow2(Grow(cur, end, 0))
    ensures Covers(s - (set b | b in s && b.port < next), next, end)
  {
    hide Fits, Grow, Pow2;
    var beyond := s - (set b | b in s && b.port < next);
    forall p | next <= p <= end
      ensures InSet(beyond, p)
    {
      assert InSet(s, p);
      var b :| b in s && Aligned(b) && InBlock(b, p);
      if b.port < next {
        UnderGreedy(cur, end, b);
      }
      assert b in beyond;
    }
  }

  /** The whole port space is the one range for which fewer blocks would do. */
  lemma WholeSpaceIsNotMinimal()
    ensures |Tiling(0, 0xffff)| == 2
    ensures Covers({PortBlock(0, 0)}, 0, 0xffff)
  {
    OneBlockCovers();
    hide Tiling, Covers;
    HalfSpace(0, 0xffff);
    HalfSpace(0x8000, 0xffff);
    assert |Tiling(0x1_0000, 0xffff)| == 0;
  }

  lemma OneBlockCovers()
    ensures Covers({PortBlock(0, 0)}, 0, 0xffff)
  {
    Pow2Values();
    var b := PortBlock(0, 0);
    assert Size(b) == 0x1_0000;
    assert Aligned(b);
    forall p | 0 <= p <= 0xffff
      ensures InSet({b}, p)
    {
      assert InBlock(b, p);
    }
  }

  lemma HalfSpace(cur: nat, end: nat)
    requires cur + 0x8000 - 1 <= end < 0x1_0000 && cur % 0x8000 == 0
    ensures Tiling(cur, end) == [PortBlock(cur, 1)] + Tiling(cur + 0x8000, end)
  {
    Pow2Values();
    assert Fits(cur, end, 15);
    GrowIsLargest(cur, end, 15);
  }

  /** rangeBlocks uses the fewest aligned blocks exactly when the range is not the whole port space. */
  lemma FewestBlocksIff(lo: nat, hi: nat)
    requires lo < 0x1_0000 && hi < 0x1_0000
    ensures (forall s :: Covers(s, lo, hi) ==> |Tiling(lo, hi)| <= |s|) <==> !(lo == 0 && hi == 0xffff)
  {
    if lo == 0 && hi == 0xffff {
      WholeSpaceIsNotMinimal();
      assert |{PortBlock(0, 0)}| == 1;
    } else {
      forall s | Covers(s, lo, hi)
        ensures |Tiling(lo, hi)| <= |s|
      {
        TilingIsMinimal(lo, hi, s);
      }
    }
  }

  // ---- At most thirty blocks.

  /** The tiling starts with one block of 2^k ports, the largest that fits. */
  lemma FirstBlock(cur: nat, end: nat) returns (k: nat)
    requires cur <= end < 0x1_0000
    ensures k <= 15 && Fits(cur, end, k) && (k == 15 || !Fits(cur, end, k + 1))
    ensures |Tiling(cur, end)| == 1 + |Tiling(cur + Pow2(k), end)|
  {
    hide Pow2, Fits;
    FitsOne(cur, end);
    k := Grow(cur, end, 0);
  }

  lemma FallingStep(cur: nat, end: nat, j: nat, k: nat)
    requires end < 0x1_0000 && k <= 16 && cur % Pow2(k) == 0 && end + 1 < cur + Pow2(k)
    requires j <= 15 && Fits(cur, end, j) && (j == 15 || !Fits(cur, end, j + 1))
    ensures j < k && cur % Pow2(j) == 0 && end + 1 < Pow2End(cur, j) + Pow2(j)
  {
    if k <= j {
      Pow2Monotone(k, j);
    }
    AlignedDown(cur, j + 1, k);
    Pow2Values();
  }

  /** What is left is smaller than the alignment: sizes only fall from here. */
  lemma {:induction false} FallingPart(cur: nat, end: nat, k: nat)
    requires end < 0x1_0000 && k <= 16 && cur % Pow2(k) == 0 && end + 1 < cur + Pow2(k)
    ensures |Tiling(cur, end)| <= k
    decreases end + 1 - cur
  {
    hide Pow2, Grow, Tiling, Fits;
    if cur <= end {
      var j := FirstBlock(cur, end);
      FallingStep(cur, end, j, k);
      FallingPart(Pow2End(cur, j), end, j);
    }
  }

  /** Sizes at least double while the start is the limit: j doublings use j of fifteen steps. */
  lemma {:induction false} RisingPart(cur: nat, end: nat, j: nat)
    requires 0 < cur && end < 0x1_0000 && j <= 15 && cur % Pow2(j) == 0
    ensures |Tiling(cur, end)| <= 30 - j
    decreases end + 1 - cur
  {
    hide Grow, Tiling;
    if cur <= end {
      var k := FirstBlock(cur, end);
      var next := Pow2End(cur, k);
      assert k < 15 ==> Pow2(k + 1) == 2 * Pow2(k);
      hide Pow2;
      if k == 15 {
        LastHalf(cur, end);
      } else if cur % Pow2(k + 1) == 0 {
        FallingPart(next, end, k);
      } else {
        if k < j {
          AlignedDown(cur, k + 1, j);
        }
        OddMultiple(cur, k);
        RisingPart(next, end, k + 1);
      }
    }
  }

  /** A block of half the ports that does not start at 0 is the last. */
  lemma LastHalf(cur: nat, end: nat)
    requires 0 < cur && end < 0x1_0000 && Fits(cur, end, 15)
    ensures cur + Pow2(15) > end
  {
    Pow2Values();
    MultiplesApart(0, cur, Pow2(15));
    DivModUnique(0, Pow2(15), 0, 0);
  }

  lemma OddMultiple(x: nat, k: nat)
    requires x % Pow2(k) == 0 && x % Pow2(k + 1) != 0
    ensures (x + Pow2(k)) % Pow2(k + 1) == 0
  {
    var n := Pow2(k);
    assert x == n * (x / n);
    Parity(n, x / n);
  }

  lemma Parity(n: nat, q: nat)
    requires n > 0
    ensures (n * q) % (2 * n) == 0 || (n * q + n) % (2 * n) == 0
  {
    var h := q / 2;
    if q == 2 * h {
      assert n * q == (2 * n) * h;
      MultipleHasNoRemainder(2 * n, h);
    } else {
      assert n * q + n == (2 * n) * (h + 1) by { assert q == 2 * h + 1; }
      MultipleHasNoRemainder(2 * n, h + 1);
    }
  }

  /** No range needs more than thirty blocks. */
  lemma AtMostThirtyBlocks(lo: nat, hi: nat)
    requires lo < 0x1_0000 && hi < 0x1_0000
    ensures |Tiling(lo, hi)| <= 30
  {
    if lo > 0 {
      DivModUnique(lo, 1, lo, 0);
      RisingPart(lo, hi, 0);
    } else if hi < 0xffff {
      Pow2Values();
      DivModUnique(0, Pow2(16), 0, 0);
      FallingPart(0, hi, 16);
    } else {
      WholeSpaceIsNotMinimal();
    }
  }

  // ---- The way back.

  lemma TilingIsDistinct(lo: nat, hi: nat)
    requires hi < 0x1_0000
    ensures Distinct(Tiling(lo, hi))
  {
    TilingTiles(lo, hi);
    var out := Tiling(lo, hi);
    forall i, j | 0 <= i < j < |out|
      ensures out[i] != out[j]
    {
      assert out[i].port + Size(out[i]) <= out[j].port;
    }
  }

  lemma {:induction false} CountOfDistinct<T>(s: seq<T>, x: T)
    requires Distinct(s)
    ensures multiset(s)[x] <= 1
  {
    if s != [] {
      var init := s[..|s| - 1];
      CountOfDistinct(init, x);
      assert s == init + [s[|s| - 1]];
      assert s[|s| - 1] !in init;
      assert s[|s| - 1] !in multiset(init);
    }
  }

  /** A list as long as one without repeats, and holding all of it, is a rearrangement of it. */
  lemma Rearrangement<T>(w: seq<T>, b: seq<T>)
    requires Distinct(w) && |w| == |b| && forall x :: x in w ==> x in b
    ensures multiset(w) == multiset(b)
  {
    forall x
      ensures multiset(w)[x] <= multiset(b)[x]
    {
      CountOfDistinct(w, x);
      if multiset(w)[x] > 0 {
        assert x in multiset(w);
        assert x in w && x in b;
      }
    }
    SubMultisetOfSameSize(multiset(w), multiset(b));
  }

  lemma SubMultisetOfSameSize<T>(a: multiset<T>, b: multiset<T>)
    requires a <= b && |a| == |b|
    ensures a == b
  {
    assert b == a + (b - a);
    assert |b - a| == 0;
  }

  /** Every bound of a block list: what blocksSpan's first loop finds. */
  ghost predicate IsSpan(blocks: seq<PortBlock>, lo: int, hi: int) {
    && (forall i :: 0 <= i < |blocks| ==>
        0 <= blocks[i].bits <= 16 && lo <= blocks[i].port && blocks[i].port + Size(blocks[i]) - 1 <= hi)
    && (exists i :: 0 <= i < |blocks| && blocks[i].port == lo)
    && (exists i :: 0 <= i < |blocks| && 0 <= blocks[i].bits <= 16 && blocks[i].port + Size(blocks[i]) - 1 == hi)
  }

  lemma SpanIsUnique(blocks: seq<PortBlock>, lo: int, hi: int, lo': int, hi': int)
    requires IsSpan(blocks, lo, hi) && IsSpan(blocks, lo', hi')
    ensures lo == lo' && hi == hi'
  {
    hide Size;
  }

  lemma SpanOfTiling(blocks: seq<PortBlock>, lo: nat, hi: nat)
    requires lo <= hi < 0x1_0000 && multiset(blocks) == multiset(Tiling(lo, hi))
    ensures IsSpan(blocks, lo, hi)
  {
    TilingTiles(lo, hi);
    assert Tiling(lo, hi)[0].port == lo;
    hide Tiling;
    SpanOfTiles(blocks, Tiling(lo, hi), lo, hi);
  }

  lemma SpanOfTiles(blocks: seq<PortBlock>, out: seq<PortBlock>, lo: nat, hi: nat)
    requires lo <= hi && multiset(blocks) == multiset(out) && Tiles(out, lo, hi) && out != [] && out[0].port == lo
    ensures IsSpan(blocks, lo, hi)
  {
    hide Size;
    forall i | 0 <= i < |blocks|
      ensures blocks[i] in out
    {
      assert blocks[i] in multiset(blocks);
      assert blocks[i] in multiset(out);
    }
    assert out[0] in multiset(blocks);
    var i :| 0 <= i < |blocks| && blocks[i] == out[0];
    assert InSome(out, hi);
    var j :| 0 <= j < |out| && Aligned(out[j]) && InBlock(out[j], hi);
    assert out[j] in multiset(blocks);
    var k :| 0 <= k < |blocks| && blocks[k] == out[j];
  }

  method Span(blocks: seq<PortBlock>) returns (r: Option<(nat, nat)>)
    requires blocks != [] && forall i :: 0 <= i < |blocks| ==> blocks[i].port < 0x1_0000
    ensures r.None? <==> exists i :: 0 <= i < |blocks| && !(0 <= blocks[i].bits <= 16)
    ensures r.Some? ==> IsSpan(blocks, r.value.0, r.value.1)
  {
    hide Size;
    var minP, maxP := 0x1_0000, 0;
    for i := 0 to |blocks|
      invariant forall j :: 0 <= j < i ==>
          0 <= blocks[j].bits <= 16 && minP <= blocks[j].port && blocks[j].port + Size(blocks[j]) - 1 <= maxP
      invariant i > 0 ==> exists j :: 0 <= j < i && blocks[j].port == minP
      invariant i == 0 ==> minP == 0x1_0000 && maxP == 0
      invariant i > 0 ==>
                  || maxP == 0
                  || exists j :: && 0 <= j < i && 0 <= blocks[j].bits <= 16
                                 && blocks[j].port + Size(blocks[j]) - 1 == maxP
    {
      var b := blocks[i];
      if b.bits < 0 || b.bits > 16 {
        return None;
      }
      if b.port < minP {
        minP := b.port;
      }
      var end := b.port + Size(b) - 1;
      if end > maxP {
        maxP := end;
      }
    }
    assert 0 <= blocks[0].bits <= 16 && blocks[0].port + Size(blocks[0]) - 1 <= maxP;
    return Some((minP, maxP));
  }

  /** blocksSpan: succeeds exactly on the rearrangements of a range's tiling, and returns that range. */
  method BlocksSpan(blocks: seq<PortBlock>) returns (r: Option<(nat, nat)>)
    requires forall i :: 0 <= i < |blocks| ==> blocks[i].port < 0x1_0000
    ensures r.Some? ==> var (lo, hi) := r.value; 0 < lo < hi < 0x1_0000 && multiset(blocks) == multiset(Tiling(lo, hi))
    ensures forall lo: nat, hi: nat :: 0 < lo < hi < 0x1_0000 && multiset(blocks) == multiset(Tiling(lo, hi)) ==>
        r == Some((lo, hi))
  {
    hide Tiling;
    if |blocks| == 0 {
      EmptyIsNoTiling(blocks);
      return None;
    }
    var span := Span(blocks);
    OnlyTheSpan(blocks, span);
    if span.None? {
      return None;
    }
    var (minP, maxP) := span.value;
    if maxP > 0xffff || minP == 0 || minP >= maxP {
      return None;
    }
    var want := RangeBlocks(minP, maxP);
    if |want| != |blocks| {
      return None;
    }
    var have := set b | b in blocks;
    for i := 0 to |want|
      invariant forall j :: 0 <= j < i ==> want[j] in blocks
    {
      if want[i] !in have {
        assert want[i] !in multiset(blocks) && want[i] in multiset(want);
        return None;
      }
    }
    TilingIsDistinct(minP, maxP);
    Rearrangement(want, blocks);
    return Some((minP, maxP));
  }

  lemma EmptyIsNoTiling(blocks: seq<PortBlock>)
    requires blocks == []
    ensures forall lo: nat, hi: nat :: lo <= hi < 0x1_0000 ==> multiset(blocks) != multiset(Tiling(lo, hi))
  {
    forall lo: nat, hi: nat | lo <= hi < 0x1_0000
      ensures multiset(blocks) != multiset(Tiling(lo, hi))
    {
      assert Tiling(lo, hi) != [];
      assert Tiling(lo, hi)[0] in multiset(Tiling(lo, hi));
    }
  }

  /** A block list can only be the tiling of its own span. */
  lemma OnlyTheSpan(blocks: seq<PortBlock>, span: Option<(nat, nat)>)
    requires span.Some? ==> IsSpan(blocks, span.value.0, span.value.1)
    requires span.None? ==> exists i :: 0 <= i < |blocks| && !(0 <= blocks[i].bits <= 16)
    ensures forall lo: nat, hi: nat :: lo <= hi < 0x1_0000 && multiset(blocks) == multiset(Tiling(lo, hi)) ==>
        span == Some((lo, hi))
  {
    hide Tiling, Size;
    forall lo: nat, hi: nat | lo <= hi < 0x1_0000 && multiset(blocks) == multiset(Tiling(lo, hi))
      ensures span == Some((lo, hi))
    {
      SpanOfTiling(blocks, lo, hi);
      if span.Some? {
        SpanIsUnique(blocks, lo, hi, span.value.0, span.value.1);
      }
    }
  }
}
