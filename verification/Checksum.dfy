/** Incremental updates of the Internet checksum (csum_replace in bpf/rivora_common.h), against the
    one's-complement sum a receiver computes. Bit operations are written as the arithmetic they
    amount to: complementing 16 bits is subtracting from 65535, and a shift by 16 divides by 65536. */
module Checksum {
  import opened Types
  import opened Primes

  // ---- The receiver's side.

  function Sum(words: seq<Word>): nat {
    if words == [] then 0 else words[0] + Sum(words[1..])
  }

  /** One's-complement addition: the carry goes around. */
  function OnesAdd(a: Word, b: Word): Word {
    if a + b < 0x1_0000 then a + b else a + b - 0xffff
  }

  function OnesSum(words: seq<Word>): Word {
    if words == [] then 0 else OnesAdd(words[0], OnesSum(words[1..]))
  }

  /** What a receiver checks: everything the checksum covers, and the checksum, add up to 0xffff. */
  predicate Accepted(words: seq<Word>) {
    OnesSum(words) == 0xffff
  }

  ghost predicate Congruent(a: int, b: int) {
    (a - b) % 0xffff == 0
  }

  lemma CongruentBy(a: int, b: int, k: int)
    requires a == b + 0xffff * k
    ensures Congruent(a, b)
  {
    MultipleHasNoRemainder(0xffff, k);
  }

  lemma Multiple(a: int, b: int) returns (k: int)
    requires Congruent(a, b)
    ensures a == b + 0xffff * k
  {
    k := (a - b) / 0xffff;
  }

  lemma CongruentSum(a: int, b: int, c: int, d: int)
    requires Congruent(a, b) && Congruent(c, d)
    ensures Congruent(a + c, b + d) && Congruent(a - c, b - d)
  {
    hide Congruent;
    var k := Multiple(a, b);
    var l := Multiple(c, d);
    CongruentBy(a + c, b + d, k + l);
    CongruentBy(a - c, b - d, k - l);
  }

  lemma CongruentVia(a: int, b: int, c: int)
    requires Congruent(a, b) && Congruent(b, c)
    ensures Congruent(a, c) && Congruent(b, a)
  {
    hide Congruent;
    var k := Multiple(a, b);
    var l := Multiple(b, c);
    CongruentBy(a, c, k + l);
    CongruentBy(b, a, -k);
  }

  lemma {:induction false} OnesSumIsSum(words: seq<Word>)
    ensures Congruent(OnesSum(words), Sum(words)) && (OnesSum(words) == 0 <==> Sum(words) == 0)
  {
    if words != [] {
      OnesSumIsSum(words[1..]);
    }
  }

  /** A receiver accepts exactly the non-zero messages whose words add up to a multiple of 65535. */
  lemma AcceptedIff(words: seq<Word>)
    ensures Accepted(words) <==> Sum(words) > 0 && Congruent(Sum(words), 0)
  {
    OnesSumIsSum(words);
  }

  lemma {:induction false} SumConcat(a: seq<Word>, b: seq<Word>)
    ensures Sum(a + b) == Sum(a) + Sum(b)
  {
    if a == [] {
      assert a + b == b;
    } else {
      assert (a + b)[0] == a[0] && (a + b)[1..] == a[1..] + b;
      SumConcat(a[1..], b);
    }
  }

  lemma SumOne(w: Word)
    ensures Sum([w]) == w
  {
    assert [w][1..] == [];
  }

  /** Reading the words of a message in the other byte order does not change the verdict. */
  function Swapped(w: Word): Word {
    w % 256 * 256 + w / 256
  }

  function AllSwapped(words: seq<Word>): (r: seq<Word>)
    ensures |r| == |words| && forall i :: 0 <= i < |words| ==> r[i] == Swapped(words[i])
  {
    if words == [] then [] else [Swapped(words[0])] + AllSwapped(words[1..])
  }

  lemma {:induction false} SwappedSum(words: seq<Word>)
    ensures Congruent(Sum(AllSwapped(words)), 256 * Sum(words)) && Congruent(Sum(words), 256 * Sum(AllSwapped(words)))
    ensures Sum(AllSwapped(words)) == 0 <==> Sum(words) == 0
  {
    hide Congruent, Swapped;
    if words == [] {
      CongruentBy(0, 0, 0);
    } else {
      var rest, w := words[1..], words[0];
      SwappedSum(rest);
      assert AllSwapped(words)[1..] == AllSwapped(rest);
      SwapWord(w);
      var hi: int, lo: int, x: int, y: int := w / 256, w % 256, w, Swapped(w);
      CongruentBy(y, 256 * x, -hi);
      CongruentBy(x, 256 * y, -lo);
      CongruentSum(y, 256 * x, Sum(AllSwapped(rest)), 256 * Sum(rest));
      CongruentSum(x, 256 * y, Sum(rest), 256 * Sum(AllSwapped(rest)));
    }
  }

  lemma SwapWord(w: Word)
    ensures Swapped(w) == 256 * w - 65535 * (w / 256) && w == 256 * Swapped(w) - 65535 * (w % 256)
    ensures Swapped(w) == 0 <==> w == 0
  {
  }

  lemma ByteOrderIsIrrelevant(words: seq<Word>)
    ensures Accepted(AllSwapped(words)) <==> Accepted(words)
  {
    hide Congruent, Accepted, AllSwapped;
    AcceptedIff(words);
    AcceptedIff(AllSwapped(words));
    SwappedSum(words);
    ScaledZero(Sum(words), Sum(AllSwapped(words)));
  }

  lemma ScaledZero(a: int, b: int)
    requires Congruent(b, 256 * a) && Congruent(a, 256 * b)
    ensures Congruent(a, 0) <==> Congruent(b, 0)
  {
    hide Congruent;
    var k := Multiple(b, 256 * a);
    var l := Multiple(a, 256 * b);
    if Congruent(a, 0) {
      var j := Multiple(a, 0);
      CongruentBy(b, 0, 256 * j + k);
    }
    if Congruent(b, 0) {
      var j := Multiple(b, 0);
      CongruentBy(a, 0, 256 * j + l);
    }
  }

  // ---- csum_replace.

  /** One folding pass: the low 16 bits plus the rest. */
  function Fold(x: int): int {
    x % 0x1_0000 + x / 0x1_0000
  }

  lemma FoldCongruent(x: int)
    ensures Congruent(Fold(x), x) && (x > 0 ==> Fold(x) > 0) && Fold(0) == 0
  {
    CongruentBy(Fold(x), x, -(x / 0x1_0000));
  }

  /** Two passes bring a sum of three words within 16 bits, taking off a multiple of 65535. */
  lemma TwoPasses(x: nat) returns (k: int)
    requires x <= 3 * 0xffff
    ensures Fold(Fold(x)) == x - 0xffff * k && 0 <= Fold(Fold(x)) <= 0xffff && (Fold(Fold(x)) == 0 <==> x == 0)
  {
    var once := Fold(x);
    assert once == x - 0xffff * (x / 0x1_0000);
    assert Fold(once) == once - 0xffff * (once / 0x1_0000);
    k := x / 0x1_0000 + once / 0x1_0000;
  }

  /** csum_replace of a 16-bit field. Two passes are enough, and the result is zero exactly when
      the complemented sum is a non-zero multiple of 65535. */
  method ReplaceWord(csum: Word, was: Word, now: Word) returns (r: Word)
    ensures Congruent(r + now, csum + was)
    ensures r == 0 <==> Congruent(csum + was, now) && !(csum == 0xffff && was == 0xffff && now == 0)
  {
    hide Congruent, Fold;
    var sum := (0xffff - csum) + (0xffff - was) + now;
    ghost var start := sum;
    ghost var k := TwoPasses(sum);
    sum := Fold(sum);
    sum := Fold(sum);
    r := 0xffff - sum;
    CongruentBy(r + now, csum + was, k - 1);
    ZeroIff(csum + was - now, start, sum, 2, k);
    CongruentShift(csum + was - now, now);
  }

  /** A folded sum is 0xffff exactly when it was a non-zero multiple of 65535. */
  lemma ZeroIff(x: int, sum: int, folded: int, base: int, k: int)
    requires sum == base * 0xffff - x && folded == sum - 0xffff * k && 0 <= folded <= 0xffff
        && (folded == 0 <==> sum == 0)
    ensures folded == 0xffff <==> Congruent(x, 0) && sum != 0
  {
    hide Congruent;
    if folded == 0xffff {
      CongruentBy(x, 0, base - k - 1);
    }
    if Congruent(x, 0) {
      var j := Multiple(x, 0);
      assert folded == 0xffff * (base - j - k);
    }
  }

  /** The same difference up to a multiple of 65535. */
  lemma CongruentMoves(a: int, b: int, c: int, d: int, k: int)
    requires a - b == c - d + 0xffff * k
    ensures Congruent(a, b) <==> Congruent(c, d)
  {
    hide Congruent;
    if Congruent(a, b) {
      var j := Multiple(a, b);
      CongruentBy(c, d, j - k);
    }
    if Congruent(c, d) {
      var j := Multiple(c, d);
      CongruentBy(a, b, j + k);
    }
  }

  lemma CongruentShift(x: int, y: int)
    ensures Congruent(x + y, y) <==> Congruent(x, 0)
  {
  }

  /** csum_replace of a 4- or 16-byte field, given what bpf_csum_diff returned: an error code leaves
      the checksum alone, and for any other signed 64-bit value that the sum does not overflow the
      four passes end within 16 bits. */
  method ReplaceWords(csum: Word, diff: int) returns (r: Word)
    requires -0x8000_0000_0000_0000 <= diff < 0x8000_0000_0000_0000 - 0xffff
    ensures -4095 <= diff < 0 ==> r == csum
    ensures !(-4095 <= diff < 0) ==> Congruent(r + diff, csum)
    ensures 0 <= diff ==> (r == 0 <==> Congruent(csum, diff) && !(csum == 0xffff && diff == 0))
  {
    hide Congruent, Fold;
    if -4095 <= diff < 0 {
      return csum;
    }
    var sum := (0xffff - csum) + diff;
    ghost var start := sum;
    CongruentBy(sum, sum, 0);
    for i := 0 to 4
      invariant Congruent(sum, start) && (start > 0 ==> sum > 0) && (start == 0 ==> sum == 0)
      invariant Folded(sum, i)
    {
      if sum / 0x1_0000 != 0 {
        FoldOnce(sum, i);
        FoldCongruent(sum);
        CongruentVia(Fold(sum), sum, start);
        sum := Fold(sum);
      } else {
        FoldNone(sum, i);
      }
    }
    if sum < 0 {
      sum := sum + 0xffff;
    }
    r := 0xffff - sum;
    ghost var k := Multiple(sum, start);
    CongruentBy(r + diff, csum, -k);
    if 0 <= diff {
      ZeroIff(csum - diff, start, sum, 1, -k);
      CongruentShift(csum - diff, diff);
    }
  }

  /** Where i passes leave a signed 64-bit value. */
  predicate Folded(x: int, i: nat) {
    match i
    case 0 => -0x8000_0000_0000_0000 <= x < 0x8000_0000_0000_0000
    case 1 => -0x8000_0000_0000 <= x <= 0x8000_0000_0000 + 0xffff
    case 2 => -0x8000_0000 <= x <= 0x8000_0000 + 0x1_ffff
    case 3 => -0x8000 <= x <= 0x1_8000
    case _ => 0 <= x <= 0xffff
  }

  lemma FoldOnce(x: int, i: nat)
    requires i < 4 && Folded(x, i) && x / 0x1_0000 != 0
    ensures Folded(Fold(x), i + 1)
  {
  }

  lemma FoldNone(x: int, i: nat)
    requires i < 4 && x / 0x1_0000 == 0
    ensures Folded(x, i + 1)
  {
  }

  // ---- Chains of changes.

  /** What bpf_csum_diff promises for the 4- and 16-byte fields it is called on. */
  ghost predicate DiffOk(diff: (seq<Word>, seq<Word>) -> int) {
    forall was, now :: |was| == |now| && |was| in {2, 8} ==>
      0 <= diff(was, now) < 0x1_0000_0000 && Congruent(diff(was, now), Sum(now) - Sum(was))
  }

  /** csum_replace: a 16-bit field by hand, a wider one through the helper. */
  method Replace(diff: (seq<Word>, seq<Word>) -> int, csum: Word, was: seq<Word>, now: seq<Word>) returns (r: Word)
    requires DiffOk(diff) && |was| == |now| && |was| in {1, 2, 8}
    ensures Congruent(r + Sum(now), csum + Sum(was))
  {
    if |was| == 1 {
      r := ReplaceWord(csum, was[0], now[0]);
      SumOne(was[0]);
      SumOne(now[0]);
      assert was == [was[0]] && now == [now[0]];
    } else {
      r := ReplaceWords(csum, diff(was, now));
    }
  }

  datatype Edit = Edit(at: nat, now: seq<Word>)

  ghost predicate EditFits(words: seq<Word>, c: nat, e: Edit) {
    && |e.now| in {1, 2, 8} && e.at + |e.now| <= |words| && c < |words|
    && !(e.at <= c < e.at + |e.now|)
  }

  function Spliced(words: seq<Word>, at: nat, now: seq<Word>): (r: seq<Word>)
    requires at + |now| <= |words|
    ensures |r| == |words|
    ensures forall i :: 0 <= i < |words| ==> r[i] == if at <= i < at + |now| then now[i - at] else words[i]
  {
    words[..at] + now + words[at + |now|..]
  }

  lemma SplicedSum(words: seq<Word>, at: nat, now: seq<Word>)
    requires at + |now| <= |words|
    ensures Sum(Spliced(words, at, now)) == Sum(words) - Sum(words[at..at + |now|]) + Sum(now)
  {
    var a, b, was := words[..at], words[at + |now|..], words[at..at + |now|];
    assert words == a + was + b;
    SumConcat(a + was, b);
    SumConcat(a, was);
    SumConcat(a + now, b);
    SumConcat(a, now);
  }

  /** One field and the checksum word with it. */
  method EditOne(diff: (seq<Word>, seq<Word>) -> int, words: seq<Word>, c: nat, e: Edit) returns (r: seq<Word>)
    requires DiffOk(diff) && EditFits(words, c, e)
    ensures |r| == |words| && Congruent(Sum(r), Sum(words))
    ensures forall i :: 0 <= i < |words| && i != c ==> r[i] == Spliced(words, e.at, e.now)[i]
  {
    hide DiffOk, Congruent, Sum;
    var csum := Replace(diff, words[c], words[e.at..e.at + |e.now|], e.now);
    SplicedSum(words, e.at, e.now);
    r := Spliced(words, e.at, e.now);
    SumOne(csum);
    SumOne(words[c]);
    SplicedSum(r, c, [csum]);
    assert r[c..c + 1] == [words[c]];
    ghost var k := Multiple(csum + Sum(e.now), words[c] + Sum(words[e.at..e.at + |e.now|]));
    r := Spliced(r, c, [csum]);
    CongruentBy(Sum(r), Sum(words), k);
  }

  /** Fields changed one after another, each with its csum_replace: whatever the changes, the new
      message adds up to the old one mod 65535, so it is as valid as it was; only the changed
      fields and the checksum word differ. */
  method EditAll(diff: (seq<Word>, seq<Word>) -> int, words: seq<Word>, c: nat, edits: seq<Edit>) returns (r: seq<Word>)
    requires DiffOk(diff) && c < |words|
    requires forall i :: 0 <= i < |edits| ==> EditFits(words, c, edits[i])
    ensures |r| == |words| && Congruent(Sum(r), Sum(words))
    ensures Sum(r) > 0 && Sum(words) > 0 ==> (Accepted(r) <==> Accepted(words))
    ensures forall i :: 0 <= i < |words| && i != c ==> r[i] == Edited(words, edits)[i]
  {
    hide DiffOk, Spliced, Sum, Congruent, Accepted;
    r := words;
    CongruentBy(Sum(r), Sum(words), 0);
    for i := 0 to |edits|
      invariant |r| == |words| && Congruent(Sum(r), Sum(words))
      invariant forall j :: 0 <= j < |words| && j != c ==> r[j] == Edited(words, edits[..i])[j]
    {
      assert EditFits(words, c, edits[i]);
      EditedNext(words, edits, i, r, c);
      ghost var before := r;
      r := EditOne(diff, r, c, edits[i]);
      CongruentVia(Sum(r), Sum(before), Sum(words));
    }
    assert edits[..|edits|] == edits;
    if Sum(r) > 0 && Sum(words) > 0 {
      SameValidity(r, words);
    }
  }

  lemma SameValidity(a: seq<Word>, b: seq<Word>)
    requires Congruent(Sum(a), Sum(b)) && Sum(a) > 0 && Sum(b) > 0
    ensures Accepted(a) <==> Accepted(b)
  {
    hide Congruent, Accepted, Sum;
    AcceptedIff(a);
    AcceptedIff(b);
    if Congruent(Sum(b), 0) {
      CongruentVia(Sum(a), Sum(b), 0);
    }
    if Congruent(Sum(a), 0) {
      CongruentBy(Sum(b), Sum(b), 0);
      CongruentVia(Sum(a), Sum(b), Sum(b));
      CongruentVia(Sum(b), Sum(a), 0);
    }
  }

  lemma EditedNext(words: seq<Word>, edits: seq<Edit>, i: nat, r: seq<Word>, c: nat)
    requires i < |edits| && EditFits(words, c, edits[i]) && |r| == |words|
    requires forall j :: 0 <= j < |words| && j != c ==> r[j] == Edited(words, edits[..i])[j]
    ensures forall j :: 0 <= j < |words| && j != c ==>
        Spliced(r, edits[i].at, edits[i].now)[j] == Edited(words, edits[..i + 1])[j]
  {
    assert edits[..i + 1][..i] == edits[..i];
  }

  /** The message with its fields changed and its checksum word as it was. */
  ghost function Edited(words: seq<Word>, edits: seq<Edit>): (r: seq<Word>)
    ensures |r| == |words|
  {
    if edits == [] then words
    else
      var e := edits[|edits| - 1];
      var before := Edited(words, edits[..|edits| - 1]);
      if e.at + |e.now| <= |words| then Spliced(before, e.at, e.now) else before
  }
}
