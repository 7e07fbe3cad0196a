/** Prefixes bit by bit: what masking keeps, and which addresses a prefix covers. */
module AddressBits {
  import opened Common
  import opened Types
  import opened Primes
  import opened PortRange
  import opened BgpRoutes

  /** The i-th bit of a word, the first being the most significant. */
  ghost predicate WordBit(w: Word, i: nat)
    requires i < 16
  {
    w / Pow2(15 - i) % 2 == 1
  }

  /** The i-th bit of an address on the wire. */
  ghost predicate Bit(a: Addr, i: nat)
    requires i < Width(a)
  {
    WordBit(a.Words()[i / 16], i % 16)
  }

  // ---- Words.

  lemma DivDiv(x: nat, a: nat, b: nat)
    requires a > 0 && b > 0
    ensures a * b > 0 && x / (a * b) == x / a / b
  {
    var q, r := x / a, x % a;
    var p, t := q / b, q % b;
    MulMonotone(1, b, a);
    TwoDigits(a, b, q, p, t);
    Carries(a, b, t, r);
    DivModUnique(x, a * b, p, a * t + r);
  }

  lemma TwoDigits(a: int, b: int, q: int, p: int, t: int)
    requires q == b * p + t
    ensures a * q == a * b * p + a * t
  {
    MulAssoc(a, b, p);
  }

  lemma Carries(a: int, b: int, t: int, r: int)
    requires 0 <= t < b && 0 <= r < a
    ensures 0 <= a * t + r < a * b
  {
    MulMonotone(t, b - 1, a);
    MulMonotone(0, t, a);
    assert a * (b - 1) == a * b - a;
  }

  lemma RoundedQuotient(x: nat, u: nat, c: nat)
    requires u > 0 && c > 0
    ensures u * c > 0 && (x - x % u) / (u * c) == x / (u * c)
  {
    var q := x / u;
    assert x - x % u == u * q + 0;
    DivModUnique(x - x % u, u, q, 0);
    DivDiv(x - x % u, u, c);
    DivDiv(x, u, c);
  }

  lemma RoundedEven(x: nat, p: nat, c: nat)
    requires p > 0 && c > 0
    ensures p * (2 * c) > 0 && (x - x % (p * (2 * c))) / p % 2 == 0
  {
    var u := p * (2 * c);
    MulMonotone(1, 2 * c, p);
    var q := x / u;
    assert x - x % u == u * q;
    MulAssoc(p, 2 * c, q);
    MulAssoc(2, c, q);
    DivModUnique(x - x % u, p, 2 * (c * q), 0);
  }

  /** Rounding down to a multiple of 2^k leaves the quotient by 2^j alone from k up ... */
  lemma FloorKeeps(w: Word, k: nat, j: nat)
    requires k <= j
    ensures Floor(w, Pow2(k)) / Pow2(j) == w / Pow2(j)
  {
    hide Pow2;
    Pow2Split(k, j);
    RoundedQuotient(w, Pow2(k), Pow2(j - k));
  }

  /** ... and makes it even below. */
  lemma FloorClears(w: Word, k: nat, j: nat)
    requires j < k
    ensures Floor(w, Pow2(k)) / Pow2(j) % 2 == 0
  {
    assert Pow2(k - j) == 2 * Pow2(k - j - 1);
    hide Pow2;
    Pow2Split(j, k);
    RoundedEven(w, Pow2(j), Pow2(k - j - 1));
  }

  lemma MaskWordBit(w: Word, keep: nat, i: nat)
    requires i < 16
    ensures WordBit(MaskWord(w, keep), i) <==> i < keep && WordBit(w, i)
  {
    hide Floor, Pow2;
    if keep < 16 {
      if i < keep {
        FloorKeeps(w, 16 - keep, 15 - i);
      } else {
        FloorClears(w, 16 - keep, 15 - i);
      }
    }
  }

  lemma {:induction false} SameBitsSameQuotient(w: Word, x: Word, n: nat)
    requires n <= 16 && forall i :: 0 <= i < n ==> WordBit(w, i) == WordBit(x, i)
    ensures w / Pow2(16 - n) == x / Pow2(16 - n)
  {
    if n == 0 {
      Pow2Values();
    } else {
      SameBitsSameQuotient(w, x, n - 1);
      var p := Pow2(16 - n);
      assert Pow2(17 - n) == p * 2;
      hide Pow2;
      DivDiv(w, p, 2);
      DivDiv(x, p, 2);
      assert WordBit(w, n - 1) == WordBit(x, n - 1);
    }
  }

  lemma SameBitsSameWord(w: Word, x: Word)
    requires forall i :: 0 <= i < 16 ==> WordBit(w, i) == WordBit(x, i)
    ensures w == x
  {
    SameBitsSameQuotient(w, x, 16);
  }

  // ---- Addresses.

  /** Two addresses with the same bits are the same. */
  lemma SameBitsSameAddr(a: Addr, b: Addr)
    requires a.V4? == b.V4? && forall i :: 0 <= i < Width(a) ==> Bit(a, i) == Bit(b, i)
    ensures a == b
  {
    hide WordBit;
    forall n | 0 <= n < |a.Words()|
      ensures a.Words()[n] == b.Words()[n]
    {
      forall i | 0 <= i < 16
        ensures WordBit(a.Words()[n], i) == WordBit(b.Words()[n], i)
      {
        DivModUnique(16 * n + i, 16, n, i);
        assert Bit(a, 16 * n + i) == Bit(b, 16 * n + i);
      }
      SameBitsSameWord(a.Words()[n], b.Words()[n]);
    }
    assert a.Words() == b.Words();
  }

  /** Masking keeps the first bits of an address and clears the rest, in either family. */
  lemma MaskKeepsFirstBits(a: Addr, bits: nat, i: nat)
    requires i < Width(a)
    ensures MaskAddr(a, bits).V4? == a.V4?
    ensures Bit(MaskAddr(a, bits), i) <==> i < bits && Bit(a, i)
  {
    hide WordBit, MaskWord;
    var n := i / 16;
    assert i == 16 * n + i % 16;
    assert MaskAddr(a, bits).Words()[n] == MaskWord(a.Words()[n], KeptOf(bits, n));
    MaskWordBit(a.Words()[n], KeptOf(bits, n), i % 16);
  }

  /** A prefix covers exactly the addresses of its family that share its first bits. */
  lemma CoversIff(p: Prefix, a: Addr)
    ensures BgpRoutes.Covers(p, a) <==>
        p.addr.V4? == a.V4? && forall i :: 0 <= i < p.bits && i < Width(a) ==> Bit(a, i) == Bit(p.addr, i)
  {
    hide Bit, MaskAddr;
    if p.addr.V4? == a.V4? {
      var x, y := MaskAddr(a, p.bits), MaskAddr(p.addr, p.bits);
      MaskKeepsFamily(a, p.bits);
      MaskKeepsFamily(p.addr, p.bits);
      forall i | 0 <= i < Width(a)
        ensures Bit(x, i) == (i < p.bits && Bit(a, i)) && Bit(y, i) == (i < p.bits && Bit(p.addr, i))
      {
        MaskKeepsFirstBits(a, p.bits, i);
        MaskKeepsFirstBits(p.addr, p.bits, i);
      }
      if forall i :: 0 <= i < p.bits && i < Width(a) ==> Bit(a, i) == Bit(p.addr, i) {
        SameBitsSameAddr(x, y);
      }
    }
  }

  lemma MaskKeepsFamily(a: Addr, bits: nat)
    ensures MaskAddr(a, bits).V4? == a.V4?
  {
  }

  /** A masked prefix covers what the prefix covers, and masking it again changes nothing. */
  lemma MaskedCovers(p: Prefix, a: Addr)
    ensures BgpRoutes.Covers(Masked(p), a) <==> BgpRoutes.Covers(p, a)
    ensures Masked(Masked(p)) == Masked(p)
  {
    hide Bit, MaskAddr;
    var q := Masked(p);
    MaskKeepsFamily(p.addr, p.bits);
    MaskKeepsFamily(q.addr, p.bits);
    forall i | 0 <= i < Width(p.addr)
      ensures Bit(MaskAddr(q.addr, p.bits), i) == Bit(q.addr, i)
    {
      MaskKeepsFirstBits(p.addr, p.bits, i);
      MaskKeepsFirstBits(q.addr, p.bits, i);
    }
    SameBitsSameAddr(MaskAddr(q.addr, p.bits), q.addr);
  }

  /** The prefix of one address covers that address alone. */
  lemma HostCoversItself(a: Addr, b: Addr)
    ensures BgpRoutes.Covers(HostPrefix(a), b) <==> a == b
  {
    hide Bit, MaskAddr;
    CoversIff(HostPrefix(a), b);
    if BgpRoutes.Covers(HostPrefix(a), b) {
      SameBitsSameAddr(a, b);
    }
  }
}
