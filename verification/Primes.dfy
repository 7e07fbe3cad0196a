/** The number theory behind the Maglev probe sequence: over a prime modulus every non-zero
    step walks through all residues, and over a composite one some step does not. */
module Primes {
  import opened Common

  predicate Divides(d: int, n: int)
    requires d > 0
  {
    n % d == 0
  }

  ghost predicate IsPrime(m: int) {
    2 <= m && forall d :: 2 <= d < m ==> !Divides(d, m)
  }

  lemma MulMonotone(x: int, y: int, c: int)
    requires c >= 0
    ensures x <= y ==> x * c <= y * c
  {
    assert (y - x) * c == y * c - x * c;
  }

  /** Quotient and remainder are determined by the division identity. */
  lemma DivModUnique(x: int, m: int, q: int, r: int)
    requires m > 0 && 0 <= r < m && x == m * q + r
    ensures x / m == q && x % m == r
  {
    var d := x / m - q;
    assert m * d == r - x % m by {
      assert x == m * (x / m) + x % m;
      assert m * d == m * (x / m) - m * q;
    }
    MulMonotone(1, d, m);
    MulMonotone(d, -1, m);
  }

  lemma MultipleHasNoRemainder(m: int, c: int)
    requires m > 0
    ensures (m * c) % m == 0
  {
    DivModUnique(m * c, m, c, 0);
  }

  /** Euclid's lemma in the form the probe needs: two non-zero residues of a prime have a non-zero product. */
  lemma {:induction false} NonZeroProduct(m: int, k: int, s: int)
    requires IsPrime(m) && 1 <= k < m && 1 <= s < m
    ensures (k * s) % m != 0
    decreases k
  {
    if k > 1 {
      var q, r := m / k, m % k;
      assert !Divides(k, m);
      NonZeroProduct(m, r, s);
      if (k * s) % m == 0 {
        var c := (k * s) / m;
        assert k * s == m * c;
        assert r * s == m * s - q * (k * s) by { assert r == m - q * k; }
        assert q * (m * c) == m * (q * c);
        assert r * s == m * (s - q * c);
        MultipleHasNoRemainder(m, s - q * c);
      }
    }
  }

  /** The i-th slot of a walk over m slots. */
  function Visit(m: int, offset: int, skip: int, i: int): (slot: int)
    requires m > 0
    ensures 0 <= slot < m
  {
    (offset + i * skip) % m
  }

  lemma EqualResidues(m: int, x: int, y: int)
    requires m > 0 && x % m == y % m
    ensures (x - y) % m == 0
  {
    assert x - y == m * (x / m - y / m);
    MultipleHasNoRemainder(m, x / m - y / m);
  }

  /** No slot is met twice within m steps. */
  ghost predicate WalkIsInjective(m: int, offset: int, skip: int)
    requires m > 0
  {
    forall i, j :: 0 <= i < j < m ==> Visit(m, offset, skip, i) != Visit(m, offset, skip, j)
  }

  lemma PrimeWalkIsInjective(m: int, offset: int, skip: int)
    requires IsPrime(m) && 1 <= skip < m
    ensures WalkIsInjective(m, offset, skip)
  {
    forall i, j | 0 <= i < j < m
      ensures Visit(m, offset, skip, i) != Visit(m, offset, skip, j)
    {
      if Visit(m, offset, skip, i) == Visit(m, offset, skip, j) {
        EqualResidues(m, offset + j * skip, offset + i * skip);
        assert offset + j * skip - (offset + i * skip) == (j - i) * skip;
        NonZeroProduct(m, j - i, skip);
      }
    }
  }

  /** The walk of a prime table is a permutation of its slots: every slot is reached. */
  lemma PrimeWalkReaches(m: int, offset: int, skip: int, slot: int) returns (i: int)
    requires IsPrime(m) && 1 <= skip < m && 0 <= slot < m
    ensures 0 <= i < m && Visit(m, offset, skip, i) == slot
  {
    PrimeWalkIsInjective(m, offset, skip);
    var walk := seq(m, i requires 0 <= i < m => Visit(m, offset, skip, i));
    assert Distinct(walk);
    DistinctBelowIsOnto(walk, slot);
    i :| 0 <= i < |walk| && walk[i] == slot;
  }

  /** Stepping by a divisor returns to the start before all slots are met. */
  lemma DivisorWalkRepeats(m: int, d: int)
    requires 2 <= d < m && Divides(d, m)
    ensures !WalkIsInjective(m, 0, d)
  {
    var j := m / d;
    assert j * d == m;
    CofactorIsProper(m, d, j);
    DivModUnique(0, m, 0, 0);
    DivModUnique(j * d, m, 1, 0);
    assert Visit(m, 0, d, 0) == Visit(m, 0, d, j);
  }

  lemma CofactorIsProper(m: int, d: int, e: int)
    requires 2 <= d < m && e * d == m
    ensures 2 <= e < m
  {
    MulMonotone(e, 1, d);
    MulMonotone(m, e, d);
  }

  /** Exactly when the table size is prime does every skip in 1..m-1 give a permutation. */
  lemma EverySkipPermutesIffPrime(m: int)
    requires 2 <= m
    ensures IsPrime(m) <==> forall offset, skip :: 1 <= skip < m ==> WalkIsInjective(m, offset, skip)
  {
    if IsPrime(m) {
      forall offset, skip | 1 <= skip < m
        ensures WalkIsInjective(m, offset, skip)
      {
        PrimeWalkIsInjective(m, offset, skip);
      }
    } else {
      var d :| 2 <= d < m && Divides(d, m);
      DivisorWalkRepeats(m, d);
    }
  }

  /** Trial division up to the square root decides primality. */
  lemma TrialDivision(n: int, root: int)
    requires 2 <= n < root * root && 2 <= root
    requires forall d :: 2 <= d < root ==> !Divides(d, n)
    ensures IsPrime(n)
  {
    forall d | 2 <= d < n
      ensures !Divides(d, n)
    {
      if d >= root && Divides(d, n) {
        var e := n / d;
        assert e * d == n;
        CofactorIsProper(n, d, e);
        SquareBound(root, d, e);
        MultipleHasNoRemainder(e, d);
        assert Divides(e, n);
      }
    }
  }

  lemma SquareBound(root: int, d: int, e: int)
    requires 0 <= root <= d && e * d < root * root
    ensures e < root
  {
    MulMonotone(root, e, d);
    MulMonotone(root, d, root);
  }
}
