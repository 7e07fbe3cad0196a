/** Result types and small facts about collections shared by every module. */
module Common {

  datatype Option<+T> = None | Some(value: T)

  datatype Result<+T, +E> = Ok(value: T) | Err(error: E)

  /** The integers 0, 1, ..., n - 1. */
  function Range(n: nat): (s: set<int>)
    ensures |s| == n
    ensures forall x :: x in s <==> 0 <= x < n
  {
    if n == 0 then {} else Range(n - 1) + {n - 1}
  }

  ghost predicate Distinct<T>(s: seq<T>) {
    forall i, j :: 0 <= i < j < |s| ==> s[i] != s[j]
  }

  /** A sequence without repeats has as many elements as positions. */
  lemma {:induction false} DistinctCardinality<T>(s: seq<T>)
    requires Distinct(s)
    ensures |(set x | x in s)| == |s|
  {
    if s != [] {
      var init := s[..|s| - 1];
      var last := s[|s| - 1];
      DistinctCardinality(init);
      assert s == init + [last];
      assert (set x | x in s) == (set x | x in init) + {last};
    }
  }

  lemma SubsetCardinality<T>(a: set<T>, b: set<T>)
    requires a <= b
    ensures |a| <= |b|
    ensures |a| == |b| ==> a == b
  {
    assert b == a + (b - a);
  }

  /** Pigeonhole: n distinct values below n are all the values below n. */
  lemma DistinctBelowIsOnto(s: seq<int>, value: int)
    requires Distinct(s)
    requires forall i :: 0 <= i < |s| ==> 0 <= s[i] < |s|
    requires 0 <= value < |s|
    ensures value in s
  {
    DistinctCardinality(s);
    var elements := set x | x in s;
    SubsetCardinality(elements, Range(|s|));
    assert value in elements;
  }

  // ---- Calls that may fail.

  /** Every call from the first of these to the last, not included, succeeds. */
  ghost predicate Smooth(answers: nat -> bool, from: nat, to: nat) {
    forall i :: from <= i < to ==> answers(i)
  }

  lemma SmoothNone(answers: nat -> bool, n: nat)
    ensures Smooth(answers, n, n)
  {
  }

  lemma SmoothOne(answers: nat -> bool, from: nat, at: nat, ok: bool)
    requires from <= at && Smooth(answers, from, at) && ok == answers(at)
    ensures ok <==> Smooth(answers, from, at + 1)
  {
  }

  lemma SmoothJoin(answers: nat -> bool, a: nat, b: nat, c: nat)
    requires a <= b <= c
    ensures Smooth(answers, a, c) <==> Smooth(answers, a, b) && Smooth(answers, b, c)
  {
  }
}
