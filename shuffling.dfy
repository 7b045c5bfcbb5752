/**
 * The in-place Durstenfeld (Fisher-Yates) shuffle of App.js.
 *
 * `Math.random()` is not modelled as a floating-point number: each call is
 * supplied by the caller as a rational `num / den` in [0, 1), and the loop at
 * position `i` consumes `draws[i]` (position 0 is never reached, so
 * `draws[0]` is never read).
 */
module Shuffling {

  /** A rational number num / den. */
  datatype Fraction = Fraction(num: nat, den: nat)

  /** One value of Math.random(): a rational in [0, 1). */
  type Draw = f: Fraction | f.num < f.den witness Fraction(0, 1)

  /** x < den and n > 0 give x * n < den * n. */
  lemma ScaleBelow(x: nat, den: nat, n: nat)
    requires x < den && n > 0
    ensures x * n < den * n
  {
    assert den * n - x * n == (den - x) * n;
  }

  /** a * d < b * d with d > 0 gives a < b. */
  lemma CancelFactor(a: int, b: int, d: nat)
    requires d > 0 && a * d < b * d
    ensures a < b
  {
    assert (b - a) * d == b * d - a * d;
  }

  /**
   * Math.floor(r * n): the index the shuffle draws from [0, n), as the
   * floor of (num / den) * n.
   */
  function Pick(r: Draw, n: nat): (j: nat)
    requires n > 0
    ensures j < n
  {
    PickBelow(r, n);
    r.num * n / r.den
  }

  /** The drawn index never reaches n, because the draw is below 1. */
  lemma PickBelow(r: Draw, n: nat)
    requires n > 0
    ensures r.num * n / r.den < n
  {
    var x := r.num * n;
    var j := x / r.den;
    assert j * r.den <= x by { assert x == j * r.den + x % r.den; }
    ScaleBelow(r.num, r.den, n);
    CancelFactor(j, n, r.den);
  }

  /** Pick(r, n) is the floor of (num / den) * n. */
  lemma PickIsFloor(r: Draw, n: nat)
    requires n > 0
    ensures Pick(r, n) * r.den <= r.num * n < (Pick(r, n) + 1) * r.den
  {
    var x := r.num * n;
    var j := x / r.den;
    assert x == j * r.den + x % r.den;
    assert (j + 1) * r.den == j * r.den + r.den;
  }

  /** s with positions i and j exchanged. */
  function Swap<T>(s: seq<T>, i: nat, j: nat): (r: seq<T>)
    requires i < |s| && j < |s|
    ensures |r| == |s| && r[i] == s[j] && r[j] == s[i]
    ensures forall k :: 0 <= k < |s| && k != i && k != j ==> r[k] == s[k]
  {
    s[i := s[j]][j := s[i]]
  }

  /** Exchanging two positions keeps the length and the multiset. */
  lemma SwapPermutes<T>(s: seq<T>, i: nat, j: nat)
    requires i < |s| && j < |s|
    ensures |Swap(s, i, j)| == |s| && multiset(Swap(s, i, j)) == multiset(s)
  {
  }

  /**
   * The loop iterations at positions i, i - 1, ..., 1: each swaps position k
   * with a drawn position in [0, k].
   */
  function ShuffleSteps<T>(s: seq<T>, draws: seq<Draw>, i: nat): (r: seq<T>)
    requires i < |s| && i < |draws|
    ensures |r| == |s|
    decreases i
  {
    if i == 0 then s
    else ShuffleSteps(Swap(s, i, Pick(draws[i], i + 1)), draws, i - 1)
  }

  /** The whole shuffle: positions |s| - 1 down to 1. */
  function Shuffled<T>(s: seq<T>, draws: seq<Draw>): (r: seq<T>)
    requires |s| <= |draws|
    ensures |r| == |s|
  {
    if |s| == 0 then s else ShuffleSteps(s, draws, |s| - 1)
  }

  /** The steps only exchange elements: the result is a permutation of s. */
  lemma {:induction false} ShuffleStepsPermutes<T>(s: seq<T>, draws: seq<Draw>, i: nat)
    requires i < |s| && i < |draws|
    ensures multiset(ShuffleSteps(s, draws, i)) == multiset(s)
    decreases i
  {
    if i > 0 {
      var t := Swap(s, i, Pick(draws[i], i + 1));
      SwapPermutes(s, i, Pick(draws[i], i + 1));
      ShuffleStepsPermutes(t, draws, i - 1);
    }
  }

  /** The shuffle is a permutation: same length, same multiset of elements. */
  lemma ShuffledPermutes<T>(s: seq<T>, draws: seq<Draw>)
    requires |s| <= |draws|
    ensures |Shuffled(s, draws)| == |s| && multiset(Shuffled(s, draws)) == multiset(s)
  {
    if |s| > 0 {
      ShuffleStepsPermutes(s, draws, |s| - 1);
    }
  }

  /** Steps at positions i and below never touch a position above i. */
  lemma {:induction false} ShuffleStepsKeepsAbove<T>(s: seq<T>, draws: seq<Draw>, i: nat, k: nat)
    requires i < k < |s| && i < |draws|
    ensures ShuffleSteps(s, draws, i)[k] == s[k]
    decreases i
  {
    if i > 0 {
      var t := Swap(s, i, Pick(draws[i], i + 1));
      assert t[k] == s[k];
      ShuffleStepsKeepsAbove(t, draws, i - 1, k);
    }
  }

  /**
   * Once the step at position i has run, position i holds for good the
   * element drawn from [0, i] at that step.
   */
  lemma {:induction false} ShuffleStepsFixesPosition<T>(s: seq<T>, draws: seq<Draw>, i: nat)
    requires 0 < i < |s| && i < |draws|
    ensures ShuffleSteps(s, draws, i)[i] == s[Pick(draws[i], i + 1)]
  {
    var t := Swap(s, i, Pick(draws[i], i + 1));
    ShuffleStepsKeepsAbove(t, draws, i - 1, i);
  }

  /** The last element of the shuffled sequence is the one the first draw picks. */
  lemma {:induction false} ShuffledLast<T>(s: seq<T>, draws: seq<Draw>)
    requires 2 <= |s| <= |draws|
    ensures Shuffled(s, draws)[|s| - 1] == s[Pick(draws[|s| - 1], |s|)]
  {
    ShuffleStepsFixesPosition(s, draws, |s| - 1);
  }

  /**
   * shuffle(a): for i from a.length - 1 down to 1, swap a[i] with a[j] for
   * j = floor(random * (i + 1)). Every access is in bounds and the array ends
   * as Shuffled(old contents), a permutation of them.
   */
  method Shuffle<T>(a: array<T>, draws: seq<Draw>)
    requires a.Length <= |draws|
    modifies a
    ensures a[..] == Shuffled(old(a[..]), draws)
    ensures multiset(a[..]) == multiset(old(a[..]))
  {
    ghost var target := Shuffled(a[..], draws);
    var i := a.Length - 1;
    while i > 0
      invariant -1 <= i < a.Length && (i == -1 ==> a.Length == 0)
      invariant a.Length == 0 ==> a[..] == old(a[..])
      invariant i >= 0 ==> ShuffleSteps(a[..], draws, i) == target
    {
      var j := Pick(draws[i], i + 1);
      ghost var before := a[..];
      var x := a[i];
      a[i] := a[j];
      assert a[..] == before[i := before[j]];
      a[j] := x;
      assert a[..] == Swap(before, i, j);
      i := i - 1;
    }
    ShuffledPermutes(old(a[..]), draws);
  }
}
