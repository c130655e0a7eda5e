/**
 * java.util.Collections.shuffle: for i from the list size down to 2 it swaps
 * element i - 1 with element rnd.nextInt(i). The random source is an input:
 * draw k is an arbitrary natural number, reduced to the bound of step k, so
 * every choice nextInt could make is covered.
 */
module Shuffling {

  /** The value of draw k; a missing draw reads as 0. */
  function Draw(draws: seq<nat>, k: nat): nat
  {
    if k < |draws| then draws[k] else 0
  }

  function Swap<T>(xs: seq<T>, i: nat, j: nat): (r: seq<T>)
    requires i < |xs| && j < |xs|
    ensures |r| == |xs| && r[i] == xs[j] && r[j] == xs[i]
    ensures forall k :: 0 <= k < |xs| && k != i && k != j ==> r[k] == xs[k]
  {
    xs[i := xs[j]][j := xs[i]]
  }

  lemma SwapPermutes<T>(xs: seq<T>, i: nat, j: nat)
    requires i < |xs| && j < |xs|
    ensures multiset(Swap(xs, i, j)) == multiset(xs)
  {
    var ys := xs[i := xs[j]];
    assert multiset(ys) == multiset(xs) - multiset{xs[i]} + multiset{xs[j]};
    assert multiset(ys[j := xs[i]]) == multiset(ys) - multiset{ys[j]} + multiset{xs[i]};
  }

  /** The shuffle loop from bound `i` down to 2. */
  function ShuffleFrom<T>(xs: seq<T>, i: nat, draws: seq<nat>): (r: seq<T>)
    requires i <= |xs|
    ensures |r| == |xs|
    decreases i
  {
    if i <= 1 then xs
    else ShuffleFrom(Swap(xs, i - 1, Draw(draws, |xs| - i) % i), i - 1, draws)
  }

  function Shuffle<T>(xs: seq<T>, draws: seq<nat>): (r: seq<T>)
    ensures |r| == |xs|
  {
    ShuffleFrom(xs, |xs|, draws)
  }

  lemma {:induction false} ShuffleFromPermutes<T>(xs: seq<T>, i: nat, draws: seq<nat>)
    requires i <= |xs|
    ensures multiset(ShuffleFrom(xs, i, draws)) == multiset(xs)
    decreases i
  {
    if i > 1 {
      var j := Draw(draws, |xs| - i) % i;
      SwapPermutes(xs, i - 1, j);
      ShuffleFromPermutes(Swap(xs, i - 1, j), i - 1, draws);
    }
  }

  /** Whatever the draws, the shuffled list is a permutation of the input. */
  lemma ShufflePermutes<T>(xs: seq<T>, draws: seq<nat>)
    ensures multiset(Shuffle(xs, draws)) == multiset(xs)
  {
    ShuffleFromPermutes(xs, |xs|, draws);
  }
}
