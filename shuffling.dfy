/** `random.shuffle`: the Fisher-Yates shuffle, with the random choices given as input. */
module Shuffling {

  function Swap<T>(s: seq<T>, i: nat, j: nat): (r: seq<T>)
    requires i < |s| && j < |s|
    ensures |r| == |s|
    ensures multiset(r) == multiset(s)
  {
    s[i := s[j]][j := s[i]]
  }

  /** The position `randbelow(i + 1)` yields for position `i`, read from the draw for `i`
      (draws beyond the end of `draws` count as 0). */
  function Choice(draws: seq<nat>, i: nat): (j: nat)
    ensures j <= i
  {
    (if i < |draws| then draws[i] else 0) % (i + 1)
  }

  /** The swaps for positions `i - 1` down to `1`, in that order. */
  function ShuffleBelow<T>(s: seq<T>, draws: seq<nat>, i: nat): seq<T>
    requires i <= |s|
    decreases i
  {
    if i <= 1 then s else ShuffleBelow(Swap(s, i - 1, Choice(draws, i - 1)), draws, i - 1)
  }

  /** `random.shuffle(s)` when the random generator makes the choices `draws`. */
  function Shuffle<T>(s: seq<T>, draws: seq<nat>): seq<T>
  {
    ShuffleBelow(s, draws, |s|)
  }

  lemma {:induction false} ShuffleBelowPermutes<T>(s: seq<T>, draws: seq<nat>, i: nat)
    requires i <= |s|
    ensures |ShuffleBelow(s, draws, i)| == |s|
    ensures multiset(ShuffleBelow(s, draws, i)) == multiset(s)
    decreases i
  {
    if i > 1 {
      ShuffleBelowPermutes(Swap(s, i - 1, Choice(draws, i - 1)), draws, i - 1);
    }
  }

  /** Whatever the random choices, a shuffle only rearranges the list. */
  lemma ShufflePermutes<T>(s: seq<T>, draws: seq<nat>)
    ensures |Shuffle(s, draws)| == |s|
    ensures multiset(Shuffle(s, draws)) == multiset(s)
  {
    ShuffleBelowPermutes(s, draws, |s|);
  }
}
