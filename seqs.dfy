/** Python list operations used by the converters: slicing, `zip`, filtering, concatenation. */
module Seqs {

  function Min(a: int, b: int): int { if a <= b then a else b }

  function Max(a: int, b: int): int { if a <= b then b else a }

  /** The position a slice bound `i` denotes in a list of length `len`
      (negative bounds count from the end; out-of-range bounds are clamped). */
  function SliceBound(len: nat, i: int): (b: nat)
    ensures b <= len
    ensures 0 <= i <= len ==> b == i
    ensures i < 0 && 0 <= len + i ==> b == len + i
    ensures len + i < 0 ==> b == 0
    ensures len < i ==> b == len
  {
    if i < 0 then (if len + i < 0 then 0 else len + i)
    else if len < i then len
    else i
  }

  /** Python `s[:stop]`. */
  function Prefix<T>(s: seq<T>, stop: int): seq<T>
  {
    s[..SliceBound(|s|, stop)]
  }

  /** Python `s[start:]`. */
  function Suffix<T>(s: seq<T>, start: int): seq<T>
  {
    s[SliceBound(|s|, start)..]
  }

  /** `s[:i]` and `s[i:]` always put back together to `s`, whatever `i` is. */
  lemma PrefixSuffix<T>(s: seq<T>, i: int)
    ensures Prefix(s, i) + Suffix(s, i) == s
  {
    assert s[..SliceBound(|s|, i)] + s[SliceBound(|s|, i)..] == s;
  }

  /** The split `s[:-k]`, `s[-k:]`: for `1 <= k <= |s|` the tail has exactly `k` items;
      for `k == 0` Python reads `-0` as `0`, so the head is empty and the tail is all of `s`. */
  lemma NegativeSplit<T>(s: seq<T>, k: int)
    ensures 1 <= k <= |s| ==> |Suffix(s, -k)| == k && Prefix(s, -k) == s[..|s| - k]
    ensures k == 0 ==> Prefix(s, -k) == [] && Suffix(s, -k) == s
    ensures |s| < k ==> Prefix(s, -k) == [] && Suffix(s, -k) == s
  {
  }

  /** Concatenation of a list of lists, in order. */
  function Flatten<T>(ss: seq<seq<T>>): seq<T>
  {
    if ss == [] then [] else Flatten(ss[..|ss| - 1]) + ss[|ss| - 1]
  }

  lemma FlattenTwo<T>(a: seq<T>, b: seq<T>)
    ensures Flatten([a, b]) == a + b
  {
    assert [a, b][..1] == [a] && [a][..0] == [];
    assert Flatten([a]) == [] + a == a;
  }

  lemma FlattenAppend<T>(ss: seq<seq<T>>, s: seq<T>)
    ensures Flatten(ss + [s]) == Flatten(ss) + s
  {
    assert (ss + [s])[..|ss|] == ss;
  }

  /** Python `list(zip(a, b))`: pairs up to the shorter length. */
  function Zip<A, B>(a: seq<A>, b: seq<B>): (r: seq<(A, B)>)
    ensures |r| == Min(|a|, |b|)
    ensures forall i :: 0 <= i < |r| ==> r[i] == (a[i], b[i])
  {
    seq(Min(|a|, |b|), i requires 0 <= i < Min(|a|, |b|) => (a[i], b[i]))
  }

  /** Python `[f(x) for x in s]`. */
  function Map<A, B>(f: A -> B, s: seq<A>): (r: seq<B>)
    ensures |r| == |s|
    ensures forall i :: 0 <= i < |s| ==> r[i] == f(s[i])
  {
    seq(|s|, i requires 0 <= i < |s| => f(s[i]))
  }

  /** The items of `s` that satisfy `p`, in their order in `s`. */
  function Filter<T>(p: T -> bool, s: seq<T>): seq<T>
  {
    if s == [] then []
    else Filter(p, s[..|s| - 1]) + (if p(s[|s| - 1]) then [s[|s| - 1]] else [])
  }

  /** Filtering distributes over concatenation, so it keeps relative order. */
  lemma {:induction false} FilterAppend<T>(p: T -> bool, a: seq<T>, b: seq<T>)
    ensures Filter(p, a + b) == Filter(p, a) + Filter(p, b)
    decreases |b|
  {
    if b == [] {
      assert a + b == a;
    } else {
      var b' := b[..|b| - 1];
      assert (a + b)[..|a + b| - 1] == a + b';
      FilterAppend(p, a, b');
    }
  }

  /** When `s` holds exactly the items of `a` and `b`, a test holds for all of `s` exactly when it
      holds for all of `a` and all of `b`. */
  lemma AllOfSplit<T>(p: T -> bool, s: seq<T>, a: seq<T>, b: seq<T>)
    requires forall x :: x in s <==> x in a || x in b
    ensures (forall x :: x in s ==> p(x)) <==> (forall x :: x in a ==> p(x)) && (forall x :: x in b ==> p(x))
  {
  }

  /** When `a` and `b` together hold the items of `s`, a test holds for all of `s` exactly when it
      holds for all of `a` and all of `b`. */
  lemma AllOfParts<T>(p: T -> bool, s: seq<T>, a: seq<T>, b: seq<T>)
    requires multiset(a) + multiset(b) == multiset(s)
    ensures (forall x :: x in s ==> p(x)) <==> (forall x :: x in a ==> p(x)) && (forall x :: x in b ==> p(x))
  {
    forall x ensures x in s <==> x in a || x in b {
      assert x in s <==> x in multiset(s);
    }
  }

  /** Every item `Filter` keeps is an item of `s` that passes `p`. */
  lemma {:induction false} FilterSound<T>(p: T -> bool, s: seq<T>)
    ensures forall x :: x in Filter(p, s) ==> x in s && p(x)
    decreases |s|
  {
    if s != [] {
      var s' := s[..|s| - 1];
      FilterSound(p, s');
      assert forall x :: x in s' ==> x in s;
    }
  }

  /** Filtering by `p` and by its complement `q` splits `s` into two parts that between them
      hold every item of `s` exactly as often as `s` does. */
  lemma {:induction false} FilterCount<T>(p: T -> bool, q: T -> bool, s: seq<T>)
    requires forall x :: q(x) == !p(x)
    ensures multiset(Filter(p, s)) + multiset(Filter(q, s)) == multiset(s)
    decreases |s|
  {
    if s != [] {
      var s' := s[..|s| - 1];
      var x := s[|s| - 1];
      FilterCount(p, q, s');
      assert s == s' + [x];
      assert multiset(s) == multiset(s') + multiset{x};
    }
  }

  /** The two filters partition `s`: counts add up and each side passes its own test. */
  lemma FilterPartition<T>(p: T -> bool, q: T -> bool, s: seq<T>)
    requires forall x :: q(x) == !p(x)
    ensures multiset(Filter(p, s)) + multiset(Filter(q, s)) == multiset(s)
    ensures forall x :: x in Filter(p, s) ==> x in s && p(x)
    ensures forall x :: x in Filter(q, s) ==> x in s && q(x)
    ensures |Filter(p, s)| + |Filter(q, s)| == |s|
  {
    FilterCount(p, q, s);
    FilterSound(p, s);
    FilterSound(q, s);
    assert |multiset(Filter(p, s)) + multiset(Filter(q, s))| == |multiset(s)|;
  }
}
