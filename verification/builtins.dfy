/** The parts of Python's library the game relies on: `random.randint`, `random.shuffle`,
    `list(set)` and `list.index`. Random choices are nondeterministic: the model admits
    every outcome the library can produce. */
module Builtins {
  import opened Common

  /** `random.randint(lo, hi)`: some integer of the closed range [lo, hi]. Python raises
      ValueError for an empty range; the game never asks for one. */
  method RandInt(lo: int, hi: int) returns (r: int)
    requires lo <= hi
    ensures lo <= r <= hi
  {
    r :| lo <= r <= hi;
  }

  /** `list(s)`: the elements of the set, each once, in an order the model leaves open. */
  method ListOfSet(s: set<int>) returns (xs: seq<int>)
    ensures multiset(xs) == multiset(s)
  {
    xs := [];
    var rest := s;
    while rest != {}
      invariant multiset(xs) + multiset(rest) == multiset(s)
      decreases |rest|
    {
      assert (forall y :: y !in rest) ==> rest == {};
      var x :| x in rest;
      assert multiset(rest) == multiset(rest - {x}) + multiset{x};
      xs := xs + [x];
      rest := rest - {x};
    }
  }

  /** `random.shuffle`: CPython's Fisher-Yates pass, which walks `i` down from the last
      position to 1 and swaps position `i` with a random position `j <= i`. The result is
      a permutation of the input. */
  method Shuffle(xs: seq<int>) returns (ys: seq<int>)
    ensures |ys| == |xs|
    ensures multiset(ys) == multiset(xs)
  {
    ys := xs;
    var i := |ys|;
    while i > 1
      invariant 0 <= i <= |ys| == |xs|
      invariant multiset(ys) == multiset(xs)
    {
      i := i - 1;
      var j := RandInt(0, i);
      ys := ys[i := ys[j]][j := ys[i]];
    }
  }

  /** `xs.index(x)`: the first position holding `x`; None where Python raises ValueError. */
  method IndexOf(xs: seq<int>, x: int) returns (r: Option<nat>)
    ensures r.Some? ==> r.value < |xs| && xs[r.value] == x
    ensures r.Some? ==> forall k :: 0 <= k < r.value ==> xs[k] != x
    ensures r.None? <==> x !in xs
  {
    var i := 0;
    while i < |xs|
      invariant 0 <= i <= |xs|
      invariant forall k :: 0 <= k < i ==> xs[k] != x
    {
      if xs[i] == x {
        return Some(i);
      }
      i := i + 1;
    }
    return None;
  }
}
