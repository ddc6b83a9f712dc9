/** What all the modules share: optional values, and sums over the participants of a protocol. */
module Prelude {

  datatype Option<+T> = None | Some(value: T)

  ghost predicate NoDup<T>(s: seq<T>) { forall i, j | 0 <= i < j < |s| :: s[i] != s[j] }

  /** All the parts, one after the other. */
  ghost function Concat<T>(ss: seq<seq<T>>): seq<T> {
    if ss == [] then [] else Concat(ss[..|ss| - 1]) + ss[|ss| - 1]
  }

  /** It does not matter from which end the parts are put together. */
  lemma {:induction false} ConcatFront<T>(x: seq<T>, ss: seq<seq<T>>)
    ensures Concat([x] + ss) == x + Concat(ss)
  {
    if ss == [] {
      assert [x] + ss == [x] && ([x])[..0] == [];
      assert Concat([x]) == Concat([]) + x == x;
    } else {
      var last := |ss| - 1;
      ConcatFront(x, ss[..last]);
      assert ([x] + ss)[..|ss|] == [x] + ss[..last];
      assert Concat([x] + ss) == (x + Concat(ss[..last])) + ss[last];
    }
  }

  /** The sum of the weights of all the elements; every participant is one position of a sequence. */
  ghost function Sum<T(!new)>(s: seq<T>, w: T -> int): int {
    if s == [] then 0 else Sum(s[..|s| - 1], w) + w(s[|s| - 1])
  }

  /** Changing one participant changes the sum by the difference of the two weights. */
  lemma {:induction false} SumUpdate<T(!new)>(s: seq<T>, i: nat, x: T, w: T -> int)
    requires i < |s|
    ensures Sum(s[i := x], w) == Sum(s, w) - w(s[i]) + w(x)
  {
    var last := |s| - 1;
    if i == last {
      assert s[i := x][..last] == s[..last];
    } else {
      assert s[i := x][..last] == s[..last][i := x];
      SumUpdate(s[..last], i, x, w);
    }
  }

  lemma SumAppend<T(!new)>(s: seq<T>, x: T, w: T -> int)
    ensures Sum(s + [x], w) == Sum(s, w) + w(x)
  {
    assert (s + [x])[..|s|] == s;
  }

  /** Weights that are never negative sum to at least the weight of any one element. */
  lemma {:induction false} SumAtLeast<T(!new)>(s: seq<T>, w: T -> int)
    requires forall x :: 0 <= w(x)
    ensures 0 <= Sum(s, w)
    ensures forall i | 0 <= i < |s| :: w(s[i]) <= Sum(s, w)
  {
    if s != [] {
      SumAtLeast(s[..|s| - 1], w);
      forall i | 0 <= i < |s| ensures w(s[i]) <= Sum(s, w) {
        if i < |s| - 1 { assert s[i] == s[..|s| - 1][i]; }
      }
    }
  }

  lemma {:induction false} SumZero<T(!new)>(s: seq<T>, w: T -> int)
    requires forall x | x in s :: w(x) == 0
    ensures Sum(s, w) == 0
  {
    if s != [] { SumZero(s[..|s| - 1], w); }
  }
}
