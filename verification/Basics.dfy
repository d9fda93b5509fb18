/** What several parts share. */
module Basics {
  datatype Option<T> = None | Some(value: T)

  type byte = x: int | 0 <= x < 256

  /** The numbers of an `unsigned int` lie below this. */
  const UINT: nat := 0x1_0000_0000

  /** How many blocks one file system operation may log. */
  const MAXOPBLOCKS: nat := 10

  function Min(a: int, b: int): int { if a < b then a else b }

  ghost function Elems(s: seq<nat>): set<nat> { set x | x in s }

  ghost predicate Distinct(s: seq<nat>) {
    forall i, j :: 0 <= i < j < |s| ==> s[i] != s[j]
  }

  lemma {:induction false} DistinctCard(s: seq<nat>)
    requires Distinct(s)
    ensures |Elems(s)| == |s|
  {
    if s == [] {
      assert Elems(s) == {};
    } else {
      var n := |s| - 1;
      DistinctCard(s[..n]);
      assert s[n] !in s[..n];
      assert Elems(s) == Elems(s[..n]) + {s[n]};
    }
  }

  lemma AtMost(a: set<nat>, b: set<nat>)
    requires a <= b
    ensures |a| <= |b|
  {
    assert b == a + (b - a);
  }

  lemma Grows(s: set<nat>, b: nat)
    ensures |s| <= |s + {b}| <= |s| + 1 && (b !in s ==> |s + {b}| == |s| + 1)
  {
    if b in s { assert s + {b} == s; }
  }
}
