/** Circular lists as sequences. */
module Rings {
  import opened Basics

  function Succ(list: seq<nat>, k: nat): nat
    requires k < |list|
  {
    if k + 1 < |list| then list[k + 1] else list[0]
  }

  function InsertAt(list: seq<nat>, k: nat, b: nat): (r: seq<nat>)
    requires k < |list|
    ensures |r| == |list| + 1
    ensures forall j :: 0 <= j < |r| ==> r[j] == if j <= k then list[j] else if j == k + 1 then b else list[j - 1]
    ensures forall x :: x in r <==> x in list || x == b
  {
    assert list == list[..k + 1] + list[k + 1..];
    list[..k + 1] + [b] + list[k + 1..]
  }

  function RemoveAt(list: seq<nat>, k: nat): (r: seq<nat>)
    requires k < |list|
    ensures |r| == |list| - 1
    ensures forall j :: 0 <= j < |r| ==> r[j] == if j < k then list[j] else list[j + 1]
  {
    list[..k] + list[k + 1..]
  }

  lemma RemovedMember(list: seq<nat>, k: nat, x: nat)
    requires k < |list| && Distinct(list)
    ensures x in RemoveAt(list, k) <==> x in list && x != list[k]
  {
    assert list == list[..k] + [list[k]] + list[k + 1..];
  }
}
