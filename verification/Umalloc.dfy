/** The user allocator: `malloc`, `free` and `morecore` over a circular free list in address order. */
module Umalloc {
  import opened Basics
  import opened Rings

  /** Addresses count header-sized units.  `ptr` and `size` are the fields of the headers in memory, `freep` is
      0 until the first `malloc`.  Beside them three books that no branch reads: `list` is the free list from
      `base` on, `live` the blocks handed out, and `home` the block that every unit got from `sbrk` is in. */
  datatype Heap = Heap(base: nat, ptr: map<nat, nat>, size: map<nat, nat>, freep: nat,
                       list: seq<nat>, live: set<nat>, home: map<nat, nat>)

  predicate Linked(ptr: map<nat, nat>, list: seq<nat>, k: nat)
    requires k < |list|
  {
    list[k] in ptr && ptr[list[k]] == Succ(list, k)
  }

  /** The free block at `k` ends before the next one starts. */
  predicate Gap(size: map<nat, nat>, list: seq<nat>, k: nat)
    requires k + 1 < |list|
  {
    list[k] in size && list[k] + size[list[k]] < list[k + 1]
  }

  ghost predicate Ascends(list: seq<nat>) { forall j, k :: 0 <= j < k < |list| ==> list[j] < list[k] }

  /** The list starts with the empty block `base`, ascends, and is closed by the pointers. */
  ghost predicate ListInv(h: Heap) {
    match h case Heap(base, ptr, size, _, list, _, _) =>
    && 0 < base && |list| > 0 && list[0] == base
    && Ascends(list)
    && (forall k: nat :: k < |list| ==> Linked(ptr, list, k))
    && (forall k :: 0 <= k < |list| ==> list[k] in size)
    && size[base] == 0
  }

  /** No two free blocks touch. */
  ghost predicate Coalesced(h: Heap) {
    match h case Heap(_, _, size, _, list, _, _) =>
    forall k: nat :: 0 < k < |list| - 1 ==> Gap(size, list, k)
  }

  /** A block, free or live. */
  predicate IsBlock(h: Heap, b: nat) {
    b != h.base && (b in h.list || b in h.live)
  }

  /** The blocks tile the units obtained from `sbrk`: each unit is in exactly one block. */
  ghost predicate Tiled(h: Heap) {
    match h case Heap(base, _, size, _, list, live, home) =>
    && (forall b :: b in live ==> b !in list && b > base)
    && (forall b :: IsBlock(h, b) ==> b in size && size[b] > 0)
    && (forall u :: u in home ==> IsBlock(h, home[u]) && home[u] in size && home[u] <= u < home[u] + size[home[u]])
    && (forall b, u :: IsBlock(h, b) && b in size && b <= u < b + size[b] ==> u in home && home[u] == b)
  }

  ghost predicate Valid(h: Heap) {
    match h case Heap(_, _, _, freep, list, _, _) =>
    ListInv(h) && Coalesced(h) && Tiled(h) && freep in list
  }

  /** Blocks do not overlap. */
  lemma Apart(h: Heap, a: nat, b: nat)
    requires Tiled(h) && IsBlock(h, a) && IsBlock(h, b) && a < b
    ensures a in h.size && b in h.size && a + h.size[a] <= b
  {
    assert b in h.home && h.home[b] == b;
  }

  // ---- free ----

  /** The position before which an address belongs in the list. */
  function Place(list: seq<nat>, b: nat): (k: nat)
    requires |list| > 0 && list[0] < b
    requires Ascends(list)
    ensures k < |list| && list[k] <= b && (k + 1 < |list| ==> b < list[k + 1])
    decreases |list|
  {
    if |list| == 1 || list[|list| - 1] <= b then |list| - 1 else Place(list[..|list| - 1], b)
  }

  /** How many steps along the ring from `c` to `k`. */
  function Ahead(n: nat, c: nat, k: nat): nat
    requires c < n && k < n
  {
    if k >= c then k - c else k + n - c
  }

  /** The search loop of `free`: the neighbours between which block `b` lies. */
  method FindPlace(h: Heap, b: nat) returns (p: nat, k: nat)
    requires ListInv(h) && h.freep in h.list && b > h.base && b !in h.list
    ensures k < |h.list| && p == h.list[k] && p < b && (k + 1 < |h.list| ==> b < h.list[k + 1])
  {
    k := Place(h.list, b);
    p := h.freep;
    var c :| 0 <= c < |h.list| && h.list[c] == p;
    assert Linked(h.ptr, h.list, c);
    while !(b > p && b < h.ptr[p])
      invariant 0 <= c < |h.list| && h.list[c] == p && Linked(h.ptr, h.list, c)
      decreases Ahead(|h.list|, c, k)
    {
      if p >= h.ptr[p] && (b > p || b < h.ptr[p]) { break; }
      p := h.ptr[p];
      c := if c + 1 < |h.list| then c + 1 else 0;
      assert Linked(h.ptr, h.list, c);
    }
    assert c == k;
  }

  /** Linking a live block into the list after position `k`, without merging. */
  function Insert(h: Heap, k: nat, b: nat): Heap
    requires k < |h.list|
  {
    h.(ptr := h.ptr[b := Succ(h.list, k)][h.list[k] := b], list := InsertAt(h.list, k, b), live := h.live - {b})
  }

  /** Merging the block at position `k + 1` into the one before it. */
  function Merge(h: Heap, k: nat): Heap
    requires k + 1 < |h.list| && h.list[k] in h.size && h.list[k + 1] in h.size
  {
    var a, b := h.list[k], h.list[k + 1];
    h.(ptr := h.ptr[a := Succ(h.list, k + 1)], size := h.size[a := h.size[a] + h.size[b]],
       list := RemoveAt(h.list, k + 1),
       home := map u | u in h.home :: if h.home[u] == b then a else h.home[u])
  }

  lemma InsertAscends(list: seq<nat>, k: nat, b: nat)
    requires Ascends(list) && k < |list| && list[k] < b && (k + 1 < |list| ==> b < list[k + 1])
    ensures Ascends(InsertAt(list, k, b))
  {}

  lemma InsertLinks(h: Heap, k: nat, b: nat, j: nat)
    requires ListInv(h) && k < |h.list| && b in h.size && b !in h.list && j <= |h.list|
    ensures Linked(Insert(h, k, b).ptr, Insert(h, k, b).list, j) && Insert(h, k, b).list[j] in h.size
  {
    if j != k + 1 { assert Linked(h.ptr, h.list, if j <= k then j else j - 1); }
  }

  lemma InsertList(h: Heap, k: nat, b: nat)
    requires ListInv(h) && k < |h.list| && b in h.size && h.list[k] < b && (k + 1 < |h.list| ==> b < h.list[k + 1])
    ensures ListInv(Insert(h, k, b))
  {
    var t := Insert(h, k, b);
    InsertAscends(h.list, k, b);
    forall j: nat | j < |t.list|
      ensures Linked(t.ptr, t.list, j) && t.list[j] in t.size
    {
      InsertLinks(h, k, b, j);
    }
  }

  lemma InsertTiled(h: Heap, k: nat, b: nat)
    requires ListInv(h) && Tiled(h) && k < |h.list| && b in h.live
    ensures Tiled(Insert(h, k, b))
  {
    assert forall x :: IsBlock(Insert(h, k, b), x) <==> IsBlock(h, x);
  }

  lemma MergeLinks(h: Heap, k: nat, j: nat)
    requires ListInv(h) && 0 < k && k + 1 < |h.list| && j < |h.list| - 1
    ensures Linked(Merge(h, k).ptr, Merge(h, k).list, j) && Merge(h, k).list[j] in Merge(h, k).size
  {
    assert Linked(h.ptr, h.list, if j <= k then j else j + 1);
  }

  lemma MergeList(h: Heap, k: nat)
    requires ListInv(h) && 0 < k && k + 1 < |h.list|
    ensures ListInv(Merge(h, k))
  {
    var t := Merge(h, k);
    assert Ascends(t.list);
    forall j: nat | j < |t.list|
      ensures Linked(t.ptr, t.list, j) && t.list[j] in t.size
    {
      MergeLinks(h, k, j);
    }
  }

  lemma MergeTiled(h: Heap, k: nat)
    requires ListInv(h) && 0 < k && k + 1 < |h.list| && Tiled(h) && h.list[k] + h.size[h.list[k]] == h.list[k + 1]
    ensures Tiled(Merge(h, k))
  {
    hide Linked;
    MergeBlocks(h, k);
    var t := Merge(h, k);
    MergeLive(h, k);
    assert h.list[k] != h.list[k + 1];
    assert h.list[k] in h.size && h.list[k + 1] in h.size;
    hide IsBlock, RemoveAt, Merge, Tiled, ListInv;
    forall b | IsBlock(t, b)
      ensures b in t.size && t.size[b] > 0
    {
      MergeUnit(h, k, b, 0);
    }
    forall u | u in t.home
      ensures IsBlock(t, t.home[u]) && t.home[u] in t.size && t.home[u] <= u < t.home[u] + t.size[t.home[u]]
    {
      MergeHome(h, k, u);
    }
    forall b, u | IsBlock(t, b) && b in t.size && b <= u < b + t.size[b]
      ensures u in t.home && t.home[u] == b
    {
      MergeUnit(h, k, b, u);
    }
    AreTiled(t);
  }

  lemma AreTiled(h: Heap)
    requires forall b :: b in h.live ==> b !in h.list && b > h.base
    requires forall b :: IsBlock(h, b) ==> b in h.size && h.size[b] > 0
    requires forall u :: u in h.home ==>
               IsBlock(h, h.home[u]) && h.home[u] in h.size && h.home[u] <= u < h.home[u] + h.size[h.home[u]]
    requires forall b, u :: IsBlock(h, b) && b in h.size && b <= u < b + h.size[b] ==> u in h.home && h.home[u] == b
    ensures Tiled(h)
  {}

  lemma MergeLive(h: Heap, k: nat)
    requires ListInv(h) && Tiled(h) && 0 < k && k + 1 < |h.list|
    ensures forall b :: b in Merge(h, k).live ==> b !in Merge(h, k).list && b > Merge(h, k).base
  {
    hide Linked, IsBlock;
  }

  /** A block of the merged list: the merged one covers the units of both. */
  lemma MergeUnit(h: Heap, k: nat, x: nat, u: nat)
    requires k + 1 < |h.list| && Tiled(h) && IsBlock(h, h.list[k]) && IsBlock(h, h.list[k + 1]) && IsBlock(h, x) &&
             x != h.list[k + 1]
    requires h.list[k] in h.size && h.list[k + 1] in h.size && h.list[k] + h.size[h.list[k]] == h.list[k + 1]
    ensures x in Merge(h, k).size && Merge(h, k).size[x] > 0
    ensures x <= u < x + Merge(h, k).size[x] ==> u in Merge(h, k).home && Merge(h, k).home[u] == x
  {
    hide IsBlock, RemoveAt;
    if x == h.list[k] && h.list[k + 1] <= u < h.list[k + 1] + h.size[h.list[k + 1]] {
      assert u in h.home && h.home[u] == h.list[k + 1];
    } else if x <= u < x + h.size[x] {
      assert u in h.home && h.home[u] == x;
    }
  }

  lemma MergeHome(h: Heap, k: nat, u: nat)
    requires k + 1 < |h.list| && Tiled(h) && IsBlock(h, h.list[k]) && IsBlock(h, h.list[k + 1]) &&
             h.list[k] != h.list[k + 1]
    requires h.list[k] in h.size && h.list[k + 1] in h.size && h.list[k] + h.size[h.list[k]] == h.list[k + 1]
    requires u in Merge(h, k).home
    ensures var x := Merge(h, k).home[u];
            IsBlock(h, x) && x != h.list[k + 1] && x in Merge(h, k).size && x <= u < x + Merge(h, k).size[x]
  {
    hide IsBlock, RemoveAt;
    assert IsBlock(h, h.home[u]) && h.home[u] <= u < h.home[u] + h.size[h.home[u]];
  }

  lemma MergeBlocks(h: Heap, k: nat)
    requires ListInv(h) && 0 < k && k + 1 < |h.list| && Tiled(h)
    ensures forall x: nat :: IsBlock(Merge(h, k), x) == (IsBlock(h, x) && x != h.list[k + 1])
    ensures IsBlock(h, h.list[k]) && IsBlock(h, h.list[k + 1])
    ensures forall x :: x in Merge(h, k).list ==> x in h.list
  {
    hide Linked;
    forall x: nat
      ensures IsBlock(Merge(h, k), x) == (IsBlock(h, x) && x != h.list[k + 1])
      ensures x in Merge(h, k).list ==> x in h.list
    {
      RemovedMember(h.list, k + 1, x);
    }
  }

  /** Every gap is open but perhaps those after the positions in `s`. */
  ghost predicate CoalescedBut(h: Heap, s: set<nat>) {
    match h case Heap(_, _, size, _, list, _, _) =>
    forall k: nat :: 0 < k < |list| - 1 && k !in s ==> Gap(size, list, k)
  }

  lemma InsertGaps(h: Heap, k: nat, b: nat)
    requires ListInv(h) && Coalesced(h) && k < |h.list|
    ensures CoalescedBut(Insert(h, k, b), {k, k + 1})
  {
    var t := Insert(h, k, b);
    forall j: nat | 0 < j < |t.list| - 1 && j != k && j != k + 1
      ensures Gap(t.size, t.list, j)
    {
      assert Gap(h.size, h.list, if j < k then j else j - 1);
    }
  }

  /** A merge closes the doubtful gap, and leaves the one after it as the absorbed block had it. */
  lemma MergeGaps(h: Heap, k: nat, s: set<nat>)
    requires ListInv(h) && 0 < k && k + 1 < |h.list| && CoalescedBut(h, s + {k}) && (forall x :: x in s ==> x < k)
    requires h.list[k] + h.size[h.list[k]] == h.list[k + 1]
    ensures CoalescedBut(Merge(h, k), s)
  {
    var t := Merge(h, k);
    forall j: nat | 0 < j < |t.list| - 1 && j !in s
      ensures Gap(t.size, t.list, j)
    {
      assert Gap(h.size, h.list, if j < k then j else j + 1);
    }
  }

  /** Neighbours that do not touch leave a gap. */
  lemma OpenGap(h: Heap, k: nat, s: set<nat>)
    requires ListInv(h) && Tiled(h) && k + 1 < |h.list| && CoalescedBut(h, s + {k})
    requires k > 0 ==> h.list[k] + h.size[h.list[k]] != h.list[k + 1]
    ensures CoalescedBut(h, s)
  {
    if k > 0 { Apart(h, h.list[k], h.list[k + 1]); }
  }

  function MergeUp(h: Heap, k: nat): Heap
    requires k < |h.list| && forall j :: 0 <= j < |h.list| ==> h.list[j] in h.size
  {
    if k + 1 < |h.list| && h.list[k] + h.size[h.list[k]] == h.list[k + 1] then Merge(h, k) else h
  }

  /** Block `b` linked in after position `k`, then merged with the block above it, then with the one below. */
  function Freed(h: Heap, k: nat, b: nat): Heap
    requires ListInv(h) && k < |h.list| && b in h.size && h.list[k] < b && (k + 1 < |h.list| ==> b < h.list[k + 1])
  {
    InsertList(h, k, b);
    var h1 := Insert(h, k, b);
    var h2 := MergeUp(h1, k + 1);
    assert ListInv(h2) by { if h2 != h1 { MergeList(h1, k + 1); } }
    if k > 0 then MergeUp(h2, k) else h2
  }

  lemma NoGapAbove(h: Heap, k: nat, s: set<nat>)
    requires CoalescedBut(h, s + {k}) && k + 1 >= |h.list|
    ensures CoalescedBut(h, s)
  {}

  lemma MergeFacts(h: Heap, k: nat)
    requires ListInv(h) && Tiled(h) && 0 < k && k + 1 < |h.list|
    ensures var t := Merge(h, k);
            && (forall j :: 0 <= j <= k ==> j < |t.list| && t.list[j] == h.list[j])
            && t.live == h.live && t.home.Keys == h.home.Keys && t.base == h.base
            && (forall a :: a in h.size ==>
                  a in t.size && (t.size[a] == h.size[a] || (a == h.list[k] && t.size[a] > h.size[a])))
  {
    hide Linked;
    assert IsBlock(h, h.list[k + 1]);
  }

  lemma MergeUpValid(h: Heap, k: nat, s: set<nat>)
    requires ListInv(h) && Tiled(h) && CoalescedBut(h, s + {k}) && 0 < k < |h.list| && forall x :: x in s ==> x < k
    ensures ListInv(MergeUp(h, k)) && Tiled(MergeUp(h, k)) && CoalescedBut(MergeUp(h, k), s)
    ensures forall j :: 0 <= j <= k ==> j < |MergeUp(h, k).list| && MergeUp(h, k).list[j] == h.list[j]
    ensures MergeUp(h, k).live == h.live && MergeUp(h, k).home.Keys == h.home.Keys && MergeUp(h, k).base == h.base
    ensures forall a :: a in h.size ==>
              a in MergeUp(h, k).size &&
              (MergeUp(h, k).size[a] == h.size[a] || (a == h.list[k] && MergeUp(h, k).size[a] > h.size[a]))
  {
    hide Tiled, CoalescedBut, Linked, Merge, Ascends;
    if k + 1 < |h.list| {
      if h.list[k] + h.size[h.list[k]] == h.list[k + 1] {
        MergeList(h, k);
        MergeTiled(h, k);
        MergeGaps(h, k, s);
        MergeFacts(h, k);
      } else {
        OpenGap(h, k, s);
      }
    } else {
      NoGapAbove(h, k, s);
    }
  }

  lemma InsertFacts(h: Heap, k: nat, b: nat)
    requires k < |h.list|
    ensures var t := Insert(h, k, b);
            && t.size == h.size && t.home == h.home && t.live == h.live - {b} && t.base == h.base
            && |t.list| == |h.list| + 1 && t.list[k] == h.list[k] && t.list[k + 1] == b
  {}

  /** What the block of `b` becomes: itself, or the block below it has taken it in. */
  lemma MergeUpHome(h: Heap, k: nat, b: nat)
    requires ListInv(h) && Tiled(h) && 0 < k < |h.list| && b in h.home
    ensures b in MergeUp(h, k).home
    ensures MergeUp(h, k) == h ||
            (k + 1 < |h.list| && MergeUp(h, k).home[b] == if h.home[b] == h.list[k + 1] then h.list[k] else h.home[b])
    ensures h.home[b] in h.size && MergeUp(h, k).home[b] in MergeUp(h, k).size
    ensures MergeUp(h, k).size[MergeUp(h, k).home[b]] >= h.size[h.home[b]]
  {}

  ghost predicate Sound(h: Heap) { ListInv(h) && Coalesced(h) && Tiled(h) }

  lemma SetFreep(h: Heap, p: nat)
    requires Sound(h) && p in h.list
    ensures Valid(h.(freep := p))
  {
    assert forall x :: IsBlock(h.(freep := p), x) <==> IsBlock(h, x);
  }

  lemma FreedSound(h: Heap, k: nat, b: nat)
    requires Valid(h) && k < |h.list| && b in h.live && h.list[k] < b && (k + 1 < |h.list| ==> b < h.list[k + 1])
    ensures b in h.size && Sound(Freed(h, k, b))
    ensures var t := Freed(h, k, b);
            && t.live == h.live - {b} && t.home.Keys == h.home.Keys && t.base == h.base
            && (forall a :: a in t.live ==> a in h.size && t.size[a] == h.size[a])
            && k < |t.list| && t.list[k] == h.list[k]
  {
    InsertList(h, k, b);
    InsertTiled(h, k, b);
    InsertGaps(h, k, b);
    InsertFacts(h, k, b);
    assert forall a :: a in h.live ==> a in h.size && a != h.list[k];
    var h1 := Insert(h, k, b);
    hide Insert, MergeUp, Tiled, ListInv;
    assert {k} + {k + 1} == {k, k + 1};
    MergeUpValid(h1, k + 1, {k});
    var h2 := MergeUp(h1, k + 1);
    assert {} + {k} == {k};
    if k > 0 { MergeUpValid(h2, k, {}); }
  }

  /** The freed units are in a block of the list, at `list[k]` or right after it. */
  lemma FreedHome(h: Heap, k: nat, b: nat)
    requires Valid(h) && k < |h.list| && b in h.live && h.list[k] < b && (k + 1 < |h.list| ==> b < h.list[k + 1])
    ensures b in h.size
    ensures var t := Freed(h, k, b);
            && b in t.home && t.home[b] in t.size && t.size[t.home[b]] >= h.size[b] && k < |t.list|
            && (t.home[b] == t.list[k] || (k + 1 < |t.list| && t.home[b] == t.list[k + 1]))
  {
    InsertList(h, k, b);
    InsertTiled(h, k, b);
    InsertGaps(h, k, b);
    InsertFacts(h, k, b);
    assert IsBlock(h, b) && h.home[b] == b;
    var h1 := Insert(h, k, b);
    hide Insert, MergeUp, Tiled, ListInv;
    assert {k} + {k + 1} == {k, k + 1};
    MergeUpValid(h1, k + 1, {k});
    MergeUpHome(h1, k + 1, b);
    var h2 := MergeUp(h1, k + 1);
    MergedHome(h2, k, b, h.size[b]);
  }

  lemma MergedHome(h: Heap, k: nat, b: nat, n: nat)
    requires ListInv(h) && Tiled(h) && k + 1 < |h.list| && b in h.home && h.home[b] == b == h.list[k + 1] &&
             h.size[b] >= n
    ensures var t := if k > 0 then MergeUp(h, k) else h;
            && b in t.home && t.home[b] in t.size && t.size[t.home[b]] >= n && k < |t.list|
            && (t.home[b] == t.list[k] || (k + 1 < |t.list| && t.home[b] == t.list[k + 1]))
  {
    if k > 0 {
      MergeUpHome(h, k, b);
      MergeUpShape(h, k);
    }
    hide MergeUp;
  }

  lemma InsertShape(h: Heap, k: nat, b: nat)
    requires k < |h.list|
    ensures var t := Insert(h, k, b);
            && t.ptr == h.ptr[b := Succ(h.list, k)][h.list[k] := b] && t.size == h.size
            && |t.list| == |h.list| + 1 && t.list[k] == h.list[k] && t.list[k + 1] == b
            && (k + 1 < |h.list| ==> t.list[k + 2] == h.list[k + 1] && Succ(t.list, k + 2) == Succ(h.list, k + 1))
  {}

  lemma MergeUpShape(h: Heap, k: nat)
    requires 0 < k < |h.list| && forall j :: 0 <= j < |h.list| ==> h.list[j] in h.size
    ensures var t, a := MergeUp(h, k), h.list[k];
            if k + 1 < |h.list| && a + h.size[a] == h.list[k + 1]
            then t.ptr == h.ptr[a := Succ(h.list, k + 1)] && t.size == h.size[a := h.size[a] + h.size[h.list[k + 1]]] &&
            |t.list| == |h.list| - 1 &&
                 t.list[k - 1] == h.list[k - 1] && t.list[k] == a
            else t == h
  {}

  /** The first test of `free`: `b` takes in the block above it, or points to it. */
  lemma UpMaps(h: Heap, k: nat, b: nat)
    requires ListInv(h) && k < |h.list| && b in h.size && h.size[b] > 0 && h.list[k] < b &&
             (k + 1 < |h.list| ==> b < h.list[k + 1])
    ensures Linked(h.ptr, h.list, k) && Succ(h.list, k) in h.ptr && Succ(h.list, k) in h.size
    ensures ListInv(Insert(h, k, b))
    ensures var p, q := h.list[k], Succ(h.list, k);
            var up := b + h.size[b] == q;
            var h2 := MergeUp(Insert(h, k, b), k + 1);
            && h2.ptr == (if up then h.ptr[b := h.ptr[q]] else h.ptr[b := q])[p := b]
            && h2.size == (if up then h.size[b := h.size[b] + h.size[q]] else h.size)
            && k + 1 < |h2.list| && h2.list[k] == p && h2.list[k + 1] == b && ListInv(h2)
  {
    assert Linked(h.ptr, h.list, k);
    if k + 1 < |h.list| { assert Linked(h.ptr, h.list, k + 1); } else { assert Linked(h.ptr, h.list, 0); }
    InsertList(h, k, b);
    InsertShape(h, k, b);
    var h1 := Insert(h, k, b);
    assert forall j :: 0 <= j < |h1.list| ==> h1.list[j] in h1.size;
    hide Insert, MergeUp, ListInv;
    MergeUpShape(h1, k + 1);
    MergeUpList(h1, k + 1);
    var q := Succ(h.list, k);
    WriteAgain(h.ptr, b, h.list[k], q, b, h.ptr[q]);
  }

  lemma WriteAgain(m: map<nat, nat>, b: nat, p: nat, x: nat, y: nat, z: nat)
    requires b != p
    ensures m[b := x][p := y][b := z] == m[b := z][p := y]
  {}

  lemma MergeUpList(h: Heap, k: nat)
    requires ListInv(h) && 0 < k < |h.list|
    ensures ListInv(MergeUp(h, k))
  {
    if MergeUp(h, k) != h { MergeList(h, k); }
  }

  /** The second test: the block below takes `b` in, or points to it already. */
  lemma DownMaps(h: Heap, k: nat)
    requires ListInv(h) && k + 1 < |h.list|
    ensures var p, b := h.list[k], h.list[k + 1];
            var down := p + h.size[p] == b;
            var t := if k > 0 then MergeUp(h, k) else h;
            && b in h.ptr
            && t.ptr == (if down then h.ptr[p := h.ptr[b]] else h.ptr)
            && t.size == (if down then h.size[p := h.size[p] + h.size[b]] else h.size)
  {
    assert Linked(h.ptr, h.list, k) && Linked(h.ptr, h.list, k + 1);
  }

  /** How `free` rewrites the headers around the new block. */
  method Relink(h: Heap, p: nat, b: nat, ghost k: nat) returns (ptr: map<nat, nat>, size: map<nat, nat>)
    requires ListInv(h) && k < |h.list| && p == h.list[k] && b in h.size && h.size[b] > 0 && p < b &&
             (k + 1 < |h.list| ==> b < h.list[k + 1])
    ensures ptr == Freed(h, k, b).ptr && size == Freed(h, k, b).size
  {
    hide Insert, MergeUp;
    ptr, size := h.ptr, h.size;
    UpMaps(h, k, b);
    InsertShape(h, k, b);
    ghost var h2 := MergeUp(Insert(h, k, b), k + 1);
    DownMaps(h2, k);
    var q := ptr[p];
    if b + size[b] == q {
      size := size[b := size[b] + size[q]];
      ptr := ptr[b := ptr[q]];
    } else {
      ptr := ptr[b := q];
    }
    if p + size[p] == b {
      size := size[p := size[p] + size[b]];
      ptr := ptr[p := ptr[b]];
    } else {
      ptr := ptr[p := b];
    }
  }

  lemma LiveBlock(h: Heap, b: nat)
    requires Valid(h) && b in h.live
    ensures ListInv(h) && h.freep in h.list && b > h.base && b !in h.list && b in h.size && h.size[b] > 0
  {
    assert IsBlock(h, b);
  }

  /** `free` of a live block. */
  method Free(h: Heap, b: nat) returns (t: Heap)
    requires Valid(h) && b in h.live
    ensures Valid(t) && t.live == h.live - {b} && t.home.Keys == h.home.Keys && t.base == h.base
    ensures forall a :: a in t.live ==> a in h.size && a in t.size && t.size[a] == h.size[a]
    ensures b in h.size && b in t.home && t.home[b] in t.list && t.home[b] in t.size && t.size[t.home[b]] >= h.size[b]
    ensures t.freep in t.ptr && (t.home[b] == t.freep || t.home[b] == t.ptr[t.freep])
  {
    hide Valid, Sound, Freed, ListInv;
    LiveBlock(h, b);
    var p, k := FindPlace(h, b);
    FreedSound(h, k, b);
    FreedHome(h, k, b);
    var g := Freed(h, k, b);
    var ptr, size := Relink(h, p, b, k);
    t := Heap(h.base, ptr, size, p, g.list, g.live, g.home);
    assert t == g.(freep := p);
    SetFreep(g, p);
    ListLink(t, k);
    LiveSized(h, t);
  }

  lemma ListLink(h: Heap, k: nat)
    requires Valid(h) && k < |h.list|
    ensures Linked(h.ptr, h.list, k)
  {}

  lemma LiveSized(h: Heap, t: Heap)
    requires Valid(t)
    ensures forall a :: a in t.live ==> a in t.size
  {
    assert forall a :: a in t.live ==> IsBlock(t, a);
  }

  // ---- malloc ----

  const UNIT: nat := 8

  /** Units for `nbytes` bytes and their header, in 32-bit arithmetic. */
  function Units(nbytes: nat): (n: nat)
    requires nbytes < UINT
    ensures n >= 1
  {
    (nbytes + UNIT - 1) % UINT / UNIT + 1
  }

  /** A block of that many units holds the bytes, and the request to `sbrk` is a positive `int`, exactly up to
      this size: beyond it the sum or the product leaves its range. */
  lemma UnitsSuffice(nbytes: nat)
    requires nbytes < UINT
    ensures (Units(nbytes) - 1) * UNIT >= nbytes <==> nbytes <= UINT - UNIT
    ensures (Units(nbytes) - 1) * UNIT >= nbytes && Core(Units(nbytes)) * UNIT < 0x8000_0000 <==> nbytes <= 0x7FFF_FFF0
  {}

  /** Taking the whole block at position `i` off the list. */
  function TakeAll(h: Heap, i: nat): Heap
    requires 0 < i < |h.list|
  {
    h.(ptr := h.ptr[h.list[i - 1] := Succ(h.list, i)], list := RemoveAt(h.list, i), live := h.live + {h.list[i]},
       freep := h.list[i - 1])
  }

  lemma TakeAllValid(h: Heap, i: nat)
    requires Valid(h) && 0 < i < |h.list|
    ensures Valid(TakeAll(h, i)) && h.list[i] !in h.live && h.list[i] in h.size
  {
    var t, a := TakeAll(h, i), h.list[i];
    assert IsBlock(h, a);
    forall j: nat | j < |t.list|
      ensures Linked(t.ptr, t.list, j) && (0 < j < |t.list| - 1 ==> Gap(t.size, t.list, j))
    {
      TakeAllAt(h, i, j);
    }
    forall x
      ensures x in t.list <==> x in h.list && x != a
    {
      RemovedMember(h.list, i, x);
    }
    assert forall x :: IsBlock(t, x) <==> IsBlock(h, x);
    assert t.list[i - 1] == t.freep;
  }

  lemma TakeAllAt(h: Heap, i: nat, j: nat)
    requires Valid(h) && 0 < i < |h.list| && j < |h.list| - 1
    ensures Linked(TakeAll(h, i).ptr, TakeAll(h, i).list, j)
    ensures 0 < j < |h.list| - 2 ==> Gap(h.size, TakeAll(h, i).list, j)
  {
    var k := if j < i then j else j + 1;
    assert Linked(h.ptr, h.list, k);
    if 0 < k < |h.list| - 1 { assert Gap(h.size, h.list, k); }
  }

  /** Cutting `n` units off the end of the block at position `i`. */
  function TakeTail(h: Heap, i: nat, n: nat): Heap
    requires 0 < i < |h.list| && h.list[i] in h.size && h.size[h.list[i]] > n
  {
    var a := h.list[i];
    var b := a + h.size[a] - n;
    h.(size := h.size[a := h.size[a] - n][b := n], live := h.live + {b}, freep := h.list[i - 1],
       home := map u | u in h.home :: if b <= u < b + n then b else h.home[u])
  }

  lemma TakeTailValid(h: Heap, i: nat, n: nat)
    requires Valid(h) && 0 < i < |h.list| && n > 0 && h.list[i] in h.size && h.size[h.list[i]] > n
    ensures Valid(TakeTail(h, i, n)) && h.list[i] + h.size[h.list[i]] - n !in h.live
  {
    var t, a := TakeTail(h, i, n), h.list[i];
    var b := a + h.size[a] - n;
    NewHeader(h, i, b);
    forall j: nat | 0 < j < |t.list| - 1
      ensures Gap(t.size, t.list, j)
    {
      assert Gap(h.size, h.list, j);
    }
    assert forall j: nat :: j < |t.list| ==> Linked(h.ptr, h.list, j) ==> Linked(t.ptr, t.list, j);
    TailTiled(h, i, n);
  }

  /** An address inside a block is the address of no block. */
  lemma NewHeader(h: Heap, i: nat, b: nat)
    requires Valid(h) && 0 < i < |h.list| && h.list[i] in h.size && h.list[i] < b < h.list[i] + h.size[h.list[i]]
    ensures !IsBlock(h, b) && b > h.base && b !in h.list && b !in h.live
  {
    assert IsBlock(h, h.list[i]);
    assert h.home[b] == h.list[i];
  }

  lemma TailUnit(h: Heap, i: nat, n: nat, u: nat)
    requires Valid(h) && 0 < i < |h.list| && n > 0 && h.list[i] in h.size && h.size[h.list[i]] > n && u in h.home
    ensures var t := TakeTail(h, i, n);
            IsBlock(t, t.home[u]) && t.home[u] in t.size && t.home[u] <= u < t.home[u] + t.size[t.home[u]]
  {
    NewHeader(h, i, h.list[i] + h.size[h.list[i]] - n);
    assert IsBlock(h, h.list[i]);
  }

  lemma TailBlock(h: Heap, i: nat, n: nat, x: nat, u: nat)
    requires Valid(h) && 0 < i < |h.list| && n > 0 && h.list[i] in h.size && h.size[h.list[i]] > n
    requires var t := TakeTail(h, i, n); IsBlock(t, x) && x in t.size && x <= u < x + t.size[x]
    ensures u in h.home && TakeTail(h, i, n).home[u] == x
  {
    NewHeader(h, i, h.list[i] + h.size[h.list[i]] - n);
    assert IsBlock(h, h.list[i]);
    assert x == h.list[i] + h.size[h.list[i]] - n || IsBlock(h, x);
  }

  lemma TailHeads(h: Heap, i: nat, n: nat)
    requires Valid(h) && 0 < i < |h.list| && n > 0 && h.list[i] in h.size && h.size[h.list[i]] > n
    ensures var t := TakeTail(h, i, n);
            && t.home.Keys == h.home.Keys
            && (forall b :: b in t.live ==> b !in t.list && b > t.base)
            && (forall b :: IsBlock(t, b) ==> b in t.size && t.size[b] > 0)
  {
    NewHeader(h, i, h.list[i] + h.size[h.list[i]] - n);
    assert forall b :: IsBlock(TakeTail(h, i, n), b) ==> IsBlock(h, b) || b == h.list[i] + h.size[h.list[i]] - n;
  }

  lemma TailTiled(h: Heap, i: nat, n: nat)
    requires Valid(h) && 0 < i < |h.list| && n > 0 && h.list[i] in h.size && h.size[h.list[i]] > n
    ensures Tiled(TakeTail(h, i, n))
  {
    hide TakeTail, Valid, IsBlock, Tiled;
    var t := TakeTail(h, i, n);
    TailHeads(h, i, n);
    forall u | u in t.home
      ensures IsBlock(t, t.home[u]) && t.home[u] in t.size && t.home[u] <= u < t.home[u] + t.size[t.home[u]]
    {
      TailUnit(h, i, n, u);
    }
    forall x: nat, u: nat | IsBlock(t, x) && x in t.size && x <= u < x + t.size[x]
      ensures u in t.home && t.home[u] == x
    {
      TailBlock(h, i, n, x, u);
    }
    AreTiled(t);
  }

  function Region(hp: nat, nu: nat): (r: set<nat>)
    ensures forall u :: u in r <==> hp <= u < hp + nu
    decreases nu
  {
    if nu == 0 then {} else Region(hp, nu - 1) + {hp + nu - 1}
  }

  /** A region got from `sbrk`, as a live block of its own. */
  function Granted(h: Heap, hp: nat, nu: nat): Heap {
    h.(size := h.size[hp := nu], live := h.live + {hp},
       home := map u | u in h.home.Keys + Region(hp, nu) :: if u in h.home then h.home[u] else hp)
  }

  lemma BelowCore(h: Heap, hp: nat, b: nat)
    requires Tiled(h) && (forall u :: u in h.home ==> u < hp) && IsBlock(h, b)
    ensures b < hp && b in h.size && b + h.size[b] <= hp
  {
    assert h.home[b] == b;
    assert h.home[b + h.size[b] - 1] == b;
  }

  lemma GrantedHeads(h: Heap, hp: nat, nu: nat)
    requires Tiled(h) && nu > 0 && hp > h.base && forall u :: u in h.home ==> u < hp
    ensures hp !in h.live && hp !in h.list
    ensures forall b: nat :: IsBlock(h, b) ==> b < hp && b in h.size && b + h.size[b] <= hp
  {
    forall b: nat | IsBlock(h, b)
      ensures b < hp && b in h.size && b + h.size[b] <= hp
    {
      BelowCore(h, hp, b);
    }
    assert !IsBlock(h, hp);
  }

  lemma GrantedIs(h: Heap, hp: nat, nu: nat)
    ensures var t := Granted(h, hp, nu);
            && t.size == h.size[hp := nu] && t.live == h.live + {hp} && t.list == h.list && t.base == h.base
            && (forall u :: u in t.home <==> u in h.home || hp <= u < hp + nu)
            && (forall u :: u in t.home ==> t.home[u] == if u in h.home then h.home[u] else hp)
  {}

  lemma GrantedUnit(h: Heap, hp: nat, nu: nat, u: nat)
    requires Tiled(h) && nu > 0 && hp > h.base && u in Granted(h, hp, nu).home && forall u :: u in h.home ==> u < hp
    ensures var t := Granted(h, hp, nu);
            IsBlock(t, t.home[u]) && t.home[u] in t.size && t.home[u] <= u < t.home[u] + t.size[t.home[u]]
  {
    GrantedIs(h, hp, nu);
    hide Granted;
    if u in h.home { assert IsBlock(h, h.home[u]); }
  }

  lemma GrantedBlock(h: Heap, hp: nat, nu: nat, b: nat, u: nat)
    requires Tiled(h) && nu > 0 && hp > h.base && IsBlock(Granted(h, hp, nu), b) && forall u :: u in h.home ==> u < hp
    ensures var t := Granted(h, hp, nu);
            && b in t.size && t.size[b] > 0
            && (b <= u < b + t.size[b] ==> u in t.home && t.home[u] == b)
  {
    GrantedIs(h, hp, nu);
    hide Granted;
    if b != hp {
      assert IsBlock(h, b);
      BelowCore(h, hp, b);
    }
  }

  lemma GrantedLive(h: Heap, hp: nat, nu: nat)
    requires Tiled(h) && hp > h.base && hp !in h.live && hp !in h.list
    ensures var t := Granted(h, hp, nu); forall b :: b in t.live ==> b !in t.list && b > t.base
  {
    hide Region, IsBlock;
  }

  lemma GrantedTiled(h: Heap, hp: nat, nu: nat)
    requires Tiled(h) && nu > 0 && hp > h.base && forall u :: u in h.home ==> u < hp
    ensures Tiled(Granted(h, hp, nu)) && hp !in h.live
    ensures forall b: nat :: IsBlock(h, b) ==> b < hp && b in h.size
  {
    hide Granted, Tiled, IsBlock;
    GrantedHeads(h, hp, nu);
    var t := Granted(h, hp, nu);
    GrantedLive(h, hp, nu);
    forall u | u in t.home
      ensures IsBlock(t, t.home[u]) && t.home[u] in t.size && t.home[u] <= u < t.home[u] + t.size[t.home[u]]
    {
      GrantedUnit(h, hp, nu, u);
    }
    forall b: nat, u: nat | IsBlock(t, b) && b in t.size && b <= u < b + t.size[b]
      ensures u in t.home && t.home[u] == b
    {
      GrantedBlock(h, hp, nu, b, u);
    }
    forall b: nat | IsBlock(t, b)
      ensures b in t.size && t.size[b] > 0
    {
      GrantedBlock(h, hp, nu, b, b);
    }
    AreTiled(t);
  }

  lemma GrantedValid(h: Heap, hp: nat, nu: nat)
    requires Valid(h) && nu > 0 && hp > h.base && forall u :: u in h.home ==> u < hp
    ensures Valid(Granted(h, hp, nu)) && hp !in h.live
    ensures forall a :: a in h.live ==> a in h.size && a != hp
  {
    GrantedTiled(h, hp, nu);
    assert forall a :: a in h.live ==> IsBlock(h, a);
    assert forall k :: 0 < k < |h.list| ==> IsBlock(h, h.list[k]);
    GrantedList(h, hp, nu);
  }

  lemma GrantedList(h: Heap, hp: nat, nu: nat)
    requires Valid(h) && hp > h.base && forall k :: 0 < k < |h.list| ==> h.list[k] < hp
    ensures ListInv(Granted(h, hp, nu)) && Coalesced(Granted(h, hp, nu))
  {
    var t := Granted(h, hp, nu);
    forall k: nat | k < |h.list|
      ensures Linked(t.ptr, t.list, k) && (0 < k < |h.list| - 1 ==> Gap(t.size, t.list, k))
    {
      assert Linked(h.ptr, h.list, k);
      if 0 < k < |h.list| - 1 { assert Gap(h.size, h.list, k); }
    }
  }

  /** What `sbrk` may answer to a request for `nu` units: nothing, or a region above everything it gave. */
  ghost predicate Fresh(h: Heap, core: Option<nat>) {
    core.Some? ==> core.value > h.base && forall u :: u in h.home ==> u < core.value
  }

  /** The live blocks keep their sizes. */
  ghost predicate LiveKept(h: Heap, t: Heap) {
    forall b :: b in h.live ==> b in h.size && b in t.size && t.size[b] == h.size[b]
  }

  lemma KeptOn(h: Heap, s: Heap, t: Heap)
    requires LiveKept(h, s) && LiveKept(s, t) && h.live <= s.live
    ensures LiveKept(h, t)
  {}

  lemma StartKept(h: Heap, t: Heap)
    requires Valid(t) && t.live == h.live && (t == h || h.live == {})
    ensures LiveKept(h, t)
  {
    LiveSized(h, t);
  }

  /** `morecore`: at least 4096 units from `sbrk`, freed into the list. */
  method MoreCore(h: Heap, n: nat, core: Option<nat>) returns (t: Heap, p: nat)
    requires Valid(h) && n > 0 && Fresh(h, core)
    ensures p == 0 <==> core.None?
    ensures p == 0 ==> t == h
    ensures p != 0 ==> Valid(t) && p == t.freep && t.live == h.live && t.base == h.base
    ensures p != 0 ==> t.home.Keys == h.home.Keys + Region(core.value, Core(n))
    ensures p != 0 ==> LiveKept(h, t)
    ensures p != 0 ==> p in t.list && !NoneFits(t, n)
  {
    hide Valid;
    var nu := Core(n);
    if core.None? { return h, 0; }
    var hp := core.value;
    GrantedValid(h, hp, nu);
    t := Granted(h, hp, nu);
    ghost var g := t;
    t := Free(t, hp);
    p := t.freep;
    FreepPositive(t);
    assert !NoneFits(t, n) by {
      var k :| 0 <= k < |t.list| && t.list[k] == t.home[hp];
      assert Fits(t, n, k);
    }
    assert g.home.Keys == h.home.Keys + Region(hp, nu);
    assert t.live == h.live;
  }

  lemma FreepPositive(h: Heap)
    requires Valid(h)
    ensures h.freep > 0 && h.freep in h.list
  {
    var k :| 0 <= k < |h.list| && h.list[k] == h.freep;
  }

  /** Before the first call. */
  ghost predicate Uninit(h: Heap) {
    h.freep == 0 && h.base > 0 && h.list == [] && h.live == {} && h.home == map[]
  }

  lemma StartValid(h: Heap)
    requires Uninit(h)
    ensures Valid(h.(ptr := h.ptr[h.base := h.base], size := h.size[h.base := 0], freep := h.base, list := [h.base]))
  {
    var t := h.(ptr := h.ptr[h.base := h.base], size := h.size[h.base := 0], freep := h.base, list := [h.base]);
    assert t.list[0] == t.freep && Linked(t.ptr, t.list, 0);
    assert forall b :: !IsBlock(t, b);
  }

  /** Carving `n` units out of the free block `p` at position `i`, after `prevp`. */
  method Carve(h: Heap, prevp: nat, p: nat, i: nat, n: nat) returns (t: Heap, a: nat)
    requires Valid(h) && i < |h.list| && p == h.list[i] &&
             prevp == (if i == 0 then h.list[|h.list| - 1] else h.list[i - 1])
    requires n > 0 && p in h.size && h.size[p] >= n
    ensures Valid(t) && t.base == h.base && t.home.Keys == h.home.Keys && a !in h.live && t.live == h.live + {a}
    ensures a in t.size && t.size[a] == n
    ensures LiveKept(h, t)
  {
    Positive(h, i);
    LiveSized(h, h);
    ListLink(h, i);
    if h.size[p] == n {
      TakeAllValid(h, i);
      var g := TakeAll(h, i);
      t := Heap(h.base, h.ptr[prevp := h.ptr[p]], h.size, prevp, g.list, g.live, g.home);
      a := p;
    } else {
      TakeTailValid(h, i, n);
      TailHeads(h, i, n);
      var g := TakeTail(h, i, n);
      var size := h.size[p := h.size[p] - n];
      a := p + size[p];
      t := Heap(h.base, h.ptr, size[a := n], prevp, g.list, g.live, g.home);
    }
  }

  lemma Positive(h: Heap, i: nat)
    requires Valid(h) && i < |h.list| && h.list[i] in h.size && h.size[h.list[i]] > 0
    ensures i > 0 && h.list[i] !in h.live
  {}

  /** The position of `p` in the list, and a step along it. */
  lemma StepAlong(h: Heap, i: nat)
    requires Valid(h) && i < |h.list|
    ensures h.list[i] in h.ptr && h.list[i] in h.size &&
            h.ptr[h.list[i]] == h.list[if i + 1 < |h.list| then i + 1 else 0]
  {
    assert Linked(h.ptr, h.list, i);
  }

  /** The position `k` steps along the ring from `c`. */
  function Along(len: nat, c: nat, k: nat): nat
    requires c < len && k < len
  {
    if c + k < len then c + k else c + k - len
  }

  predicate Fits(h: Heap, n: nat, k: nat)
    requires k < |h.list|
  {
    h.list[k] in h.size && h.size[h.list[k]] >= n
  }

  ghost predicate NoneFits(h: Heap, n: nat) { forall k: nat :: k < |h.list| ==> !Fits(h, n, k) }

  /** A whole turn has seen every position. */
  lemma AllSeen(h: Heap, n: nat, c: nat)
    requires c < |h.list| && forall k: nat :: k < |h.list| ==> !Fits(h, n, Along(|h.list|, c, k))
    ensures NoneFits(h, n)
  {
    forall j: nat | j < |h.list|
      ensures !Fits(h, n, j)
    {
      assert Along(|h.list|, c, if j >= c then j - c else j + |h.list| - c) == j;
    }
  }

  /** A walk that started behind `freep` is back at `freep` after a whole turn, and not before. */
  lemma BackAtFreep(h: Heap, c: nat, k: nat, i: nat)
    requires Valid(h) && c < |h.list| && k < |h.list| && i == Along(|h.list|, c, k)
    requires h.freep == if c == 0 then h.list[|h.list| - 1] else h.list[c - 1]
    ensures h.list[i] == h.freep <==> k == |h.list| - 1
  {}

  /** The walk of `malloc` for `n` units: it started behind `freep`, at position `c`, has gone `k` steps to `p`, and
      none of the blocks it has passed was large enough. */
  ghost predicate Walking(h: Heap, n: nat, prevp: nat, p: nat, c: nat, k: nat) {
    match h case Heap(_, _, _, freep, list, _, _) =>
    && c < |list| && k < |list| && p == list[Along(|list|, c, k)]
    && freep == (if c == 0 then list[|list| - 1] else list[c - 1])
    && prevp == (var i := Along(|list|, c, k); if i == 0 then list[|list| - 1] else list[i - 1])
    && forall j: nat :: j < k ==> !Fits(h, n, Along(|list|, c, j))
  }

  method StartWalk(h: Heap, n: nat) returns (prevp: nat, p: nat, c: nat)
    requires Valid(h)
    ensures Walking(h, n, prevp, p, c, 0)
  {
    hide Valid;
    FreepPositive(h);
    prevp := h.freep;
    c := IndexOf(h, prevp);
    StepAlong(h, c);
    p := h.ptr[prevp];
    c := if c + 1 < |h.list| then c + 1 else 0;
  }

  lemma WalkAt(h: Heap, n: nat, prevp: nat, p: nat, c: nat, k: nat)
    requires Valid(h) && Walking(h, n, prevp, p, c, k)
    ensures c < |h.list| && k < |h.list| && p in h.ptr && p in h.size && p == h.list[Along(|h.list|, c, k)]
    ensures var i := Along(|h.list|, c, k); prevp == if i == 0 then h.list[|h.list| - 1] else h.list[i - 1]
  {
    StepAlong(h, Along(|h.list|, c, k));
  }

  /** Past a block that is too small the walk goes on, or it has come round and nothing fits. */
  lemma WalkOn(h: Heap, n: nat, prevp: nat, p: nat, c: nat, k: nat)
    requires Valid(h) && Walking(h, n, prevp, p, c, k) && p in h.ptr && p in h.size && h.size[p] < n
    ensures p == h.freep ==> NoneFits(h, n)
    ensures p != h.freep ==> Walking(h, n, p, h.ptr[p], c, k + 1)
  {
    var i := Along(|h.list|, c, k);
    StepAlong(h, i);
    BackAtFreep(h, c, k, i);
    hide Valid;
    if p == h.freep { AllSeen(h, n, c); }
  }

  /** `malloc`: `core` is what `sbrk` answers should it be asked, which happens at most once.  The result is the
      header of a new live block of the right size; it fails only when no free block is large enough and
      `sbrk` refuses. */
  method Malloc(h: Heap, nbytes: nat, core: Option<nat>) returns (t: Heap, r: Option<nat>)
    requires (Valid(h) || Uninit(h)) && nbytes < UINT && Fresh(h, core)
    ensures Valid(t) && t.base == h.base
    ensures r.Some? ==> r.value !in h.live && t.live == h.live + {r.value}
    ensures r.Some? ==> r.value in t.size && t.size[r.value] == Units(nbytes)
    ensures LiveKept(h, t)
    ensures t.home.Keys == h.home.Keys ||
            (core.Some? && t.home.Keys == h.home.Keys + Region(core.value, Core(Units(nbytes))))
    ensures r.None? ==> core.None? && t.live == h.live && t.home == h.home && NoneFits(t, Units(nbytes))
  {
    hide Valid, Units, Region, LiveKept, NoneFits, Walking, Fresh;
    var n := Units(nbytes);
    UnitsPositive(nbytes);
    t := Started(h, core);
    ghost var asked := false;
    var prevp, p, c := StartWalk(t, n);
    var k: nat := 0;
    while true
      invariant Valid(t) && t.base == h.base && t.live == h.live && (!asked ==> Fresh(t, core))
      invariant LiveKept(h, t) && Walking(t, n, prevp, p, c, k)
      invariant if asked then core.Some? &&
                t.home.Keys == h.home.Keys + Region(core.value, Core(n)) else t.home == h.home
      invariant asked ==> !NoneFits(t, n)
      decreases if asked then 0 else 1, |t.list| - k
    {
      WalkAt(t, n, prevp, p, c, k);
      if t.size[p] >= n {
        var u, a := Carve(t, prevp, p, Along(|t.list|, c, k), n);
        KeptOn(h, t, u);
        return u, Some(a);
      }
      WalkOn(t, n, prevp, p, c, k);
      if p == t.freep {
        ghost var s := t;
        t, p := MoreCore(t, n, core);
        if p == 0 { return t, None; }
        KeptOn(h, s, t);
        asked := true;
        prevp, p, c := StartWalk(t, n);
        k := 0;
      } else {
        WalkAt(t, n, p, t.ptr[p], c, k + 1);
        prevp, p := p, t.ptr[p];
        k := k + 1;
      }
    }
  }

  /** The heap, set up if this is the first call. */
  method Started(h: Heap, ghost core: Option<nat>) returns (t: Heap)
    requires (Valid(h) || Uninit(h)) && Fresh(h, core)
    ensures Valid(t) && t.base == h.base && t.live == h.live && t.home == h.home && LiveKept(h, t) && Fresh(t, core)
  {
    hide Valid, LiveKept;
    t := h;
    if h.freep == 0 {
      assert Uninit(h) by { if Valid(h) { FreepPositive(h); } }
      StartValid(h);
      t := h.(ptr := h.ptr[h.base := h.base], size := h.size[h.base := 0], freep := h.base, list := [h.base]);
    }
    StartKept(h, t);
  }

  /** What `morecore` asks for: enough, and no less than 4096 units. */
  function Core(n: nat): (c: nat)
    ensures c >= n && c >= 4096 && (c == n || c == 4096)
  {
    if n < 4096 then 4096 else n
  }

  /** The book's position of a free block. */
  method IndexOf(h: Heap, p: nat) returns (c: nat)
    requires Valid(h) && p in h.list
    ensures c < |h.list| && h.list[c] == p
  {
    c :| c < |h.list| && h.list[c] == p;
  }

  lemma UnitsPositive(nbytes: nat)
    requires nbytes < UINT
    ensures Units(nbytes) > 0
  {}

  /** The allocator of one process.  Pointers are to the unit after a header. */
  class Allocator {
    var h: Heap

    /** Before the first call, with `base` the address of the header that the list starts from. */
    constructor (base: nat)
      requires base > 0
      ensures Ready() && h.base == base && h.live == {} && h.home == map[]
    {
      h := Heap(base, map[], map[], 0, [], {}, map[]);
    }

    ghost predicate Ready()
      reads this
    {
      Valid(h) || Uninit(h)
    }

    /** Live blocks never share a unit, with each other or with a free block. */
    method Alloc(nbytes: nat, core: Option<nat>) returns (p: Option<nat>)
      requires Ready() && nbytes <= 0x7FFF_FFF0 && Fresh(h, core)
      modifies this
      ensures Ready() && old(h.live) <= h.live
      ensures forall b :: b in old(h.live) ==> b in h.size && h.size[b] == old(h.size)[b]
      ensures p.Some? ==> p.value > 0 && p.value - 1 !in old(h.live) && h.live == old(h.live) + {p.value - 1}
      ensures p.Some? ==> p.value - 1 in h.size && (h.size[p.value - 1] - 1) * UNIT >= nbytes
      ensures p.None? ==> core.None? && NoneFits(h, Units(nbytes)) && h.live == old(h.live) && h.home == old(h.home)
      ensures h.home.Keys == old(h.home.Keys) ||
              (core.Some? && h.home.Keys == old(h.home.Keys) + Region(core.value, Core(Units(nbytes))))
    {
      hide Valid, Region;
      UnitsSuffice(nbytes);
      var r;
      assert old(Uninit(h)) ==> h.live == {};
      h, r := Malloc(h, nbytes, core);
      p := if r.Some? then Some(r.value + 1) else None;
    }

    method Release(ap: nat)
      requires Ready() && ap > 0 && ap - 1 in h.live
      modifies this
      ensures Ready() && h.live == old(h.live) - {ap - 1} && h.home.Keys == old(h.home.Keys)
      ensures forall b :: b in h.live ==> b in h.size && h.size[b] == old(h.size)[b]
    {
      hide Valid;
      h := Free(h, ap - 1);
    }
  }

  /** The live and free blocks, without overlap, are exactly the units got from `sbrk`. */
  lemma UnitsConserved(h: Heap, u: nat)
    requires Valid(h)
    ensures u in h.home.Keys <==> exists b: nat :: IsBlock(h, b) && b in h.size && b <= u < b + h.size[b]
    ensures forall a: nat, b: nat ::
              IsBlock(h, a) && IsBlock(h, b) && a in h.size && b in h.size &&
              a <= u < a + h.size[a] && b <= u < b + h.size[b] ==>
                a == b
  {
    if u in h.home { assert IsBlock(h, h.home[u]); }
  }
}
