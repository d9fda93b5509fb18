/** Physical frames, the free list, and the two-level page tables built out of frames. */
module Frames {
  import opened Basics

  const PGSIZE: nat := 4096

  /** Directory entries, entries of a table, and the directory entries below KERNBASE. */
  const ENTRIES: nat := 1024
  const UDIRS: nat := 512

  datatype Pte = Absent | Present(frame: nat, w: bool, u: bool)

  type PageData = s: seq<byte> | |s| == PGSIZE witness seq(PGSIZE, _ => 0)
  type Pdes = s: seq<nat> | |s| == ENTRIES witness seq(ENTRIES, _ => 0)
  type Ptes = s: seq<Pte> | |s| == ENTRIES witness seq(ENTRIES, _ => Absent)

  function ZeroPage(): PageData { seq(PGSIZE, _ => 0) }
  function NoTables(): Pdes { seq(ENTRIES, _ => 0) }
  function NoPages(): Ptes { seq(ENTRIES, _ => Absent) }

  /** What a frame is used as.  In a directory, 0 stands for an entry without PTE_P. */
  datatype Page = Junk | Dir(pdes: Pdes) | Table(ptes: Ptes) | Data(bytes: PageData)

  /** Who has a frame that is not on the free list: kernel code that got it from `kalloc`, or the place in a
      page table that refers to it. */
  datatype Owner = Kernel | IsDir | IsTable(p: nat, i: nat) | IsPage(p: nat, i: nat, j: nat)

  /** Frames `first` up to the length of `mem` are the ones `kalloc` deals in. */
  datatype Vm = Vm(first: nat, mem: seq<Page>, free: seq<nat>, owner: map<nat, Owner>)

  /** Every frame is on the free list once, or has one owner. */
  ghost predicate FreeInv(m: Vm) {
    match m case Vm(first, mem, free, owner) =>
    && 0 < first
    && Distinct(free)
    && (forall x :: 0 <= x < |free| ==> first <= free[x] < |mem| && free[x] !in owner)
    && (forall f :: f in owner ==> first <= f < |mem|)
    && (forall f :: first <= f < |mem| ==> f in owner || f in free)
  }

  /** The entry for page `j` of directory entry `i`. */
  function PteAt(mem: seq<Page>, p: nat, i: nat, j: nat): Pte
    requires i < ENTRIES && j < ENTRIES
  {
    if p < |mem| && mem[p].Dir? && 0 < mem[p].pdes[i] < |mem| && mem[mem[p].pdes[i]].Table?
    then mem[mem[p].pdes[i]].ptes[j] else Absent
  }

  /** The tree of tables and `owner` are inverse to each other: no frame is used in two places. */
  ghost predicate TreeInv(mem: seq<Page>, owner: map<nat, Owner>) {
    && (forall f :: f in owner ==> 0 < f < |mem|)
    && (forall p :: p in owner && owner[p] == IsDir ==> mem[p].Dir?)
    && (forall p, i :: p in owner && owner[p] == IsDir && 0 <= i < ENTRIES && mem[p].pdes[i] != 0 ==>
          mem[p].pdes[i] in owner && owner[mem[p].pdes[i]] == IsTable(p, i))
    && (forall f :: f in owner && owner[f].IsTable? ==>
          && owner[f].i < ENTRIES && owner[f].p in owner && owner[owner[f].p] == IsDir
          && mem[owner[f].p].pdes[owner[f].i] == f && mem[f].Table?)
    && (forall p, i, j ::
          p in owner && owner[p] == IsDir && 0 <= i < UDIRS && 0 <= j < ENTRIES && PteAt(mem, p, i, j).Present? ==>
          PteAt(mem, p, i, j).frame in owner && owner[PteAt(mem, p, i, j).frame] == IsPage(p, i, j))
    && (forall f :: f in owner && owner[f].IsPage? ==>
          && owner[f].i < UDIRS && owner[f].j < ENTRIES && owner[f].p in owner && owner[owner[f].p] == IsDir &&
             mem[f].Data?
          && PteAt(mem, owner[f].p, owner[f].i, owner[f].j).Present? &&
             PteAt(mem, owner[f].p, owner[f].i, owner[f].j).frame == f)
  }

  ghost predicate Valid(m: Vm) {
    match m case Vm(_, mem, _, owner) => FreeInv(m) && TreeInv(mem, owner)
  }

  ghost predicate IsSpace(m: Vm, p: nat) { p in m.owner && m.owner[p] == IsDir }

  /** The contents of a user page; one that is absent reads as zeroes. */
  function PageOf(mem: seq<Page>, p: nat, i: nat, j: nat): PageData
    requires i < ENTRIES && j < ENTRIES
  {
    match PteAt(mem, p, i, j)
    case Absent => ZeroPage()
    case Present(f, _, _) => if f < |mem| && mem[f].Data? then mem[f].bytes else ZeroPage()
  }

  /** How many entries of a directory refer to a table. */
  function Count(pdes: seq<nat>): (n: nat)
    ensures n <= |pdes|
  {
    if pdes == [] then 0 else Count(pdes[..|pdes| - 1]) + if pdes[|pdes| - 1] == 0 then 0 else 1
  }

  function Tables(mem: seq<Page>, p: nat): (n: nat)
    ensures n <= ENTRIES
  {
    if p < |mem| && mem[p].Dir? then Count(mem[p].pdes) else 0
  }

  lemma {:induction false} CountSet(pdes: seq<nat>, i: nat, t: nat)
    requires i < |pdes| && pdes[i] == 0 && t != 0
    ensures Count(pdes[i := t]) == Count(pdes) + 1
  {
    var n := |pdes| - 1;
    if i == n {
      assert pdes[i := t][..n] == pdes[..n];
    } else {
      CountSet(pdes[..n], i, t);
      assert pdes[i := t][..n] == pdes[..n][i := t];
    }
  }

  lemma {:induction false} CountNone(pdes: seq<nat>)
    requires forall i :: 0 <= i < |pdes| ==> pdes[i] == 0
    ensures Count(pdes) == 0
  {
    if pdes != [] { CountNone(pdes[..|pdes| - 1]); }
  }

  // ---- kalloc and kfree ----

  /** The frame on top of the free list, now in the hands of the caller. */
  method Kalloc(m: Vm) returns (t: Vm, f: nat)
    requires FreeInv(m)
    ensures FreeInv(t)
    ensures f == 0 <==> m.free == []
    ensures f == 0 ==> t == m
    ensures f != 0 ==> f !in m.owner && f == m.free[0] && m.first <= f < |m.mem|
    ensures f != 0 ==> t == m.(free := m.free[1..], owner := m.owner[f := Kernel])
  {
    if m.free == [] { return m, 0; }
    f := m.free[0];
    TakeFirst(m);
    t := m.(free := m.free[1..], owner := m.owner[f := Kernel]);
  }

  lemma TakeFirst(m: Vm)
    requires FreeInv(m) && m.free != []
    ensures m.free[0] !in m.owner && m.first <= m.free[0] < |m.mem| && 0 < m.first
    ensures FreeInv(m.(free := m.free[1..], owner := m.owner[m.free[0] := Kernel]))
  {
    var f, free := m.free[0], m.free[1..];
    assert forall x :: 0 <= x < |free| ==> free[x] == m.free[x + 1] && free[x] != f;
    assert forall g :: g in m.free ==> g == f || g in free;
  }

  /** `kfree` of a frame that is in use: filled with junk and pushed. */
  method Kfree(m: Vm, f: nat) returns (t: Vm)
    requires FreeInv(m) && f in m.owner
    ensures FreeInv(t) && t == m.(mem := m.mem[f := Junk], free := [f] + m.free, owner := m.owner - {f})
  {
    t := m.(mem := m.mem[f := Junk], free := [f] + m.free, owner := m.owner - {f});
    forall g | m.first <= g < |m.mem|
      ensures g in t.owner || g in t.free
    {
      if g in m.free { assert t.free[1..] == m.free; }
      assert t.free[0] == f;
    }
  }

  /** Fewer frames with owners, more on the list. */
  lemma MoreFree(m: Vm, t: Vm)
    requires FreeInv(m) && FreeInv(t) && t.first == m.first && |t.mem| == |m.mem|
    requires forall f :: f in t.owner ==> f in m.owner
    ensures |t.free| >= |m.free|
  {
    DistinctCard(m.free);
    DistinctCard(t.free);
    var a, b := Elems(m.free), Elems(t.free);
    assert a <= b;
    assert b == a + (b - a);
  }

  // ---- what one write to a table does to the tree ----

  /** Every entry of space `q` is the same in both memories, and so is every user page. */
  ghost predicate SameSpace(mem: seq<Page>, mem': seq<Page>, q: nat) {
    && (forall i, j :: 0 <= i < ENTRIES && 0 <= j < ENTRIES ==> PteAt(mem', q, i, j) == PteAt(mem, q, i, j))
    && (forall i, j :: 0 <= i < UDIRS && 0 <= j < ENTRIES ==> PageOf(mem', q, i, j) == PageOf(mem, q, i, j))
  }

  lemma SameTrans(mem: seq<Page>, mem1: seq<Page>, mem2: seq<Page>, q: nat)
    requires SameSpace(mem, mem1, q) && SameSpace(mem1, mem2, q)
    ensures SameSpace(mem, mem2, q)
  {
    hide PteAt, PageOf;
  }

  /** A directory, its tables and its user pages do not use a frame owned otherwise. */
  lemma NotUsed(mem: seq<Page>, owner: map<nat, Owner>, f: nat, q: nat, i: nat, j: nat)
    requires TreeInv(mem, owner) && f in owner && q in owner && owner[q] == IsDir && i < ENTRIES && j < ENTRIES
    ensures owner[f] != IsDir ==> f != q
    ensures owner[f] != IsTable(q, i) ==> f != mem[q].pdes[i]
    ensures owner[f] != IsPage(q, i, j) && i < UDIRS && PteAt(mem, q, i, j).Present? ==> f != PteAt(mem, q, i, j).frame
    ensures mem[q].Dir? && (mem[q].pdes[i] != 0 ==> 0 < mem[q].pdes[i] < |mem| && mem[mem[q].pdes[i]].Table?)
  {
    if mem[q].pdes[i] != 0 { assert mem[q].pdes[i] in owner; }
  }

  lemma HeldSame(mem: seq<Page>, owner: map<nat, Owner>, f: nat, page: Page, q: nat)
    requires TreeInv(mem, owner) && f in owner && owner[f] == Kernel && q in owner && owner[q] == IsDir
    ensures SameSpace(mem, mem[f := page], q)
  {
    forall i, j | 0 <= i < ENTRIES && 0 <= j < ENTRIES
      ensures PteAt(mem[f := page], q, i, j) == PteAt(mem, q, i, j)
      ensures i < UDIRS ==> PageOf(mem[f := page], q, i, j) == PageOf(mem, q, i, j)
    {
      NotUsed(mem, owner, f, q, i, j);
    }
  }

  /** Writing a frame that only the kernel has changes no space. */
  lemma WriteHeld(mem: seq<Page>, owner: map<nat, Owner>, f: nat, page: Page)
    requires TreeInv(mem, owner) && f in owner && owner[f] == Kernel
    ensures TreeInv(mem[f := page], owner)
    ensures forall q :: q in owner && owner[q] == IsDir ==> SameSpace(mem, mem[f := page], q)
  {
    hide PteAt, PageOf;
    forall q | q in owner && owner[q] == IsDir
      ensures SameSpace(mem, mem[f := page], q)
    {
      HeldSame(mem, owner, f, page, q);
    }
  }

  /** A fresh table, all entries absent, in an empty directory entry. */
  function WithTable(mem: seq<Page>, p: nat, i: nat, t: nat): seq<Page>
    requires p < |mem| && mem[p].Dir? && i < ENTRIES
  {
    mem[p := Dir(mem[p].pdes[i := t])]
  }

  lemma TableSame(mem: seq<Page>, owner: map<nat, Owner>, p: nat, i: nat, t: nat, q: nat)
    requires TreeInv(mem, owner) && p in owner && owner[p] == IsDir && i < ENTRIES && mem[p].pdes[i] == 0
    requires t in owner && owner[t] == Kernel && mem[t] == Table(NoPages()) && q in owner && owner[q] == IsDir
    ensures SameSpace(mem, WithTable(mem, p, i, t), q)
  {
    var mem' := WithTable(mem, p, i, t);
    forall a, b | 0 <= a < ENTRIES && 0 <= b < ENTRIES
      ensures PteAt(mem', q, a, b) == PteAt(mem, q, a, b)
      ensures a < UDIRS ==> PageOf(mem', q, a, b) == PageOf(mem, q, a, b)
    {
      NotUsed(mem, owner, t, q, a, b);
      NotUsed(mem, owner, p, q, a, b);
    }
  }

  lemma InstallTable(mem: seq<Page>, owner: map<nat, Owner>, p: nat, i: nat, t: nat)
    requires TreeInv(mem, owner) && p in owner && owner[p] == IsDir && i < ENTRIES && mem[p].pdes[i] == 0
    requires t in owner && owner[t] == Kernel && mem[t] == Table(NoPages())
    ensures TreeInv(WithTable(mem, p, i, t), owner[t := IsTable(p, i)])
    ensures forall q :: q in owner && owner[q] == IsDir ==> SameSpace(mem, WithTable(mem, p, i, t), q)
  {
    hide PteAt, PageOf;
    forall q | q in owner && owner[q] == IsDir
      ensures SameSpace(mem, WithTable(mem, p, i, t), q)
    {
      TableSame(mem, owner, p, i, t, q);
    }
  }

  /** Entry `j` of table `i` of space `p` set to `e`. */
  function WithPte(mem: seq<Page>, p: nat, i: nat, j: nat, e: Pte): seq<Page>
    requires p < |mem| && mem[p].Dir? && i < ENTRIES && j < ENTRIES
    requires mem[p].pdes[i] < |mem| && mem[mem[p].pdes[i]].Table?
  {
    var t := mem[p].pdes[i];
    mem[t := Table(mem[t].ptes[j := e])]
  }

  /** Every other entry is the same, and every user page but the one behind that entry. */
  lemma WithPteSets(mem: seq<Page>, owner: map<nat, Owner>, p: nat, i: nat, j: nat, e: Pte, q: nat, a: nat, b: nat)
    requires TreeInv(mem, owner) && p in owner && owner[p] == IsDir && i < ENTRIES && j < ENTRIES && mem[p].pdes[i] != 0
    requires q in owner && owner[q] == IsDir && a < ENTRIES && b < ENTRIES
    ensures mem[p].pdes[i] < |mem| && mem[mem[p].pdes[i]].Table?
    ensures PteAt(WithPte(mem, p, i, j, e), q, a, b) == if q == p && a == i && b == j then e else PteAt(mem, q, a, b)
    ensures a < UDIRS && !(q == p && a == i && b == j) ==>
              PageOf(WithPte(mem, p, i, j, e), q, a, b) == PageOf(mem, q, a, b)
  {
    NotUsed(mem, owner, p, p, i, j);
    NotUsed(mem, owner, mem[p].pdes[i], q, a, b);
  }

  /** From `mem` to `mem'` entry (`i`, `j`) of space `p` became `e`; no other entry and no other user page of
      any space changed. */
  ghost predicate EntrySet(mem: seq<Page>, mem': seq<Page>, owner: map<nat, Owner>, p: nat, i: nat, j: nat, e: Pte) {
    && (forall q, a, b :: q in owner && owner[q] == IsDir && 0 <= a < ENTRIES && 0 <= b < ENTRIES ==>
          PteAt(mem', q, a, b) == if q == p && a == i && b == j then e else PteAt(mem, q, a, b))
    && (forall q, a, b ::
          q in owner && owner[q] == IsDir && 0 <= a < UDIRS && 0 <= b < ENTRIES && !(q == p && a == i && b == j) ==>
          PageOf(mem', q, a, b) == PageOf(mem, q, a, b))
  }

  lemma WithPteEntry(mem: seq<Page>, owner: map<nat, Owner>, p: nat, i: nat, j: nat, e: Pte)
    requires TreeInv(mem, owner) && p in owner && owner[p] == IsDir && i < ENTRIES && j < ENTRIES && mem[p].pdes[i] != 0
    ensures mem[p].pdes[i] in owner && owner[mem[p].pdes[i]] == IsTable(p, i) && mem[p].pdes[i] < |mem| &&
            mem[mem[p].pdes[i]].Table?
    ensures EntrySet(mem, WithPte(mem, p, i, j, e), owner, p, i, j, e)
  {
    NotUsed(mem, owner, p, p, i, j);
    var mem' := WithPte(mem, p, i, j, e);
    forall q, a, b | q in owner && owner[q] == IsDir && 0 <= a < ENTRIES && 0 <= b < ENTRIES
      ensures PteAt(mem', q, a, b) == if q == p && a == i && b == j then e else PteAt(mem, q, a, b)
      ensures a < UDIRS && !(q == p && a == i && b == j) ==> PageOf(mem', q, a, b) == PageOf(mem, q, a, b)
    {
      WithPteSets(mem, owner, p, i, j, e, q, a, b);
    }
  }

  /** The kernel hands a data frame over to an absent user entry. */
  lemma InstallPage(mem: seq<Page>, owner: map<nat, Owner>, p: nat, i: nat, j: nat, e: Pte)
    requires TreeInv(mem, owner) && p in owner && owner[p] == IsDir && i < UDIRS && j < ENTRIES && mem[p].pdes[i] != 0
    requires PteAt(mem, p, i, j) == Absent && e.Present? && e.frame in owner && owner[e.frame] == Kernel &&
             mem[e.frame].Data?
    ensures mem[p].pdes[i] < |mem| && mem[mem[p].pdes[i]].Table?
    ensures EntrySet(mem, WithPte(mem, p, i, j, e), owner, p, i, j, e)
    ensures TreeInv(WithPte(mem, p, i, j, e), owner[e.frame := IsPage(p, i, j)])
    ensures PageOf(WithPte(mem, p, i, j, e), p, i, j) == mem[e.frame].bytes
  {
    WithPteEntry(mem, owner, p, i, j, e);
    hide PteAt;
  }

  /** A kernel entry owns nothing. */
  lemma InstallKernelPage(mem: seq<Page>, owner: map<nat, Owner>, p: nat, i: nat, j: nat, e: Pte)
    requires TreeInv(mem, owner) && p in owner && owner[p] == IsDir && UDIRS <= i < ENTRIES && j < ENTRIES &&
             mem[p].pdes[i] != 0
    ensures mem[p].pdes[i] < |mem| && mem[mem[p].pdes[i]].Table?
    ensures EntrySet(mem, WithPte(mem, p, i, j, e), owner, p, i, j, e)
    ensures TreeInv(WithPte(mem, p, i, j, e), owner)
  {
    WithPteEntry(mem, owner, p, i, j, e);
    hide PteAt, PageOf;
  }

  /** A frame of the kernel is in no space: it can come from the free list, and go back. */
  lemma TakeHeld(mem: seq<Page>, owner: map<nat, Owner>, f: nat)
    requires TreeInv(mem, owner) && f !in owner && 0 < f < |mem|
    ensures TreeInv(mem, owner[f := Kernel])
  {
    hide PteAt;
  }

  lemma DropHeld(mem: seq<Page>, owner: map<nat, Owner>, f: nat)
    requires TreeInv(mem, owner) && f in owner && owner[f] == Kernel
    ensures TreeInv(mem, owner - {f})
  {
    hide PteAt;
  }

  lemma ClearTree(mem: seq<Page>, mem': seq<Page>, owner: map<nat, Owner>, p: nat, i: nat, j: nat, f: nat)
    requires TreeInv(mem, owner) && p in owner && owner[p] == IsDir && i < UDIRS && j < ENTRIES
    requires f in owner && owner[f] == IsPage(p, i, j) && mem[p].pdes[i] in owner
    requires |mem'| == |mem| && forall q :: 0 <= q < |mem| && q != mem[p].pdes[i] ==> mem'[q] == mem[q]
    requires owner[mem[p].pdes[i]].IsTable? && mem'[mem[p].pdes[i]].Table?
    requires EntrySet(mem, mem', owner, p, i, j, Absent)
    ensures TreeInv(mem', owner[f := Kernel])
  {
    hide PteAt, PageOf;
  }

  /** Clearing a user entry gives its frame back to the kernel. */
  lemma ClearEntry(mem: seq<Page>, owner: map<nat, Owner>, p: nat, i: nat, j: nat, f: nat)
    requires TreeInv(mem, owner) && p in owner && owner[p] == IsDir && i < UDIRS && j < ENTRIES
    requires PteAt(mem, p, i, j).Present? && PteAt(mem, p, i, j).frame == f
    ensures f in owner && owner[f] == IsPage(p, i, j) && mem[p].pdes[i] < |mem| && f != p && f != mem[p].pdes[i] &&
            mem[mem[p].pdes[i]].Table?
    ensures EntrySet(mem, WithPte(mem, p, i, j, Absent), owner, p, i, j, Absent)
    ensures TreeInv(WithPte(mem, p, i, j, Absent), owner[f := Kernel])
  {
    NotUsed(mem, owner, p, p, i, j);
    WithPteEntry(mem, owner, p, i, j, Absent);
    ClearTree(mem, WithPte(mem, p, i, j, Absent), owner, p, i, j, f);
  }

  /** The entry cleared and its frame freed. */
  lemma RemovePage(mem: seq<Page>, owner: map<nat, Owner>, p: nat, i: nat, j: nat, f: nat)
    requires TreeInv(mem, owner) && p in owner && owner[p] == IsDir && i < UDIRS && j < ENTRIES
    requires PteAt(mem, p, i, j).Present? && PteAt(mem, p, i, j).frame == f
    ensures f in owner && owner[f] == IsPage(p, i, j) && mem[p].pdes[i] < |mem| && f != p && f != mem[p].pdes[i] &&
            mem[mem[p].pdes[i]].Table?
    ensures EntrySet(mem, WithPte(mem[f := Junk], p, i, j, Absent), owner, p, i, j, Absent)
    ensures TreeInv(WithPte(mem[f := Junk], p, i, j, Absent), owner - {f})
  {
    ClearEntry(mem, owner, p, i, j, f);
    var mem1 := WithPte(mem, p, i, j, Absent);
    assert WithPte(mem[f := Junk], p, i, j, Absent) == mem1[f := Junk];
    hide PteAt, PageOf, WithPte;
    WriteHeld(mem1, owner[f := Kernel], f, Junk);
    DropHeld(mem1[f := Junk], owner[f := Kernel], f);
    assert owner[f := Kernel] - {f} == owner - {f};
  }

  lemma PutSame(mem: seq<Page>, owner: map<nat, Owner>, p: nat, i: nat, j: nat, bytes: PageData, q: nat, a: nat, b: nat)
    requires TreeInv(mem, owner) && p in owner && owner[p] == IsDir && i < UDIRS && j < ENTRIES &&
             PteAt(mem, p, i, j).Present?
    requires q in owner && owner[q] == IsDir && a < ENTRIES && b < ENTRIES
    ensures PteAt(mem, p, i, j).frame < |mem| && mem[PteAt(mem, p, i, j).frame].Data?
    ensures var mem' := mem[PteAt(mem, p, i, j).frame := Data(bytes)];
            && PteAt(mem', q, a, b) == PteAt(mem, q, a, b)
            && (a < UDIRS ==>
                  PageOf(mem', q, a, b) == if q == p && a == i && b == j then bytes else PageOf(mem, q, a, b))
  {
    NotUsed(mem, owner, PteAt(mem, p, i, j).frame, q, a, b);
  }

  /** Writing the frame of a user page changes that page alone, in that space alone. */
  lemma PutPage(mem: seq<Page>, owner: map<nat, Owner>, p: nat, i: nat, j: nat, bytes: PageData)
    requires TreeInv(mem, owner) && p in owner && owner[p] == IsDir && i < UDIRS && j < ENTRIES &&
             PteAt(mem, p, i, j).Present?
    ensures PteAt(mem, p, i, j).frame in owner && owner[PteAt(mem, p, i, j).frame] == IsPage(p, i, j) &&
            PteAt(mem, p, i, j).frame < |mem|
    ensures var mem' := mem[PteAt(mem, p, i, j).frame := Data(bytes)];
            && TreeInv(mem', owner) && PageOf(mem', p, i, j) == bytes
            && EntrySet(mem, mem', owner, p, i, j, PteAt(mem, p, i, j))
  {
    var mem' := mem[PteAt(mem, p, i, j).frame := Data(bytes)];
    forall q, a, b | q in owner && owner[q] == IsDir && 0 <= a < ENTRIES && 0 <= b < ENTRIES
      ensures PteAt(mem', q, a, b) == PteAt(mem, q, a, b)
      ensures a < UDIRS ==> PageOf(mem', q, a, b) == if q == p && a == i && b == j then bytes else PageOf(mem, q, a, b)
    {
      PutSame(mem, owner, p, i, j, bytes, q, a, b);
    }
    hide PteAt, PageOf;
  }
}
