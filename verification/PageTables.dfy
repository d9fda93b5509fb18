/** `walkpgdir` and `mappages` over the frames. */
module PageTables {
  import opened Frames

  /** Virtual pages, and those below KERNBASE. */
  const VPAGES: nat := 1024 * 1024
  const UPAGES: nat := 512 * 1024

  function Entry(mem: seq<Page>, p: nat, v: nat): Pte
    requires v < VPAGES
  {
    PteAt(mem, p, v / ENTRIES, v % ENTRIES)
  }

  function UserPage(mem: seq<Page>, p: nat, v: nat): PageData
    requires v < UPAGES
  {
    PageOf(mem, p, v / ENTRIES, v % ENTRIES)
  }

  /** The machine is the same but for space `p`; frames in the kernel's hands are untouched. */
  ghost predicate OthersKept(m: Vm, t: Vm, p: nat) {
    match t case Vm(first, mem, _, owner) =>
    && first == m.first && |mem| == |m.mem|
    && (forall q :: IsSpace(m, q) ==> IsSpace(t, q))
    && (forall q :: IsSpace(m, q) && q != p ==> SameSpace(m.mem, mem, q))
    && (forall f :: f in m.owner && m.owner[f] == Kernel && f in owner && owner[f] == Kernel && f < |mem| ==>
          mem[f] == m.mem[f])
  }

  /** Nobody lost a frame, and only tables of `p` were added. */
  ghost predicate TablesAdded(m: Vm, t: Vm, p: nat) {
    match t case Vm(_, _, _, owner) =>
    && (forall f :: f in m.owner ==> f in owner && owner[f] == m.owner[f])
    && (forall f :: f in owner && f !in m.owner ==> owner[f].IsTable? && owner[f].p == p)
  }

  /** After `walkpgdir`: perhaps one more table, but the same entries and pages everywhere. */
  ghost predicate Walked(m: Vm, t: Vm, p: nat) {
    match t case Vm(_, mem, _, _) =>
    Valid(t) && OthersKept(m, t, p) && TablesAdded(m, t, p) && SameSpace(m.mem, mem, p)
  }

  lemma WalkedSame(m: Vm, p: nat)
    requires Valid(m) && IsSpace(m, p)
    ensures Walked(m, m, p)
  {}

  /** A free frame becomes an empty table. */
  lemma NewTable(mem: seq<Page>, owner: map<nat, Owner>, p: nat, i: nat, f: nat)
    requires TreeInv(mem, owner) && p in owner && owner[p] == IsDir && p < |mem| && mem[p].Dir? && i < ENTRIES &&
             mem[p].pdes[i] == 0
    requires f !in owner && 0 < f < |mem|
    ensures TreeInv(WithTable(mem[f := Table(NoPages())], p, i, f), owner[f := IsTable(p, i)])
    ensures forall q :: q in owner && owner[q] == IsDir ==>
              SameSpace(mem, WithTable(mem[f := Table(NoPages())], p, i, f), q)
  {
    var mem1, held := mem[f := Table(NoPages())], owner[f := Kernel];
    TakeHeld(mem, owner, f);
    WriteHeld(mem, held, f, Table(NoPages()));
    InstallTable(mem1, held, p, i, f);
    assert held[f := IsTable(p, i)] == owner[f := IsTable(p, i)];
    hide SameSpace, TreeInv, WithTable;
    forall q | q in owner && owner[q] == IsDir
      ensures SameSpace(mem, WithTable(mem1, p, i, f), q)
    {
      SameTrans(mem, mem1, WithTable(mem1, p, i, f), q);
    }
  }

  lemma StillFree(u: Vm, t: Vm)
    requires FreeInv(u) && t.first == u.first && |t.mem| == |u.mem| && t.free == u.free && t.owner.Keys == u.owner.Keys
    ensures FreeInv(t)
  {
    assert forall f :: f in t.owner <==> f in u.owner;
  }

  lemma WalkedTable(m: Vm, p: nat, i: nat, f: nat, u: Vm, t: Vm)
    requires Valid(m) && IsSpace(m, p) && i < ENTRIES && m.mem[p].Dir? && m.mem[p].pdes[i] == 0
    requires f !in m.owner && 0 < f < |m.mem| && FreeInv(u) && u.first == m.first && u.mem == m.mem &&
             u.owner == m.owner[f := Kernel]
    requires p < |u.mem| &&
             t == u.(mem := WithTable(u.mem[f := Table(NoPages())], p, i, f), owner := u.owner[f := IsTable(p, i)])
    ensures Walked(m, t, p) && t.mem[p].Dir? && t.mem[p].pdes[i] != 0
  {
    hide SameSpace, TreeInv;
    NewTable(m.mem, m.owner, p, i, f);
    assert t.owner == m.owner[f := IsTable(p, i)];
    assert t.owner.Keys == u.owner.Keys;
    StillFree(u, t);
  }

  /** `walkpgdir`: finds or makes the table of directory entry `i`. */
  method Walk(m: Vm, p: nat, i: nat, alloc: bool) returns (t: Vm, ok: bool)
    requires Valid(m) && IsSpace(m, p) && i < ENTRIES
    ensures Walked(m, t, p) && p < |t.mem| && t.mem[p].Dir?
    ensures ok <==> t.mem[p].pdes[i] != 0
    ensures ok <==> p < |m.mem| && m.mem[p].Dir? && (m.mem[p].pdes[i] != 0 || (alloc && m.free != []))
    ensures !ok || !alloc ==> t == m
    ensures |t.free| + Tables(t.mem, p) == |m.free| + Tables(m.mem, p) && |t.free| + 1 >= |m.free|
  {
    WalkedSame(m, p);
    if m.mem[p].pdes[i] != 0 { return m, true; }
    if !alloc { return m, false; }
    var f;
    t, f := Kalloc(m);
    if f == 0 { return t, false; }
    ghost var u := t;
    t := t.(mem := t.mem[f := Table(NoPages())]);
    t := t.(mem := WithTable(t.mem, p, i, f), owner := t.owner[f := IsTable(p, i)]);
    WalkedTable(m, p, i, f, u, t);
    CountSet(m.mem[p].pdes, i, f);
    ok := true;
  }

  /** From `mem` to `mem'`, entry `v` of space `p` became `e` and no other entry or user page changed. */
  ghost predicate ViewSet(mem: seq<Page>, mem': seq<Page>, p: nat, v: nat, e: Pte) {
    && v < VPAGES
    && (forall w :: 0 <= w < VPAGES ==> Entry(mem', p, w) == if w == v then e else Entry(mem, p, w))
    && (forall w :: 0 <= w < UPAGES && w != v ==> UserPage(mem', p, w) == UserPage(mem, p, w))
  }

  /** The frame of a user entry went from the kernel to the space; at most tables of `p` were added. */
  ghost predicate OwnersSet(m: Vm, t: Vm, p: nat, v: nat, e: Pte) {
    match t case Vm(_, _, _, owner) =>
    && e.Present?
    && (forall f :: f in m.owner ==>
          f in owner && owner[f] == if v < UPAGES &&
          f == e.frame then IsPage(p, v / ENTRIES, v % ENTRIES) else m.owner[f])
    && (forall f :: f in owner && f !in m.owner ==> owner[f].IsTable? && owner[f].p == p)
  }

  /** Entry `v` of space `p`, absent before, is `e`, and a user page has the contents of that frame. */
  ghost predicate EntryMapped(m: Vm, t: Vm, p: nat, v: nat, e: Pte) {
    match t case Vm(_, mem, _, _) =>
    && Valid(t) && OthersKept(m, t, p) && ViewSet(m.mem, mem, p, v, e) && OwnersSet(m, t, p, v, e)
    && Entry(m.mem, p, v) == Absent
    && (v < UPAGES ==> e.frame < |m.mem| && m.mem[e.frame].Data? && UserPage(mem, p, v) == m.mem[e.frame].bytes)
  }

  lemma SamePlace(v: nat, w: nat)
    requires v / ENTRIES == w / ENTRIES && v % ENTRIES == w % ENTRIES
    ensures v == w
  {}

  lemma EntrySetMeans(mem: seq<Page>, mem': seq<Page>, m: Vm, p: nat, v: nat, e: Pte)
    requires v < VPAGES && IsSpace(m, p) && EntrySet(mem, mem', m.owner, p, v / ENTRIES, v % ENTRIES, e)
    ensures ViewSet(mem, mem', p, v, e)
    ensures forall q :: IsSpace(m, q) && q != p ==> SameSpace(mem, mem', q)
  {
    hide PteAt, PageOf;
    forall w | 0 <= w < VPAGES
      ensures Entry(mem', p, w) == if w == v then e else Entry(mem, p, w)
      ensures w < UPAGES && w != v ==> UserPage(mem', p, w) == UserPage(mem, p, w)
    {
      if v / ENTRIES == w / ENTRIES && v % ENTRIES == w % ENTRIES { SamePlace(v, w); }
    }
  }

  lemma ViewSetAfter(mem: seq<Page>, mem1: seq<Page>, mem2: seq<Page>, p: nat, v: nat, e: Pte)
    requires SameSpace(mem, mem1, p) && ViewSet(mem1, mem2, p, v, e)
    ensures ViewSet(mem, mem2, p, v, e)
  {
    hide PteAt, PageOf;
  }

  /** What the frame of a mapping must be: for a user page a data frame the kernel holds. */
  ghost predicate Mappable(m: Vm, v: nat, e: Pte) {
    && v < VPAGES && e.Present?
    && (v < UPAGES ==> e.frame in m.owner && m.owner[e.frame] == Kernel && e.frame < |m.mem| && m.mem[e.frame].Data?)
  }

  function SetEntry(u: Vm, p: nat, v: nat, e: Pte): Vm
    requires v < VPAGES && p < |u.mem| && u.mem[p].Dir? && u.mem[p].pdes[v / ENTRIES] < |u.mem| &&
             u.mem[u.mem[p].pdes[v / ENTRIES]].Table?
  {
    u.(mem := WithPte(u.mem, p, v / ENTRIES, v % ENTRIES, e),
       owner := if v < UPAGES && e.Present? then u.owner[e.frame := IsPage(p, v / ENTRIES, v % ENTRIES)] else u.owner)
  }

  /** Going on from a state where the others were kept, and writing only frames that belong to `p`. */
  lemma OthersKeptOn(m: Vm, u: Vm, t: Vm, p: nat)
    requires OthersKept(m, u, p) && t.first == u.first && |t.mem| == |u.mem|
    requires forall q :: IsSpace(u, q) ==> IsSpace(t, q)
    requires forall q :: IsSpace(u, q) && q != p ==> SameSpace(u.mem, t.mem, q)
    requires forall f :: f in t.owner && t.owner[f] == Kernel && f < |t.mem| ==>
               f in u.owner && u.owner[f] == Kernel && t.mem[f] == u.mem[f]
    ensures OthersKept(m, t, p)
  {
    hide PteAt, PageOf;
  }

  lemma MapSetOwners(m: Vm, u: Vm, p: nat, v: nat, e: Pte)
    requires IsSpace(m, p) && Walked(m, u, p) && Mappable(m, v, e)
    requires p < |u.mem| && u.mem[p].Dir? && u.mem[p].pdes[v / ENTRIES] < |u.mem| &&
             u.mem[u.mem[p].pdes[v / ENTRIES]].Table?
    ensures FreeInv(SetEntry(u, p, v, e)) && OwnersSet(m, SetEntry(u, p, v, e), p, v, e)
    ensures v < UPAGES ==>
              e.frame in u.owner && u.owner[e.frame] == Kernel && e.frame < |u.mem| && u.mem[e.frame] == m.mem[e.frame]
  {
    hide TreeInv, SameSpace;
  }

  lemma MapSet(m: Vm, u: Vm, p: nat, v: nat, e: Pte)
    requires IsSpace(m, p) && Walked(m, u, p) && Mappable(m, v, e) && Entry(m.mem, p, v) == Entry(u.mem, p, v) == Absent
    requires p < |u.mem| && u.mem[p].Dir? && u.mem[p].pdes[v / ENTRIES] != 0
    ensures u.mem[p].pdes[v / ENTRIES] < |u.mem| && u.mem[u.mem[p].pdes[v / ENTRIES]].Table?
    ensures EntryMapped(m, SetEntry(u, p, v, e), p, v, e)
  {
    hide PteAt, PageOf, ViewSet, EntrySet, SameSpace, OwnersSet, TreeInv;
    var i, j := v / ENTRIES, v % ENTRIES;
    WithPteEntry(u.mem, u.owner, p, i, j, e);
    MapSetOwners(m, u, p, v, e);
    MapSetTree(u, p, v, e);
    var t := SetEntry(u, p, v, e);
    EntrySetMeans(u.mem, t.mem, u, p, v, e);
    ViewSetAfter(m.mem, u.mem, t.mem, p, v, e);
    OthersKeptOn(m, u, t, p);
  }

  lemma MapSetTree(u: Vm, p: nat, v: nat, e: Pte)
    requires Valid(u) && IsSpace(u, p) && Mappable(u, v, e) && Entry(u.mem, p, v) == Absent
    requires p < |u.mem| && u.mem[p].Dir? && u.mem[p].pdes[v / ENTRIES] != 0
    requires u.mem[p].pdes[v / ENTRIES] < |u.mem| && u.mem[u.mem[p].pdes[v / ENTRIES]].Table?
    ensures TreeInv(SetEntry(u, p, v, e).mem, SetEntry(u, p, v, e).owner)
    ensures v < UPAGES ==> UserPage(SetEntry(u, p, v, e).mem, p, v) == u.mem[e.frame].bytes
  {
    hide PteAt, PageOf, EntrySet, TreeInv, FreeInv;
    var i, j := v / ENTRIES, v % ENTRIES;
    if v < UPAGES { InstallPage(u.mem, u.owner, p, i, j, e); } else { InstallKernelPage(u.mem, u.owner, p, i, j, e); }
  }

  datatype MapResult = Mapped | NoMemory | Remap

  /** One turn of the loop of `mappages`. */
  method MapOne(m: Vm, p: nat, v: nat, e: Pte) returns (t: Vm, r: MapResult)
    requires Valid(m) && IsSpace(m, p) && Mappable(m, v, e)
    ensures r.Mapped? ==> EntryMapped(m, t, p, v, e)
    ensures r.NoMemory? ==> t == m && m.free == []
    ensures r.Remap? <==> Entry(m.mem, p, v).Present?
    ensures !r.Remap? ==> |t.free| + Tables(t.mem, p) == |m.free| + Tables(m.mem, p) && |t.free| + 1 >= |m.free|
  {
    hide Walked, EntryMapped, Valid;
    var ok;
    t, ok := Walk(m, p, v / ENTRIES, true);
    WalkedEntry(m, t, p, v);
    if !ok { return t, NoMemory; }
    var pte := Entry(t.mem, p, v);
    if pte.Present? { return t, Remap; }
    MapSet(m, t, p, v, e);
    t := SetEntry(t, p, v, e);
    r := Mapped;
  }

  lemma WalkedEntry(m: Vm, t: Vm, p: nat, v: nat)
    requires Valid(m) && IsSpace(m, p) && Walked(m, t, p) && v < VPAGES
    ensures p < |m.mem| && m.mem[p].Dir? && p < |t.mem| && t.mem[p].Dir? && Entry(t.mem, p, v) == Entry(m.mem, p, v)
    ensures m.mem[p].pdes[v / ENTRIES] == 0 ==> Entry(m.mem, p, v) == Absent
  {}

  /** Kernel pages `a` up to `b` of space `p` map the frames from `ppn` on; only tables of `p` were added. */
  ghost predicate RangeMapped(m: Vm, t: Vm, p: nat, a: nat, b: nat, ppn: nat, w: bool, u: bool) {
    match t case Vm(_, mem, _, _) =>
    && Valid(t) && OthersKept(m, t, p) && TablesAdded(m, t, p)
    && (forall v :: 0 <= v < VPAGES ==>
          Entry(mem, p, v) == if a <= v < b then Present(ppn + (v - a), w, u) else Entry(m.mem, p, v))
    && (forall v :: 0 <= v < UPAGES ==> UserPage(mem, p, v) == UserPage(m.mem, p, v))
    && (forall v :: 0 <= v < VPAGES && a <= v < b ==> Entry(m.mem, p, v) == Absent)
  }

  lemma RangeStart(m: Vm, p: nat, a: nat, ppn: nat, w: bool, u: bool)
    requires Valid(m) && IsSpace(m, p)
    ensures RangeMapped(m, m, p, a, a, ppn, w, u)
  {}

  lemma RangeStep(m: Vm, s: Vm, t: Vm, p: nat, a: nat, b: nat, ppn: nat, w: bool, u: bool)
    requires IsSpace(m, p) && RangeMapped(m, s, p, a, b, ppn, w, u) && UPAGES <= a <= b < VPAGES
    requires EntryMapped(s, t, p, b, Present(ppn + (b - a), w, u))
    ensures RangeMapped(m, t, p, a, b + 1, ppn, w, u)
  {
    hide Entry, UserPage, SameSpace, TreeInv;
    KeptTrans(m, s, t, p);
  }

  lemma KeptTrans(m: Vm, s: Vm, t: Vm, p: nat)
    requires OthersKept(m, s, p) && OthersKept(s, t, p)
    requires forall f :: f in m.owner && m.owner[f] == Kernel && f in t.owner && t.owner[f] == Kernel ==>
               f in s.owner && s.owner[f] == Kernel
    ensures OthersKept(m, t, p)
  {
    hide PteAt, PageOf;
  }

  lemma RangeSpace(m: Vm, t: Vm, p: nat, a: nat, b: nat, ppn: nat, w: bool, u: bool)
    requires IsSpace(m, p) && RangeMapped(m, t, p, a, b, ppn, w, u)
    ensures IsSpace(t, p) && Valid(t)
  {}

  /** `mappages`, with the rounding of both ends.  It maps a stretch of kernel space, or one user page whose
      frame the kernel hands over. */
  method MapPages(m: Vm, p: nat, va: nat, size: nat, ppn: nat, w: bool, u: bool) returns (t: Vm, r: MapResult)
    requires Valid(m) && IsSpace(m, p) && 0 < size && va + size <= VPAGES * PGSIZE
    requires va / PGSIZE < UPAGES ==>
               va / PGSIZE == (va + size - 1) / PGSIZE && Mappable(m, va / PGSIZE, Present(ppn, w, u))
    ensures r.Mapped? && va / PGSIZE < UPAGES ==> EntryMapped(m, t, p, va / PGSIZE, Present(ppn, w, u))
    ensures r.Mapped? && va / PGSIZE >= UPAGES ==>
              RangeMapped(m, t, p, va / PGSIZE, (va + size - 1) / PGSIZE + 1, ppn, w, u)
    ensures r.NoMemory? && va / PGSIZE < UPAGES ==> t == m && m.free == []
    ensures va / PGSIZE < UPAGES ==> (r.Remap? <==> Entry(m.mem, p, va / PGSIZE).Present?)
    ensures r.NoMemory? && va / PGSIZE >= UPAGES ==>
              exists b ::
                va / PGSIZE <= b <= (va + size - 1) / PGSIZE && RangeMapped(m, t, p, va / PGSIZE, b, ppn, w, u)
    ensures r.NoMemory? ==> t.free == []
    ensures !r.Remap? ==> |t.free| + Tables(t.mem, p) == |m.free| + Tables(m.mem, p)
    ensures !r.Remap? && va / PGSIZE < UPAGES ==> |t.free| + 1 >= |m.free|
    ensures r.Remap? ==>
              exists v: nat :: va / PGSIZE <= v <= (va + size - 1) / PGSIZE && v < VPAGES && Entry(m.mem, p, v).Present?
  {
    hide Valid, EntryMapped, RangeMapped, Mappable, Entry;
    var first, last := va / PGSIZE, (va + size - 1) / PGSIZE;
    var a, pa := first, ppn;
    t := m;
    RangeStart(m, p, first, ppn, w, u);
    while true
      invariant first <= a <= last && pa == ppn + (a - first) && Valid(t) && IsSpace(t, p)
      invariant first < UPAGES ==> a == first && t == m
      invariant RangeMapped(m, t, p, first, a, ppn, w, u)
      invariant |t.free| + Tables(t.mem, p) == |m.free| + Tables(m.mem, p)
      decreases last - a
    {
      var s := t;
      KernelMappable(s, a, Present(pa, w, u));
      t, r := MapOne(s, p, a, Present(pa, w, u));
      if r.Remap? {
        RangeEntry(m, s, p, first, a, ppn, w, u, a);
        return;
      }
      if r.NoMemory? { return; }
      if first >= UPAGES {
        RangeStep(m, s, t, p, first, a, ppn, w, u);
        RangeSpace(m, t, p, first, a + 1, ppn, w, u);
      }
      if a == last { return; }
      a, pa := a + 1, pa + 1;
    }
  }

  lemma KernelMappable(m: Vm, v: nat, e: Pte)
    ensures UPAGES <= v < VPAGES && e.Present? ==> Mappable(m, v, e)
  {}

  lemma RangeEntry(m: Vm, t: Vm, p: nat, a: nat, b: nat, ppn: nat, w: bool, u: bool, v: nat)
    requires RangeMapped(m, t, p, a, b, ppn, w, u) && b <= v < VPAGES
    ensures Entry(t.mem, p, v) == Entry(m.mem, p, v)
  {}
}
