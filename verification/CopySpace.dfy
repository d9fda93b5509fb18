/** `copyuvm`: a child's space with its own copy of every page its parent has, or nothing taken at all. */
module CopySpace {
  import opened Frames
  import opened PageTables
  import opened Spaces
  import opened KernelMap
  import opened Lazy

  /** The entry of a copy: a frame of its own, the same flags. */
  predicate CopyOf(e: Pte, c: Pte) {
    e.Present? == c.Present? && (e.Present? ==> c.w == e.w && c.u == e.u)
  }

  /** The new space `d` has copies of pages 0 up to `n` of `p`, no other user page, and the kernel's map. */
  ghost predicate Copied(m: Vm, t: Vm, p: nat, d: nat, n: nat, kmap: seq<KRange>) {
    match t case Vm(_, mem, _, _) =>
    && NewSpace(m, t, d)
    && (forall v :: 0 <= v < UPAGES && v < n ==>
          CopyOf(Entry(m.mem, p, v), Entry(mem, d, v)) && UserPage(mem, d, v) == UserPage(m.mem, p, v))
    && (forall v :: 0 <= v < UPAGES && v >= n ==> Entry(mem, d, v) == Absent)
    && (forall v :: UPAGES <= v < VPAGES ==> Entry(mem, d, v) == KernelEntry(kmap, |kmap|, v))
  }

  lemma {:induction false} NoKernelBelow(kmap: seq<KRange>, n: nat, v: nat)
    requires ValidKmap(kmap) && n <= |kmap| && v < UPAGES
    ensures KernelEntry(kmap, n, v) == Absent
  {
    if n > 0 { NoKernelBelow(kmap, n - 1, v); }
  }

  lemma CopiedStart(m: Vm, t: Vm, p: nat, d: nat, kmap: seq<KRange>)
    requires ValidKmap(kmap) && NewSpace(m, t, d) && KernelView(t, d, kmap, |kmap|)
    ensures Copied(m, t, p, d, 0, kmap)
  {
    hide Entry, NewSpace;
    forall v: nat | v < UPAGES
      ensures Entry(t.mem, d, v) == Absent
    {
      NoKernelBelow(kmap, |kmap|, v);
    }
  }

  /** The parent is untouched, so its entries are still those of the start. */
  lemma ParentSame(m: Vm, t: Vm, p: nat, d: nat, n: nat, kmap: seq<KRange>)
    requires IsSpace(m, p) && Copied(m, t, p, d, n, kmap)
    ensures Valid(t) && IsSpace(t, p) && IsSpace(t, d) && p != d
    ensures forall v :: 0 <= v < VPAGES ==> Entry(t.mem, p, v) == Entry(m.mem, p, v)
    ensures forall v :: 0 <= v < UPAGES ==> UserPage(t.mem, p, v) == UserPage(m.mem, p, v)
  {
    SameViews(m.mem, t.mem, p);
  }

  lemma CopiedSkip(m: Vm, t: Vm, p: nat, d: nat, n: nat, kmap: seq<KRange>)
    requires Copied(m, t, p, d, n, kmap) && n < UPAGES && Entry(m.mem, p, n) == Absent
    ensures Copied(m, t, p, d, n + 1, kmap)
  {
    AbsentIsZero(m.mem, p, n);
    AbsentIsZero(t.mem, d, n);
    hide Entry, UserPage, NewSpace, ZeroPage;
  }

  /** A present user page is a data frame. */
  lemma PresentPage(t: Vm, p: nat, v: nat)
    requires Valid(t) && IsSpace(t, p) && v < UPAGES && Entry(t.mem, p, v).Present?
    ensures Entry(t.mem, p, v).frame < |t.mem| && t.mem[Entry(t.mem, p, v).frame].Data?
    ensures t.mem[Entry(t.mem, p, v).frame].bytes == UserPage(t.mem, p, v)
  {}

  lemma CopiedSpace(m: Vm, s: Vm, u: Vm, t: Vm, d: nat, v: nat, e: Pte, bytes: PageData)
    requires NewSpace(m, s, d) && e.Present? && Fetched(s, u, e.frame, bytes) && v < UPAGES &&
             EntryMapped(u, t, d, v, e)
    ensures NewSpace(m, t, d)
  {
    hide SameSpace, Entry, UserPage, Valid, ViewSet;
    forall q | IsSpace(m, q)
      ensures IsSpace(t, q) && SameSpace(m.mem, t.mem, q)
    {
      assert IsSpace(s, q) && IsSpace(u, q) && q != d;
      SameTrans(m.mem, s.mem, u.mem, q);
      SameTrans(m.mem, u.mem, t.mem, q);
    }
  }

  lemma CopiedOne(m: Vm, s: Vm, u: Vm, t: Vm, p: nat, d: nat, v: nat, e: Pte, kmap: seq<KRange>)
    requires IsSpace(m, p) && Copied(m, s, p, d, v, kmap) && v < UPAGES && Entry(m.mem, p, v).Present? && e.Present?
    requires CopyOf(Entry(m.mem, p, v), e) && Fetched(s, u, e.frame, UserPage(m.mem, p, v)) &&
             EntryMapped(u, t, d, v, e)
    ensures Copied(m, t, p, d, v + 1, kmap)
  {
    hide Entry, UserPage, NewSpace, Fetched, SameSpace, OthersKept, OwnersSet, Valid;
    CopiedSpace(m, s, u, t, d, v, e, UserPage(m.mem, p, v));
    NewSpaceValid(m, s, d);
    FetchedData(s, u, e.frame, UserPage(m.mem, p, v));
    FetchedViews(s, u, d, e.frame, UserPage(m.mem, p, v));
  }

  lemma FetchedData(s: Vm, u: Vm, f: nat, bytes: PageData)
    requires Fetched(s, u, f, bytes)
    ensures f < |u.mem| && u.mem[f] == Data(bytes)
  {}

  lemma CopiedReturned(m: Vm, s: Vm, t: Vm, d: nat)
    requires NewSpace(m, s, d) && Returned(s, t)
    ensures NewSpace(m, t, d)
  {
    hide PteAt, PageOf, TreeInv, FreeInv;
    assert forall q :: IsSpace(m, q) ==> IsSpace(s, q);
  }

  /** The way out of `copyuvm` when memory is short: `freevm` of what has been built. */
  method Abandon(m: Vm, s: Vm, d: nat) returns (t: Vm)
    requires Valid(m) && NewSpace(m, s, d)
    ensures Returned(m, t)
  {
    hide NewSpace, Returned, SpaceGone;
    NewSpaceValid(m, s, d);
    t := FreeVm(s, d);
    GivenBack(m, s, t, d);
  }

  method CopyUvm(m: Vm, p: nat, sz: nat, kmap: seq<KRange>) returns (t: Vm, d: nat)
    requires Valid(m) && IsSpace(m, p) && sz <= KERNBASE && ValidKmap(kmap)
    ensures d != 0 ==> Copied(m, t, p, d, Up(sz), kmap)
    ensures d != 0 ==> |t.free| + 1 + ENTRIES + Up(sz) >= |m.free|
    ensures d == 0 ==> Returned(m, t) && |m.free| <= 1 + ENTRIES + Up(sz)
  {
    hide Valid, NewSpace, KernelView, Copied, Returned, Fetched, EntryMapped, Mappable, Entry, UserPage, CopyOf;
    t, d := SetupKvm(m, kmap);
    if d == 0 { return; }
    CopiedStart(m, t, p, d, kmap);
    var v := 0;
    while v * PGSIZE < sz
      invariant 0 <= v <= Up(sz) && Copied(m, t, p, d, v, kmap) && d != 0
      invariant |t.free| + Tables(t.mem, d) + 1 + v >= |m.free|
      decreases Up(sz) - v
    {
      ParentSame(m, t, p, d, v, kmap);
      var ok;
      t, ok := Walk(t, p, v / ENTRIES, false);
      var pte := Entry(t.mem, p, v);
      NoTable(t, p, v);
      if !ok || pte.Absent? {
        CopiedSkip(m, t, p, d, v, kmap);
        v := v + 1;
        continue;
      }
      PresentPage(t, p, v);
      ghost var s := t;
      var bytes := t.mem[pte.frame].bytes;
      var f, k;
      t, f := KallocWith(t, bytes);
      if f == 0 {
        CopiedNew(m, t, p, d, v, kmap);
        t := Abandon(m, t, d);
        return t, 0;
      }
      ghost var u, e := t, Present(f, pte.w, pte.u);
      FetchedMaps(s, u, d, v, e, bytes);
      FetchedTables(s, u, f, bytes, d);
      PageAddress(v);
      assert Entry(s.mem, d, v) == Absent by { NotYet(m, s, p, d, v, kmap); }
      t, k := MapPages(t, d, v * PGSIZE, PGSIZE, f, pte.w, pte.u);
      if k.NoMemory? {
        KernelHas(s, u, f, bytes);
        t := Kfree(t, f);
        assert NewSpace(m, t, d) by {
          DropFetched(s, u, t, f, bytes);
          CopiedNew(m, s, p, d, v, kmap);
          CopiedReturned(m, s, t, d);
        }
        t := Abandon(m, t, d);
        return t, 0;
      }
      assert CopyOf(pte, e) by { SameFlags(pte, e); }
      CopiedOne(m, s, u, t, p, d, v, e, kmap);
      v := v + 1;
    }
  }

  lemma FetchedTables(s: Vm, u: Vm, f: nat, bytes: PageData, d: nat)
    requires Fetched(s, u, f, bytes) && IsSpace(s, d)
    ensures Tables(u.mem, d) == Tables(s.mem, d)
  {}

  lemma NoTable(t: Vm, p: nat, v: nat)
    requires Valid(t) && IsSpace(t, p) && v < UPAGES
    ensures p < |t.mem| && t.mem[p].Dir? && (t.mem[p].pdes[v / ENTRIES] == 0 ==> Entry(t.mem, p, v) == Absent)
  {}

  lemma CopiedNew(m: Vm, t: Vm, p: nat, d: nat, n: nat, kmap: seq<KRange>)
    requires Copied(m, t, p, d, n, kmap)
    ensures NewSpace(m, t, d)
  {}

  lemma NotYet(m: Vm, t: Vm, p: nat, d: nat, n: nat, kmap: seq<KRange>)
    requires Copied(m, t, p, d, n, kmap) && n < UPAGES
    ensures Entry(t.mem, d, n) == Absent
  {}

  lemma SameFlags(e: Pte, c: Pte)
    requires e.Present? && c.Present? && c.w == e.w && c.u == e.u
    ensures CopyOf(e, c)
  {}
}
