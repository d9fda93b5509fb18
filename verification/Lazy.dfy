/** The user half of a space, grown by `allocuvm` and filled in by faults: `handle_lazy_allocation`. */
module Lazy {
  import opened Frames
  import opened PageTables
  import opened Spaces
  import opened KernelMap

  /** No page of `p` lies at or above `sz`. */
  ghost predicate Below(m: Vm, p: nat, sz: nat) {
    match m case Vm(_, mem, _, _) =>
    sz < KERNBASE && forall v :: Up(sz) <= v < UPAGES ==> Entry(mem, p, v) == Absent
  }

  /** Pages `lo` up to `a` of `p` have been given zeroed frames; every user page reads as before, every other
      entry is the same, and besides those pages only tables of `p` were added. */
  ghost predicate Filled(m: Vm, t: Vm, p: nat, lo: nat, a: nat) {
    match t case Vm(_, mem, _, owner) =>
    && Valid(t) && OthersKept(m, t, p) && IsSpace(t, p)
    && (forall v :: 0 <= v < VPAGES && !(lo <= v < a) ==> Entry(mem, p, v) == Entry(m.mem, p, v))
    && (forall v :: 0 <= v < UPAGES && lo <= v < a ==>
          Entry(mem, p, v).Present? && Entry(mem, p, v).w && Entry(mem, p, v).u)
    && (forall v :: 0 <= v < UPAGES ==> UserPage(mem, p, v) == UserPage(m.mem, p, v))
    && (forall f :: f in m.owner ==> f in owner && owner[f] == m.owner[f])
    && (forall f :: f in owner && f !in m.owner ==>
          (owner[f].IsTable? && owner[f].p == p) || InRange(owner[f], p, lo, a))
  }

  lemma FilledStart(m: Vm, p: nat, lo: nat)
    requires Valid(m) && IsSpace(m, p)
    ensures Filled(m, m, p, lo, lo)
  {}

  /** A frame from `kalloc`, filled with `bytes`, in the hands of the kernel. */
  ghost predicate Fetched(s: Vm, u: Vm, f: nat, bytes: PageData) {
    match u case Vm(first, mem, _, owner) =>
    && Valid(u) && first == s.first && |mem| == |s.mem| && f !in s.owner && f < |mem|
    && owner == s.owner[f := Kernel] && mem[f] == Data(bytes)
    && (forall q :: IsSpace(s, q) ==> SameSpace(s.mem, mem, q))
    && (forall g :: g in s.owner && g < |mem| ==> mem[g] == s.mem[g])
  }

  lemma FetchedBy(s: Vm, k: Vm, f: nat, bytes: PageData)
    requires Valid(s) && f !in s.owner && 0 < f < |s.mem| && FreeInv(k) && k.first == s.first && k.mem == s.mem &&
             k.owner == s.owner[f := Kernel]
    ensures Fetched(s, k.(mem := k.mem[f := Data(bytes)]), f, bytes)
  {
    hide PteAt, PageOf;
    TakeHeld(s.mem, s.owner, f);
    WriteHeld(k.mem, k.owner, f, Data(bytes));
    assert forall q :: IsSpace(s, q) ==> IsSpace(k, q);
  }

  /** `kalloc`, and `memset` or `memmove` into the frame. */
  method KallocWith(s: Vm, bytes: PageData) returns (u: Vm, f: nat)
    requires Valid(s)
    ensures f == 0 <==> s.free == []
    ensures f == 0 ==> u == s
    ensures f != 0 ==> Fetched(s, u, f, bytes) && u.free == s.free[1..]
  {
    hide Fetched;
    u, f := Kalloc(s);
    if f == 0 { return; }
    FetchedBy(s, u, f, bytes);
    u := u.(mem := u.mem[f := Data(bytes)]);
  }

  lemma FetchedMaps(s: Vm, u: Vm, p: nat, v: nat, e: Pte, bytes: PageData)
    requires IsSpace(s, p) && e.Present? && Fetched(s, u, e.frame, bytes) && v < UPAGES
    ensures Valid(u) && IsSpace(u, p) && Mappable(u, v, e) && Entry(u.mem, p, v) == Entry(s.mem, p, v)
  {}

  /** The zeroed frame mapped at `v`, which was absent: no page reads differently. */
  lemma FilledOne(s: Vm, u: Vm, t: Vm, p: nat, v: nat, f: nat)
    requires Valid(s) && IsSpace(s, p) && Fetched(s, u, f, ZeroPage()) && v < UPAGES &&
             EntryMapped(u, t, p, v, Present(f, true, true))
    ensures Filled(s, t, p, v, v + 1)
  {
    hide Entry, UserPage, SameSpace, TreeInv, FreeInv, ZeroPage;
    FetchedViews(s, u, p, f, ZeroPage());
    AbsentIsZero(s.mem, p, v);
    FetchedOthers(s, u, t, p, f, ZeroPage());
    assert IsSpace(u, p);
    assert (v / ENTRIES) * ENTRIES + v % ENTRIES == v;
  }

  lemma FetchedViews(s: Vm, u: Vm, p: nat, f: nat, bytes: PageData)
    requires Fetched(s, u, f, bytes) && IsSpace(s, p)
    ensures forall w :: 0 <= w < VPAGES ==> Entry(u.mem, p, w) == Entry(s.mem, p, w)
    ensures forall w :: 0 <= w < UPAGES ==> UserPage(u.mem, p, w) == UserPage(s.mem, p, w)
  {
    SameViews(s.mem, u.mem, p);
  }

  lemma SameViews(mem: seq<Page>, mem': seq<Page>, p: nat)
    requires SameSpace(mem, mem', p)
    ensures forall w :: 0 <= w < VPAGES ==> Entry(mem', p, w) == Entry(mem, p, w)
    ensures forall w :: 0 <= w < UPAGES ==> UserPage(mem', p, w) == UserPage(mem, p, w)
  {
    hide PteAt, PageOf;
  }

  lemma AbsentIsZero(mem: seq<Page>, p: nat, v: nat)
    requires v < UPAGES
    ensures Entry(mem, p, v) == Absent ==> UserPage(mem, p, v) == ZeroPage()
  {}

  lemma FetchedOthers(s: Vm, u: Vm, t: Vm, p: nat, f: nat, bytes: PageData)
    requires Fetched(s, u, f, bytes) && OthersKept(u, t, p)
    requires f !in s.owner && forall g :: g in t.owner && t.owner[g] == Kernel && g in s.owner ==> s.owner[g] == Kernel
    ensures OthersKept(s, t, p)
  {
    hide PteAt, PageOf;
    assert forall q :: IsSpace(s, q) ==> IsSpace(u, q);
  }

  /** `kfree` of a frame in the kernel's hands changes no space. */
  lemma DropKernel(u: Vm, t: Vm, f: nat)
    requires Valid(u) && f in u.owner && u.owner[f] == Kernel && f < |u.mem|
    requires FreeInv(t) && t.first == u.first && t.mem == u.mem[f := Junk] && t.owner == u.owner - {f}
    ensures Valid(t) && forall q :: IsSpace(u, q) ==> IsSpace(t, q) && q != f && SameSpace(u.mem, t.mem, q)
  {
    hide PteAt, PageOf, FreeInv;
    WriteHeld(u.mem, u.owner, f, Junk);
    DropHeld(t.mem, u.owner, f);
    hide SameSpace;
  }

  lemma DropFetched(s: Vm, u: Vm, t: Vm, f: nat, bytes: PageData)
    requires Valid(s) && Fetched(s, u, f, bytes) && FreeInv(t) && t.first == u.first && t.mem == u.mem[f := Junk] &&
             t.owner == u.owner - {f}
    ensures Returned(s, t)
  {
    hide PteAt, PageOf, TreeInv, FreeInv;
    DropKernel(u, t, f);
    assert t.owner == s.owner;
    assert forall q :: IsSpace(s, q) ==> IsSpace(u, q);
  }

  datatype FaultResult = Handled | Refused | Panic

  /** `kalloc`, `memset` and `mappages` of one page, giving the frame back when the table cannot be had. */
  method FillPage(m: Vm, p: nat, v: nat) returns (t: Vm, r: FaultResult)
    requires Valid(m) && IsSpace(m, p) && v < UPAGES
    ensures r.Handled? ==> Filled(m, t, p, v, v + 1)
    ensures r.Refused? ==> Returned(m, t)
    ensures r.Panic? <==> m.free != [] && Entry(m.mem, p, v).Present?
    ensures |m.free| >= 2 && Entry(m.mem, p, v) == Absent ==> r.Handled?
    ensures !r.Panic? ==> |t.free| + 2 >= |m.free|
  {
    hide Valid, Filled, Returned, Fetched, Mappable, EntryMapped, Entry;
    var f;
    t, f := KallocWith(m, ZeroPage());
    if f == 0 {
      NothingTaken(m);
      return t, Refused;
    }
    ghost var u := t;
    FetchedMaps(m, u, p, v, Present(f, true, true), ZeroPage());
    PageAddress(v);
    var k;
    t, k := MapPages(t, p, v * PGSIZE, PGSIZE, f, true, true);
    match k {
      case Remap => return t, Panic;
      case NoMemory =>
        KernelHas(m, u, f, ZeroPage());
        t := Kfree(t, f);
        DropFetched(m, u, t, f, ZeroPage());
        return t, Refused;
      case Mapped =>
        FilledOne(m, u, t, p, v, f);
        FilledWas(m, u, t, p, v, f);
        return t, Handled;
    }
  }

  lemma PageAddress(v: nat)
    ensures v * PGSIZE / PGSIZE == v && (v * PGSIZE + PGSIZE - 1) / PGSIZE == v
  {}

  lemma KernelHas(s: Vm, u: Vm, f: nat, bytes: PageData)
    requires Fetched(s, u, f, bytes)
    ensures FreeInv(u) && f in u.owner
  {}

  lemma FilledWas(s: Vm, u: Vm, t: Vm, p: nat, v: nat, f: nat)
    requires IsSpace(s, p) && Fetched(s, u, f, ZeroPage()) && v < UPAGES &&
             EntryMapped(u, t, p, v, Present(f, true, true))
    ensures Entry(s.mem, p, v) == Absent
  {}

  /** `handle_lazy_allocation`: any page between the first and `sz` that is not there yet.  Every page of
      every space reads afterwards as it did before. */
  method HandleFault(m: Vm, p: nat, sz: nat, addr: nat) returns (t: Vm, r: FaultResult)
    requires Valid(m) && IsSpace(m, p) && sz <= KERNBASE
    ensures r.Handled? ==> PGSIZE <= addr < sz && Filled(m, t, p, Down(addr), Down(addr) + 1)
    ensures r.Refused? ==> Returned(m, t)
    ensures r.Panic? <==> PGSIZE <= addr < sz && m.free != [] && Entry(m.mem, p, Down(addr)).Present?
    ensures PGSIZE <= addr < sz && |m.free| >= 2 && Entry(m.mem, p, Down(addr)) == Absent ==> r.Handled?
    ensures !r.Panic? ==> |t.free| + 2 >= |m.free|
  {
    NothingTaken(m);
    if addr >= sz { return m, Refused; }
    if addr < PGSIZE { return m, Refused; }
    t, r := FillPage(m, p, Down(addr));
  }

  /** One more page of a stretch. */
  lemma FilledOn(m: Vm, s: Vm, t: Vm, p: nat, lo: nat, a: nat)
    requires IsSpace(m, p) && Filled(m, s, p, lo, a) && Filled(s, t, p, a, a + 1) && lo <= a
    ensures Filled(m, t, p, lo, a + 1)
  {
    hide Entry, UserPage, SameSpace, TreeInv, FreeInv;
    KeptTrans(m, s, t, p);
  }

  /** After the pages added so far have been taken away again, only tables of `p` are left over. */
  lemma Undone(m: Vm, s: Vm, t: Vm, p: nat, oldsz: nat, a: nat, b: nat)
    requires Valid(m) && IsSpace(m, p) && Below(m, p, oldsz) && Filled(m, s, p, Up(oldsz), a) &&
             PagesFreed(s, t, p, Up(oldsz), b)
    requires Up(oldsz) <= a <= b <= UPAGES
    ensures Walked(m, t, p)
  {
    hide Entry, UserPage, TreeInv, FreeInv;
    KeptTrans(m, s, t, p);
    UndoneOwners(m, s, t, p, oldsz, a, b);
    UndoneViews(m, s, t, p, oldsz, a, b);
  }

  lemma UndoneOwners(m: Vm, s: Vm, t: Vm, p: nat, oldsz: nat, a: nat, b: nat)
    requires Valid(m) && IsSpace(m, p) && Below(m, p, oldsz) && Filled(m, s, p, Up(oldsz), a) &&
             PagesFreed(s, t, p, Up(oldsz), b)
    requires Up(oldsz) <= a <= b <= UPAGES
    ensures TablesAdded(m, t, p)
  {
    hide Entry, UserPage, TreeInv, FreeInv, OthersKept;
    forall f | f in m.owner
      ensures !InRange(m.owner[f], p, Up(oldsz), b)
    {
      if InRange(m.owner[f], p, Up(oldsz), b) { PageEntry(m, p, f); }
    }
  }

  lemma UndoneViews(m: Vm, s: Vm, t: Vm, p: nat, oldsz: nat, a: nat, b: nat)
    requires Valid(m) && IsSpace(m, p) && Below(m, p, oldsz) && Filled(m, s, p, Up(oldsz), a) &&
             PagesFreed(s, t, p, Up(oldsz), b)
    requires Up(oldsz) <= a <= b <= UPAGES
    ensures SameSpace(m.mem, t.mem, p)
  {
    hide Entry, UserPage, OthersKept, Valid, SameSpace, ZeroPage;
    forall v | 0 <= v < UPAGES
      ensures UserPage(t.mem, p, v) == UserPage(m.mem, p, v)
    {
      AbsentIsZero(m.mem, p, v);
      AbsentIsZero(t.mem, p, v);
    }
    SameByPage(m.mem, t.mem, p);
  }

  lemma SameByPage(mem: seq<Page>, mem': seq<Page>, p: nat)
    requires forall v :: 0 <= v < VPAGES ==> Entry(mem', p, v) == Entry(mem, p, v)
    requires forall v :: 0 <= v < UPAGES ==> UserPage(mem', p, v) == UserPage(mem, p, v)
    ensures SameSpace(mem, mem', p)
  {
    forall i, j | 0 <= i < ENTRIES && 0 <= j < ENTRIES
      ensures PteAt(mem', p, i, j) == PteAt(mem, p, i, j)
      ensures i < UDIRS ==> PageOf(mem', p, i, j) == PageOf(mem, p, i, j)
    {
      var v := i * ENTRIES + j;
      assert v / ENTRIES == i && v % ENTRIES == j;
      assert Entry(mem', p, v) == Entry(mem, p, v);
      if i < UDIRS { assert UserPage(mem', p, v) == UserPage(mem, p, v); }
    }
  }

  /** A frame got and given back around the freeing of pages does not show. */
  lemma FreedAround(s: Vm, u: Vm, t: Vm, t2: Vm, p: nat, a: nat, b: nat, f: nat)
    requires IsSpace(s, p) && Fetched(s, u, f, ZeroPage()) && PagesFreed(u, t, p, a, b) && FreeInv(t2)
    requires f < |t.mem| && t2.first == t.first && t2.mem == t.mem[f := Junk] && t2.owner == t.owner - {f}
    ensures PagesFreed(s, t2, p, a, b)
  {
    hide Entry, UserPage, SameSpace, TreeInv, FreeInv;
    FetchedViews(s, u, p, f, ZeroPage());
    FreedHeld(u, t, p, a, b, f);
    DropKernel(t, t2, f);
    SameViews(t.mem, t2.mem, p);
    FreedAroundOthers(s, u, t, t2, p, f);
    hide OthersKept;
  }

  lemma FreedHeld(u: Vm, t: Vm, p: nat, a: nat, b: nat, f: nat)
    requires f in u.owner && u.owner[f] == Kernel && PagesFreed(u, t, p, a, b)
    ensures f in t.owner && t.owner[f] == Kernel
  {}

  lemma FreedAroundOthers(s: Vm, u: Vm, t: Vm, t2: Vm, p: nat, f: nat)
    requires Fetched(s, u, f, ZeroPage()) && OthersKept(u, t, p) && |t2.mem| == |t.mem| && t2.first == t.first &&
             t2.owner == t.owner - {f}
    requires forall g :: 0 <= g < |t.mem| && g != f ==> t2.mem[g] == t.mem[g]
    requires forall q :: IsSpace(t, q) ==> SameSpace(t.mem, t2.mem, q) && q != f
    requires forall g :: g in t.owner ==> g in u.owner && t.owner[g] == u.owner[g]
    ensures OthersKept(s, t2, p)
  {
    hide SameSpace;
    forall q | IsSpace(s, q)
      ensures IsSpace(t2, q) && (q != p ==> SameSpace(s.mem, t2.mem, q))
    {
      assert IsSpace(u, q) && IsSpace(t, q);
      if q != p {
        SameTrans(s.mem, u.mem, t.mem, q);
        SameTrans(s.mem, t.mem, t2.mem, q);
      }
    }
  }

  lemma BelowBase(m: Vm, p: nat, sz: nat)
    requires Below(m, p, sz)
    ensures sz < KERNBASE
  {}

  lemma FilledSpace(m: Vm, t: Vm, p: nat, a: nat, b: nat)
    requires Filled(m, t, p, a, b)
    ensures Valid(t) && IsSpace(t, p)
  {}

  /** A page above the old size is still absent when its turn comes. */
  lemma NextAbsent(m: Vm, t: Vm, p: nat, oldsz: nat, a: nat)
    requires Below(m, p, oldsz) && Filled(m, t, p, Up(oldsz), a) && Up(oldsz) <= a < UPAGES
    ensures Entry(t.mem, p, a) == Absent
  {}

  /** What `allocuvm` takes for the initial stack: at most two pages above a program of less than ten. */
  predicate LooksLikeStack(oldsz: nat, newsz: nat) {
    oldsz > 0 && newsz - oldsz <= 2 * PGSIZE && oldsz < 10 * PGSIZE
  }

  /** `allocuvm`.  It fills the new pages at once when it takes the growth for the initial stack, and else only
      reports the new size.  Either way every page reads as before, the ones beyond the old size as zeroes;
      and when memory runs out, only tables have been added. */
  method AllocUvm(m: Vm, p: nat, oldsz: nat, newsz: nat) returns (t: Vm, r: nat)
    requires Valid(m) && IsSpace(m, p) && Below(m, p, oldsz)
    ensures newsz >= KERNBASE ==> r == 0 && t == m
    ensures newsz < oldsz ==> r == oldsz && t == m
    ensures oldsz <= newsz < KERNBASE && !LooksLikeStack(oldsz, newsz) ==> r == newsz && t == m
    ensures oldsz <= newsz < KERNBASE && LooksLikeStack(oldsz, newsz) ==> r == newsz || r == 0
    ensures oldsz <= newsz < KERNBASE && LooksLikeStack(oldsz, newsz) && r != 0 ==>
              Filled(m, t, p, Up(oldsz), Up(newsz))
    ensures oldsz <= newsz < KERNBASE && LooksLikeStack(oldsz, newsz) && r == 0 ==>
              Walked(m, t, p) && |m.free| < 2 * (Up(newsz) - Up(oldsz))
    ensures oldsz <= newsz < KERNBASE ==> |t.free| + 2 * (Up(newsz) - Up(oldsz)) >= |m.free|
  {
    hide Valid, Filled, PagesFreed, Walked, Below, Fetched, EntryMapped, Mappable, Entry;
    BelowBase(m, p, oldsz);
    t := m;
    if newsz >= KERNBASE { return t, 0; }
    if newsz < oldsz { return t, oldsz; }
    var a := Up(oldsz);
    FilledStart(m, p, a);
    WalkedSame(m, p);
    if LooksLikeStack(oldsz, newsz) {
      while a * PGSIZE < newsz
        invariant Up(oldsz) <= a <= Up(newsz) && Filled(m, t, p, Up(oldsz), a)
        invariant |t.free| + 2 * (a - Up(oldsz)) >= |m.free|
        decreases Up(newsz) - a
      {
        ghost var s := t;
        var f, k, sz;
        FilledSpace(m, t, p, Up(oldsz), a);
        NextAbsent(m, t, p, oldsz, a);
        t, f := KallocWith(t, ZeroPage());
        if f == 0 {
          t, sz := DeallocUvm(t, p, newsz, oldsz);
          assert Walked(m, t, p) by { UndoneOrSame(m, s, t, p, oldsz, newsz, a); }
          return t, 0;
        }
        ghost var u := t;
        FetchedMaps(s, u, p, a, Present(f, true, true), ZeroPage());
        PageAddress(a);
        t, k := MapPages(t, p, a * PGSIZE, PGSIZE, f, true, true);
        if k.NoMemory? {
          t, sz := DeallocUvm(t, p, newsz, oldsz);
          ghost var w := t;
          assert FreeInv(w) && f in w.owner by { StillHeld(s, u, w, p, oldsz, newsz, f); }
          t := Kfree(t, f);
          assert Walked(m, t, p) by { UndoneHeld(m, s, u, w, t, p, oldsz, newsz, a, f); }
          return t, 0;
        }
        FilledOne(s, u, t, p, a, f);
        FilledOn(m, s, t, p, Up(oldsz), a);
        a := a + 1;
      }
      return t, newsz;
    }
    return t, newsz;
  }

  lemma UndoneOrSame(m: Vm, s: Vm, t: Vm, p: nat, oldsz: nat, newsz: nat, a: nat)
    requires Valid(m) && IsSpace(m, p) && Below(m, p, oldsz) && Filled(m, s, p, Up(oldsz), a)
    requires oldsz < newsz < KERNBASE && Up(oldsz) <= a <= Up(newsz) && PagesFreed(s, t, p, Up(oldsz), Up(newsz))
    ensures Walked(m, t, p)
  {
    Undone(m, s, t, p, oldsz, a, Up(newsz));
  }

  lemma StillHeld(s: Vm, u: Vm, w: Vm, p: nat, oldsz: nat, newsz: nat, f: nat)
    requires Fetched(s, u, f, ZeroPage()) && PagesFreed(u, w, p, Up(oldsz), Up(newsz))
    ensures FreeInv(w) && f in w.owner && f < |w.mem|
  {
    FreedHeld(u, w, p, Up(oldsz), Up(newsz), f);
  }

  lemma UndoneHeld(m: Vm, s: Vm, u: Vm, w: Vm, t: Vm, p: nat, oldsz: nat, newsz: nat, a: nat, f: nat)
    requires Valid(m) && IsSpace(m, p) && Below(m, p, oldsz) && Filled(m, s, p, Up(oldsz), a) && IsSpace(s, p)
    requires oldsz < newsz < KERNBASE && Up(oldsz) <= a <= Up(newsz) && Fetched(s, u, f, ZeroPage()) &&
             PagesFreed(u, w, p, Up(oldsz), Up(newsz))
    requires FreeInv(t) && f < |w.mem| && t == w.(mem := w.mem[f := Junk], free := t.free, owner := w.owner - {f})
    ensures Walked(m, t, p)
  {
    hide Filled, PagesFreed, Fetched, Walked;
    FreedAround(s, u, w, t, p, Up(oldsz), Up(newsz), f);
    Undone(m, s, t, p, oldsz, a, Up(newsz));
  }
}
