/** Taking pages away from a space, and freeing whole spaces: `deallocuvm` and `freevm`. */
module Spaces {
  import opened Frames
  import opened PageTables

  /** PGROUNDUP and PGROUNDDOWN, in pages. */
  function Up(sz: nat): nat { (sz + PGSIZE - 1) / PGSIZE }
  function Down(a: nat): nat { a / PGSIZE }

  /** The frame is user page `v` of `p` with `a <= v < b`. */
  ghost predicate InRange(o: Owner, p: nat, a: nat, b: nat) {
    o.IsPage? && o.p == p && a <= o.i * ENTRIES + o.j < b
  }

  /** User pages `a` up to `b` of `p` are gone and their frames, no others, are free again. */
  ghost predicate PagesFreed(m: Vm, t: Vm, p: nat, a: nat, b: nat) {
    match t case Vm(_, mem, _, owner) =>
    && Valid(t) && OthersKept(m, t, p) && IsSpace(t, p)
    && (forall v :: 0 <= v < VPAGES ==> Entry(mem, p, v) == if a <= v < b then Absent else Entry(m.mem, p, v))
    && (forall v :: 0 <= v < UPAGES && !(a <= v < b) ==> UserPage(mem, p, v) == UserPage(m.mem, p, v))
    && (forall f :: f in owner <==> f in m.owner && !InRange(m.owner[f], p, a, b))
    && (forall f :: f in owner ==> owner[f] == m.owner[f])
  }

  lemma FreedStart(m: Vm, p: nat, a: nat)
    requires Valid(m) && IsSpace(m, p)
    ensures PagesFreed(m, m, p, a, a)
  {}

  /** An absent page needs no freeing. */
  lemma FreedAbsent(m: Vm, t: Vm, p: nat, a: nat, b: nat, c: nat)
    requires Valid(m) && IsSpace(m, p) && PagesFreed(m, t, p, a, b) && a <= b <= c <= UPAGES
    requires forall v :: b <= v < c ==> Entry(t.mem, p, v) == Absent
    ensures PagesFreed(m, t, p, a, c)
  {
    hide Entry, UserPage, OthersKept;
    forall f | f in m.owner && InRange(m.owner[f], p, a, c)
      ensures InRange(m.owner[f], p, a, b)
    {
      PageEntry(m, p, f);
    }
  }

  /** A user page of `p` is where its owner says. */
  lemma PageEntry(m: Vm, p: nat, f: nat)
    requires Valid(m) && f in m.owner && m.owner[f].IsPage? && m.owner[f].p == p
    ensures var v := m.owner[f].i * ENTRIES + m.owner[f].j;
            v < UPAGES && Entry(m.mem, p, v).Present? && Entry(m.mem, p, v).frame == f
  {
    var i, j := m.owner[f].i, m.owner[f].j;
    assert (i * ENTRIES + j) / ENTRIES == i && (i * ENTRIES + j) % ENTRIES == j;
  }

  /** Without a table there is no page up to the next directory entry: the skip misses nothing. */
  lemma SkipIsAbsent(m: Vm, p: nat, a: nat, v: nat)
    requires Valid(m) && IsSpace(m, p) && p < |m.mem| && m.mem[p].Dir? && a <= v < (a / ENTRIES + 1) * ENTRIES &&
             a < UPAGES
    requires m.mem[p].pdes[a / ENTRIES] == 0
    ensures v < VPAGES && Entry(m.mem, p, v) == Absent
  {
    assert v / ENTRIES == a / ENTRIES;
  }

  /** Page `a` of `p`, in frame `f`, has been taken away and freed. */
  ghost predicate PageRemoved(s: Vm, t: Vm, p: nat, a: nat, f: nat) {
    match t case Vm(_, mem, _, owner) =>
    && Valid(t) && OthersKept(s, t, p) && IsSpace(t, p) && ViewSet(s.mem, mem, p, a, Absent)
    && f in s.owner && s.owner[f] == IsPage(p, a / ENTRIES, a % ENTRIES) && owner == s.owner - {f}
  }

  lemma RemovalKeeps(s: Vm, t: Vm, p: nat, i: nat, f: nat)
    requires Valid(s) && IsSpace(s, p) && f in s.owner && s.owner[f].IsPage? && i < ENTRIES && t.first == s.first &&
             t.owner == s.owner - {f}
    requires p < |s.mem| && s.mem[p].Dir? && s.mem[p].pdes[i] in s.owner && s.owner[s.mem[p].pdes[i]].IsTable?
    requires |t.mem| == |s.mem| &&
             forall x :: 0 <= x < |s.mem| && x != f && x != s.mem[p].pdes[i] ==> t.mem[x] == s.mem[x]
    requires forall q :: IsSpace(s, q) && q != p ==> SameSpace(s.mem, t.mem, q)
    ensures OthersKept(s, t, p) && IsSpace(t, p)
  {
    hide SameSpace, TreeInv;
  }

  /** Freeing the frame of page `a` and clearing its entry. */
  lemma RemovedPage(s: Vm, t: Vm, p: nat, a: nat, f: nat)
    requires Valid(s) && IsSpace(s, p) && a < UPAGES && Entry(s.mem, p, a).Present? && f == Entry(s.mem, p, a).frame
    requires p < |s.mem| && s.mem[p].Dir? && f < |s.mem| && f != p && f != s.mem[p].pdes[a / ENTRIES] &&
             s.mem[p].pdes[a / ENTRIES] < |s.mem|
    requires s.mem[s.mem[p].pdes[a / ENTRIES]].Table? && FreeInv(t) && t.first == s.first && t.owner == s.owner - {f}
    requires t.mem == WithPte(s.mem[f := Junk], p, a / ENTRIES, a % ENTRIES, Absent)
    ensures PageRemoved(s, t, p, a, f)
  {
    var i, j := a / ENTRIES, a % ENTRIES;
    RemovePage(s.mem, s.owner, p, i, j, f);
    WithPteEntry(s.mem, s.owner, p, i, j, Absent);
    EntrySetMeans(s.mem, t.mem, s, p, a, Absent);
    hide PteAt, PageOf, EntrySet, ViewSet, SameSpace;
    RemovalKeeps(s, t, p, i, f);
  }

  lemma FreedStep(m: Vm, s: Vm, t: Vm, p: nat, lo: nat, a: nat, f: nat)
    requires Valid(m) && IsSpace(m, p) && PagesFreed(m, s, p, lo, a) && lo <= a < UPAGES && PageRemoved(s, t, p, a, f)
    ensures PagesFreed(m, t, p, lo, a + 1)
  {
    hide Entry, UserPage, SameSpace, TreeInv;
    KeptTrans(m, s, t, p);
    hide OthersKept, FreeInv;
    forall g | g in m.owner && g != f
      ensures InRange(m.owner[g], p, lo, a + 1) ==> InRange(m.owner[g], p, lo, a)
    {
      if InRange(m.owner[g], p, a, a + 1) { SamePage(m, p, f, g, a); }
    }
  }

  lemma SamePage(m: Vm, p: nat, f: nat, g: nat, a: nat)
    requires Valid(m) && f in m.owner && m.owner[f] == IsPage(p, a / ENTRIES, a % ENTRIES) && g in m.owner &&
             InRange(m.owner[g], p, a, a + 1)
    ensures f == g
  {
    PageEntry(m, p, g);
    PageEntry(m, p, f);
  }

  const KERNBASE: nat := UPAGES * PGSIZE

  /** One present page out of the loop of `deallocuvm`: the frame is freed, then its entry is cleared. */
  method RemoveAt(s: Vm, p: nat, a: nat) returns (t: Vm)
    requires Valid(s) && IsSpace(s, p) && a < UPAGES && Entry(s.mem, p, a).Present?
    ensures PageRemoved(s, t, p, a, Entry(s.mem, p, a).frame) && |t.free| == |s.free| + 1
  {
    var f := Entry(s.mem, p, a).frame;
    RemovePage(s.mem, s.owner, p, a / ENTRIES, a % ENTRIES, f);
    t := Kfree(s, f);
    t := t.(mem := WithPte(t.mem, p, a / ENTRIES, a % ENTRIES, Absent));
    RemovedPage(s, t, p, a, f);
  }

  /** `deallocuvm`.  `oldsz` may be larger than the space; where a table is missing the loop skips to the
      next directory entry. */
  method DeallocUvm(m: Vm, p: nat, oldsz: nat, newsz: nat) returns (t: Vm, sz: nat)
    requires Valid(m) && IsSpace(m, p) && oldsz <= KERNBASE
    ensures newsz >= oldsz ==> t == m && sz == oldsz
    ensures newsz < oldsz ==> PagesFreed(m, t, p, Up(newsz), Up(oldsz)) && sz == newsz
    ensures |t.free| >= |m.free|
  {
    hide Valid, PagesFreed, PageRemoved, Entry;
    if newsz >= oldsz { return m, oldsz; }
    var lo := Up(newsz);
    var a := lo;
    ghost var hi := Up(oldsz);
    t := m;
    FreedStart(m, p, lo);
    while a * PGSIZE < oldsz
      invariant lo <= a && Valid(t) && IsSpace(t, p)
      invariant PagesFreed(m, t, p, lo, if a < hi then a else hi) && |t.free| >= |m.free|
      decreases hi - a
    {
      DirOf(t, p);
      var ok;
      t, ok := Walk(t, p, a / ENTRIES, false);
      if !ok {
        ghost var b := (a / ENTRIES + 1) * ENTRIES;
        ghost var c := if b < hi then b else hi;
        forall v | a <= v < c
          ensures Entry(t.mem, p, v) == Absent
        {
          SkipIsAbsent(t, p, a, v);
        }
        FreedAbsent(m, t, p, lo, a, c);
        a := (a / ENTRIES + 1) * ENTRIES;
      } else {
        if Entry(t.mem, p, a).Present? {
          ghost var s := t;
          t := RemoveAt(t, p, a);
          FreedStep(m, s, t, p, lo, a, Entry(s.mem, p, a).frame);
          FreedSpace(m, t, p, lo, a + 1);
        } else {
          FreedAbsent(m, t, p, lo, a, a + 1);
        }
        a := a + 1;
      }
    }
    sz := newsz;
  }

  lemma DirOf(m: Vm, p: nat)
    requires Valid(m) && IsSpace(m, p)
    ensures p < |m.mem| && m.mem[p].Dir?
  {}

  lemma FreedSpace(m: Vm, t: Vm, p: nat, a: nat, b: nat)
    requires PagesFreed(m, t, p, a, b)
    ensures Valid(t) && IsSpace(t, p)
  {}

  // ---- freevm ----

  /** The frame belongs to space `p`: its directory, a table or a user page. */
  predicate BelongsTo(owner: map<nat, Owner>, f: nat, p: nat) {
    f in owner && (f == p || (owner[f].IsTable? && owner[f].p == p) || (owner[f].IsPage? && owner[f].p == p))
  }

  /** Space `p` is gone: exactly its frames are free again, and every other space is as it was. */
  ghost predicate SpaceGone(m: Vm, t: Vm, p: nat) {
    match t case Vm(first, mem, _, owner) =>
    && Valid(t) && first == m.first && |mem| == |m.mem|
    && (forall f :: f in owner <==> f in m.owner && !BelongsTo(m.owner, f, p))
    && (forall f :: f in owner ==> owner[f] == m.owner[f])
    && (forall q :: IsSpace(m, q) && q != p ==> SameSpace(m.mem, mem, q))
    && (forall f :: f in owner && owner[f] == Kernel && f < |mem| ==> mem[f] == m.mem[f])
  }

  /** The first `n` tables of `p`, which has no user pages, have been freed. */
  ghost predicate TablesFreed(m: Vm, t: Vm, p: nat, n: nat) {
    match t case Vm(first, mem, _, owner) =>
    && FreeInv(t) && first == m.first && |mem| == |m.mem| && n <= ENTRIES
    && (forall f :: f in owner <==> f in m.owner && !(m.owner[f].IsTable? && m.owner[f].p == p && m.owner[f].i < n))
    && (forall f :: f in owner ==> owner[f] == m.owner[f] && f < |mem| && mem[f] == m.mem[f])
  }

  lemma FreeTable(m: Vm, s: Vm, p: nat, n: nat)
    requires Valid(m) && IsSpace(m, p) && TablesFreed(m, s, p, n) && n < ENTRIES
    ensures IsSpace(s, p) && p < |s.mem| && s.mem[p].Dir? && p < |m.mem| && m.mem[p] == s.mem[p]
    ensures s.mem[p].pdes[n] != 0 ==> s.mem[p].pdes[n] in s.owner && s.owner[s.mem[p].pdes[n]] == IsTable(p, n)
    ensures s.mem[p].pdes[n] == 0 ==> TablesFreed(m, s, p, n + 1)
  {
    hide PteAt;
  }

  lemma FreedTable(m: Vm, s: Vm, t: Vm, p: nat, n: nat)
    requires Valid(m) && IsSpace(m, p) && TablesFreed(m, s, p, n) && n < ENTRIES && IsSpace(s, p) && p < |s.mem| &&
             s.mem[p].Dir?
    requires var f := s.mem[p].pdes[n];
             && f in s.owner && s.owner[f] == IsTable(p, n) && f < |s.mem| && m.mem[p] == s.mem[p]
             && FreeInv(t) && t.first == s.first && t.mem == s.mem[f := Junk] && t.owner == s.owner - {f}
    ensures TablesFreed(m, t, p, n + 1)
  {
    OneTable(m, p, n);
    hide TreeInv, FreeInv;
  }

  /** Directory entry `n` refers to the one table of that place. */
  lemma OneTable(m: Vm, p: nat, n: nat)
    requires Valid(m) && IsSpace(m, p) && n < ENTRIES
    ensures p < |m.mem| && m.mem[p].Dir?
    ensures forall f :: f in m.owner && m.owner[f] == IsTable(p, n) ==> f == m.mem[p].pdes[n]
    ensures m.mem[p].pdes[n] != 0 ==> m.mem[p].pdes[n] in m.owner && m.owner[m.mem[p].pdes[n]] == IsTable(p, n)
  {
    hide PteAt;
  }

  lemma TablesStart(m: Vm, p: nat)
    requires Valid(m)
    ensures TablesFreed(m, m, p, 0)
  {}

  /** `mem'` and `owner'` are what is left of a machine without the frames of `p`. */
  ghost predicate Rest(mem: seq<Page>, owner: map<nat, Owner>, mem': seq<Page>, owner': map<nat, Owner>, p: nat) {
    && |mem'| == |mem|
    && (forall f :: f in owner' <==> f in owner && !BelongsTo(owner, f, p))
    && (forall f :: f in owner' ==> owner'[f] == owner[f])
    && (forall f :: f in owner' && 0 <= f < |mem| ==> mem'[f] == mem[f])
  }

  lemma RestSame(mem: seq<Page>, owner: map<nat, Owner>, mem': seq<Page>, owner': map<nat, Owner>, p: nat, q: nat)
    requires TreeInv(mem, owner) && Rest(mem, owner, mem', owner', p) && p in owner && owner[p] == IsDir
    requires q in owner && owner[q] == IsDir && q != p
    ensures SameSpace(mem, mem', q)
  {
    forall i, j | 0 <= i < ENTRIES && 0 <= j < ENTRIES
      ensures PteAt(mem', q, i, j) == PteAt(mem, q, i, j)
      ensures i < UDIRS ==> PageOf(mem', q, i, j) == PageOf(mem, q, i, j)
    {
      NotUsed(mem, owner, q, q, i, j);
      var t := mem[q].pdes[i];
      assert q in owner' && (t != 0 ==> t in owner');
    }
  }

  lemma RestTree(mem: seq<Page>, owner: map<nat, Owner>, mem': seq<Page>, owner': map<nat, Owner>, p: nat)
    requires TreeInv(mem, owner) && Rest(mem, owner, mem', owner', p) && p in owner && owner[p] == IsDir
    ensures TreeInv(mem', owner')
    ensures forall q :: q in owner && owner[q] == IsDir && q != p ==> SameSpace(mem, mem', q)
  {
    forall q | q in owner && owner[q] == IsDir && q != p
      ensures SameSpace(mem, mem', q)
    {
      RestSame(mem, owner, mem', owner', p, q);
    }
    hide PteAt, PageOf;
  }

  /** With all tables and the directory of `p` freed, what is left is the tree of the other spaces. */
  lemma TablesEnd(m: Vm, s: Vm, t: Vm, p: nat)
    requires Valid(m) && IsSpace(m, p) && TablesFreed(m, s, p, ENTRIES)
    requires forall f :: f in m.owner && m.owner[f].IsPage? ==> m.owner[f].p != p
    requires p in s.owner && p < |s.mem| && FreeInv(t) && t.first == s.first && t.mem == s.mem[p := Junk] &&
             t.owner == s.owner - {p}
    ensures SpaceGone(m, t, p)
  {
    hide SameSpace, TreeInv, TablesFreed, Rest, FreeInv, SpaceGone;
    TablesRest(m, s, t, p);
    RestTree(m.mem, m.owner, t.mem, t.owner, p);
    RestGone(m, t, p);
  }

  lemma RestGone(m: Vm, t: Vm, p: nat)
    requires Rest(m.mem, m.owner, t.mem, t.owner, p) && FreeInv(t) && TreeInv(t.mem, t.owner)
    requires |t.mem| == |m.mem| && t.first == m.first
    requires forall q :: q in m.owner && m.owner[q] == IsDir && q != p ==> SameSpace(m.mem, t.mem, q)
    ensures SpaceGone(m, t, p)
  {
    hide SameSpace, TreeInv, FreeInv, BelongsTo;
  }

  lemma TablesRest(m: Vm, s: Vm, t: Vm, p: nat)
    requires Valid(m) && IsSpace(m, p) && TablesFreed(m, s, p, ENTRIES)
    requires forall f :: f in m.owner && m.owner[f].IsPage? ==> m.owner[f].p != p
    requires p in s.owner && p < |s.mem| && FreeInv(t) && t.first == s.first
    requires t.mem == s.mem[p := Junk] && t.owner == s.owner - {p}
    ensures Rest(m.mem, m.owner, t.mem, t.owner, p) && |t.mem| == |m.mem| && t.first == m.first
  {
    TablesLow(m);
    hide TreeInv, FreeInv;
  }

  lemma TablesLow(m: Vm)
    requires Valid(m)
    ensures forall f :: f in m.owner && m.owner[f].IsTable? ==> m.owner[f].i < ENTRIES
  {
    hide PteAt;
  }

  lemma NoPagesLeft(m: Vm, t: Vm, p: nat)
    requires Valid(m) && PagesFreed(m, t, p, 0, UPAGES)
    ensures forall f :: f in t.owner && t.owner[f].IsPage? ==> t.owner[f].p != p
    ensures Valid(t) && IsSpace(t, p)
  {
    forall f | f in m.owner && m.owner[f].IsPage? && m.owner[f].p == p
      ensures InRange(m.owner[f], p, 0, UPAGES)
    {
      PageEntry(m, p, f);
    }
  }

  /** Pages freed, then tables and directory: the space is gone. */
  lemma GoneAfterPages(m: Vm, s: Vm, t: Vm, p: nat)
    requires Valid(m) && PagesFreed(m, s, p, 0, UPAGES) && SpaceGone(s, t, p)
    ensures SpaceGone(m, t, p)
  {
    hide SameSpace, Entry, UserPage, Valid;
    forall q | IsSpace(m, q) && q != p
      ensures SameSpace(m.mem, t.mem, q)
    {
      SameTrans(m.mem, s.mem, t.mem, q);
    }
    forall f | f in m.owner && m.owner[f].IsPage? && m.owner[f].p == p
      ensures InRange(m.owner[f], p, 0, UPAGES)
    {
      PageEntry(m, p, f);
    }
  }

  /** `freevm`: user pages, tables, directory. */
  method FreeVm(m: Vm, p: nat) returns (t: Vm)
    requires Valid(m) && IsSpace(m, p)
    ensures SpaceGone(m, t, p)
  {
    hide Valid, PagesFreed, TablesFreed, SpaceGone;
    var sz;
    t, sz := DeallocUvm(m, p, KERNBASE, 0);
    NoPagesLeft(m, t, p);
    ghost var s := t;
    TablesStart(s, p);
    var i := 0;
    while i < ENTRIES
      invariant 0 <= i <= ENTRIES && TablesFreed(s, t, p, i)
    {
      FreeTable(s, t, p, i);
      TablesFree(s, t, p, i);
      var pde := t.mem[p].pdes[i];
      if pde != 0 {
        ghost var u := t;
        t := Kfree(t, pde);
        FreedTable(s, u, t, p, i);
      }
      i := i + 1;
    }
    TablesFree(s, t, p, ENTRIES);
    ghost var u := t;
    t := Kfree(t, p);
    TablesEnd(s, u, t, p);
    GoneAfterPages(m, s, t, p);
  }

  lemma TablesFree(m: Vm, t: Vm, p: nat, n: nat)
    requires Valid(m) && IsSpace(m, p) && TablesFreed(m, t, p, n)
    ensures FreeInv(t) && p in t.owner && p < |t.mem|
  {}
}
