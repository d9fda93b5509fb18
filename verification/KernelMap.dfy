/** `setupkvm`: a new directory that maps exactly the kernel's ranges, or nothing taken at all. */
module KernelMap {
  import opened Frames
  import opened PageTables
  import opened Spaces

  /** An entry of `kmap[]`: where it is mapped, how much, the first frame, and whether it is writable. */
  datatype KRange = KRange(va: nat, size: nat, ppn: nat, w: bool)

  predicate Covers(k: KRange, v: nat) { k.va / PGSIZE <= v && v * PGSIZE < k.va + k.size }

  /** The ranges lie in the kernel's half and share no page. */
  ghost predicate ValidKmap(kmap: seq<KRange>) {
    && (forall x :: 0 <= x < |kmap| ==>
          0 < kmap[x].size && KERNBASE <= kmap[x].va && kmap[x].va + kmap[x].size <= VPAGES * PGSIZE)
    && (forall x, y, v: nat :: 0 <= x < y < |kmap| && Covers(kmap[x], v) ==> !Covers(kmap[y], v))
  }

  /** What the first `n` ranges say about page `v`. */
  function KernelEntry(kmap: seq<KRange>, n: nat, v: nat): Pte
    requires n <= |kmap|
  {
    if n == 0 then Absent
    else if Covers(kmap[n - 1], v) then Present(kmap[n - 1].ppn + (v - kmap[n - 1].va / PGSIZE), kmap[n - 1].w, false)
    else KernelEntry(kmap, n - 1, v)
  }

  lemma {:induction false} KernelEntryPresent(kmap: seq<KRange>, n: nat, v: nat)
    requires n <= |kmap| && KernelEntry(kmap, n, v).Present?
    ensures exists x :: 0 <= x < n && Covers(kmap[x], v)
  {
    if !Covers(kmap[n - 1], v) { KernelEntryPresent(kmap, n - 1, v); }
  }

  /** From `m` to `t` a space `d` came to be; it took its directory and tables, and nothing else changed. */
  ghost predicate NewSpace(m: Vm, t: Vm, d: nat) {
    match t case Vm(first, mem, _, owner) =>
    && Valid(t) && IsSpace(t, d) && d !in m.owner && first == m.first && |mem| == |m.mem|
    && (forall f :: f in m.owner ==> f in owner && owner[f] == m.owner[f])
    && (forall f :: f in owner && f !in m.owner ==> BelongsTo(owner, f, d))
    && (forall q :: IsSpace(m, q) ==> SameSpace(m.mem, mem, q))
    && (forall f :: f in m.owner && m.owner[f] == Kernel && f < |mem| ==> mem[f] == m.mem[f])
  }

  ghost predicate KernelView(t: Vm, d: nat, kmap: seq<KRange>, n: nat) {
    match t case Vm(_, mem, _, _) =>
    && n <= |kmap|
    && (forall v :: 0 <= v < VPAGES ==> Entry(mem, d, v) == KernelEntry(kmap, n, v))
  }

  /** Nothing was taken: the same owners, the same spaces. */
  ghost predicate Returned(m: Vm, t: Vm) {
    match t case Vm(first, mem, _, owner) =>
    && Valid(t) && first == m.first && |mem| == |m.mem| && owner == m.owner
    && (forall q :: IsSpace(m, q) ==> SameSpace(m.mem, mem, q))
    && (forall f :: f in m.owner && m.owner[f] == Kernel && f < |mem| ==> mem[f] == m.mem[f])
  }

  lemma EmptyDir(mem: seq<Page>, d: nat)
    requires d < |mem| && mem[d] == Dir(NoTables())
    ensures forall i, j :: 0 <= i < ENTRIES && 0 <= j < ENTRIES ==> PteAt(mem, d, i, j) == Absent
  {}

  lemma NewDir(m: Vm, u: Vm, d: nat, kmap: seq<KRange>)
    requires Valid(m) && d !in m.owner && 0 < d < |m.mem| && FreeInv(u) && u.first == m.first && u.mem == m.mem &&
             u.owner == m.owner[d := Kernel]
    ensures var t := u.(mem := u.mem[d := Dir(NoTables())], owner := u.owner[d := IsDir]);
            NewSpace(m, t, d) && KernelView(t, d, kmap, 0)
  {
    hide PteAt, PageOf, TreeInv;
    TakeHeld(m.mem, m.owner, d);
    var t := u.(mem := u.mem[d := Dir(NoTables())], owner := u.owner[d := IsDir]);
    HeldWritten(u.mem, u.owner, d);
    EmptyDir(t.mem, d);
    NewDirTree(t.mem, u.owner, d);
    assert forall q :: IsSpace(m, q) ==> IsSpace(u, q);
  }

  lemma HeldWritten(mem: seq<Page>, owner: map<nat, Owner>, d: nat)
    requires TreeInv(mem, owner) && d in owner && owner[d] == Kernel
    ensures d < |mem| && TreeInv(mem[d := Dir(NoTables())], owner)
    ensures forall q :: q in owner && owner[q] == IsDir ==> SameSpace(mem, mem[d := Dir(NoTables())], q)
  {
    hide PteAt, PageOf;
    WriteHeld(mem, owner, d, Dir(NoTables()));
  }

  lemma NewDirTree(mem: seq<Page>, owner: map<nat, Owner>, d: nat)
    requires TreeInv(mem, owner) && d in owner && owner[d] == Kernel && mem[d] == Dir(NoTables())
    requires forall i, j :: 0 <= i < ENTRIES && 0 <= j < ENTRIES ==> PteAt(mem, d, i, j) == Absent
    ensures TreeInv(mem, owner[d := IsDir])
  {
    hide PteAt;
  }

  lemma NewSpaceMaps(m: Vm, s: Vm, t: Vm, d: nat, a: nat, b: nat, ppn: nat, w: bool, u: bool)
    requires NewSpace(m, s, d) && RangeMapped(s, t, d, a, b, ppn, w, u)
    ensures NewSpace(m, t, d)
  {
    hide PteAt, PageOf, Entry, UserPage, TreeInv, FreeInv;
    assert forall q :: IsSpace(m, q) ==> IsSpace(s, q) && q != d;
  }

  lemma ViewMaps(s: Vm, t: Vm, d: nat, kmap: seq<KRange>, n: nat)
    requires ValidKmap(kmap) && KernelView(s, d, kmap, n) && n < |kmap|
    requires var k := kmap[n]; RangeMapped(s, t, d, k.va / PGSIZE, (k.va + k.size - 1) / PGSIZE + 1, k.ppn, k.w, false)
    ensures KernelView(t, d, kmap, n + 1)
  {
    hide Entry, OthersKept, TablesAdded, Valid;
    var k := kmap[n];
    forall v: nat | v < VPAGES
      ensures Entry(t.mem, d, v) == KernelEntry(kmap, n + 1, v)
    {
      assert Covers(k, v) <==> k.va / PGSIZE <= v < (k.va + k.size - 1) / PGSIZE + 1;
    }
  }

  /** Disjoint ranges never meet a page already mapped. */
  lemma NoRemap(s: Vm, d: nat, kmap: seq<KRange>, n: nat, v: nat)
    requires ValidKmap(kmap) && KernelView(s, d, kmap, n) && n < |kmap| && v < VPAGES
    requires kmap[n].va / PGSIZE <= v <= (kmap[n].va + kmap[n].size - 1) / PGSIZE
    ensures Entry(s.mem, d, v) == Absent
  {
    assert Covers(kmap[n], v);
    if KernelEntry(kmap, n, v).Present? { KernelEntryPresent(kmap, n, v); }
  }

  lemma GivenBack(m: Vm, s: Vm, t: Vm, d: nat)
    requires Valid(m) && NewSpace(m, s, d) && SpaceGone(s, t, d)
    ensures Returned(m, t)
  {
    hide SameSpace, Valid;
    NotOfNew(m, s, d);
    SameOwner(m, s, t, d);
    hide BelongsTo;
    forall q | IsSpace(m, q)
      ensures SameSpace(m.mem, t.mem, q)
    {
      assert IsSpace(s, q) && q != d;
      SameTrans(m.mem, s.mem, t.mem, q);
    }
  }

  lemma SameOwner(m: Vm, s: Vm, t: Vm, d: nat)
    requires NewSpace(m, s, d) && SpaceGone(s, t, d) && forall f :: f in m.owner ==> !BelongsTo(s.owner, f, d)
    ensures t.owner == m.owner
  {
    hide SameSpace, Valid, BelongsTo;
  }

  lemma NotOfNew(m: Vm, s: Vm, d: nat)
    requires Valid(m) && NewSpace(m, s, d)
    ensures forall f :: f in m.owner ==> !BelongsTo(s.owner, f, d)
  {
    hide PteAt, SameSpace;
  }

  /** `setupkvm`: 0 when memory runs out, and then every frame has been given back. */
  method SetupKvm(m: Vm, kmap: seq<KRange>) returns (t: Vm, d: nat)
    requires Valid(m) && ValidKmap(kmap)
    ensures d != 0 ==> NewSpace(m, t, d) && KernelView(t, d, kmap, |kmap|)
    ensures d != 0 ==> |t.free| + Tables(t.mem, d) + 1 == |m.free|
    ensures d == 0 ==> Returned(m, t) && |m.free| <= 1 + ENTRIES
  {
    hide NewSpace, KernelView, Returned, RangeMapped, Entry;
    assert Returned(m, m) by { NothingTaken(m); }
    t, d := Kalloc(m);
    if d == 0 { return; }
    NewDir(m, t, d, kmap);
    CountNone(NoTables());
    t := t.(mem := t.mem[d := Dir(NoTables())], owner := t.owner[d := IsDir]);
    var n := 0;
    while n < |kmap|
      invariant 0 <= n <= |kmap| && NewSpace(m, t, d) && KernelView(t, d, kmap, n) && d != 0
      invariant |t.free| + Tables(t.mem, d) + 1 == |m.free|
    {
      var k := kmap[n];
      ghost var s := t;
      NewSpaceValid(m, t, d);
      var r;
      t, r := MapPages(t, d, k.va, k.size, k.ppn, k.w, false);
      forall v: nat | k.va / PGSIZE <= v <= (k.va + k.size - 1) / PGSIZE && v < VPAGES
        ensures Entry(s.mem, d, v) == Absent
      {
        NoRemap(s, d, kmap, n, v);
      }
      if r.NoMemory? {
        ghost var b :| k.va / PGSIZE <= b <= (k.va + k.size - 1) / PGSIZE &&
                       RangeMapped(s, t, d, k.va / PGSIZE, b, k.ppn, k.w, false);
        NewSpaceMaps(m, s, t, d, k.va / PGSIZE, b, k.ppn, k.w, false);
        NewSpaceValid(m, t, d);
        ghost var u := t;
        t := FreeVm(t, d);
        GivenBack(m, u, t, d);
        return t, 0;
      }
      NewSpaceMaps(m, s, t, d, k.va / PGSIZE, (k.va + k.size - 1) / PGSIZE + 1, k.ppn, k.w, false);
      ViewMaps(s, t, d, kmap, n);
      n := n + 1;
    }
  }

  lemma NothingTaken(m: Vm)
    requires Valid(m)
    ensures Returned(m, m)
  {}

  lemma NewSpaceValid(m: Vm, t: Vm, d: nat)
    requires NewSpace(m, t, d)
    ensures Valid(t) && IsSpace(t, d)
  {}
}
