/** Processes growing, shrinking, forking, loading and storing over lazily filled spaces, against a machine
    that gives every page its memory when the process grows. */
module AddressSpaces {
  import opened Basics
  import opened Frames
  import opened PageTables
  import opened Spaces
  import opened KernelMap
  import opened Lazy
  import opened CopySpace

  // ---- the eager machine ----

  /** A process whose pages are all there. */
  datatype Eager = Eager(sz: nat, pages: seq<PageData>)

  function Zeroes(n: nat): (z: seq<PageData>)
    ensures |z| == n && forall k :: 0 <= k < n ==> z[k] == ZeroPage()
  {
    seq(n, _ => ZeroPage())
  }

  /** Growth appends zeroed pages, shrinking drops pages. */
  function Resize(e: Eager, sz: nat): Eager {
    if Up(sz) <= |e.pages| then Eager(sz, e.pages[..Up(sz)]) else Eager(sz, e.pages + Zeroes(Up(sz) - |e.pages|))
  }

  function Byte(e: Eager, addr: nat): byte
    requires Down(addr) < |e.pages|
  {
    e.pages[Down(addr)][addr % PGSIZE]
  }

  function Write(e: Eager, addr: nat, b: byte): Eager
    requires Down(addr) < |e.pages|
  {
    e.(pages := e.pages[Down(addr) := e.pages[Down(addr)][addr % PGSIZE := b]])
  }

  datatype Op = Grow(i: nat, n: int) | Fork(i: nat) | Free(i: nat) | Load(i: nat, addr: nat)
              | Store(i: nat, addr: nat, b: byte)

  /** `Failed` is a result of -1, `Killed` a process killed for its access, `Panicked` the kernel's "remap". */
  datatype Result = Done | Failed | Got(b: byte) | Killed | Panicked

  /** What the eager machine allows `op` to do with result `r`: an operation that fails changes nothing. */
  ghost predicate EagerNext(vs: seq<Eager>, op: Op, r: Result, vs': seq<Eager>) {
    if op.i >= |vs| then r == Failed && vs' == vs else
    var e := vs[op.i];
    match op {
      case Grow(i, n) =>
        || (r == Failed && vs' == vs && (n > 0 || e.sz + n == 0))
        || (r == Done && n > 0 && e.sz + n < KERNBASE && vs' == vs[i := Resize(e, e.sz + n)])
        || (r == Done && n < 0 < e.sz + n && vs' == vs[i := Resize(e, e.sz + n)])
        || (r == Done && (n == 0 || e.sz + n < 0) && vs' == vs)
      case Fork(i) => (r == Done && vs' == vs + [e]) || (r == Failed && vs' == vs)
      case Free(i) => r == Done && vs' == vs[..i] + vs[i + 1..]
      case Load(i, addr) => vs' == vs && (r == Killed || (r.Got? && Down(addr) < |e.pages| && r.b == Byte(e, addr)))
      case Store(i, addr, b) => (r == Killed && vs' == vs) ||
                                (r == Done && Down(addr) < |e.pages| && vs' == vs[i := Write(e, addr, b)])
    }
  }

  /** A shrink by exactly the size. */
  ghost predicate ToZero(vs: seq<Eager>, op: Op) {
    op.Grow? && op.i < |vs| && op.n < 0 && vs[op.i].sz + op.n == 0
  }

  /** What the lazy machine does: as the eager one, except that a shrink to size 0 reports failure and keeps
      the size while all bytes of the process become zero. */
  ghost predicate Next(vs: seq<Eager>, op: Op, r: Result, vs': seq<Eager>) {
    if ToZero(vs, op) then r == Failed && vs' == vs[op.i := vs[op.i].(pages := Zeroes(|vs[op.i].pages|))]
    else EagerNext(vs, op, r, vs')
  }

  /** The lazy machine steps as the eager one exactly when it is not asked to shrink a process to size 0, or
      that process holds nothing but zeroes. */
  lemma NextIsEager(vs: seq<Eager>, op: Op, r: Result, vs': seq<Eager>)
    requires Next(vs, op, r, vs')
    ensures EagerNext(vs, op, r, vs') <==> (!ToZero(vs, op) || vs[op.i].pages == Zeroes(|vs[op.i].pages|))
  {
    if ToZero(vs, op) { assert vs'[op.i].pages == Zeroes(|vs[op.i].pages|); }
  }

  // ---- the lazy machine ----

  datatype Proc = Proc(pgdir: nat, sz: nat)

  ghost predicate Ok(vm: Vm, procs: seq<Proc>) {
    match vm case Vm(_, _, _, _) =>
    && Valid(vm)
    && (forall i :: 0 <= i < |procs| ==>
          0 < procs[i].sz && IsSpace(vm, procs[i].pgdir) && Below(vm, procs[i].pgdir, procs[i].sz))
    && (forall i, j :: 0 <= i < j < |procs| ==> procs[i].pgdir != procs[j].pgdir)
  }

  /** A process as the eager machine has it: a page that is absent counts as zeroes. */
  ghost function ViewOf(vm: Vm, p: Proc): (e: Eager)
    requires p.sz < KERNBASE
    ensures e.sz == p.sz && |e.pages| == Up(p.sz)
  {
    Eager(p.sz, seq(Up(p.sz), v requires 0 <= v < Up(p.sz) => UserPage(vm.mem, p.pgdir, v)))
  }

  ghost function Views(vm: Vm, procs: seq<Proc>): (vs: seq<Eager>)
    requires forall i :: 0 <= i < |procs| ==> procs[i].sz < KERNBASE
    ensures |vs| == |procs| && forall i :: 0 <= i < |procs| ==> vs[i] == ViewOf(vm, procs[i])
  {
    seq(|procs|, i requires 0 <= i < |procs| => ViewOf(vm, procs[i]))
  }

  /** The directories in use, and the frames in the kernel's hands. */
  ghost function Roots(vm: Vm): set<nat> { set f | f in vm.owner && vm.owner[f] == IsDir }
  ghost function Held(vm: Vm): set<nat> { set f | f in vm.owner && vm.owner[f] == Kernel }

  /** Every page that is there lets a user program read and write. */
  ghost predicate OpenSpace(mem: seq<Page>, p: nat) {
    forall v :: 0 <= v < UPAGES && Entry(mem, p, v).Present? ==> Entry(mem, p, v).w && Entry(mem, p, v).u
  }

  ghost predicate AllOpen(vm: Vm, procs: seq<Proc>) {
    match vm case Vm(_, mem, _, _) => forall i :: 0 <= i < |procs| ==> OpenSpace(mem, procs[i].pgdir)
  }

  lemma SameOpen(mem: seq<Page>, mem': seq<Page>, p: nat)
    requires SameSpace(mem, mem', p) && OpenSpace(mem, p)
    ensures OpenSpace(mem', p)
  {
    SameViews(mem, mem', p);
    hide Entry;
  }

  lemma FilledOpen(m: Vm, t: Vm, p: nat, a: nat, b: nat)
    requires Filled(m, t, p, a, b) && OpenSpace(m.mem, p)
    ensures OpenSpace(t.mem, p)
  {
    hide Entry, OthersKept, Valid;
  }

  lemma FreedOpen(m: Vm, t: Vm, p: nat, a: nat, b: nat)
    requires PagesFreed(m, t, p, a, b) && OpenSpace(m.mem, p)
    ensures OpenSpace(t.mem, p)
  {
    hide Entry, OthersKept, Valid;
  }

  lemma WalkedOpen(m: Vm, t: Vm, p: nat)
    requires Walked(m, t, p) && OpenSpace(m.mem, p)
    ensures OpenSpace(t.mem, p)
  {
    hide OpenSpace, SameSpace, OthersKept;
    SameOpen(m.mem, t.mem, p);
  }

  lemma CopiedOpen(m: Vm, t: Vm, p: nat, d: nat, n: nat, kmap: seq<KRange>)
    requires Copied(m, t, p, d, n, kmap) && OpenSpace(m.mem, p)
    ensures OpenSpace(t.mem, d)
  {
    hide Entry, NewSpace;
  }

  /** One space is open again, the others did not change. */
  lemma OthersOpen(m: Vm, t: Vm, procs: seq<Proc>, ps: seq<Proc>, i: nat)
    requires AllOpen(m, procs) && OtherProcs(m, t, procs, i) && i < |procs| && OpenSpace(t.mem, procs[i].pgdir)
    requires |ps| == |procs| && forall j :: 0 <= j < |ps| ==> ps[j].pgdir == procs[j].pgdir
    ensures AllOpen(t, ps)
  {
    hide OpenSpace, SameSpace;
    forall j | 0 <= j < |ps|
      ensures OpenSpace(t.mem, ps[j].pgdir)
    {
      if j != i { SameOpen(m.mem, t.mem, procs[j].pgdir); }
    }
  }

  lemma ReturnedOpen(m: Vm, t: Vm, procs: seq<Proc>)
    requires Ok(m, procs) && Returned(m, t) && AllOpen(m, procs)
    ensures AllOpen(t, procs)
  {
    OkMeans(m, procs);
    hide OpenSpace, SameSpace, Valid, Below;
    forall j | 0 <= j < |procs|
      ensures OpenSpace(t.mem, procs[j].pgdir)
    {
      SameOpen(m.mem, t.mem, procs[j].pgdir);
    }
  }

  lemma NewOpen(m: Vm, t: Vm, procs: seq<Proc>, d: nat, sz: nat)
    requires Ok(m, procs) && NewSpace(m, t, d) && AllOpen(m, procs) && OpenSpace(t.mem, d)
    ensures AllOpen(t, procs + [Proc(d, sz)])
  {
    OkMeans(m, procs);
    hide OpenSpace, SameSpace, Valid, Below, Entry;
    forall j | 0 <= j < |procs|
      ensures OpenSpace(t.mem, procs[j].pgdir)
    {
      SameOpen(m.mem, t.mem, procs[j].pgdir);
    }
  }

  lemma GoneOpen(m: Vm, t: Vm, procs: seq<Proc>, i: nat)
    requires Ok(m, procs) && i < |procs| && SpaceGone(m, t, procs[i].pgdir) && AllOpen(m, procs)
    ensures AllOpen(t, procs[..i] + procs[i + 1..])
  {
    OkMeans(m, procs);
    hide OpenSpace, SameSpace, Valid, Below;
    forall j | 0 <= j < |procs| && j != i
      ensures OpenSpace(t.mem, procs[j].pgdir)
    {
      assert procs[j].pgdir != procs[i].pgdir;
      SameOpen(m.mem, t.mem, procs[j].pgdir);
    }
  }

  lemma FilledAccounts(m: Vm, t: Vm, p: nat, a: nat, b: nat)
    requires Filled(m, t, p, a, b)
    ensures Roots(t) == Roots(m) && Held(t) == Held(m)
  {
    assert forall f :: f in t.owner && f !in m.owner ==> t.owner[f].IsTable? || t.owner[f].IsPage?;
  }

  lemma FreedAccounts(m: Vm, t: Vm, p: nat, a: nat, b: nat)
    requires PagesFreed(m, t, p, a, b)
    ensures Roots(t) == Roots(m) && Held(t) == Held(m)
  {}

  lemma WalkedAccounts(m: Vm, t: Vm, p: nat)
    requires Walked(m, t, p)
    ensures Roots(t) == Roots(m) && Held(t) == Held(m)
  {}

  lemma ReturnedAccounts(m: Vm, t: Vm)
    requires Returned(m, t)
    ensures Roots(t) == Roots(m) && Held(t) == Held(m)
  {}

  lemma NewAccounts(m: Vm, t: Vm, d: nat)
    requires NewSpace(m, t, d)
    ensures Roots(t) == Roots(m) + {d} && Held(t) == Held(m)
  {
    hide SameSpace, Valid;
    assert forall f :: f in t.owner && f !in m.owner && f != d ==> t.owner[f].IsTable? || t.owner[f].IsPage?;
  }

  lemma GoneAccounts(m: Vm, t: Vm, p: nat)
    requires SpaceGone(m, t, p) && IsSpace(m, p)
    ensures Roots(t) == Roots(m) - {p} && Held(t) == Held(m)
  {}

  lemma OkMeans(vm: Vm, procs: seq<Proc>)
    requires Ok(vm, procs)
    ensures Valid(vm)
    ensures forall i :: 0 <= i < |procs| ==>
              0 < procs[i].sz < KERNBASE && IsSpace(vm, procs[i].pgdir) && Below(vm, procs[i].pgdir, procs[i].sz)
  {}

  /** Every process but `i` is as it was. */
  ghost predicate OtherProcs(m: Vm, t: Vm, procs: seq<Proc>, i: nat) {
    match t case Vm(_, mem, _, _) =>
    forall j :: 0 <= j < |procs| && j != i ==> IsSpace(t, procs[j].pgdir) && SameSpace(m.mem, mem, procs[j].pgdir)
  }

  lemma SpaceViews(m: Vm, t: Vm, p: Proc)
    requires SameSpace(m.mem, t.mem, p.pgdir) && p.sz < KERNBASE && Below(m, p.pgdir, p.sz)
    ensures Below(t, p.pgdir, p.sz) && ViewOf(t, p) == ViewOf(m, p)
  {
    SameViews(m.mem, t.mem, p.pgdir);
    hide Entry, UserPage;
    assert ViewOf(t, p).pages == ViewOf(m, p).pages;
  }

  /** One process changed to `q`, the others did not. */
  lemma ProcChanged(m: Vm, t: Vm, procs: seq<Proc>, i: nat, q: Proc)
    requires Ok(m, procs) && i < |procs| && Valid(t) && OtherProcs(m, t, procs, i)
    requires q.pgdir == procs[i].pgdir && 0 < q.sz < KERNBASE && IsSpace(t, q.pgdir) && Below(t, q.pgdir, q.sz)
    ensures forall j :: 0 <= j < |procs| ==> procs[j].sz < KERNBASE
    ensures Ok(t, procs[i := q]) && Views(t, procs[i := q]) == Views(m, procs)[i := ViewOf(t, q)]
  {
    OkMeans(m, procs);
    hide Valid, Below, ViewOf, SameSpace;
    forall j | 0 <= j < |procs| && j != i
      ensures Below(t, procs[j].pgdir, procs[j].sz) && ViewOf(t, procs[j]) == ViewOf(m, procs[j])
    {
      SpaceViews(m, t, procs[j]);
    }
    assert Views(t, procs[i := q]) == Views(m, procs)[i := ViewOf(t, q)];
  }

  lemma KeptProcs(m: Vm, t: Vm, procs: seq<Proc>, i: nat)
    requires Ok(m, procs) && i < |procs| && OthersKept(m, t, procs[i].pgdir)
    ensures OtherProcs(m, t, procs, i)
  {
    hide SameSpace, Valid, Below;
    forall j | 0 <= j < |procs| && j != i
      ensures procs[j].pgdir != procs[i].pgdir
    {
    }
  }

  // ---- growproc ----

  lemma GrownView(m: Vm, t: Vm, p: nat, oldsz: nat, newsz: nat, a: nat)
    requires Below(m, p, oldsz) && oldsz <= newsz < KERNBASE && Up(oldsz) <= a <= Up(newsz) &&
             Filled(m, t, p, Up(oldsz), a)
    ensures Below(t, p, newsz) && ViewOf(t, Proc(p, newsz)) == Resize(ViewOf(m, Proc(p, oldsz)), newsz)
  {
    forall v | Up(oldsz) <= v < UPAGES
      ensures UserPage(t.mem, p, v) == ZeroPage()
    {
      AbsentIsZero(m.mem, p, v);
    }
    hide Entry, UserPage, ZeroPage, OthersKept, Valid;
    assert ViewOf(t, Proc(p, newsz)).pages == Resize(ViewOf(m, Proc(p, oldsz)), newsz).pages;
  }

  lemma ShrunkView(m: Vm, t: Vm, p: nat, oldsz: nat, newsz: nat)
    requires Below(m, p, oldsz) && newsz < oldsz && PagesFreed(m, t, p, Up(newsz), Up(oldsz))
    ensures Below(t, p, newsz) && ViewOf(t, Proc(p, newsz)) == Resize(ViewOf(m, Proc(p, oldsz)), newsz)
  {
    hide Entry, UserPage, ZeroPage, OthersKept, Valid;
    assert ViewOf(t, Proc(p, newsz)).pages == Resize(ViewOf(m, Proc(p, oldsz)), newsz).pages;
  }

  lemma ZeroedView(m: Vm, t: Vm, p: nat, sz: nat)
    requires Below(m, p, sz) && PagesFreed(m, t, p, 0, Up(sz))
    ensures Below(t, p, sz) && ViewOf(t, Proc(p, sz)).pages == Zeroes(Up(sz))
  {
    forall v | 0 <= v < Up(sz)
      ensures UserPage(t.mem, p, v) == ZeroPage()
    {
      AbsentIsZero(t.mem, p, v);
    }
    hide Entry, UserPage, ZeroPage, OthersKept, Valid;
  }

  lemma FilledProcs(m: Vm, t: Vm, procs: seq<Proc>, i: nat, a: nat, b: nat)
    requires Ok(m, procs) && i < |procs| && Filled(m, t, procs[i].pgdir, a, b)
    ensures OtherProcs(m, t, procs, i) && Valid(t) && IsSpace(t, procs[i].pgdir)
  {
    KeptProcs(m, t, procs, i);
  }

  lemma FreedProcs(m: Vm, t: Vm, procs: seq<Proc>, i: nat, a: nat, b: nat)
    requires Ok(m, procs) && i < |procs| && PagesFreed(m, t, procs[i].pgdir, a, b)
    ensures OtherProcs(m, t, procs, i) && Valid(t) && IsSpace(t, procs[i].pgdir)
  {
    KeptProcs(m, t, procs, i);
  }

  /** A state that only differs by tables is the same for every process. */
  lemma WalkedProcs(m: Vm, t: Vm, procs: seq<Proc>, i: nat)
    requires Ok(m, procs) && i < |procs| && Walked(m, t, procs[i].pgdir)
    ensures forall j :: 0 <= j < |procs| ==> procs[j].sz < KERNBASE
    ensures Ok(t, procs) && Views(t, procs) == Views(m, procs)
  {
    OkMeans(m, procs);
    hide Valid, Below, SameSpace;
    KeptProcs(m, t, procs, i);
    SpaceViews(m, t, procs[i]);
    ProcChanged(m, t, procs, i, procs[i]);
    assert procs[i := procs[i]] == procs;
    assert Views(m, procs)[i := ViewOf(m, procs[i])] == Views(m, procs);
  }

  /** `growproc`.  The sum is taken in 32 bits, so a shrink by more than the size changes nothing. */
  method GrowProc(vm: Vm, procs: seq<Proc>, i: nat, n: int) returns (t: Vm, ps: seq<Proc>, r: Result)
    requires Ok(vm, procs) && i < |procs| && -0x8000_0000 <= n < 0x8000_0000
    ensures forall j :: 0 <= j < |procs| ==> procs[j].sz < KERNBASE
    ensures forall j :: 0 <= j < |ps| ==> ps[j].sz < KERNBASE
    ensures Ok(t, ps) && Next(Views(vm, procs), Grow(i, n), r, Views(t, ps))
    ensures |ps| == |procs| && forall j :: 0 <= j < |ps| ==> ps[j].pgdir == procs[j].pgdir
    ensures Roots(t) == Roots(vm) && Held(t) == Held(vm)
    ensures r.Failed? && 0 < n < KERNBASE - procs[i].sz ==>
              LooksLikeStack(procs[i].sz, procs[i].sz + n) && |vm.free| < 2 * (Up(procs[i].sz + n) - Up(procs[i].sz))
    ensures !r.Panicked? && |t.free| + GrowCost(procs[i].sz, n) >= |vm.free|
    ensures AllOpen(vm, procs) ==> AllOpen(t, ps)
    ensures EagerNext(Views(vm, procs), Grow(i, n), r, Views(t, ps)) <==>
              !(n < 0 && procs[i].sz + n == 0) || ViewOf(vm, procs[i]).pages == Zeroes(Up(procs[i].sz))
  {
    hide Valid, Ok, Below, Filled, PagesFreed, Walked, OtherProcs, ViewOf, Resize, Roots, Held, AllOpen, OpenSpace;
    if n > 0 {
      t, ps, r := GrowUp(vm, procs, i, n);
    } else if n < 0 {
      t, ps, r := GrowDown(vm, procs, i, n);
    } else {
      OkMeans(vm, procs);
      t, ps, r := vm, procs, Done;
      GrowNone(vm, procs, i);
    }
    NextIsEager(Views(vm, procs), Grow(i, n), r, Views(t, ps));
  }

  lemma GrowNone(vm: Vm, procs: seq<Proc>, i: nat)
    requires Ok(vm, procs) && i < |procs| && forall j :: 0 <= j < |procs| ==> procs[j].sz < KERNBASE
    ensures Next(Views(vm, procs), Grow(i, 0), Done, Views(vm, procs))
  {
    hide Ok;
    assert Views(vm, procs)[i] == ViewOf(vm, procs[i]);
  }

  /** Frames a growth by `n` may take. */
  function GrowCost(sz: nat, n: int): nat {
    if n > 0 && LooksLikeStack(sz, sz + n) then 2 * (Up(sz + n) - Up(sz)) else 0
  }

  /** `growproc` to a larger size. */
  method GrowUp(vm: Vm, procs: seq<Proc>, i: nat, n: int) returns (t: Vm, ps: seq<Proc>, r: Result)
    requires Ok(vm, procs) && i < |procs| && 0 < n < 0x8000_0000
    ensures forall j :: 0 <= j < |procs| ==> procs[j].sz < KERNBASE
    ensures forall j :: 0 <= j < |ps| ==> ps[j].sz < KERNBASE
    ensures Ok(t, ps) && Next(Views(vm, procs), Grow(i, n), r, Views(t, ps))
    ensures |ps| == |procs| && forall j :: 0 <= j < |ps| ==> ps[j].pgdir == procs[j].pgdir
    ensures Roots(t) == Roots(vm) && Held(t) == Held(vm) && !r.Panicked?
    ensures r.Failed? && 0 < n < KERNBASE - procs[i].sz ==>
              LooksLikeStack(procs[i].sz, procs[i].sz + n) && |vm.free| < 2 * (Up(procs[i].sz + n) - Up(procs[i].sz))
    ensures |t.free| + GrowCost(procs[i].sz, n) >= |vm.free| && (AllOpen(vm, procs) ==> AllOpen(t, ps))
  {
    hide Valid, Ok, Below, Filled, Walked, OtherProcs, ViewOf, Resize, Roots, Held, AllOpen, OpenSpace;
    OkMeans(vm, procs);
    var p, sz := procs[i].pgdir, procs[i].sz;
    ps := procs;
    ghost var vs := Views(vm, procs);
    assert vs[i] == ViewOf(vm, Proc(p, sz));
    var newsz, s := sz + n, 0;
    t, s := AllocUvm(vm, p, sz, newsz);
    if s == 0 {
      if newsz < KERNBASE {
        WalkedProcs(vm, t, procs, i);
        WalkedAccounts(vm, t, p);
        WalkedAllOpen(vm, t, procs, i);
      }
      return t, ps, Failed;
    }
    FilledStart(vm, p, Up(sz));
    ghost var a := if LooksLikeStack(sz, newsz) then Up(newsz) else Up(sz);
    GrownView(vm, t, p, sz, newsz, a);
    FilledProcs(vm, t, procs, i, Up(sz), a);
    FilledAccounts(vm, t, p, Up(sz), a);
    ProcChanged(vm, t, procs, i, Proc(p, newsz));
    ps := procs[i := Proc(p, s)];
    FilledAllOpen(vm, t, procs, ps, i, Up(sz), a);
    r := Done;
  }

  /** `growproc` to a smaller size, or by more than the size, which the sum in 32 bits makes no shrink at all. */
  method GrowDown(vm: Vm, procs: seq<Proc>, i: nat, n: int) returns (t: Vm, ps: seq<Proc>, r: Result)
    requires Ok(vm, procs) && i < |procs| && -0x8000_0000 <= n < 0
    ensures forall j :: 0 <= j < |procs| ==> procs[j].sz < KERNBASE
    ensures forall j :: 0 <= j < |ps| ==> ps[j].sz < KERNBASE
    ensures Ok(t, ps) && Next(Views(vm, procs), Grow(i, n), r, Views(t, ps))
    ensures |ps| == |procs| && forall j :: 0 <= j < |ps| ==> ps[j].pgdir == procs[j].pgdir
    ensures Roots(t) == Roots(vm) && Held(t) == Held(vm) && !r.Panicked?
    ensures |t.free| >= |vm.free| && (AllOpen(vm, procs) ==> AllOpen(t, ps))
  {
    hide Valid, Ok, Below, PagesFreed, OtherProcs, ViewOf, Resize, Roots, Held, AllOpen, OpenSpace;
    OkMeans(vm, procs);
    var p, sz := procs[i].pgdir, procs[i].sz;
    ps := procs;
    ghost var vs := Views(vm, procs);
    assert vs[i] == ViewOf(vm, Proc(p, sz));
    var newsz, s := (sz + n) % 0x1_0000_0000, 0;
    t, s := DeallocUvm(vm, p, sz, newsz);
    if newsz >= sz {
      assert procs[i := Proc(p, sz)] == procs;
      return t, procs[i := Proc(p, s)], Done;
    }
    FreedProcs(vm, t, procs, i, Up(newsz), Up(sz));
    FreedAccounts(vm, t, p, Up(newsz), Up(sz));
    FreedAllOpen(vm, t, procs, procs[i := Proc(p, if s == 0 then sz else s)], i, Up(newsz), Up(sz));
    if s == 0 {
      ZeroedView(vm, t, p, sz);
      ProcChanged(vm, t, procs, i, Proc(p, sz));
      assert procs[i := Proc(p, sz)] == procs;
      return t, ps, Failed;
    }
    ShrunkView(vm, t, p, sz, newsz);
    ProcChanged(vm, t, procs, i, Proc(p, newsz));
    ps := procs[i := Proc(p, s)];
    r := Done;
  }

  lemma OpenAt(vm: Vm, procs: seq<Proc>, i: nat)
    requires AllOpen(vm, procs) && i < |procs|
    ensures OpenSpace(vm.mem, procs[i].pgdir)
  {}

  lemma FilledAllOpen(m: Vm, t: Vm, procs: seq<Proc>, ps: seq<Proc>, i: nat, a: nat, b: nat)
    requires Ok(m, procs) && i < |procs| && Filled(m, t, procs[i].pgdir, a, b)
    requires |ps| == |procs| && forall j :: 0 <= j < |ps| ==> ps[j].pgdir == procs[j].pgdir
    ensures AllOpen(m, procs) ==> AllOpen(t, ps)
  {
    hide Ok, Filled, OpenSpace, OtherProcs, AllOpen;
    if AllOpen(m, procs) {
      OpenAt(m, procs, i);
      FilledOpen(m, t, procs[i].pgdir, a, b);
      FilledProcs(m, t, procs, i, a, b);
      OthersOpen(m, t, procs, ps, i);
    }
  }

  lemma FreedAllOpen(m: Vm, t: Vm, procs: seq<Proc>, ps: seq<Proc>, i: nat, a: nat, b: nat)
    requires Ok(m, procs) && i < |procs| && PagesFreed(m, t, procs[i].pgdir, a, b)
    requires |ps| == |procs| && forall j :: 0 <= j < |ps| ==> ps[j].pgdir == procs[j].pgdir
    ensures AllOpen(m, procs) ==> AllOpen(t, ps)
  {
    hide Ok, PagesFreed, OpenSpace, OtherProcs, AllOpen;
    if AllOpen(m, procs) {
      OpenAt(m, procs, i);
      FreedOpen(m, t, procs[i].pgdir, a, b);
      FreedProcs(m, t, procs, i, a, b);
      OthersOpen(m, t, procs, ps, i);
    }
  }

  lemma WalkedAllOpen(m: Vm, t: Vm, procs: seq<Proc>, i: nat)
    requires Ok(m, procs) && i < |procs| && Walked(m, t, procs[i].pgdir)
    ensures AllOpen(m, procs) ==> AllOpen(t, procs)
  {
    hide OpenSpace, SameSpace, Ok, OtherProcs, AllOpen;
    if AllOpen(m, procs) {
      OpenAt(m, procs, i);
      WalkedOpen(m, t, procs[i].pgdir);
      KeptProcs(m, t, procs, i);
      OthersOpen(m, t, procs, procs, i);
    }
  }

  /** `growproc` asked to shrink by the whole size: it fails and keeps the size, but a byte that was not zero
      reads as zero afterwards.  The eager machine has no such step. */
  method ShrinkToZeroLoses(vm: Vm, procs: seq<Proc>, i: nat, addr: nat) returns (t: Vm, ps: seq<Proc>, r: Result)
    requires Ok(vm, procs) && i < |procs| && addr < procs[i].sz < KERNBASE && Down(addr) < Up(procs[i].sz)
    requires Byte(ViewOf(vm, procs[i]), addr) != 0
    ensures Ok(t, ps) && r == Failed && i < |ps| && ps[i].sz == procs[i].sz
    ensures Byte(ViewOf(t, ps[i]), addr) == 0
    ensures forall j :: 0 <= j < |procs| ==> procs[j].sz < KERNBASE
    ensures forall j :: 0 <= j < |ps| ==> ps[j].sz < KERNBASE
    ensures !EagerNext(Views(vm, procs), Grow(i, 0 - procs[i].sz), r, Views(t, ps))
  {
    hide Valid, Ok, ViewOf, AllOpen;
    t, ps, r := GrowProc(vm, procs, i, 0 - procs[i].sz);
    ghost var was, now := Views(vm, procs)[i], Views(t, ps)[i];
    assert now.pages == Zeroes(|was.pages|);
    assert was.pages[Down(addr)] != ZeroPage();
  }

  // ---- fork and freevm ----

  /** Nothing was taken: every process is the same. */
  lemma ReturnedProcs(m: Vm, t: Vm, procs: seq<Proc>)
    requires Ok(m, procs) && Returned(m, t)
    ensures forall j :: 0 <= j < |procs| ==> procs[j].sz < KERNBASE
    ensures Ok(t, procs) && Views(t, procs) == Views(m, procs)
  {
    OkMeans(m, procs);
    hide Valid, Below, SameSpace, ViewOf;
    forall j | 0 <= j < |procs|
      ensures Below(t, procs[j].pgdir, procs[j].sz) && ViewOf(t, procs[j]) == ViewOf(m, procs[j])
    {
      SpaceViews(m, t, procs[j]);
    }
    assert Views(t, procs) == Views(m, procs);
  }

  lemma CopiedView(m: Vm, t: Vm, p: nat, d: nat, sz: nat, kmap: seq<KRange>)
    requires sz < KERNBASE && Copied(m, t, p, d, Up(sz), kmap)
    ensures Below(t, d, sz) && ViewOf(t, Proc(d, sz)) == ViewOf(m, Proc(p, sz)) && IsSpace(t, d) && Valid(t)
  {
    hide Entry, UserPage, CopyOf, Valid;
    assert ViewOf(t, Proc(d, sz)).pages == ViewOf(m, Proc(p, sz)).pages;
  }

  lemma CopiedMakes(m: Vm, t: Vm, p: nat, d: nat, n: nat, kmap: seq<KRange>)
    requires Copied(m, t, p, d, n, kmap)
    ensures NewSpace(m, t, d)
  {}

  /** A new space leaves every process as it was. */
  lemma NewProcs(m: Vm, t: Vm, procs: seq<Proc>, d: nat)
    requires Ok(m, procs) && NewSpace(m, t, d)
    ensures forall j :: 0 <= j < |procs| ==> procs[j].pgdir != d && procs[j].sz < KERNBASE
    ensures Ok(t, procs) && Views(t, procs) == Views(m, procs)
  {
    OkMeans(m, procs);
    hide Valid, Below, SameSpace, ViewOf;
    forall j | 0 <= j < |procs|
      ensures Below(t, procs[j].pgdir, procs[j].sz) && ViewOf(t, procs[j]) == ViewOf(m, procs[j])
      ensures IsSpace(t, procs[j].pgdir) && procs[j].pgdir != d
    {
      assert IsSpace(m, procs[j].pgdir);
      SpaceViews(m, t, procs[j]);
    }
    assert Views(t, procs) == Views(m, procs);
  }

  /** The part of `fork` that copies memory. */
  method ForkSpace(vm: Vm, procs: seq<Proc>, i: nat, kmap: seq<KRange>) returns (t: Vm, ps: seq<Proc>, r: Result)
    requires Ok(vm, procs) && i < |procs| && ValidKmap(kmap)
    ensures forall j :: 0 <= j < |procs| ==> procs[j].sz < KERNBASE
    ensures forall j :: 0 <= j < |ps| ==> ps[j].sz < KERNBASE
    ensures Ok(t, ps) && Next(Views(vm, procs), Fork(i), r, Views(t, ps))
    ensures r.Failed? ==> |vm.free| <= 1 + ENTRIES + Up(procs[i].sz)
    ensures !r.Panicked? && |t.free| + 1 + ENTRIES + Up(procs[i].sz) >= |vm.free|
    ensures AllOpen(vm, procs) ==> AllOpen(t, ps)
    ensures r.Failed? ==> ps == procs && t.owner == vm.owner && Roots(t) == Roots(vm) && Held(t) == Held(vm)
    ensures r.Done? ==>
              |ps| == |procs| + 1 && ps[..|procs|] == procs && Roots(t) == Roots(vm) + {ps[|procs|].pgdir} &&
              Held(t) == Held(vm)
  {
    hide Valid, Ok, Below, Copied, Returned, ViewOf, Roots, Held, AllOpen, OpenSpace, NewSpace;
    OkMeans(vm, procs);
    var d;
    t, d := CopyUvm(vm, procs[i].pgdir, procs[i].sz, kmap);
    if d == 0 {
      ReturnedProcs(vm, t, procs);
      ReturnedAccounts(vm, t);
      assert t.owner == vm.owner && |t.free| >= |vm.free| by { ReturnedOwners(vm, t); }
      if AllOpen(vm, procs) { ReturnedOpen(vm, t, procs); }
      return t, procs, Failed;
    }
    var q := Proc(d, procs[i].sz);
    CopiedView(vm, t, procs[i].pgdir, d, procs[i].sz, kmap);
    CopiedMakes(vm, t, procs[i].pgdir, d, Up(procs[i].sz), kmap);
    NewProcs(vm, t, procs, d);
    NewAccounts(vm, t, d);
    OneMore(t, procs, q);
    ps := procs + [q];
    if AllOpen(vm, procs) {
      OpenAt(vm, procs, i);
      CopiedOpen(vm, t, procs[i].pgdir, d, Up(procs[i].sz), kmap);
      NewOpen(vm, t, procs, d, procs[i].sz);
    }
    assert Views(vm, procs)[i] == ViewOf(t, q);
    r := Done;
  }

  lemma ReturnedOwners(m: Vm, t: Vm)
    requires Valid(m) && Returned(m, t)
    ensures t.owner == m.owner && |t.free| >= |m.free|
  {
    hide TreeInv, SameSpace, FreeInv;
    MoreFree(m, t);
  }

  lemma OneMore(t: Vm, procs: seq<Proc>, q: Proc)
    requires Ok(t, procs) && 0 < q.sz < KERNBASE && IsSpace(t, q.pgdir) && Below(t, q.pgdir, q.sz)
    requires forall j :: 0 <= j < |procs| ==> procs[j].pgdir != q.pgdir && procs[j].sz < KERNBASE
    ensures Ok(t, procs + [q]) && Views(t, procs + [q]) == Views(t, procs) + [ViewOf(t, q)]
  {
    hide Valid, Below, ViewOf;
    assert Views(t, procs + [q]) == Views(t, procs) + [ViewOf(t, q)];
  }

  lemma GoneOther(m: Vm, t: Vm, procs: seq<Proc>, i: nat, j: nat)
    requires Ok(m, procs) && i < |procs| && SpaceGone(m, t, procs[i].pgdir) && j < |procs| && j != i
    ensures procs[j].sz < KERNBASE && IsSpace(t, procs[j].pgdir) && Below(t, procs[j].pgdir, procs[j].sz)
    ensures ViewOf(t, procs[j]) == ViewOf(m, procs[j]) && Valid(t)
  {
    OkMeans(m, procs);
    hide Valid, SameSpace, ViewOf;
    assert procs[j].pgdir != procs[i].pgdir;
    SpaceViews(m, t, procs[j]);
  }

  function Without<T>(s: seq<T>, i: nat): (r: seq<T>)
    requires i < |s|
    ensures |r| == |s| - 1 && forall k :: 0 <= k < |r| ==> r[k] == s[if k < i then k else k + 1]
  {
    s[..i] + s[i + 1..]
  }

  lemma OkWithout(t: Vm, procs: seq<Proc>, i: nat)
    requires i < |procs| && Valid(t)
    requires forall j :: 0 <= j < |procs| && j != i ==>
               0 < procs[j].sz && IsSpace(t, procs[j].pgdir) && Below(t, procs[j].pgdir, procs[j].sz)
    requires forall j, k :: 0 <= j < k < |procs| ==> procs[j].pgdir != procs[k].pgdir
    ensures Ok(t, Without(procs, i))
  {
    hide Valid, Below;
  }

  lemma ViewsWithout(m: Vm, t: Vm, procs: seq<Proc>, i: nat)
    requires i < |procs| && forall j :: 0 <= j < |procs| ==> procs[j].sz < KERNBASE
    requires forall j :: 0 <= j < |procs| && j != i ==> ViewOf(t, procs[j]) == ViewOf(m, procs[j])
    ensures Views(t, Without(procs, i)) == Without(Views(m, procs), i)
  {
    hide ViewOf;
  }

  lemma GoneProcs(m: Vm, t: Vm, procs: seq<Proc>, i: nat)
    requires Ok(m, procs) && i < |procs| && SpaceGone(m, t, procs[i].pgdir)
    ensures forall j :: 0 <= j < |procs| ==> procs[j].sz < KERNBASE
    ensures Ok(t, Without(procs, i)) && Views(t, Without(procs, i)) == Without(Views(m, procs), i)
  {
    OkMeans(m, procs);
    GoneValid(m, t, procs[i].pgdir);
    hide Valid, Below, SpaceGone, ViewOf, Views, Without;
    forall j | 0 <= j < |procs| && j != i
      ensures Below(t, procs[j].pgdir, procs[j].sz) && ViewOf(t, procs[j]) == ViewOf(m, procs[j])
      ensures IsSpace(t, procs[j].pgdir)
    {
      GoneOther(m, t, procs, i, j);
    }
    OkWithout(t, procs, i);
    ViewsWithout(m, t, procs, i);
  }

  lemma GoneValid(m: Vm, t: Vm, p: nat)
    requires SpaceGone(m, t, p)
    ensures Valid(t)
  {}

  /** `wait` reaping a child: `freevm` of its space. */
  method FreeSpace(vm: Vm, procs: seq<Proc>, i: nat) returns (t: Vm, ps: seq<Proc>, r: Result)
    requires Ok(vm, procs) && i < |procs|
    ensures forall j :: 0 <= j < |procs| ==> procs[j].sz < KERNBASE
    ensures forall j :: 0 <= j < |ps| ==> ps[j].sz < KERNBASE
    ensures Ok(t, ps) && Next(Views(vm, procs), Free(i), r, Views(t, ps))
    ensures ps == procs[..i] + procs[i + 1..] && Roots(t) == Roots(vm) - {procs[i].pgdir} && Held(t) == Held(vm)
    ensures |t.free| >= |vm.free|
    ensures AllOpen(vm, procs) ==> AllOpen(t, ps)
  {
    hide Valid, Ok, Below, SpaceGone, ViewOf, Roots, Held, AllOpen;
    OkMeans(vm, procs);
    t := FreeVm(vm, procs[i].pgdir);
    GoneProcs(vm, t, procs, i);
    GoneAccounts(vm, t, procs[i].pgdir);
    GoneFree(vm, t, procs[i].pgdir);
    if AllOpen(vm, procs) { GoneOpen(vm, t, procs, i); }
    ps, r := procs[..i] + procs[i + 1..], Done;
  }

  lemma GoneFree(m: Vm, t: Vm, p: nat)
    requires Valid(m) && SpaceGone(m, t, p)
    ensures |t.free| >= |m.free|
  {
    hide TreeInv, SameSpace, FreeInv, BelongsTo;
    MoreFree(m, t);
  }

  // ---- loads and stores ----

  /** The entry lets a user program through. */
  predicate Allows(e: Pte, write: bool) { e.Present? && e.u && (write ==> e.w) }

  /** What the hardware and the fault handler do for an access: afterwards the page is there and every page of
      every process reads as before, or the process is killed, or the kernel panics. */
  method Access(vm: Vm, procs: seq<Proc>, i: nat, addr: nat, write: bool) returns (t: Vm, r: Result)
    requires Ok(vm, procs) && i < |procs| && addr < VPAGES * PGSIZE
    ensures r.Done? || r.Killed? || r.Panicked?
    ensures forall j :: 0 <= j < |procs| ==> procs[j].sz < KERNBASE
    ensures !r.Panicked? ==> Ok(t, procs) && Views(t, procs) == Views(vm, procs)
    ensures r.Done? ==> Down(addr) < UPAGES && Allows(Entry(t.mem, procs[i].pgdir, Down(addr)), write)
    ensures r.Panicked? <==>
              PGSIZE <= addr < procs[i].sz && vm.free != [] && Entry(vm.mem, procs[i].pgdir, Down(addr)).Present? &&
                               !Allows(Entry(vm.mem, procs[i].pgdir, Down(addr)), write)
    ensures PGSIZE <= addr < procs[i].sz && |vm.free| >= 2 && !r.Panicked? ==> r.Done?
    ensures Down(addr) < UPAGES && Allows(Entry(vm.mem, procs[i].pgdir, Down(addr)), write) ==> r.Done? && t == vm
    ensures r.Done? && !(PGSIZE <= addr < procs[i].sz) ==> Allows(Entry(vm.mem, procs[i].pgdir, Down(addr)), write)
    ensures !r.Panicked? ==> Roots(t) == Roots(vm) && Held(t) == Held(vm)
    ensures !r.Panicked? ==> |t.free| + 2 >= |vm.free| && (AllOpen(vm, procs) ==> AllOpen(t, procs))
  {
    hide Valid, Ok, Below, Filled, Returned, Entry, ViewOf, Roots, Held, AllOpen, OpenSpace;
    OkMeans(vm, procs);
    var p := procs[i].pgdir;
    if Down(addr) < UPAGES && Allows(Entry(vm.mem, p, Down(addr)), write) {
      return vm, Done;
    }
    var k;
    t, k := HandleFault(vm, p, procs[i].sz, addr);
    match k {
      case Panic => r := Panicked;
      case Refused =>
        ReturnedProcs(vm, t, procs);
        ReturnedAccounts(vm, t);
        if AllOpen(vm, procs) { ReturnedOpen(vm, t, procs); }
        r := Killed;
      case Handled =>
        FilledViews(vm, t, procs, i, Down(addr));
        FilledAccounts(vm, t, p, Down(addr), Down(addr) + 1);
        FilledAllOpen(vm, t, procs, procs, i, Down(addr), Down(addr) + 1);
        r := Done;
    }
  }

  lemma FilledViews(m: Vm, t: Vm, procs: seq<Proc>, i: nat, v: nat)
    requires Ok(m, procs) && i < |procs| && v < Up(procs[i].sz) <= UPAGES && Filled(m, t, procs[i].pgdir, v, v + 1)
    ensures forall j :: 0 <= j < |procs| ==> procs[j].sz < KERNBASE
    ensures Ok(t, procs) && Views(t, procs) == Views(m, procs)
    ensures Allows(Entry(t.mem, procs[i].pgdir, v), true)
  {
    OkMeans(m, procs);
    FilledProcs(m, t, procs, i, v, v + 1);
    FilledBelow(m, t, procs[i], v);
    hide Valid, Below, Filled, ViewOf;
    ProcChanged(m, t, procs, i, procs[i]);
    assert procs[i := procs[i]] == procs;
    assert Views(m, procs)[i := ViewOf(m, procs[i])] == Views(m, procs);
  }

  lemma FilledBelow(m: Vm, t: Vm, p: Proc, v: nat)
    requires p.sz < KERNBASE && Below(m, p.pgdir, p.sz) && v < Up(p.sz) && Filled(m, t, p.pgdir, v, v + 1)
    ensures Below(t, p.pgdir, p.sz) && ViewOf(t, p) == ViewOf(m, p)
  {
    hide Entry, UserPage, OthersKept, Valid;
    assert ViewOf(t, p).pages == ViewOf(m, p).pages;
  }

  /** A page that lets an access through is one of the process's pages. */
  lemma AllowedPage(vm: Vm, procs: seq<Proc>, i: nat, v: nat)
    requires Ok(vm, procs) && i < |procs| && v < UPAGES && Entry(vm.mem, procs[i].pgdir, v).Present?
    ensures v < Up(procs[i].sz) && procs[i].sz < KERNBASE &&
            ViewOf(vm, procs[i]).pages[v] == UserPage(vm.mem, procs[i].pgdir, v)
    ensures Entry(vm.mem, procs[i].pgdir, v).frame < |vm.mem| && vm.mem[Entry(vm.mem, procs[i].pgdir, v).frame].Data?
    ensures vm.mem[Entry(vm.mem, procs[i].pgdir, v).frame].bytes == UserPage(vm.mem, procs[i].pgdir, v)
  {
    OkMeans(vm, procs);
    PresentPage(vm, procs[i].pgdir, v);
  }

  method LoadByte(vm: Vm, procs: seq<Proc>, i: nat, addr: nat) returns (t: Vm, r: Result)
    requires Ok(vm, procs) && i < |procs| && addr < VPAGES * PGSIZE
    ensures forall j :: 0 <= j < |procs| ==> procs[j].sz < KERNBASE
    ensures !r.Panicked? ==> Ok(t, procs) && Next(Views(vm, procs), Load(i, addr), r, Views(t, procs))
    ensures r.Panicked? <==>
              PGSIZE <= addr < procs[i].sz && vm.free != [] && Entry(vm.mem, procs[i].pgdir, Down(addr)).Present? &&
                               !Allows(Entry(vm.mem, procs[i].pgdir, Down(addr)), false)
    ensures PGSIZE <= addr < procs[i].sz && |vm.free| >= 2 && !r.Panicked? ==>
              r == Got(Byte(ViewOf(vm, procs[i]), addr))
    ensures Down(addr) < UPAGES && Allows(Entry(vm.mem, procs[i].pgdir, Down(addr)), false) ==> r.Got? && t == vm
    ensures r.Got? && !(PGSIZE <= addr < procs[i].sz) ==>
              Down(addr) < UPAGES && Allows(Entry(vm.mem, procs[i].pgdir, Down(addr)), false)
    ensures !r.Panicked? ==> Roots(t) == Roots(vm) && Held(t) == Held(vm)
    ensures !r.Panicked? ==> |t.free| + 2 >= |vm.free| && (AllOpen(vm, procs) ==> AllOpen(t, procs))
  {
    hide Valid, Ok, Below, Entry, UserPage, ViewOf, Roots, Held, AllOpen;
    t, r := Access(vm, procs, i, addr, false);
    if !r.Done? { return; }
    AllowedPage(t, procs, i, Down(addr));
    assert ViewOf(t, procs[i]) == Views(t, procs)[i] == ViewOf(vm, procs[i]);
    r := Got(t.mem[Entry(t.mem, procs[i].pgdir, Down(addr)).frame].bytes[addr % PGSIZE]);
  }

  lemma StoreView(m: Vm, procs: seq<Proc>, i: nat, v: nat, bytes: PageData)
    requires Ok(m, procs) && i < |procs| && v < UPAGES && Entry(m.mem, procs[i].pgdir, v).Present? &&
             v < Up(procs[i].sz)
    ensures Entry(m.mem, procs[i].pgdir, v).frame < |m.mem|
    ensures forall j :: 0 <= j < |procs| ==> procs[j].sz < KERNBASE
    ensures var t := m.(mem := m.mem[Entry(m.mem, procs[i].pgdir, v).frame := Data(bytes)]);
            && Ok(t, procs) && Roots(t) == Roots(m) && Held(t) == Held(m) && (AllOpen(m, procs) ==> AllOpen(t, procs))
            && Views(t, procs)
               == Views(m, procs)[i := ViewOf(m, procs[i]).(pages := ViewOf(m, procs[i]).pages[v := bytes])]
  {
    OkMeans(m, procs);
    var p := procs[i].pgdir;
    PutPage(m.mem, m.owner, p, v / ENTRIES, v % ENTRIES, bytes);
    var t := m.(mem := m.mem[Entry(m.mem, p, v).frame := Data(bytes)]);
    EntrySetMeans(m.mem, t.mem, m, p, v, Entry(m.mem, p, v));
    hide PteAt, PageOf, Entry, UserPage, EntrySet, TreeInv;
    assert FreeInv(t);
    assert OtherProcs(m, t, procs, i) by {
      forall j | 0 <= j < |procs| && j != i
        ensures procs[j].pgdir != p
      {
      }
    }
    StoredView(m, t, procs[i], v, bytes);
    if AllOpen(m, procs) {
      StoredOpen(m.mem, t.mem, p, v);
      OthersOpen(m, t, procs, procs, i);
    }
    hide Below, ViewOf, ViewSet, OtherProcs, AllOpen;
    ProcChanged(m, t, procs, i, procs[i]);
    assert procs[i := procs[i]] == procs;
  }

  lemma StoredView(m: Vm, t: Vm, p: Proc, v: nat, bytes: PageData)
    requires p.sz < KERNBASE && Below(m, p.pgdir, p.sz) && v < Up(p.sz) <= UPAGES
    requires ViewSet(m.mem, t.mem, p.pgdir, v, Entry(m.mem, p.pgdir, v)) && UserPage(t.mem, p.pgdir, v) == bytes
    ensures Below(t, p.pgdir, p.sz) && ViewOf(t, p) == ViewOf(m, p).(pages := ViewOf(m, p).pages[v := bytes])
  {
    hide Entry, UserPage;
    assert ViewOf(t, p).pages == ViewOf(m, p).pages[v := bytes];
  }

  lemma StoredOpen(mem: seq<Page>, mem': seq<Page>, p: nat, v: nat)
    requires OpenSpace(mem, p) && v < VPAGES && ViewSet(mem, mem', p, v, Entry(mem, p, v))
    ensures OpenSpace(mem', p)
  {
    hide Entry, UserPage;
  }

  method StoreByte(vm: Vm, procs: seq<Proc>, i: nat, addr: nat, b: byte) returns (t: Vm, r: Result)
    requires Ok(vm, procs) && i < |procs| && addr < VPAGES * PGSIZE
    ensures forall j :: 0 <= j < |procs| ==> procs[j].sz < KERNBASE
    ensures !r.Panicked? ==> Ok(t, procs) && Next(Views(vm, procs), Store(i, addr, b), r, Views(t, procs))
    ensures r.Panicked? <==>
              PGSIZE <= addr < procs[i].sz && vm.free != [] && Entry(vm.mem, procs[i].pgdir, Down(addr)).Present? &&
                               !Allows(Entry(vm.mem, procs[i].pgdir, Down(addr)), true)
    ensures PGSIZE <= addr < procs[i].sz && |vm.free| >= 2 && !r.Panicked? ==> r == Done
    ensures Down(addr) < UPAGES && Allows(Entry(vm.mem, procs[i].pgdir, Down(addr)), true) ==> r == Done
    ensures r.Done? && !(PGSIZE <= addr < procs[i].sz) ==>
              Down(addr) < UPAGES && Allows(Entry(vm.mem, procs[i].pgdir, Down(addr)), true)
    ensures !r.Panicked? ==> Roots(t) == Roots(vm) && Held(t) == Held(vm)
    ensures !r.Panicked? ==> |t.free| + 2 >= |vm.free| && (AllOpen(vm, procs) ==> AllOpen(t, procs))
  {
    hide Valid, Ok, Below, Entry, UserPage, ViewOf, Roots, Held, AllOpen;
    t, r := Access(vm, procs, i, addr, true);
    if !r.Done? { return; }
    var v := Down(addr);
    AllowedPage(t, procs, i, v);
    assert ViewOf(t, procs[i]) == Views(t, procs)[i] == ViewOf(vm, procs[i]);
    var f := Entry(t.mem, procs[i].pgdir, v).frame;
    var bytes: PageData := t.mem[f].bytes[addr % PGSIZE := b];
    StoreView(t, procs, i, v, bytes);
    t := t.(mem := t.mem[f := Data(bytes)]);
  }
}
