/** Runs of processes over lazily filled spaces, each step against the eager machine. */
module Machines {
  import opened Basics
  import opened Frames
  import opened PageTables
  import opened Spaces
  import opened KernelMap
  import opened Lazy
  import opened CopySpace
  import opened AddressSpaces

  ghost predicate ValidOp(op: Op) {
    match op
    case Grow(_, n) => -0x8000_0000 <= n < 0x8000_0000
    case Load(_, addr) => addr < VPAGES * PGSIZE
    case Store(_, addr, _) => addr < VPAGES * PGSIZE
    case _ => true
  }

  /** Every directory in use is that of a process. */
  ghost predicate Accounted(vm: Vm, procs: seq<Proc>) {
    Roots(vm) == set i | 0 <= i < |procs| :: procs[i].pgdir
  }

  lemma SameAccounted(vm: Vm, procs: seq<Proc>, t: Vm, ps: seq<Proc>)
    requires Accounted(vm, procs) && Roots(t) == Roots(vm)
    requires |ps| == |procs| && forall j :: 0 <= j < |ps| ==> ps[j].pgdir == procs[j].pgdir
    ensures Accounted(t, ps)
  {
    assert forall j :: 0 <= j < |ps| ==> ps[j].pgdir in Roots(vm);
  }

  lemma ForkAccounted(vm: Vm, procs: seq<Proc>, t: Vm, ps: seq<Proc>)
    requires Accounted(vm, procs) && |ps| == |procs| + 1 && ps[..|procs|] == procs
    requires Roots(t) == Roots(vm) + {ps[|procs|].pgdir}
    ensures Accounted(t, ps)
  {
    assert forall j :: 0 <= j < |procs| ==> ps[j] == procs[j];
  }

  lemma FreeAccounted(vm: Vm, procs: seq<Proc>, t: Vm, i: nat)
    requires Accounted(vm, procs) && Ok(vm, procs) && i < |procs| && Roots(t) == Roots(vm) - {procs[i].pgdir}
    ensures Accounted(t, procs[..i] + procs[i + 1..])
  {
    hide Valid, Below;
    var ps := procs[..i] + procs[i + 1..];
    forall f | f in Roots(t)
      ensures exists j :: 0 <= j < |ps| && ps[j].pgdir == f
    {
      var j :| 0 <= j < |procs| && procs[j].pgdir == f;
      assert ps[if j < i then j else j - 1] == procs[j];
    }
    forall j | 0 <= j < |ps|
      ensures ps[j].pgdir in Roots(t)
    {
      var k := if j < i then j else j + 1;
      assert ps[j] == procs[k] && procs[k].pgdir in Roots(vm) && procs[k].pgdir != procs[i].pgdir;
    }
  }

  // ---- why a step ends as it does ----

  /** The access that makes the kernel panic with "remap": a fault on a page that is present. */
  ghost predicate Remaps(vm: Vm, procs: seq<Proc>, op: Op) {
    && (op.Load? || op.Store?) && op.i < |procs| && PGSIZE <= op.addr < procs[op.i].sz < KERNBASE && vm.free != []
    && Entry(vm.mem, procs[op.i].pgdir, Down(op.addr)).Present?
    && !Allows(Entry(vm.mem, procs[op.i].pgdir, Down(op.addr)), op.Store?)
  }

  /** The page is there for the access. */
  ghost predicate Mapped(vm: Vm, procs: seq<Proc>, op: Op) {
    && (op.Load? || op.Store?) && op.i < |procs| && Down(op.addr) < UPAGES
    && Allows(Entry(vm.mem, procs[op.i].pgdir, Down(op.addr)), op.Store?)
  }

  /** The most frames that a step takes from the free list; with so many free it does not fail for want of
      memory. */
  function Cost(vs: seq<Eager>, op: Op): nat {
    if op.i >= |vs| then 0
    else
      match op
      case Grow(i, n) => GrowCost(vs[i].sz, n)
      case Fork(i) => 2 + ENTRIES + Up(vs[i].sz)
      case Free(i) => 0
      case Load(i, addr) => 2
      case Store(i, addr, b) => 2
  }

  /** A result other than success has its reason: a panic is a fault on a present page, growth and fork fail only
      when memory is short, and an access within the size is killed only then. */
  ghost predicate Explained(vm: Vm, procs: seq<Proc>, vs: seq<Eager>, op: Op, r: Result) {
    && (r.Panicked? <==> Remaps(vm, procs, op))
    && (op.i >= |procs| ==> r == Failed)
    && (op.i < |procs| ==>
          match op {
            case Grow(i, n) => r.Failed? && 0 < n < KERNBASE - procs[i].sz ==> |vm.free| < Cost(vs, op)
            case Fork(i) => r.Failed? ==> |vm.free| < Cost(vs, op)
            case Free(i) => r.Done?
            case Load(i, addr) =>
              && (PGSIZE <= addr < procs[i].sz && r.Killed? ==> |vm.free| < Cost(vs, op))
              && (Mapped(vm, procs, op) ==> r.Got?) &&
                 (r.Got? ==> Mapped(vm, procs, op) || PGSIZE <= addr < procs[i].sz)
            case Store(i, addr, b) =>
              && (PGSIZE <= addr < procs[i].sz && r.Killed? ==> |vm.free| < Cost(vs, op))
              && (Mapped(vm, procs, op) ==> r.Done?) &&
                 (r.Done? ==> Mapped(vm, procs, op) || PGSIZE <= addr < procs[i].sz)
          })
  }

  /** No process of an open machine makes the kernel panic. */
  lemma OpenNeverRemaps(vm: Vm, procs: seq<Proc>, op: Op)
    requires AllOpen(vm, procs)
    ensures !Remaps(vm, procs, op)
  {
    if (op.Load? || op.Store?) && op.i < |procs| { OpenAt(vm, procs, op.i); }
  }

  // ---- runs with enough memory ----

  /** What the eager machine, which never runs out of memory, does: every growth below KERNBASE and every fork
      succeeds, every load within the size returns the byte that is there, every store takes effect.  Page 0 and
      what lies beyond the size may be out of bounds. */
  ghost predicate Smooth(vs: seq<Eager>, op: Op, r: Result, vs': seq<Eager>) {
    op.i < |vs| ==>
      var e := vs[op.i];
      match op {
        case Grow(i, n) => 0 < n < KERNBASE - e.sz ==> r == Done && vs' == vs[i := Resize(e, e.sz + n)]
        case Fork(i) => r == Done && vs' == vs + [e]
        case Free(i) => r == Done && vs' == vs[..i] + vs[i + 1..]
        case Load(i, addr) =>
          PGSIZE <= addr < e.sz && Down(addr) < |e.pages| ==> r == Got(Byte(e, addr)) && vs' == vs
        case Store(i, addr, b) =>
          PGSIZE <= addr < e.sz && Down(addr) < |e.pages| ==> r == Done && vs' == vs[i := Write(e, addr, b)]
      }
  }

  lemma ExplainedIsSmooth(vm: Vm, procs: seq<Proc>, vs: seq<Eager>, op: Op, r: Result, vs': seq<Eager>)
    requires Explained(vm, procs, vs, op, r) && !r.Panicked? && |vm.free| >= Cost(vs, op)
    requires |vs| == |procs| && (forall i :: 0 <= i < |vs| ==> vs[i].sz == procs[i].sz) && Next(vs, op, r, vs')
    ensures Smooth(vs, op, r, vs')
  {
    hide Mapped, Remaps, Resize, Write, Byte;
  }

  /** Frames that the first `k` steps may take. */
  ghost function Spent(trace: seq<seq<Eager>>, ops: seq<Op>, k: nat): nat
    requires k <= |ops| && k <= |trace|
  {
    if k == 0 then 0 else Spent(trace, ops, k - 1) + Cost(trace[k - 1], ops[k - 1])
  }

  lemma {:induction false} SpentGrows(trace: seq<seq<Eager>>, ops: seq<Op>, j: nat, k: nat)
    requires j <= k <= |ops| && k <= |trace|
    ensures Spent(trace, ops, j) <= Spent(trace, ops, k)
    decreases k
  {
    if j < k { SpentGrows(trace, ops, j, k - 1); }
  }

  lemma {:induction false} SpentPrefix(trace: seq<seq<Eager>>, more: seq<Eager>, ops: seq<Op>, k: nat)
    requires k <= |ops| && k <= |trace|
    ensures Spent(trace + [more], ops, k) == Spent(trace, ops, k)
  {
    if k > 0 { SpentPrefix(trace, more, ops, k - 1); }
  }

  /** The states of a run, step by step. */
  datatype Snapshot = Snapshot(vm: Vm, procs: seq<Proc>)

  /** A run of the machine: `states` and `trace` are its states and what they show, `rs` the results of its steps.
      Each step is one the machine can take and has its reason, and takes no more frames than its cost. */
  ghost predicate IsRun(states: seq<Snapshot>, trace: seq<seq<Eager>>, ops: seq<Op>, rs: seq<Result>) {
    && |states| == |trace| == |rs| + 1 && |rs| <= |ops|
    && (forall k :: 0 <= k < |states| ==> SnapshotOk(states[k], trace[k]))
    && (forall k :: 0 <= k < |rs| ==> StepOk(states[k], trace[k], ops[k], rs[k], states[k + 1], trace[k + 1]))
  }

  ghost predicate Sound(vm: Vm, procs: seq<Proc>) {
    Ok(vm, procs) && Accounted(vm, procs) && forall i :: 0 <= i < |procs| ==> procs[i].sz < KERNBASE
  }

  ghost predicate SnapshotOk(s: Snapshot, vs: seq<Eager>) { Sound(s.vm, s.procs) && vs == Views(s.vm, s.procs) }

  ghost predicate StepOk(a: Snapshot, vs: seq<Eager>, op: Op, r: Result, b: Snapshot, vs': seq<Eager>) {
    && !r.Panicked? && Next(vs, op, r, vs') && Explained(a.vm, a.procs, vs, op, r)
    && |b.vm.free| + Cost(vs, op) >= |a.vm.free| && Held(b.vm) == Held(a.vm)
    && (AllOpen(a.vm, a.procs) ==> AllOpen(b.vm, b.procs))
  }

  lemma {:induction false} FramesLeft(states: seq<Snapshot>, trace: seq<seq<Eager>>, ops: seq<Op>, rs: seq<Result>,
                                      k: nat)
    requires IsRun(states, trace, ops, rs) && k <= |rs|
    ensures |states[k].vm.free| + Spent(trace, ops, k) >= |states[0].vm.free|
    ensures Held(states[k].vm) == Held(states[0].vm)
    ensures AllOpen(states[0].vm, states[0].procs) ==> AllOpen(states[k].vm, states[k].procs)
  {
    hide Next, Explained, Cost, AllOpen, SnapshotOk, Held;
    if k > 0 {
      FramesLeft(states, trace, ops, rs, k - 1);
      assert StepOk(states[k - 1], trace[k - 1], ops[k - 1], rs[k - 1], states[k], trace[k]);
    }
  }

  /** Lazy allocation shows nothing: a run of a machine with enough memory is, step by step, the run of the eager
      machine. */
  lemma RunIsSmooth(states: seq<Snapshot>, trace: seq<seq<Eager>>, ops: seq<Op>, rs: seq<Result>, k: nat)
    requires IsRun(states, trace, ops, rs) && k < |rs| && Spent(trace, ops, |rs|) <= |states[0].vm.free|
    ensures Next(trace[k], ops[k], rs[k], trace[k + 1]) && Smooth(trace[k], ops[k], rs[k], trace[k + 1])
  {
    hide *;
    StepAt(states, trace, ops, rs, k);
    FramesLeft(states, trace, ops, rs, k);
    SpentGrows(trace, ops, k + 1, |rs|);
    SpentNext(trace, ops, k);
    ExplainedIsSmooth(states[k].vm, states[k].procs, trace[k], ops[k], rs[k], trace[k + 1]);
  }

  lemma SpentNext(trace: seq<seq<Eager>>, ops: seq<Op>, k: nat)
    requires k < |ops| && k < |trace|
    ensures Spent(trace, ops, k + 1) == Spent(trace, ops, k) + Cost(trace[k], ops[k])
  {}

  lemma StepAt(states: seq<Snapshot>, trace: seq<seq<Eager>>, ops: seq<Op>, rs: seq<Result>, k: nat)
    requires IsRun(states, trace, ops, rs) && k < |rs|
    ensures |states| == |trace| == |rs| + 1 && |rs| <= |ops|
    ensures !rs[k].Panicked? && Next(trace[k], ops[k], rs[k], trace[k + 1])
    ensures Explained(states[k].vm, states[k].procs, trace[k], ops[k], rs[k])
    ensures |trace[k]| == |states[k].procs| &&
            forall i :: 0 <= i < |trace[k]| ==> trace[k][i].sz == states[k].procs[i].sz
  {
    hide Next, Explained, Cost, AllOpen, Ok, Accounted, ViewOf;
    assert StepOk(states[k], trace[k], ops[k], rs[k], states[k + 1], trace[k + 1]) && SnapshotOk(states[k], trace[k]);
  }

  // ---- the machine ----

  lemma ViewSizes(vm: Vm, procs: seq<Proc>)
    requires forall i :: 0 <= i < |procs| ==> procs[i].sz < KERNBASE
    ensures |Views(vm, procs)| == |procs| && forall i :: 0 <= i < |procs| ==> Views(vm, procs)[i].sz == procs[i].sz
  {}

  lemma Reason(vm: Vm, procs: seq<Proc>, vs: seq<Eager>, op: Op, r: Result)
    requires Explained(vm, procs, vs, op, r)
    ensures r.Panicked? <==> Remaps(vm, procs, op)
  {}

  lemma RunGrows(states: seq<Snapshot>, trace: seq<seq<Eager>>, ops: seq<Op>, rs: seq<Result>, s: Snapshot, r: Result)
    requires IsRun(states, trace, ops, rs) && |rs| < |ops| && !r.Panicked?
    requires var u := states[|rs|];
             && Explained(u.vm, u.procs, trace[|rs|], ops[|rs|], r) &&
                Performed(u.vm, u.procs, s.vm, s.procs, ops[|rs|], r)
    ensures IsRun(states + [s], trace + [Views(s.vm, s.procs)], ops, rs + [r])
  {
    var vs := Views(s.vm, s.procs);
    assert SnapshotOk(states[|rs|], trace[|rs|]) && SnapshotOk(s, vs);
    assert StepOk(states[|rs|], trace[|rs|], ops[|rs|], r, s, vs);
    hide StepOk, SnapshotOk, Performed, Explained;
    AppendStep(states, trace, ops, rs, s, vs, r);
  }

  lemma AppendStep(states: seq<Snapshot>, trace: seq<seq<Eager>>, ops: seq<Op>, rs: seq<Result>,
                   s: Snapshot, vs: seq<Eager>, r: Result)
    requires IsRun(states, trace, ops, rs) && |rs| < |ops| && SnapshotOk(s, vs)
    requires StepOk(states[|rs|], trace[|rs|], ops[|rs|], r, s, vs)
    ensures IsRun(states + [s], trace + [vs], ops, rs + [r])
  {
    hide StepOk, SnapshotOk;
  }

  /** A new space `d` with `page` at address 0 and no other user page. */
  ghost predicate FirstMade(m: Vm, t: Vm, d: nat, page: PageData) {
    match t case Vm(_, mem, _, _) =>
    && NewSpace(m, t, d) && UserPage(mem, d, 0) == page && OpenSpace(mem, d)
    && forall v :: 1 <= v < UPAGES ==> Entry(mem, d, v) == Absent
  }

  lemma MadeFirst(m: Vm, s: Vm, u: Vm, t: Vm, d: nat, e: Pte, page: PageData, kmap: seq<KRange>)
    requires NewSpace(m, s, d) && KernelView(s, d, kmap, |kmap|) && ValidKmap(kmap) && e.Present? && e.w && e.u
    requires Fetched(s, u, e.frame, page) && EntryMapped(u, t, d, 0, e)
    ensures FirstMade(m, t, d, page)
  {
    CopiedSpace(m, s, u, t, d, 0, e, page);
    NewSpaceValid(m, s, d);
    FetchedViews(s, u, d, e.frame, page);
    FetchedData(s, u, e.frame, page);
    NoUserPages(s, d, kmap);
    hide NewSpace, Fetched, KernelView, ValidKmap;
    FirstEntries(s, u, t, d, e);
  }

  lemma FirstEntries(s: Vm, u: Vm, t: Vm, d: nat, e: Pte)
    requires e.Present? && e.w && e.u && EntryMapped(u, t, d, 0, e)
    requires forall w :: 0 <= w < VPAGES ==> Entry(u.mem, d, w) == Entry(s.mem, d, w)
    requires forall v :: 0 <= v < UPAGES ==> Entry(s.mem, d, v) == Absent
    ensures OpenSpace(t.mem, d) && (forall v :: 1 <= v < UPAGES ==> Entry(t.mem, d, v) == Absent)
    ensures e.frame < |u.mem| && u.mem[e.frame].Data? && UserPage(t.mem, d, 0) == u.mem[e.frame].bytes
  {
    hide Entry, UserPage, OthersKept, OwnersSet, Valid;
  }

  /** `setupkvm` and `inituvm` for the first process.  Without memory for it the kernel cannot go on. */
  method FirstSpace(vm: Vm, kmap: seq<KRange>, page: PageData) returns (t: Vm, d: nat)
    requires Valid(vm) && ValidKmap(kmap)
    ensures d != 0 ==> FirstMade(vm, t, d, page)
    ensures d == 0 ==> |vm.free| <= 2 + ENTRIES
  {
    hide Valid, NewSpace, KernelView, Returned, Fetched, EntryMapped, Mappable, Entry, FirstMade;
    t, d := SetupKvm(vm, kmap);
    if d == 0 { return; }
    ghost var s := t;
    NewSpaceValid(vm, s, d);
    var f, k;
    t, f := KallocWith(t, page);
    if f == 0 { return t, 0; }
    ghost var u := t;
    FetchedMaps(s, u, d, 0, Present(f, true, true), page);
    FetchedTables(s, u, f, page, d);
    assert Entry(s.mem, d, 0) == Absent by { NoUserPages(s, d, kmap); }
    t, k := MapPages(t, d, 0, PGSIZE, f, true, true);
    if k.NoMemory? { return t, 0; }
    MadeFirst(vm, s, u, t, d, Present(f, true, true), page, kmap);
  }

  lemma NoUserPages(s: Vm, d: nat, kmap: seq<KRange>)
    requires KernelView(s, d, kmap, |kmap|) && ValidKmap(kmap)
    ensures forall v :: 0 <= v < UPAGES ==> Entry(s.mem, d, v) == Absent
  {
    hide Entry, KernelEntry;
    forall v: nat | v < UPAGES
      ensures Entry(s.mem, d, v) == Absent
    {
      NoKernelBelow(kmap, |kmap|, v);
    }
  }

  lemma FirstView(m: Vm, t: Vm, d: nat, page: PageData)
    requires FirstMade(m, t, d, page)
    ensures Below(t, d, PGSIZE) && ViewOf(t, Proc(d, PGSIZE)) == Eager(PGSIZE, [page]) && IsSpace(t, d) &&
            OpenSpace(t.mem, d)
  {
    hide Entry, UserPage, Valid, SameSpace;
    assert Up(PGSIZE) == 1;
    assert ViewOf(t, Proc(d, PGSIZE)).pages == [page];
  }

  lemma FirstSound(m: Vm, procs: seq<Proc>, t: Vm, d: nat, page: PageData)
    requires Sound(m, procs) && FirstMade(m, t, d, page)
    ensures Sound(t, procs + [Proc(d, PGSIZE)]) && Held(t) == Held(m)
    ensures Views(t, procs + [Proc(d, PGSIZE)]) == Views(m, procs) + [Eager(PGSIZE, [page])]
    ensures AllOpen(m, procs) ==> AllOpen(t, procs + [Proc(d, PGSIZE)])
  {
    FirstView(m, t, d, page);
    FirstMakes(m, t, d, page);
    hide Ok, Below, ViewOf, Views, NewSpace, FirstMade, AllOpen, OpenSpace, Roots, Held, IsSpace;
    NewProcs(m, t, procs, d);
    NewAccounts(m, t, d);
    OneMore(t, procs, Proc(d, PGSIZE));
    ForkAccounted(m, procs, t, procs + [Proc(d, PGSIZE)]);
    if AllOpen(m, procs) { NewOpen(m, t, procs, d, PGSIZE); }
  }

  lemma FirstMakes(m: Vm, t: Vm, d: nat, page: PageData)
    requires FirstMade(m, t, d, page)
    ensures NewSpace(m, t, d)
  {}

  /** What a step leaves. */
  ghost predicate Performed(vm: Vm, procs: seq<Proc>, t: Vm, ps: seq<Proc>, op: Op, r: Result) {
    && Sound(vm, procs) && Sound(t, ps) && Next(Views(vm, procs), op, r, Views(t, ps)) && Held(t) == Held(vm)
    && |t.free| + Cost(Views(vm, procs), op) >= |vm.free| && (AllOpen(vm, procs) ==> AllOpen(t, ps))
  }

  /** `growproc` as a step. */
  method DoGrow(vm: Vm, procs: seq<Proc>, i: nat, n: int) returns (t: Vm, ps: seq<Proc>, r: Result)
    requires Sound(vm, procs) && i < |procs| && ValidOp(Grow(i, n))
    ensures Explained(vm, procs, Views(vm, procs), Grow(i, n), r)
    ensures !r.Panicked? ==> Performed(vm, procs, t, ps, Grow(i, n), r)
  {
    hide Ok, Accounted, Views, Roots, Held, AllOpen, Entry, Explained;
    ViewSizes(vm, procs);
    t, ps, r := GrowProc(vm, procs, i, n);
    SameAccounted(vm, procs, t, ps);
    ExplainGrow(vm, procs, Views(vm, procs), i, n, r);
  }

  /** The address space of `fork` as a step. */
  method DoFork(vm: Vm, procs: seq<Proc>, i: nat, kmap: seq<KRange>) returns (t: Vm, ps: seq<Proc>, r: Result)
    requires Sound(vm, procs) && i < |procs| && ValidKmap(kmap)
    ensures Explained(vm, procs, Views(vm, procs), Fork(i), r)
    ensures !r.Panicked? ==> Performed(vm, procs, t, ps, Fork(i), r)
  {
    hide Ok, Accounted, Views, Roots, Held, AllOpen, Entry, Explained;
    ViewSizes(vm, procs);
    t, ps, r := ForkSpace(vm, procs, i, kmap);
    if r.Done? { ForkAccounted(vm, procs, t, ps); } else { SameAccounted(vm, procs, t, ps); }
    ExplainFork(vm, procs, Views(vm, procs), i, r);
  }

  /** The reaping of an address space as a step. */
  method DoFree(vm: Vm, procs: seq<Proc>, i: nat) returns (t: Vm, ps: seq<Proc>, r: Result)
    requires Sound(vm, procs) && i < |procs|
    ensures Explained(vm, procs, Views(vm, procs), Free(i), r)
    ensures !r.Panicked? ==> Performed(vm, procs, t, ps, Free(i), r)
  {
    hide Ok, Accounted, Views, Roots, Held, AllOpen, Entry, Explained;
    ViewSizes(vm, procs);
    t, ps, r := FreeSpace(vm, procs, i);
    FreeAccounted(vm, procs, t, i);
    ExplainFree(vm, procs, Views(vm, procs), i, r);
  }

  /** A load as a step. */
  method DoLoad(vm: Vm, procs: seq<Proc>, i: nat, addr: nat) returns (t: Vm, ps: seq<Proc>, r: Result)
    requires Sound(vm, procs) && i < |procs| && ValidOp(Load(i, addr))
    ensures Explained(vm, procs, Views(vm, procs), Load(i, addr), r)
    ensures !r.Panicked? ==> Performed(vm, procs, t, ps, Load(i, addr), r)
  {
    hide Ok, Accounted, Views, Roots, Held, AllOpen, Entry, Explained;
    ViewSizes(vm, procs);
    ps := procs;
    t, r := LoadByte(vm, procs, i, addr);
    if !r.Panicked? { SameAccounted(vm, procs, t, ps); }
    ExplainAccess(vm, procs, Views(vm, procs), Load(i, addr), r);
  }

  /** A store as a step. */
  method DoStore(vm: Vm, procs: seq<Proc>, i: nat, addr: nat, b: byte) returns (t: Vm, ps: seq<Proc>, r: Result)
    requires Sound(vm, procs) && i < |procs| && ValidOp(Store(i, addr, b))
    ensures Explained(vm, procs, Views(vm, procs), Store(i, addr, b), r)
    ensures !r.Panicked? ==> Performed(vm, procs, t, ps, Store(i, addr, b), r)
  {
    hide Ok, Accounted, Views, Roots, Held, AllOpen, Entry, Explained;
    ViewSizes(vm, procs);
    ps := procs;
    t, r := StoreByte(vm, procs, i, addr, b);
    if !r.Panicked? { SameAccounted(vm, procs, t, ps); }
    ExplainAccess(vm, procs, Views(vm, procs), Store(i, addr, b), r);
  }

  /** One step of any process. */
  method Perform(vm: Vm, procs: seq<Proc>, kmap: seq<KRange>, op: Op) returns (t: Vm, ps: seq<Proc>, r: Result)
    requires Sound(vm, procs) && ValidOp(op) && ValidKmap(kmap)
    ensures Explained(vm, procs, Views(vm, procs), op, r)
    ensures !r.Panicked? ==> Performed(vm, procs, t, ps, op, r)
  {
    hide Ok, Accounted, Views, AllOpen, Explained, Performed;
    if op.i >= |procs| {
      NobodyThere(vm, procs, op);
      return vm, procs, Failed;
    }
    match op {
      case Grow(i, n) => t, ps, r := DoGrow(vm, procs, i, n);
      case Fork(i) => t, ps, r := DoFork(vm, procs, i, kmap);
      case Free(i) => t, ps, r := DoFree(vm, procs, i);
      case Load(i, addr) => t, ps, r := DoLoad(vm, procs, i, addr);
      case Store(i, addr, b) => t, ps, r := DoStore(vm, procs, i, addr, b);
    }
  }

  lemma NobodyThere(vm: Vm, procs: seq<Proc>, op: Op)
    requires Sound(vm, procs) && op.i >= |procs|
    ensures Explained(vm, procs, Views(vm, procs), op, Failed) && Performed(vm, procs, vm, procs, op, Failed)
  {
    hide Ok, Accounted, AllOpen, Entry, Held;
  }

  lemma ExplainGrow(vm: Vm, procs: seq<Proc>, vs: seq<Eager>, i: nat, n: int, r: Result)
    requires i < |procs| == |vs| && vs[i].sz == procs[i].sz && !r.Panicked?
    requires r.Failed? && 0 < n < KERNBASE - procs[i].sz ==>
               LooksLikeStack(procs[i].sz, procs[i].sz + n) && |vm.free| < 2 * (Up(procs[i].sz + n) - Up(procs[i].sz))
    ensures Explained(vm, procs, vs, Grow(i, n), r)
  {}

  lemma ExplainFork(vm: Vm, procs: seq<Proc>, vs: seq<Eager>, i: nat, r: Result)
    requires i < |procs| == |vs| && vs[i].sz == procs[i].sz && !r.Panicked?
    requires r.Failed? ==> |vm.free| <= 1 + ENTRIES + Up(procs[i].sz)
    ensures Explained(vm, procs, vs, Fork(i), r)
  {}

  lemma ExplainFree(vm: Vm, procs: seq<Proc>, vs: seq<Eager>, i: nat, r: Result)
    requires i < |procs| == |vs| && r.Done?
    ensures Explained(vm, procs, vs, Free(i), r)
  {}

  lemma ExplainAccess(vm: Vm, procs: seq<Proc>, vs: seq<Eager>, op: Op, r: Result)
    requires (op.Load? || op.Store?) && op.i < |procs| == |vs| && procs[op.i].sz < KERNBASE
    requires r.Panicked? <==> Remaps(vm, procs, op)
    requires PGSIZE <= op.addr < procs[op.i].sz && |vm.free| >= 2 && !r.Panicked? ==>
               if op.Load? then r.Got? else r.Done?
    requires Mapped(vm, procs, op) ==> if op.Load? then r.Got? else r.Done?
    requires r.Got? || r.Done? ==> Mapped(vm, procs, op) || PGSIZE <= op.addr < procs[op.i].sz
    ensures Explained(vm, procs, vs, op, r)
  {
    hide Mapped, Remaps;
  }

  /** `freerange`: every frame from `first` on is freed in turn. */
  method FreeRange(first: nat, n: nat) returns (vm: Vm)
    requires 0 < first <= n
    ensures Valid(vm) && vm.first == first && |vm.mem| == n && vm.owner == map[] && |vm.free| == n - first
  {
    var mem, free: seq<nat> := seq(n, _ => Junk), [];
    var f := first;
    while f < n
      invariant first <= f <= n && |free| == f - first && forall k :: 0 <= k < |free| ==> free[k] == f - 1 - k
    {
      free := [f] + free;
      f := f + 1;
    }
    vm := Vm(first, mem, free, map[]);
    forall g | first <= g < n
      ensures g in free
    {
      assert free[n - 1 - g] == g;
    }
  }

  /** The physical memory and the processes. */
  class Machine {
    const kmap: seq<KRange>
    var vm: Vm
    var procs: seq<Proc>

    ghost predicate Good()
      reads this
    {
      ValidKmap(kmap) && Sound(vm, procs)
    }

    ghost function All(): seq<Eager>
      requires Good()
      reads this
    {
      Views(vm, procs)
    }

    ghost predicate Open()
      reads this
    {
      AllOpen(vm, procs)
    }

    /** `kinit1` and `kinit2`: no process yet, and all memory free. */
    constructor (kmap: seq<KRange>, first: nat, n: nat)
      requires ValidKmap(kmap) && 0 < first <= n
      ensures Good() && Open() && procs == [] && |vm.free| == n - first && Held(vm) == {}
    {
      var m := FreeRange(first, n);
      this.kmap, vm, procs := kmap, m, [];
    }

    /** `userinit`: the first process gets one page with the initial program.  It panics only when memory is
        short. */
    method UserInit(page: PageData) returns (ok: bool)
      requires Good()
      modifies `vm, `procs
      ensures !ok ==> |old(vm.free)| <= 2 + ENTRIES && vm == old(vm) && procs == old(procs)
      ensures Good() && Held(vm) == old(Held(vm)) && (old(Open()) ==> Open())
      ensures ok ==> |procs| == |old(procs)| + 1 && procs[..|old(procs)|] == old(procs)
      ensures ok ==> All() == old(All()) + [Eager(PGSIZE, [page])]
    {
      OkMeans(vm, procs);
      hide Ok, Accounted, Views, Roots, Held, AllOpen, FirstMade;
      var t, d := FirstSpace(vm, kmap, page);
      ok := d != 0;
      if ok {
        FirstSound(vm, procs, t, d, page);
        vm, procs := t, procs + [Proc(d, PGSIZE)];
      }
    }

    /** One step of any process: it shows what the eager machine shows, a failure or a panic has its reason, and
        every frame is accounted for. */
    method Do(op: Op) returns (r: Result)
      requires Good() && ValidOp(op)
      modifies `vm, `procs
      ensures Explained(old(vm), old(procs), old(All()), op, r)
      ensures !r.Panicked? ==> Good() && Performed(old(vm), old(procs), vm, procs, op, r)
    {
      var t, ps;
      t, ps, r := Perform(vm, procs, kmap, op);
      vm, procs := t, ps;
    }

    /** A whole run.  It goes on to its end unless a step faults on a present page, which no step does if all pages
        are open to their users; and with enough memory it is the run of the eager machine. */
    method Run(ops: seq<Op>) returns (rs: seq<Result>, ghost states: seq<Snapshot>, ghost trace: seq<seq<Eager>>)
      requires Good() && forall k :: 0 <= k < |ops| ==> ValidOp(ops[k])
      modifies `vm, `procs
      ensures IsRun(states, trace, ops, rs) && states[0] == Snapshot(old(vm), old(procs)) && trace[0] == old(All())
      ensures |rs| < |ops| ==> Remaps(states[|rs|].vm, states[|rs|].procs, ops[|rs|])
      ensures |rs| == |ops| ==> Good() && Snapshot(vm, procs) == states[|rs|] && Held(vm) == old(Held(vm))
      ensures old(Open()) ==> |rs| == |ops| && Open()
      ensures Spent(trace, ops, |rs|) <= |old(vm.free)| ==>
                forall k :: 0 <= k < |rs| ==> Smooth(trace[k], ops[k], rs[k], trace[k + 1])
    {
      hide Ok, Accounted, Views, Held, Next, Explained, Cost, AllOpen, Remaps, Smooth;
      rs, states, trace := [], [Snapshot(vm, procs)], [All()];
      while |rs| < |ops|
        invariant |rs| <= |ops| && IsRun(states, trace, ops, rs) && Good()
        invariant states[|rs|] == Snapshot(vm, procs) && trace[|rs|] == All()
        invariant states[0] == Snapshot(old(vm), old(procs)) && trace[0] == old(All())
        decreases |ops| - |rs|
      {
        ghost var was := Snapshot(vm, procs);
        var r := Do(ops[|rs|]);
        Reason(was.vm, was.procs, trace[|rs|], ops[|rs|], r);
        FramesLeft(states, trace, ops, rs, |rs|);
        if r.Panicked? {
          if old(Open()) { OpenNeverRemaps(was.vm, was.procs, ops[|rs|]); }
          break;
        }
        RunGrows(states, trace, ops, rs, Snapshot(vm, procs), r);
        rs, states, trace := rs + [r], states + [Snapshot(vm, procs)], trace + [All()];
      }
      FramesLeft(states, trace, ops, rs, |rs|);
      forall k | 0 <= k < |rs| && Spent(trace, ops, |rs|) <= |states[0].vm.free|
        ensures Smooth(trace[k], ops[k], rs[k], trace[k + 1])
      {
        RunIsSmooth(states, trace, ops, rs, k);
      }
    }
  }
}
