/** How large the log area and the cache have to be: the runs that go wrong otherwise, or without the budgets. */
module LogSize {
  import opened Basics
  import opened Blocks
  import opened LogDisk
  import opened LogProtocol
  import opened LogTheorems
  import opened LogBuffers
  import opened LogFill

  // ---- the panic of log_write ----

  /** The area is too small for the array, and the cache large enough for the list to reach its end. */
  predicate TooBigReachable(g: Geometry) { g.size <= LOGSIZE && 1 <= g.nbuf && g.size - 1 <= g.nbuf }

  lemma SmallLogPanics(g: Geometry, d: Disk, blocks: seq<nat>) returns (es: seq<Event>)
    requires ValidDisk(g, d) && Homes(g, blocks) && TooBigReachable(g)
    ensures FillRun(g, d, es) && Exec(g, InitState(d), es).fate == TooBig
  {
    var n := g.size - 1;
    var b := if n == 0 then blocks[n] else blocks[0];
    var fs := Fill(g, d, blocks, n, d[0]);
    var s := Exec(g, InitState(d), fs);
    PanicsHere(g, d, s, blocks, n, d[0], b);
    hide Filled, Readable, Enabled, Disciplined, TestStep, FillRun, Exec, Next, Turn;
    FilledReadable(g, d, s, blocks, n, d[0]);
    NextTest(g, s, Turn(n), b, d[0]);
    es := Extended(g, d, fs, LogTest(Turn(n), b, d[0]), TestStep(g, s, Turn(n), b, d[0]));
  }

  lemma PanicsHere(g: Geometry, d: Disk, s: State, blocks: seq<nat>, n: nat, data: Block, b: nat)
    requires Homes(g, blocks) && Filled(g, d, s, blocks, n, data) && s.pending == map[] && n == g.size - 1 < LOGSIZE
    requires 1 <= g.nbuf && n <= g.nbuf && IsHome(g, b) && (n == 0 || b in blocks[..n])
    ensures Enabled(g, s, LogTest(Turn(n), b, data)) && Disciplined(s, LogTest(Turn(n), b, data))
    ensures TestStep(g, s, Turn(n), b, data).fate == TooBig
  {
    hide Room;
    ShareLeft(n, n);
    ListedRoom(g, d, s, blocks, n, data, b);
    hide FilledPast;
  }

  /** A block that is listed needs no new buffer. */
  lemma ListedRoom(g: Geometry, d: Disk, s: State, blocks: seq<nat>, n: nat, data: Block, b: nat)
    requires Homes(g, blocks) && Filled(g, d, s, blocks, n, data) && s.pending == map[]
    requires 1 <= g.nbuf && n <= g.nbuf && (n == 0 || b in blocks[..n])
    ensures Room(g, s, b, b)
  {
    hide Filled, Bufs;
    FilledBufs(g, d, s, blocks, n, data);
    assert PendingBlocks(s.pending) == {};
    hide PendingBlocks;
    DistinctCard(blocks[..n]);
    ListedNoMore(Bufs(s), blocks[..n], b);
  }

  lemma ListedNoMore(bufs: set<nat>, lh: seq<nat>, b: nat)
    requires bufs == Elems(lh) && |bufs| == |lh| && (lh == [] || b in lh)
    ensures |bufs + {b, b}| <= if lh == [] then 1 else |lh|
  {
    if lh == [] { assert bufs + {b, b} == {b}; } else { assert bufs + {b, b} == bufs; }
  }

  /** A list never has more blocks than there are buffers. */
  lemma ListWithinCache(g: Geometry, s: State)
    requires CacheInv(g, s) && s.phase.Running?
    ensures |s.lh| <= g.nbuf
  {
    DistinctCard(s.lh);
    AtMost(Elems(s.lh), Bufs(s));
  }

  lemma NotTooBig(g: Geometry, s: State, e: Event)
    requires Readable(g, s) && OpsInv(s) && Reserved(s) && CacheInv(g, s) && Enabled(g, s, e) && Disciplined(s, e)
    requires !TooBigReachable(g) && s.fate != TooBig
    ensures Next(g, s, e).fate != TooBig
  {
    hide Readable, OpsInv, Reserved, CacheInv, TestStep, Next, TooBigReachable;
    if e.LogTest? {
      EndsRunning(s, e.op);
      RoomLeft(s, e.op);
      ListWithinCache(g, s);
      TestNotTooBig(g, s, e.op, e.block, e.data);
      NextTest(g, s, e.op, e.block, e.data);
    } else {
      OtherNotTooBig(g, s, e);
    }
  }

  lemma OtherNotTooBig(g: Geometry, s: State, e: Event)
    requires Readable(g, s) && Enabled(g, s, e) && !e.LogTest? && s.fate != TooBig
    ensures Next(g, s, e).fate != TooBig
  {
    hide Readable, Room, EncodeHeader, DecodeHeader, Bread;
  }

  lemma TestNotTooBig(g: Geometry, s: State, op: nat, b: nat, data: Block)
    requires |s.lh| < LOGSIZE && |s.lh| <= g.nbuf && !TooBigReachable(g) && s.fate != TooBig
    ensures TestStep(g, s, op, b, data).fate != TooBig
  {
    if g.nbuf == 0 { NoRoom(g, s, b); }
    hide Room;
  }

  lemma NoRoom(g: Geometry, s: State, b: nat)
    requires g.nbuf == 0
    ensures !Room(g, s, b, b)
  {
    hide Bufs;
    assert b in Bufs(s) + {b, b};
  }

  ghost predicate Modest(g: Geometry, s: State) { OpsInv(s) && Reserved(s) && CacheInv(g, s) && !s.overrun }

  lemma ModestStep(g: Geometry, s: State, e: Event)
    requires Readable(g, s) && Modest(g, s) && Enabled(g, s, e) && Disciplined(s, e)
    ensures Modest(g, Next(g, s, e))
    ensures !TooBigReachable(g) && s.fate != TooBig ==> Next(g, s, e).fate != TooBig
  {
    hide Readable, OpsInv, Reserved, CacheInv, Enabled, Disciplined, Next, TooBigReachable;
    StepKeepsOps(g, s, e);
    StepKeepsReserved(g, s, e);
    StepKeepsCache(g, s, e);
    if !TooBigReachable(g) && s.fate != TooBig { NotTooBig(g, s, e); }
  }

  lemma {:induction false} ModestRun(g: Geometry, s: State, es: seq<Event>)
    requires Modest(g, s) && DisciplinedRun(g, s, es)
    ensures ValidRun(g, s, es) && Modest(g, Exec(g, s, es))
    ensures !TooBigReachable(g) && s.fate != TooBig ==> Exec(g, s, es).fate != TooBig
    decreases |es|
  {
    hide Modest, Readable, Enabled, Disciplined, Next, TooBigReachable;
    if es != [] {
      ModestStep(g, s, es[0]);
      ModestRun(g, Next(g, s, es[0]), es[1..]);
    }
  }

  lemma InitModest(g: Geometry, d: Disk)
    ensures Modest(g, InitState(d))
  {
    InitBounded(g, d);
    EmptyUnspent(0);
    hide CacheInv, AreaInv;
  }

  /** The panic "too big a transaction" is out of reach of operations within their budgets exactly when the
      log area has more than LOGSIZE blocks, or the cache is too small for the list to reach its end. */
  lemma LogSizeExact(g: Geometry, d: Disk, blocks: seq<nat>)
    requires ValidDisk(g, d) && Homes(g, blocks)
    ensures (forall es :: DisciplinedRun(g, InitState(d), es) ==>
               ValidRun(g, InitState(d), es) && Exec(g, InitState(d), es).fate != TooBig)
        <==> !TooBigReachable(g)
  {
    if TooBigReachable(g) {
      var es := SmallLogPanics(g, d, blocks);
    } else {
      forall es | DisciplinedRun(g, InitState(d), es)
        ensures ValidRun(g, InitState(d), es) && Exec(g, InitState(d), es).fate != TooBig
      {
        InitModest(g, d);
        ModestRun(g, InitState(d), es);
      }
    }
  }

  /** In a large log too `log_write` panics on a full list before it looks for absorption: three operations that
      together list LOGSIZE blocks, ten each, panic when one of them logs a listed block again. */
  lemma AbsorptionCanPanic(g: Geometry, d: Disk, blocks: seq<nat>) returns (es: seq<Event>)
    requires ValidDisk(g, d) && Homes(g, blocks) && g.size > LOGSIZE && g.nbuf >= LOGSIZE
    ensures ValidRun(g, InitState(d), es)
    ensures var s := Exec(g, InitState(d), es);
            s.fate == TooBig && s.lh == blocks && forall op :: op in s.used ==> s.used[op] <= MAXOPBLOCKS
  {
    var fs := Fill(g, d, blocks, LOGSIZE, d[0]);
    var s := Exec(g, InitState(d), fs);
    assert blocks[..LOGSIZE] == blocks;
    FullPanics(g, d, s, blocks, d[0]);
    hide Filled, Readable, Enabled, TestStep, Next;
    FilledReadable(g, d, s, blocks, LOGSIZE, d[0]);
    NextTest(g, s, 0, blocks[0], d[0]);
    AppendRun(g, InitState(d), fs, LogTest(0, blocks[0], d[0]));
    es := fs + [LogTest(0, blocks[0], d[0])];
  }

  lemma FullPanics(g: Geometry, d: Disk, s: State, blocks: seq<nat>, data: Block)
    requires Homes(g, blocks) && Filled(g, d, s, blocks, LOGSIZE, data) && s.pending == map[] && g.nbuf >= LOGSIZE
    ensures Enabled(g, s, LogTest(0, blocks[0], data))
    ensures var t := TestStep(g, s, 0, blocks[0], data);
            && t.fate == TooBig && t.lh == blocks[..LOGSIZE]
            && forall op :: op in t.used ==> t.used[op] <= MAXOPBLOCKS
  {
    hide Room;
    assert blocks[..LOGSIZE][0] == blocks[0];
    ListedRoom(g, d, s, blocks, LOGSIZE, data, blocks[0]);
    hide FilledPast;
  }

  // ---- the array ----

  /** Without the budgets, and with more buffers than the array has places, the array overruns: three operations pass
      the test at 28 blocks, and one of them has used up its ten. */
  lemma OverBudgetOverruns(g: Geometry, d: Disk, blocks: seq<nat>, b: nat) returns (es: seq<Event>)
    requires ValidDisk(g, d) && Homes(g, blocks) && IsHome(g, b) && b !in blocks && !SmallEnough(g)
    ensures ValidRun(g, InitState(d), es) && Exec(g, InitState(d), es).overrun
  {
    var fs := ThreeTested(g, d, blocks, d[0]);
    var s := Exec(g, InitState(d), fs);
    hide Filled, FillRun, Exec, Readable;
    FilledReadable(g, d, s, blocks, 28, d[0]);
    var e := [LogTest(0, b, d[0]), LogAppend(1), LogAppend(2), LogAppend(0)];
    OverrunTail(g, d, s, blocks, b, d[0]);
    FillRunValid(g, d, fs);
    JoinRuns(g, InitState(d), fs, e);
    es := fs + e;
  }

  lemma FillRunValid(g: Geometry, d: Disk, es: seq<Event>)
    requires FillRun(g, d, es)
    ensures ValidRun(g, InitState(d), es) && DisciplinedRun(g, InitState(d), es)
  {}

  lemma ThreeTested(g: Geometry, d: Disk, blocks: seq<nat>, data: Block) returns (es: seq<Event>)
    requires ValidDisk(g, d) && Homes(g, blocks) && !SmallEnough(g)
    ensures FillRun(g, d, es) && Filled(g, d, Exec(g, InitState(d), es), blocks, 28, data)
    ensures Exec(g, InitState(d), es).pending == map[1 := Write(1, blocks[28], data), 2 := Write(2, blocks[29], data)]
  {
    hide Filled, FillRun, Exec;
    es := Fill(g, d, blocks, 28, data);
    es := Tested(g, d, es, blocks, 28, 28, data);
    OneTested(Write(1, blocks[28], data));
    es := Tested(g, d, es, blocks, 28, 29, data);
  }

  lemma OneTested(w: Write)
    ensures |map[1 := w]| == 1
  {}

  lemma OverrunTail(g: Geometry, d: Disk, s: State, blocks: seq<nat>, b: nat, data: Block)
    requires Readable(g, s) && Homes(g, blocks) && IsHome(g, b) && b !in blocks && !SmallEnough(g)
    requires Filled(g, d, s, blocks, 28, data)
    requires s.pending == map[1 := Write(1, blocks[28], data), 2 := Write(2, blocks[29], data)]
    ensures var es := [LogTest(0, b, data), LogAppend(1), LogAppend(2), LogAppend(0)];
            ValidRun(g, s, es) && Exec(g, s, es).overrun
  {
    hide Room, TestStep, Filled, Next, Readable;
    LastRoom(g, d, s, blocks, b, data, Write(1, blocks[28], data), Write(2, blocks[29], data));
    FilledMeans(g, d, s, blocks, 28, data);
    TestPasses(g, s, 0, b, data);
    NextTest(g, s, 0, b, data);
    var t := TestStep(g, s, 0, b, data);
    assert PendingHome(g, t.ops);
    TestReadable(g, s, t);
    LastAppends(g, t, blocks, b, data);
    var es := [LogTest(0, b, data), LogAppend(1), LogAppend(2), LogAppend(0)];
    assert es[1..] == [LogAppend(1), LogAppend(2), LogAppend(0)];
  }

  lemma TestReadable(g: Geometry, s: State, t: State)
    requires Readable(g, s) && t.io == s.io && t.past == s.past && PendingHome(g, t.ops)
    ensures Readable(g, t)
  {}

  lemma LastRoom(g: Geometry, d: Disk, s: State, blocks: seq<nat>, b: nat, data: Block, w: Write, v: Write)
    requires Homes(g, blocks) && !SmallEnough(g) && Filled(g, d, s, blocks, 28, data) &&
             s.pending == map[1 := w, 2 := v]
    ensures Room(g, s, b, b)
  {
    TwoTested(g, w, v);
    hide Room, OneMore, Filled, Homes;
    FilledRoom(g, d, s, blocks, 28, data, b);
  }

  lemma FilledMeans(g: Geometry, d: Disk, s: State, blocks: seq<nat>, k: nat, data: Block)
    requires Filled(g, d, s, blocks, k, data)
    ensures k <= |blocks| && s.lh == blocks[..k] && s.used == Shares(k) && s.outstanding == 3 && s.fate == Alive &&
            !s.overrun
  {}

  lemma TwoTested(g: Geometry, w: Write, v: Write)
    requires g.nbuf > LOGSIZE
    ensures OneMore(g, 28, map[1 := w, 2 := v])
  {
    assert |map[1 := w, 2 := v]| == 2;
  }

  /** An append of a block not listed, with the array not full. */
  lemma AppendNew(g: Geometry, s: State, op: nat)
    requires Readable(g, s) && s.fate == Alive && !s.overrun && op in s.used && op in s.pending
    requires s.pending[op].block !in s.lh && |s.lh| < LOGSIZE
    ensures Enabled(g, s, LogAppend(op))
    ensures var t := Next(g, s, LogAppend(op));
            && Readable(g, t) && t.fate == Alive && !t.overrun && t.used.Keys == s.used.Keys
            && t.pending == s.pending - {op} && t.lh == s.lh + [s.pending[op].block]
  {
    hide ValidDisk, WellFormedHeader;
  }

  lemma AppendOver(g: Geometry, s: State, op: nat)
    requires Readable(g, s) && s.fate == Alive && !s.overrun && op in s.used && op in s.pending
    requires s.pending[op].block !in s.lh && |s.lh| == LOGSIZE
    ensures Enabled(g, s, LogAppend(op)) && Next(g, s, LogAppend(op)).overrun
  {
    hide Readable;
  }

  lemma LastAppends(g: Geometry, t: State, blocks: seq<nat>, b: nat, data: Block)
    requires Readable(g, t) && Homes(g, blocks) && b !in blocks && t.lh == blocks[..28]
    requires t.fate == Alive && !t.overrun && t.used == Shares(28)
    requires t.pending == map[1 := Write(1, blocks[28], data), 2 := Write(2, blocks[29], data), 0 := Write(0, b, data)]
    ensures var es := [LogAppend(1), LogAppend(2), LogAppend(0)]; ValidRun(g, t, es) && Exec(g, t, es).overrun
  {
    hide Readable, Enabled, Next;
    PrefixStep(blocks, 28);
    PrefixStep(blocks, 29);
    AppendNew(g, t, 1);
    var u := Next(g, t, LogAppend(1));
    assert u.lh == blocks[..29];
    AppendNew(g, u, 2);
    var v := Next(g, u, LogAppend(2));
    assert v.lh == blocks[..30] == blocks;
    AppendOver(g, v, 0);
    assert ValidRun(g, Next(g, v, LogAppend(0)), []);
    assert [LogAppend(0)][1..] == [] && ValidRun(g, v, [LogAppend(0)]);
    assert [LogAppend(2), LogAppend(0)][1..] == [LogAppend(0)] && ValidRun(g, u, [LogAppend(2), LogAppend(0)]);
    assert [LogAppend(1), LogAppend(2), LogAppend(0)][1..] == [LogAppend(2), LogAppend(0)];
  }

  /** No run, within the budgets or not, writes behind the array, exactly when there are no more buffers than places
      in it, or the log area is smaller than it. */
  lemma OverrunExact(g: Geometry, d: Disk, blocks: seq<nat>, b: nat)
    requires ValidDisk(g, d) && Homes(g, blocks) && IsHome(g, b) && b !in blocks
    ensures (forall es :: ValidRun(g, InitState(d), es) ==> !Exec(g, InitState(d), es).overrun) <==> SmallEnough(g)
  {
    if SmallEnough(g) {
      forall es | ValidRun(g, InitState(d), es)
        ensures !Exec(g, InitState(d), es).overrun
      {
        InitBounded(g, d);
        RunStaysBounded(g, InitState(d), es);
      }
    } else {
      var es := OverBudgetOverruns(g, d, blocks, b);
    }
  }

  // ---- the cut ----

  /** A list one longer than the area is being copied out: `i` blocks of it have been written, the last of
      them behind the area. */
  ghost predicate Dumped(g: Geometry, d: Disk, s: State, blocks: seq<nat>, data: Block, i: nat) {
    && s.fate == Alive && !s.overrun && s.held == map[] && s.pending == map[]
    && DumpedIo(g, d, s.io, blocks, data, i) && FilledPast(s.past, d, blocks)
  }

  ghost predicate DumpedIo(g: Geometry, d: Disk, io: Io, blocks: seq<nat>, data: Block, i: nat) {
    && ValidDisk(g, d) && i <= g.size <= LOGSIZE <= |blocks|
    && io.phase == (if i < g.size then WritingLog(i) else WritingHead) && io.lh == blocks[..g.size]
    && io.pinned.Keys == Elems(blocks[..g.size]) && (forall b :: b in io.pinned ==> io.pinned[b] == data)
    && ValidDisk(g, io.disk) && io.disk[g.start] == d[g.start]
    && (i == g.size && g.start + g.size < g.nblocks ==> io.disk[g.start + g.size] == data)
  }

  lemma DumpedReadable(g: Geometry, d: Disk, s: State, blocks: seq<nat>, data: Block, i: nat)
    requires Homes(g, blocks) && Dumped(g, d, s, blocks, data, i)
    ensures Readable(g, s)
  {
    assert forall b: nat :: b in blocks ==> IsHome(g, b);
  }

  /** The pinned blocks and one more fit the cache. */
  lemma DumpedRoom(g: Geometry, d: Disk, s: State, blocks: seq<nat>, data: Block, i: nat, x: nat, y: nat)
    requires Homes(g, blocks) && Dumped(g, d, s, blocks, data, i) && g.size < g.nbuf && y in blocks[..g.size]
    ensures Room(g, s, x, y)
  {
    var p := Elems(blocks[..g.size]);
    DistinctCard(blocks[..g.size]);
    assert PendingBlocks(s.pending) == {} && HeldBlocks(s.held) == {};
    hide PendingBlocks, HeldBlocks, FilledPast;
    assert Bufs(s) == p;
    assert p + {x, y} == p + {x};
    hide Bufs;
    Grows(p, x);
  }

  lemma WriteOne(g: Geometry, d: Disk, s: State, blocks: seq<nat>, data: Block, i: nat)
    requires Homes(g, blocks) && Dumped(g, d, s, blocks, data, i) && i < g.size && g.start + g.size < g.nblocks
    requires g.start + g.size !in blocks && Readable(g, s) && Room(g, s, LogBlock(g, i), s.lh[i])
    ensures Enabled(g, s, WriteLogBlock) && Dumped(g, d, WriteLogStep(g, s), blocks, data, i + 1)
  {
    hide Room, FilledPast;
    assert s.lh[i] in blocks[..g.size];
    assert LogBlock(g, i) !in blocks;
    assert LogBlock(g, i) !in s.pinned;
    assert s.pinned - {LogBlock(g, i)} == s.pinned;
  }

  lemma DumpOne(g: Geometry, d: Disk, s: State, blocks: seq<nat>, data: Block, i: nat)
    requires Homes(g, blocks) && Dumped(g, d, s, blocks, data, i) && i < g.size && g.start + g.size < g.nblocks
    requires g.start + g.size !in blocks && g.size < g.nbuf
    ensures Readable(g, s) && Enabled(g, s, WriteLogBlock) && Disciplined(s, WriteLogBlock)
    ensures Dumped(g, d, Next(g, s, WriteLogBlock), blocks, data, i + 1)
  {
    assert s.lh[i] in blocks[..g.size] && s.phase == WritingLog(i) && i < |s.lh|;
    hide Dumped, Readable, Homes, Room, WriteLogStep, Next, Enabled;
    DumpedReadable(g, d, s, blocks, data, i);
    DumpedRoom(g, d, s, blocks, data, i, LogBlock(g, i), s.lh[i]);
    WriteOne(g, d, s, blocks, data, i);
    NextWriteLog(g, s);
  }

  lemma NextWriteLog(g: Geometry, s: State)
    requires Readable(g, s) && Enabled(g, s, WriteLogBlock)
    ensures s.phase.WritingLog? && s.phase.i < |s.lh| && Next(g, s, WriteLogBlock) == WriteLogStep(g, s)
  {
    hide Readable, WriteLogStep;
  }

  lemma {:induction false} Dump(g: Geometry, d: Disk, s: State, blocks: seq<nat>, data: Block, i: nat)
    returns (es: seq<Event>)
    requires Homes(g, blocks) && Dumped(g, d, s, blocks, data, i) && g.start + g.size < g.nblocks
    requires g.start + g.size !in blocks && g.size < g.nbuf && i <= g.size
    ensures ValidRun(g, s, es) && DisciplinedRun(g, s, es) && Dumped(g, d, Exec(g, s, es), blocks, data, g.size)
    decreases g.size - i
  {
    if i == g.size {
      es := [];
    } else {
      DumpOne(g, d, s, blocks, data, i);
      hide Dumped, Next, Readable, Enabled, Disciplined;
      var fs := Dump(g, d, Next(g, s, WriteLogBlock), blocks, data, i + 1);
      es := [WriteLogBlock] + fs;
      assert es[1..] == fs;
    }
  }

  lemma ThreeEnd(g: Geometry, d: Disk, s: State, blocks: seq<nat>, data: Block)
    requires ValidDisk(g, d) && Homes(g, blocks) && 2 <= g.size <= LOGSIZE
    requires Filled(g, d, s, blocks, g.size, data) && s.pending == map[]
    ensures var es := [EndOp(0), EndOp(1), EndOp(2)];
            ValidRun(g, s, es) && DisciplinedRun(g, s, es) && Dumped(g, d, Exec(g, s, es), blocks, data, 0)
  {
    EndRun(g, d, s, blocks, g.size, data);
    var t := Exec(g, s, [EndOp(0), EndOp(1), EndOp(2)]);
    hide Exec, ValidRun, DisciplinedRun, FilledPast;
  }

  lemma {:induction false} ReplayElsewhere(init: Disk, h: seq<Write>, b: nat)
    requires b < |init| && forall i :: 0 <= i < |h| ==> h[i].block < |init| && h[i].block != b
    ensures Replay(init, h)[b] == init[b]
  {
    if h != [] { ReplayElsewhere(init, h[..|h| - 1], b); }
  }

  /** What is then on disk is no replay of any part of the history, whatever is done with it. */
  lemma DumpedIsNotAtomic(g: Geometry, d: Disk, s: State, blocks: seq<nat>, data: Block)
    requires ValidDisk(g, d) && HeaderIs(g, d, []) && Homes(g, blocks) && Dumped(g, d, s, blocks, data, g.size)
    requires g.start + g.size < g.nblocks && g.start + g.size !in blocks && data != d[g.start + g.size]
    ensures !Atomic(g, s)
  {
    forall cut: nat
      ensures !RecoversTo(g, s, cut)
    {
      DumpedDiffers(g, d, s, blocks, data, cut);
    }
  }

  lemma DumpedDiffers(g: Geometry, d: Disk, s: State, blocks: seq<nat>, data: Block, cut: nat)
    requires ValidDisk(g, d) && HeaderIs(g, d, []) && Homes(g, blocks) && Dumped(g, d, s, blocks, data, g.size)
    requires g.start + g.size < g.nblocks && g.start + g.size !in blocks && data != d[g.start + g.size]
    ensures !RecoversTo(g, s, cut)
  {
    var b := g.start + g.size;
    assert IsHome(g, b) && Recover(g, s.disk)[b] == data;
    if cut <= |s.hist| { ReplayElsewhere(d, s.hist[..cut], b); }
  }

  /** With an area of two to LOGSIZE blocks, and more buffers than that, two operations within their budgets pass the
      test together when one place is left. Both append, and the commit copies the last block over the one behind the
      area before it writes the header. */
  lemma SmallLogSplits(g: Geometry, d: Disk, blocks: seq<nat>, data: Block) returns (es: seq<Event>)
    requires ValidDisk(g, d) && HeaderIs(g, d, []) && Homes(g, blocks)
    requires 2 <= g.size <= LOGSIZE && g.size < g.nbuf
    requires g.start + g.size < g.nblocks && g.start + g.size !in blocks && data != d[g.start + g.size]
    ensures DisciplinedRun(g, InitState(d), es) && ValidRun(g, InitState(d), es) &&
            !Atomic(g, Exec(g, InitState(d), es))
  {
    es := Overfilled(g, d, blocks, data);
    FillRunValid(g, d, es);
    hide Dumped, Next, Readable, Enabled, Disciplined, Filled, Atomic, FillRun;
    ThreeEnd(g, d, Exec(g, InitState(d), es), blocks, data);
    var ends := [EndOp(0), EndOp(1), EndOp(2)];
    JoinRuns(g, InitState(d), es, ends);
    es := es + ends;
    var fs := Dump(g, d, Exec(g, InitState(d), es), blocks, data, 0);
    JoinRuns(g, InitState(d), es, fs);
    es := es + fs;
    DumpedIsNotAtomic(g, d, Exec(g, InitState(d), es), blocks, data);
  }

  lemma Overfilled(g: Geometry, d: Disk, blocks: seq<nat>, data: Block) returns (es: seq<Event>)
    requires ValidDisk(g, d) && Homes(g, blocks) && 2 <= g.size <= LOGSIZE && g.size <= g.nbuf
    ensures FillRun(g, d, es)
    ensures Filled(g, d, Exec(g, InitState(d), es), blocks, g.size, data) && Exec(g, InitState(d), es).pending == map[]
  {
    var n := g.size - 2;
    var a, b := Turn(n), Turn(n + 1);
    var w, v := Write(a, blocks[n], data), Write(b, blocks[n + 1], data);
    TakenOff(a, b, w, v);
    hide Filled, FillRun, Exec, ValidDisk, OneMore, Turn;
    es := Fill(g, d, blocks, n, data);
    es := BothTested(g, d, es, blocks, n, data);
    es := Appended(g, d, es, blocks, n, data);
    es := Appended(g, d, es, blocks, n + 1, data);
  }

  lemma TakenOff(a: nat, b: nat, w: Write, v: Write)
    requires a != b
    ensures map[a := w, b := v] - {a} == map[b := v] && map[b := v] - {b} == map[]
  {}

  lemma BothTested(g: Geometry, d: Disk, fs: seq<Event>, blocks: seq<nat>, n: nat, data: Block) returns (es: seq<Event>)
    requires ValidDisk(g, d) && Homes(g, blocks) && n + 1 < LOGSIZE && n < g.size - 1 && n + 1 < g.nbuf
    requires FillRun(g, d, fs)
    requires Filled(g, d, Exec(g, InitState(d), fs), blocks, n, data) && Exec(g, InitState(d), fs).pending == map[]
    ensures FillRun(g, d, es) && Filled(g, d, Exec(g, InitState(d), es), blocks, n, data)
    ensures Exec(g, InitState(d), es).pending ==
              map[Turn(n) := Write(Turn(n), blocks[n], data), Turn(n + 1) := Write(Turn(n + 1), blocks[n + 1], data)]
  {
    assert Turn(n) != Turn(n + 1);
    SomeRoom(g, n, Turn(n), Write(Turn(n), blocks[n], data));
    hide Filled, FillRun, Exec, OneMore, Turn;
    es := Tested(g, d, fs, blocks, n, n, data);
    assert map[][Turn(n) := Write(Turn(n), blocks[n], data)] == map[Turn(n) := Write(Turn(n), blocks[n], data)];
    es := Tested(g, d, es, blocks, n, n + 1, data);
  }

  lemma SomeRoom(g: Geometry, n: nat, a: nat, w: Write)
    requires n + 1 < g.nbuf
    ensures OneMore(g, n, map[]) && OneMore(g, n, map[a := w])
  {
    assert |map[a := w]| == 1;
  }

  /** Crash atomicity of operations within their budgets, on a disk with a block behind the log area: it holds in
      every run exactly when the area has more than LOGSIZE blocks, or only its header, or no fewer blocks than the
      cache has buffers. */
  lemma CutExact(g: Geometry, d: Disk, blocks: seq<nat>, data: Block)
    requires ValidDisk(g, d) && HeaderIs(g, d, []) && Homes(g, blocks)
    requires g.start + g.size < g.nblocks && g.start + g.size !in blocks && data != d[g.start + g.size]
    ensures (forall es :: DisciplinedRun(g, InitState(d), es) ==>
               ValidRun(g, InitState(d), es) && Atomic(g, Exec(g, InitState(d), es)))
        <==> SafeArea(g)
  {
    if SafeArea(g) {
      forall es | DisciplinedRun(g, InitState(d), es)
        ensures ValidRun(g, InitState(d), es) && Atomic(g, Exec(g, InitState(d), es))
      {
        CrashRecoversCut(g, d, es);
      }
    } else {
      var es := SmallLogSplits(g, d, blocks, data);
    }
  }
}
