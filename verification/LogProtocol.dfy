/** The group-commit protocol of the log as a state machine over its atomic steps: `begin_op`, the
    unlocked test and the locked append of `log_write`, and `end_op` of any number of concurrent
    operations, every single block write of `commit` and of `recover_from_log`, and a crash between any
    two steps.  Every step that reads a block needs a buffer for it. */
module LogProtocol {
  import opened Basics
  import opened Blocks
  import opened LogDisk

  /** One `log_write`: the operation that made it, the block and its new contents. */
  datatype Write = Write(op: nat, block: nat, data: Block)

  /** Where the committing process, or the recovering kernel, is. */
  datatype Phase =
    | Running
    | WritingLog(i: nat)     // write_log, about to write log block i
    | WritingHead            // about to write the header: the commit point
    | Installing(i: nat)     // install_trans, about to write home block i
    | Clearing               // about to erase the header
    | Finishing              // commit returned, committing not yet reset
    | RecReading             // rebooted, about to read the header
    | RecInstalling(i: nat)
    | RecClearing

  /** Why a kernel has stopped, if it has: no buffer for a block, the two tests of `log_write`, the one of
      `end_op`, or a block number beyond the device. */
  datatype Fate = Alive | NoBuffers | TooBig | OutsideTrans | WhileCommitting | BadBlock

  /** The device, the B_DIRTY buffers of the cache, `log.lh`, and where a commit or recovery is. */
  datatype Io = Io(disk: Disk, pinned: map<nat, Block>, lh: seq<nat>, phase: Phase)

  /** `outstanding` and `committing` of `struct log`; for each operation in progress how many blocks it has
      appended; the operations that have their block in a buffer and are in `log_write` past its test and not yet
      at its append; and the number of the next operation. */
  datatype Ops = Ops(outstanding: int, committing: bool, used: map<nat, nat>, pending: map<nat, Write>, nextOp: nat)

  /** All logged writes since the disk was `init`, how many of them precede the last commit point, and the
      operation number at that point. */
  datatype Past = Past(init: Disk, hist: seq<Write>, cut: nat, cutOp: nat)

  /** `held` has the blocks that other processes have in buffers, `asleep` the processes sleeping in `begin_op`.
      `overrun` is set when an append writes behind the end of the array `lh.block`; C gives no meaning to what
      follows, and no step is enabled. */
  datatype State = State(io: Io, ops: Ops, past: Past, held: map<nat, nat>, asleep: set<nat>, fate: Fate,
                         overrun: bool) {
    const disk: Disk := io.disk
    const pinned: map<nat, Block> := io.pinned
    const lh: seq<nat> := io.lh
    const phase: Phase := io.phase
    const outstanding: int := ops.outstanding
    const committing: bool := ops.committing
    const used: map<nat, nat> := ops.used
    const pending: map<nat, Write> := ops.pending
    const nextOp: nat := ops.nextOp
    const init: Disk := past.init
    const hist: seq<Write> := past.hist
    const cut: nat := past.cut
    const cutOp: nat := past.cutOp
  }

  datatype Event =
    | BeginOp
    | BeginWait(p: nat)      // begin_op finds no room, or a commit, and sleeps
    | Wake(p: nat)           // a sleeper is made runnable for another reason
    | Hold(r: nat, block: nat)
    | Release(r: nat)
    | LogTest(op: nat, block: nat, data: Block)
    | LogAppend(op: nat)
    | EndOp(op: nat)
    | WriteLogBlock
    | WriteHeader
    | InstallBlock
    | ClearHeader
    | FinishCommit
    | Crash
    | RecReadHead
    | RecInstallBlock
    | RecClearHeader

  function Last(h: seq<Write>): Write requires h != [] { h[|h| - 1] }

  /** The disk that performing all writes of `h` in order, one by one, would give. */
  function Replay(init: Disk, h: seq<Write>): (d: Disk)
    requires forall i :: 0 <= i < |h| ==> h[i].block < |init|
    ensures |d| == |init|
  {
    if h == [] then init
    else Replay(init, h[..|h| - 1])[Last(h).block := Last(h).data]
  }

  /** Contents `bread` returns: the pinned buffer if there is one, else the disk block. */
  function Bread(s: State, b: nat): Block
    requires b < |s.disk|
  {
    if b in s.pinned then s.pinned[b] else s.disk[b]
  }

  // ---- buffers ----

  function PendingBlocks(pending: map<nat, Write>): set<nat> { set op | op in pending :: pending[op].block }

  function HeldBlocks(held: map<nat, nat>): set<nat> { set r | r in held :: held[r] }

  /** The blocks whose buffers cannot be recycled. */
  function Bufs(s: State): set<nat> { s.pinned.Keys + PendingBlocks(s.pending) + HeldBlocks(s.held) }

  predicate Room(g: Geometry, s: State, a: nat, b: nat) { Buffered(g.nbuf, Bufs(s), a, b) }

  function InitState(d: Disk): State {
    State(Io(d, map[], [], Running), Ops(0, false, map[], map[], 0), Past(d, [], 0, 0), map[], {}, Alive, false)
  }

  predicate Recovering(p: Phase) {
    p.RecReading? || p.RecInstalling? || p.RecClearing?
  }

  /** The test of `begin_op`: a full budget more fits. */
  predicate Enters(s: State) { !s.committing && |s.lh| + (s.outstanding + 1) * MAXOPBLOCKS <= LOGSIZE }

  /** A kernel thread can take step `e` now; a panicked kernel takes no step but a reboot.  A process that
      waits for a buffer it has itself, which a list longer than the area can bring about, waits for ever. */
  predicate Enabled(g: Geometry, s: State, e: Event) {
    (s.fate != Alive ==> e.Crash?) && !s.overrun &&
    match e
    case BeginOp => !Recovering(s.phase) && Enters(s)
    case BeginWait(p) => !Recovering(s.phase) && !Enters(s) && p !in s.asleep
    case Wake(p) => p in s.asleep
    case Hold(r, b) => !Recovering(s.phase) && r !in s.held && b < g.nblocks
    case Release(r) => r in s.held
    case LogTest(op, b, _) => op in s.used && op !in s.pending && IsHome(g, b)
    case LogAppend(op) => op in s.used && op in s.pending
    case EndOp(op) => op in s.used && op !in s.pending
    case WriteLogBlock => s.phase.WritingLog? && s.phase.i < |s.lh| && LogBlock(g, s.phase.i) != s.lh[s.phase.i]
    case WriteHeader => s.phase == WritingHead
    case InstallBlock => s.phase.Installing? && s.phase.i < |s.lh| && LogBlock(g, s.phase.i) != s.lh[s.phase.i]
    case ClearHeader => s.phase == Clearing
    case FinishCommit => s.phase == Finishing
    case Crash => true
    case RecReadHead => s.phase == RecReading
    case RecInstallBlock =>
      s.phase.RecInstalling? && s.phase.i < |s.lh| && LogBlock(g, s.phase.i) != s.lh[s.phase.i]
    case RecClearHeader => s.phase == RecClearing
  }

  function AfterLog(s: State, i: nat): Phase { if i < |s.lh| then WritingLog(i) else WritingHead }
  function AfterInstall(lh: seq<nat>, i: nat): Phase { if i < |lh| then Installing(i) else Clearing }
  function AfterRecInstall(lh: seq<nat>, i: nat): Phase { if i < |lh| then RecInstalling(i) else RecClearing }

  ghost predicate HistoryIsHome(g: Geometry, h: seq<Write>) {
    forall i :: 0 <= i < |h| ==> IsHome(g, h[i].block)
  }

  ghost predicate PendingHome(g: Geometry, ops: Ops) {
    forall op :: op in ops.pending ==> IsHome(g, ops.pending[op].block)
  }

  /** The state is one the step functions can read: the device is whole and lists are of home blocks.  A
      list may be longer than the log area. */
  ghost predicate Readable(g: Geometry, s: State) {
    && ValidDisk(g, s.disk) && ValidDisk(g, s.init)
    && |s.lh| <= LOGSIZE && (forall i :: 0 <= i < |s.lh| ==> IsHome(g, s.lh[i]))
    && PendingHome(g, s.ops)
    && s.cut <= |s.hist| && HistoryIsHome(g, s.hist)
    && (s.phase.RecReading? ==> WellFormedHeader(s.disk[g.start]))
  }

  function BeginStep(s: State): State {
    s.(ops := s.ops.(outstanding := s.outstanding + 1, used := s.used[s.nextOp := 0], nextOp := s.nextOp + 1))
  }

  /** A block is listed once however often it is logged. */
  function Absorb(lh: seq<nat>, b: nat): seq<nat> {
    if b in lh then lh else lh + [b]
  }

  /** An operation gets its block into a buffer, changes it and enters `log_write`: the panic of `bget`, and
      the two tests made without the lock. */
  function TestStep(g: Geometry, s: State, op: nat, b: nat, data: Block): State {
    if !Room(g, s, b, b) then s.(fate := NoBuffers)
    else if |s.lh| >= LOGSIZE || |s.lh| >= g.size - 1 then s.(fate := TooBig)
    else if s.outstanding < 1 then s.(fate := OutsideTrans)
    else s.(ops := s.ops.(pending := s.pending[op := Write(op, b, data)]))
  }

  /** The rest of `log_write`, under the lock: absorption of a block already listed, and the pin.  It does
      not test again. */
  function AppendStep(s: State, op: nat): State
    requires op in s.used && op in s.pending
  {
    var w := s.pending[op];
    if w.block !in s.lh && |s.lh| >= LOGSIZE then s.(overrun := true)
    else
      s.(io := s.io.(pinned := s.pinned[w.block := w.data], lh := Absorb(s.lh, w.block)),
         ops := s.ops.(used := if w.block in s.lh then s.used else s.used[op := s.used[op] + 1],
                       pending := s.pending - {op}),
         past := s.past.(hist := s.hist + [w]))
  }

  function EndStep(s: State, op: nat): State {
    var s1 := s.(ops := s.ops.(outstanding := s.outstanding - 1, used := s.used - {op}));
    if s.committing then s1.(fate := WhileCommitting)
    else if s1.outstanding == 0 then
      s1.(ops := s1.ops.(committing := true),
          io := s1.io.(phase := if |s.lh| > 0 then WritingLog(0) else Finishing))
    else s1.(asleep := {})
  }

  /** A reboot: only the disk survives, and the writes not yet committed never happened. */
  function CrashStep(s: State): State
    requires s.cut <= |s.hist|
  {
    State(Io(s.disk, map[], [], RecReading), Ops(0, false, map[], map[], s.nextOp),
          s.past.(hist := s.hist[..s.cut]), map[], {}, Alive, s.overrun)
  }

  /** One turn of `write_log`. */
  function WriteLogStep(g: Geometry, s: State): State
    requires Readable(g, s) && s.phase.WritingLog? && s.phase.i < |s.lh|
  {
    var i := s.phase.i;
    var x := LogBlock(g, i);
    if !Room(g, s, x, s.lh[i]) then s.(fate := NoBuffers)
    else if x >= g.nblocks then s.(fate := BadBlock)
    else s.(io := Io(s.disk[x := Bread(s, s.lh[i])], s.pinned - {x}, s.lh, AfterLog(s, i + 1)))
  }

  /** One turn of `install_trans`, in a commit or in recovery. */
  function InstallStep(g: Geometry, s: State, i: nat, after: Phase): State
    requires Readable(g, s) && i < |s.lh|
  {
    var x := LogBlock(g, i);
    if !Room(g, s, x, s.lh[i]) then s.(fate := NoBuffers)
    else if x >= g.nblocks then s.(fate := BadBlock)
    else s.(io := Io(s.disk[s.lh[i] := Bread(s, x)], s.pinned - {s.lh[i]}, s.lh, after))
  }

  /** `write_head` of the list: the commit point. */
  function HeaderStep(g: Geometry, s: State): State
    requires Readable(g, s)
  {
    ListEncodable(g, s.lh);
    if !Room(g, s, g.start, g.start) then s.(fate := NoBuffers)
    else s.(io := s.io.(disk := s.disk[g.start := EncodeHeader(s.disk[g.start], s.lh)],
                        phase := AfterInstall(s.lh, 0)),
            past := s.past.(cut := |s.hist|, cutOp := s.nextOp))
  }

  function RecReadStep(g: Geometry, s: State): State
    requires Readable(g, s) && s.phase.RecReading?
  {
    if !Room(g, s, g.start, g.start) then s.(fate := NoBuffers)
    else
      var lh := DecodeHeader(s.disk[g.start]);
      s.(io := s.io.(lh := lh, phase := AfterRecInstall(lh, 0)))
  }

  /** A process outside the log gets a block into a buffer. */
  function HoldStep(g: Geometry, s: State, r: nat, b: nat): State {
    if Room(g, s, b, b) then s.(held := s.held[r := b]) else s.(fate := NoBuffers)
  }

  /** `write_head` of an empty list. */
  function ClearStep(g: Geometry, s: State, after: Phase): State
    requires Readable(g, s)
  {
    if !Room(g, s, g.start, g.start) then s.(fate := NoBuffers)
    else s.(io := Io(s.disk[g.start := EncodeHeader(s.disk[g.start], [])], s.pinned, [], after))
  }

  function Next(g: Geometry, s: State, e: Event): State
    requires Readable(g, s) && Enabled(g, s, e)
  {
    match e
    case BeginOp => BeginStep(s)
    case BeginWait(p) => s.(asleep := s.asleep + {p})
    case Wake(p) => s.(asleep := s.asleep - {p})
    case Hold(r, b) => HoldStep(g, s, r, b)
    case Release(r) => s.(held := s.held - {r})
    case LogTest(op, b, data) => TestStep(g, s, op, b, data)
    case LogAppend(op) => AppendStep(s, op)
    case EndOp(op) => EndStep(s, op)
    case WriteLogBlock => WriteLogStep(g, s)
    case WriteHeader => HeaderStep(g, s)
    case InstallBlock => InstallStep(g, s, s.phase.i, AfterInstall(s.lh, s.phase.i + 1))
    case ClearHeader => ClearStep(g, s, Finishing)
    case FinishCommit =>
      s.(ops := s.ops.(committing := false), io := s.io.(phase := Running), asleep := {})
    case Crash => CrashStep(s)
    case RecReadHead => RecReadStep(g, s)
    case RecInstallBlock => InstallStep(g, s, s.phase.i, AfterRecInstall(s.lh, s.phase.i + 1))
    case RecClearHeader => ClearStep(g, s, Running)
  }

  // ---- What a step leaves alone ----

  predicate IsOpEvent(e: Event) {
    e.BeginOp? || e.LogTest? || e.LogAppend? || e.EndOp? || e.FinishCommit? || e.Crash?
  }

  lemma KeepsOps(g: Geometry, s: State, e: Event)
    requires Readable(g, s) && Enabled(g, s, e) && !IsOpEvent(e)
    ensures Next(g, s, e).ops == s.ops
  {
    hide Readable, Room, EncodeHeader, DecodeHeader, Bread;
  }

  lemma KeepsPast(g: Geometry, s: State, e: Event)
    requires Readable(g, s) && Enabled(g, s, e) && !e.LogAppend? && !e.WriteHeader? && !e.Crash?
    ensures Next(g, s, e).past == s.past
  {
    hide Readable, Room, EncodeHeader, DecodeHeader, Bread;
  }

  lemma KeepsBounds(g: Geometry, s: State, e: Event)
    requires Readable(g, s) && Enabled(g, s, e) && !e.LogAppend?
    ensures !Next(g, s, e).overrun
  {
    hide Readable, Room, EncodeHeader, DecodeHeader, Bread;
  }

  // ---- The invariant ----

  ghost predicate HeaderIs(g: Geometry, d: Disk, lh: seq<nat>)
    requires ValidDisk(g, d)
  {
    WellFormedHeader(d[g.start]) && DecodeHeader(d[g.start]) == lh
  }

  /** The disk as of the last commit point, and as seen through the cache. */
  ghost function Committed(g: Geometry, s: State): (d: Disk)
    requires Readable(g, s)
    ensures ValidDisk(g, d)
  {
    Replay(s.init, s.hist[..s.cut])
  }

  ghost function Logical(g: Geometry, s: State): (d: Disk)
    requires Readable(g, s)
    ensures ValidDisk(g, d)
  {
    Replay(s.init, s.hist)
  }

  /** Operation numbers split at the cut: the committed writes belong to operations that began before
      it, the later writes and the operations in progress to ones that began after it. */
  ghost predicate CutSplitsOps(h: seq<Write>, cut: nat, cutOp: nat, used: set<nat>, nextOp: nat) {
    && cutOp <= nextOp
    && cut <= |h|
    && (forall i :: 0 <= i < cut ==> h[i].op < cutOp)
    && (forall i :: cut <= i < |h| ==> cutOp <= h[i].op < nextOp)
    && (forall op :: op in used ==> cutOp <= op < nextOp)
  }

  ghost predicate CountersAgree(outstanding: int, committing: bool, p: Phase, used: map<nat, nat>, lh: seq<nat>) {
    && outstanding == |used|
    && (p.Running? && used == map[] ==> lh == [])
    && (p.Finishing? ==> lh == [])
    && committing == !(p.Running? || Recovering(p))
    && (!p.Running? ==> used == map[])
  }

  /** Before the commit point the on-disk log is empty, the pinned buffers are exactly the listed
      blocks, and the cache shows every logged write. */
  ghost predicate Uncommitted(g: Geometry, d: Disk, pinned: map<nat, Block>, lh: seq<nat>, logical: Disk)
    requires ValidDisk(g, d) && ValidDisk(g, logical)
  {
    && HeaderIs(g, d, [])
    && pinned.Keys == Elems(lh)
    && (forall b: nat :: IsHome(g, b) ==> logical[b] == if b in pinned then pinned[b] else d[b])
  }

  /** The first `i` log blocks hold the pinned contents. */
  ghost predicate LoggedUpTo(g: Geometry, d: Disk, pinned: map<nat, Block>, lh: seq<nat>, i: nat)
    requires ValidDisk(g, d) && ValidHeader(g, lh) && i <= |lh| && Elems(lh) <= pinned.Keys
  {
    forall k :: 0 <= k < i ==> d[LogBlock(g, k)] == pinned[lh[k]]
  }

  /** After the commit point the header lists the blocks, of which the first `i` are home. */
  ghost predicate InstalledUpTo(g: Geometry, d: Disk, pinned: map<nat, Block>, lh: seq<nat>, base: Disk, i: nat)
    requires ValidDisk(g, d) && ValidDisk(g, base) && ValidHeader(g, lh) && i <= |lh|
  {
    && HeaderIs(g, d, lh)
    && pinned.Keys <= Elems(lh)
    && (forall k :: 0 <= k < i ==> d[lh[k]] == base[lh[k]] && lh[k] !in pinned)
  }

  /** The list fits the log area. */
  predicate Short(g: Geometry, lh: seq<nat>) { |lh| <= g.size - 1 }

  /** The list fits the log area, or its commit finds no buffer for the first log block. */
  predicate Sized(g: Geometry, lh: seq<nat>) { Short(g, lh) || (g.size >= 2 && |lh| >= g.nbuf) }

  ghost predicate PhaseInv(g: Geometry, s: State)
    requires Readable(g, s) && HomeList(g, s.lh) && (s.phase.Running? || s.phase.WritingLog? || Short(g, s.lh))
    requires s.phase.WritingLog? || s.phase.WritingHead? ==> Elems(s.lh) <= s.pinned.Keys
  {
    && (s.phase.Running? || s.phase.WritingLog? || s.phase.WritingHead? || s.phase.Finishing? ==>
          Uncommitted(g, s.disk, s.pinned, s.lh, Logical(g, s)))
    && (s.lh == [] || !(s.phase.Running? || s.phase.WritingLog? || s.phase.WritingHead?) ==> s.cut == |s.hist|)
    && match s.phase
    case Running => true
    case WritingLog(i) =>
      i < |s.lh| && if Short(g, s.lh) then LoggedUpTo(g, s.disk, s.pinned, s.lh, i) else i == 0
    case WritingHead => LoggedUpTo(g, s.disk, s.pinned, s.lh, |s.lh|)
    case Finishing => s.lh == []
    case RecReading => s.pinned == map[]
    case Installing(i) => i < |s.lh| && InstalledUpTo(g, s.disk, s.pinned, s.lh, Committed(g, s), i)
    case Clearing => InstalledUpTo(g, s.disk, s.pinned, s.lh, Committed(g, s), |s.lh|)
    case RecInstalling(i) => i < |s.lh| && InstalledUpTo(g, s.disk, s.pinned, s.lh, Committed(g, s), i) &&
                             s.pinned == map[]
    case RecClearing => InstalledUpTo(g, s.disk, s.pinned, s.lh, Committed(g, s), |s.lh|) && s.pinned == map[]
  }

  ghost predicate DiskInv(g: Geometry, s: State) {
    && Readable(g, s) && HomeList(g, s.lh) && Sized(g, s.lh) && !s.overrun
    && (s.phase.Running? || s.phase.WritingLog? || Short(g, s.lh))
    && (s.phase.WritingLog? || s.phase.WritingHead? ==> Elems(s.lh) <= s.pinned.Keys)
    && Recoverable(g, s.disk, Committed(g, s)) && PhaseInv(g, s)
  }

  ghost predicate OpsInv(s: State) {
    && (forall op :: op in s.pending ==> op in s.used && s.pending[op].op == op)
    && CutSplitsOps(s.hist, s.cut, s.cutOp, s.used.Keys, s.nextOp)
    && CountersAgree(s.outstanding, s.committing, s.phase, s.used, s.lh)
  }

  ghost predicate Inv(g: Geometry, s: State) {
    DiskInv(g, s) && OpsInv(s)
  }

  // ---- Every step keeps it ----

  /** The invariant of the disk says nothing of operations, sleepers and buffers other than the pinned ones. */
  lemma DiskSame(g: Geometry, s: State, t: State)
    requires DiskInv(g, s) && t.io == s.io && t.past == s.past && t.overrun == s.overrun
    requires PendingHome(g, t.ops)
    ensures DiskInv(g, t)
  {
    hide Recoverable, Uncommitted, InstalledUpTo, LoggedUpTo, HomeList, HistoryIsHome;
  }

  lemma DiskReadable(g: Geometry, s: State)
    requires DiskInv(g, s)
    ensures Readable(g, s) && PendingHome(g, s.ops)
  {}

  lemma InitInv(g: Geometry, d: Disk)
    requires ValidDisk(g, d) && HeaderIs(g, d, [])
    ensures Inv(g, InitState(d))
  {}

  lemma {:induction false} ReplayAppend(init: Disk, h: seq<Write>, w: Write)
    requires w.block < |init| && forall i :: 0 <= i < |h| ==> h[i].block < |init|
    ensures Replay(init, h + [w]) == Replay(init, h)[w.block := w.data]
  {
    assert (h + [w])[..|h|] == h;
  }

  lemma CardAdd(m: map<nat, nat>, k: nat, v: nat)
    requires k !in m
    ensures |m[k := v]| == |m| + 1 && m[k := v].Keys == m.Keys + {k}
  {
    assert |m[k := v].Keys| == |m.Keys + {k}|;
  }

  lemma CardRemove(m: map<nat, nat>, k: nat)
    requires k in m
    ensures |m - {k}| == |m| - 1
  {
    assert (m - {k}).Keys == m.Keys - {k};
    assert |m - {k}| == |(m - {k}).Keys| && |m| == |m.Keys|;
  }

  lemma BeginStepKeepsOps(s: State)
    requires OpsInv(s) && !s.committing && !Recovering(s.phase)
    ensures OpsInv(BeginStep(s))
  {
    CardAdd(s.used, s.nextOp, 0);
  }

  lemma BeginKeepsOps(g: Geometry, s: State)
    requires Readable(g, s) && OpsInv(s) && Enabled(g, s, BeginOp)
    ensures OpsInv(Next(g, s, BeginOp))
  {
    hide OpsInv;
    BeginStepKeepsOps(s);
  }

  lemma TestKeepsOps(g: Geometry, s: State, op: nat, b: nat, data: Block)
    requires Readable(g, s) && OpsInv(s) && Enabled(g, s, LogTest(op, b, data))
    ensures OpsInv(Next(g, s, LogTest(op, b, data)))
  {
    hide CutSplitsOps, CountersAgree, Room, Readable;
  }

  lemma AppendKeepsOps(g: Geometry, s: State, op: nat)
    requires Readable(g, s) && OpsInv(s) && Enabled(g, s, LogAppend(op))
    ensures OpsInv(Next(g, s, LogAppend(op)))
  {
    var t := AppendStep(s, op);
    assert t.used.Keys == s.used.Keys;
    assert |t.used| == |t.used.Keys| && |s.used| == |s.used.Keys|;
  }

  lemma EndKeepsOps(g: Geometry, s: State, op: nat)
    requires Readable(g, s) && OpsInv(s) && Enabled(g, s, EndOp(op))
    ensures OpsInv(Next(g, s, EndOp(op)))
  {
    hide Readable;
    EndsRunning(s, op);
    CardRemove(s.used, op);
    EndCounters(s, op);
    hide CutSplitsOps, CountersAgree;
  }

  lemma EndCounters(s: State, op: nat)
    requires OpsInv(s) && op in s.used && s.phase.Running? && |s.used - {op}| == |s.used| - 1
    ensures var t := EndStep(s, op);
            && CountersAgree(t.outstanding, t.committing, t.phase, t.used, t.lh)
            && CutSplitsOps(t.hist, t.cut, t.cutOp, t.used.Keys, t.nextOp)
  {
    var t := EndStep(s, op);
    assert t.used == s.used - {op};
    if t.outstanding == 0 { assert t.used == map[]; }
  }

  lemma CrashKeepsOps(g: Geometry, s: State)
    requires Readable(g, s) && OpsInv(s) && Enabled(g, s, Crash)
    ensures OpsInv(Next(g, s, Crash))
  {}

  lemma HeaderKeepsOps(g: Geometry, s: State)
    requires Readable(g, s) && OpsInv(s) && Enabled(g, s, WriteHeader)
    ensures OpsInv(HeaderStep(g, s))
  {
    hide EncodeHeader, Room, Readable;
  }

  /** A step of a commit or of recovery that stays within it. */
  lemma IoKeepsOps(s: State, t: State)
    requires OpsInv(s) && !s.phase.Running?
    requires t.pending == s.pending && t.used == s.used && t.hist == s.hist && t.cut == s.cut && t.cutOp == s.cutOp
    requires t.nextOp == s.nextOp && t.outstanding == s.outstanding && t.committing == s.committing
    requires !t.phase.Running? ==> Recovering(t.phase) == Recovering(s.phase)
    requires t.phase.Running? ==> Recovering(s.phase) && t.lh == []
    requires t.phase.Finishing? ==> t.lh == []
    ensures OpsInv(t)
  {
    hide CutSplitsOps;
  }

  lemma WriteLogKeepsOps(g: Geometry, s: State)
    requires Readable(g, s) && OpsInv(s) && Enabled(g, s, WriteLogBlock)
    ensures OpsInv(WriteLogStep(g, s))
  {
    hide Room, Readable, OpsInv;
    IoKeepsOps(s, WriteLogStep(g, s));
  }

  lemma InstallKeepsOps(g: Geometry, s: State, i: nat, after: Phase)
    requires Readable(g, s) && OpsInv(s) && i < |s.lh| && !s.phase.Running? && !after.Finishing? && !s.phase.Finishing?
    requires !after.Running? && Recovering(after) == Recovering(s.phase)
    ensures OpsInv(InstallStep(g, s, i, after))
  {
    hide Room, Readable, OpsInv, Bread, Recovering;
    IoKeepsOps(s, InstallStep(g, s, i, after));
  }

  lemma ClearKeepsOps(g: Geometry, s: State, after: Phase)
    requires Readable(g, s) && OpsInv(s) && !s.phase.Running? && !s.phase.Finishing?
    requires after == if Recovering(s.phase) then Running else Finishing
    ensures OpsInv(ClearStep(g, s, after))
  {
    hide Room, Readable, OpsInv, EncodeHeader;
    IoKeepsOps(s, ClearStep(g, s, after));
  }

  lemma RecReadKeepsOps(g: Geometry, s: State)
    requires Readable(g, s) && OpsInv(s) && s.phase.RecReading?
    ensures OpsInv(RecReadStep(g, s))
  {
    hide Room, Readable, OpsInv;
    IoKeepsOps(s, RecReadStep(g, s));
  }

  lemma SameKeepsOps(s: State, t: State)
    requires OpsInv(s) && t.io == s.io && t.ops == s.ops && t.past == s.past
    ensures OpsInv(t)
  {
    hide CutSplitsOps, CountersAgree;
  }

  lemma FinishKeepsOps(g: Geometry, s: State)
    requires Readable(g, s) && OpsInv(s) && Enabled(g, s, FinishCommit)
    ensures OpsInv(Next(g, s, FinishCommit))
  {
    hide CutSplitsOps, Readable;
  }

  lemma QuietStepKeepsOps(g: Geometry, s: State, e: Event)
    requires Readable(g, s) && OpsInv(s) && Enabled(g, s, e)
    requires e.BeginWait? || e.Wake? || e.Hold? || e.Release? || e.FinishCommit?
    ensures OpsInv(Next(g, s, e))
  {
    hide Room, OpsInv, Readable;
    if e.FinishCommit? { FinishKeepsOps(g, s); } else { SameKeepsOps(s, Next(g, s, e)); }
  }

  /** Absorption: listing a home block once keeps the list one of distinct home blocks. */
  lemma AbsorbKeepsHeader(g: Geometry, lh: seq<nat>, b: nat)
    requires HomeList(g, lh) && IsHome(g, b) && (b in lh || |lh| < LOGSIZE)
    ensures HomeList(g, Absorb(lh, b)) && Elems(Absorb(lh, b)) == Elems(lh) + {b}
  {}

  /** An append of a new block finds room for it in the array, and in the log area unless the list has come to
      fill the cache. */
  ghost predicate Fits(g: Geometry, s: State, e: Event) {
    e.LogAppend? && e.op in s.pending && s.pending[e.op].block !in s.lh ==>
      |s.lh| < LOGSIZE && Sized(g, s.lh + [s.pending[e.op].block])
  }

  /** The cache shows a new write: the pinned block gets the data, everything else stays. */
  lemma AppendShows(g: Geometry, d: Disk, pinned: map<nat, Block>, lh: seq<nat>, logical: Disk, b: nat, data: Block)
    requires ValidDisk(g, d) && ValidDisk(g, logical) && Uncommitted(g, d, pinned, lh, logical) && IsHome(g, b)
    requires HomeList(g, lh) && (b in lh || |lh| < LOGSIZE)
    ensures HomeList(g, Absorb(lh, b)) && Uncommitted(g, d, pinned[b := data], Absorb(lh, b), logical[b := data])
  {
    AbsorbKeepsHeader(g, lh, b);
    assert pinned[b := data].Keys == pinned.Keys + {b};
  }

  lemma AppendKeepsDisk(g: Geometry, s: State, op: nat)
    requires DiskInv(g, s) && Enabled(g, s, LogAppend(op)) && Fits(g, s, LogAppend(op)) && s.phase == Running
    ensures DiskInv(g, Next(g, s, LogAppend(op)))
  {
    hide Recoverable, Uncommitted, InstalledUpTo, LoggedUpTo, HomeList;
    var t, w := Next(g, s, LogAppend(op)), s.pending[op];
    AppendShows(g, s.disk, s.pinned, s.lh, Logical(g, s), w.block, w.data);
    ReplayAppend(s.init, s.hist, w);
    assert t.hist[..s.cut] == s.hist[..s.cut];
    AbsorbedNotEmpty(s.lh, w.block);
  }

  lemma AbsorbedNotEmpty(lh: seq<nat>, b: nat)
    ensures Absorb(lh, b) != [] && |Absorb(lh, b)| <= |lh| + 1 && (b in lh ==> Absorb(lh, b) == lh)
  {}

  lemma TestKeepsDisk(g: Geometry, s: State, op: nat, b: nat, data: Block)
    requires DiskInv(g, s) && Enabled(g, s, LogTest(op, b, data))
    ensures DiskInv(g, Next(g, s, LogTest(op, b, data)))
  {
    hide DiskInv, Room, Readable, IsHome;
    DiskReadable(g, s);
    DiskSame(g, s, TestStep(g, s, op, b, data));
  }

  lemma UncommittedEmpty(g: Geometry, d: Disk, pinned: map<nat, Block>, lh: seq<nat>, logical: Disk)
    requires ValidDisk(g, d) && ValidDisk(g, logical) && Uncommitted(g, d, pinned, lh, logical)
    ensures WellFormedHeader(d[g.start]) && DecodeHeader(d[g.start]) == []
  {}

  lemma LogBlockWriteShows(g: Geometry, d: Disk, pinned: map<nat, Block>, lh: seq<nat>, logical: Disk, i: nat)
    requires ValidDisk(g, d) && ValidDisk(g, logical) && ValidHeader(g, lh) && i < |lh|
    requires Uncommitted(g, d, pinned, lh, logical) && LoggedUpTo(g, d, pinned, lh, i)
    ensures lh[i] in pinned
    ensures var e := d[LogBlock(g, i) := pinned[lh[i]]];
            Uncommitted(g, e, pinned, lh, logical) && LoggedUpTo(g, e, pinned, lh, i + 1)
  {
    assert lh[i] in Elems(lh);
  }

  /** With as many listed blocks as buffers there is none for the log block. */
  lemma NoneLeft(g: Geometry, s: State)
    requires DiskInv(g, s) && s.phase.WritingLog? && !Short(g, s.lh)
    ensures !Room(g, s, LogBlock(g, s.phase.i), s.lh[s.phase.i])
  {
    var x := LogBlock(g, 0);
    assert InLog(g, x) && x !in s.lh;
    DistinctCard(s.lh);
    assert |Elems(s.lh) + {x}| == |s.lh| + 1;
    AtMost(Elems(s.lh) + {x}, Bufs(s) + {x, s.lh[0]});
  }

  lemma WriteLogKeepsDisk(g: Geometry, s: State)
    requires DiskInv(g, s) && Enabled(g, s, WriteLogBlock)
    ensures DiskInv(g, Next(g, s, WriteLogBlock))
  {
    hide Room, DiskInv, Readable;
    DiskReadable(g, s);
    if Room(g, s, LogBlock(g, s.phase.i), s.lh[s.phase.i]) {
      WrittenKeepsDisk(g, s);
    } else {
      DiskSame(g, s, s.(fate := NoBuffers));
    }
  }

  lemma LogBlockNotPinned(g: Geometry, s: State, i: nat)
    requires DiskInv(g, s) && i < |s.lh| && Short(g, s.lh) && s.pinned.Keys <= Elems(s.lh)
    ensures LogBlock(g, i) < g.nblocks && LogBlock(g, i) !in s.pinned && s.pinned - {LogBlock(g, i)} == s.pinned
    ensures LogBlock(g, i) != s.lh[i] && IsHome(g, s.lh[i])
  {
    hide Recoverable, PhaseInv, HistoryIsHome;
    assert InLog(g, LogBlock(g, i));
    assert forall b :: b in s.pinned ==> b in s.lh;
  }

  lemma WrittenKeepsDisk(g: Geometry, s: State)
    requires DiskInv(g, s) && Enabled(g, s, WriteLogBlock) && Room(g, s, LogBlock(g, s.phase.i), s.lh[s.phase.i])
    ensures DiskInv(g, Next(g, s, WriteLogBlock))
  {
    hide Room, HeaderIs, HistoryIsHome, WellFormedHeader, DecodeHeader;
    if !Short(g, s.lh) { NoneLeft(g, s); }
    LogBlockNotPinned(g, s, s.phase.i);
    LogBlockWriteShows(g, s.disk, s.pinned, s.lh, Logical(g, s), s.phase.i);
    assert DecodeHeader(s.disk[g.start]) == [] by { UncommittedEmpty(g, s.disk, s.pinned, s.lh, Logical(g, s)); }
    LogBlockWriteIsSafe(g, s.disk, Committed(g, s), s.phase.i, s.pinned[s.lh[s.phase.i]]);
    hide Recoverable, Uncommitted, LoggedUpTo;
  }

  /** Writing the header is the commit point: recovery now yields what the cache shows. */
  lemma CommitShows(g: Geometry, d: Disk, pinned: map<nat, Block>, lh: seq<nat>, logical: Disk)
    requires ValidDisk(g, d) && ValidDisk(g, logical) && ValidHeader(g, lh)
    requires Uncommitted(g, d, pinned, lh, logical) && LoggedUpTo(g, d, pinned, lh, |lh|)
    ensures var e := d[g.start := EncodeHeader(d[g.start], lh)];
            ValidDisk(g, e) && Recoverable(g, e, logical) && InstalledUpTo(g, e, pinned, lh, logical, 0)
  {
    HeaderRoundTrip(d[g.start], lh);
    assert forall k :: 0 <= k < |lh| ==> lh[k] in Elems(lh);
  }

  lemma WriteHeaderKeepsDisk(g: Geometry, s: State)
    requires DiskInv(g, s) && Enabled(g, s, WriteHeader)
    ensures DiskInv(g, Next(g, s, WriteHeader))
  {
    hide Recoverable, Uncommitted, InstalledUpTo, LoggedUpTo, EncodeHeader, WellFormedHeader, DecodeHeader, Room;
    CommitShows(g, s.disk, s.pinned, s.lh, Logical(g, s));
    assert s.hist[..|s.hist|] == s.hist;
  }

  lemma InstallOneShows(g: Geometry, d: Disk, pinned: map<nat, Block>, lh: seq<nat>, base: Disk, i: nat)
    requires ValidDisk(g, d) && ValidDisk(g, base) && ValidHeader(g, lh) && i < |lh|
    requires InstalledUpTo(g, d, pinned, lh, base, i) && Recoverable(g, d, base)
    ensures InstalledUpTo(g, d[lh[i] := d[LogBlock(g, i)]], pinned - {lh[i]}, lh, base, i + 1)
  {
    InstallOneIsSafe(g, d, base, i);
  }

  lemma InstalledKeepsDisk(g: Geometry, s: State)
    requires DiskInv(g, s) && Enabled(g, s, InstallBlock) && Room(g, s, LogBlock(g, s.phase.i), s.lh[s.phase.i])
    ensures DiskInv(g, Next(g, s, InstallBlock))
  {
    hide Room, WellFormedHeader, DecodeHeader;
    var i, t := s.phase.i, Next(g, s, InstallBlock);
    LogBlockNotPinned(g, s, i);
    InstallOneIsSafe(g, s.disk, Committed(g, s), i);
    InstallOneShows(g, s.disk, s.pinned, s.lh, Committed(g, s), i);
    hide Recoverable, Uncommitted, InstalledUpTo, HistoryIsHome, HomeList;
    assert t.past == s.past && t.lh == s.lh && t.disk == s.disk[s.lh[i] := s.disk[LogBlock(g, i)]];
  }

  lemma RecInstalledKeepsDisk(g: Geometry, s: State)
    requires DiskInv(g, s) && Enabled(g, s, RecInstallBlock) && Room(g, s, LogBlock(g, s.phase.i), s.lh[s.phase.i])
    ensures DiskInv(g, Next(g, s, RecInstallBlock))
  {
    hide Room, WellFormedHeader, DecodeHeader;
    var i, t := s.phase.i, Next(g, s, RecInstallBlock);
    LogBlockNotPinned(g, s, i);
    InstallOneIsSafe(g, s.disk, Committed(g, s), i);
    InstallOneShows(g, s.disk, s.pinned, s.lh, Committed(g, s), i);
    hide Recoverable, Uncommitted, InstalledUpTo, HistoryIsHome, HomeList;
    assert t.past == s.past && t.lh == s.lh && t.disk == s.disk[s.lh[i] := s.disk[LogBlock(g, i)]];
    assert s.pinned - {s.lh[i]} == s.pinned;
  }

  lemma InstallKeepsDisk(g: Geometry, s: State, e: Event)
    requires DiskInv(g, s) && Enabled(g, s, e) && (e == InstallBlock || e == RecInstallBlock)
    ensures DiskInv(g, Next(g, s, e))
  {
    hide Room, DiskInv, Readable;
    DiskReadable(g, s);
    if !Room(g, s, LogBlock(g, s.phase.i), s.lh[s.phase.i]) {
      DiskSame(g, s, s.(fate := NoBuffers));
    } else if e == InstallBlock {
      InstalledKeepsDisk(g, s);
    } else {
      RecInstalledKeepsDisk(g, s);
    }
  }

  lemma ClearKeepsDisk(g: Geometry, s: State, e: Event)
    requires DiskInv(g, s) && Enabled(g, s, e) && (e == ClearHeader || e == RecClearHeader)
    ensures DiskInv(g, Next(g, s, e))
  {
    hide Room, PutList, DecodeHeader;
    HeaderRoundTrip(s.disk[g.start], []);
    assert s.hist[..|s.hist|] == s.hist;
  }

  lemma CrashKeepsDisk(g: Geometry, s: State)
    requires DiskInv(g, s)
    ensures DiskInv(g, CrashStep(s))
  {
    assert s.hist[..s.cut][..s.cut] == s.hist[..s.cut];
  }

  lemma RecReadKeepsDisk(g: Geometry, s: State)
    requires DiskInv(g, s) && Enabled(g, s, RecReadHead)
    ensures DiskInv(g, Next(g, s, RecReadHead))
  {
    hide Room, HistoryIsHome, PutList, Word;
  }

  /** The last operation out starts the commit. */
  lemma CommitStarts(g: Geometry, s: State, t: State)
    requires DiskInv(g, s) && s.phase.Running? && s.lh != [] && PendingHome(g, t.ops)
    requires t.io == s.io.(phase := WritingLog(0)) && t.past == s.past && t.overrun == s.overrun
    ensures DiskInv(g, t)
  {
    hide Recoverable, InstalledUpTo, HomeList, HistoryIsHome;
  }

  lemma CommitOfNothing(g: Geometry, s: State, t: State)
    requires DiskInv(g, s) && s.phase.Running? && s.lh == [] && PendingHome(g, t.ops)
    requires t.io == s.io.(phase := Finishing) && t.past == s.past && t.overrun == s.overrun
    ensures DiskInv(g, t)
  {
    hide Recoverable, InstalledUpTo, HomeList, HistoryIsHome;
  }

  lemma EndKeepsDisk(g: Geometry, s: State, op: nat)
    requires Inv(g, s) && Enabled(g, s, EndOp(op))
    ensures DiskInv(g, Next(g, s, EndOp(op)))
  {
    EndsRunning(s, op);
    hide DiskInv, Readable, OpsInv;
    DiskReadable(g, s);
    var t := EndStep(s, op);
    if t.io == s.io {
      DiskSame(g, s, t);
    } else if s.lh == [] {
      CommitOfNothing(g, s, t);
    } else {
      CommitStarts(g, s, t);
    }
  }

  lemma EndsRunning(s: State, op: nat)
    requires OpsInv(s) && op in s.used
    ensures s.phase.Running?
  {}

  lemma OtherStepsKeepDisk(g: Geometry, s: State, e: Event)
    requires Inv(g, s) && Enabled(g, s, e)
    requires e.BeginOp? || e.BeginWait? || e.Wake? || e.Hold? || e.Release?
    ensures DiskInv(g, Next(g, s, e))
  {
    hide DiskInv, Room, OpsInv, Readable;
    DiskReadable(g, s);
    assert e.BeginOp? || Next(g, s, e).ops == s.ops;
    DiskSame(g, s, Next(g, s, e));
  }

  lemma FinishKeepsDisk(g: Geometry, s: State)
    requires Inv(g, s) && Enabled(g, s, FinishCommit)
    ensures DiskInv(g, Next(g, s, FinishCommit))
  {
    hide Recoverable, InstalledUpTo, HomeList, CutSplitsOps, HistoryIsHome;
  }

  /** The books about operations need nothing of the disk: every step keeps them, in every log area. */
  lemma StepKeepsOps(g: Geometry, s: State, e: Event)
    requires Readable(g, s) && OpsInv(s) && Enabled(g, s, e)
    ensures OpsInv(Next(g, s, e))
  {
    hide OpsInv, Readable, WriteLogStep, InstallStep, ClearStep, HeaderStep, RecReadStep;
    match e
    case BeginOp => BeginKeepsOps(g, s);
    case LogTest(op, b, data) => TestKeepsOps(g, s, op, b, data);
    case LogAppend(op) => AppendKeepsOps(g, s, op);
    case EndOp(op) => EndKeepsOps(g, s, op);
    case WriteHeader => HeaderKeepsOps(g, s);
    case Crash => CrashKeepsOps(g, s);
    case WriteLogBlock => WriteLogKeepsOps(g, s);
    case InstallBlock => InstallKeepsOps(g, s, s.phase.i, AfterInstall(s.lh, s.phase.i + 1));
    case ClearHeader => ClearKeepsOps(g, s, Finishing);
    case RecReadHead => RecReadKeepsOps(g, s);
    case RecInstallBlock => InstallKeepsOps(g, s, s.phase.i, AfterRecInstall(s.lh, s.phase.i + 1));
    case RecClearHeader => ClearKeepsOps(g, s, Running);
    case _ => QuietStepKeepsOps(g, s, e);
  }

  lemma StepKeepsInv(g: Geometry, s: State, e: Event)
    requires Inv(g, s) && Enabled(g, s, e) && Fits(g, s, e)
    ensures Inv(g, Next(g, s, e))
  {
    StepKeepsOps(g, s, e);
    match e
    case LogTest(op, b, data) => TestKeepsDisk(g, s, op, b, data);
    case LogAppend(op) => AppendKeepsDisk(g, s, op);
    case EndOp(op) => EndKeepsDisk(g, s, op);
    case WriteLogBlock => WriteLogKeepsDisk(g, s);
    case WriteHeader => WriteHeaderKeepsDisk(g, s);
    case InstallBlock => InstallKeepsDisk(g, s, e);
    case ClearHeader => ClearKeepsDisk(g, s, e);
    case FinishCommit => FinishKeepsDisk(g, s);
    case Crash => CrashKeepsDisk(g, s);
    case RecReadHead => RecReadKeepsDisk(g, s);
    case RecInstallBlock => InstallKeepsDisk(g, s, e);
    case RecClearHeader => ClearKeepsDisk(g, s, e);
    case _ => OtherStepsKeepDisk(g, s, e);
  }
}
