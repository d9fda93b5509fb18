/** What the number of buffers bounds: the blocks that are pinned, in `log_write` or held by others are all in
    buffers, so there are never more of them than that. */
module LogBuffers {
  import opened Basics
  import opened Blocks
  import opened LogDisk
  import opened LogProtocol
  import opened LogTheorems

  /** Where the pins are: on the listed blocks until the commit point, then on those not yet home. */
  ghost predicate PinsAgree(io: Io) {
    match io.phase
    case Running => Distinct(io.lh) && io.pinned.Keys == Elems(io.lh)
    case WritingLog(_) => io.pinned.Keys <= Elems(io.lh)
    case WritingHead => io.pinned.Keys <= Elems(io.lh)
    case Installing(i) => i <= |io.lh| && io.pinned.Keys <= Elems(io.lh[i..])
    case _ => io.pinned == map[]
  }

  ghost predicate CacheInv(g: Geometry, s: State) {
    PinsAgree(s.io) && |Bufs(s)| <= g.nbuf && (Recovering(s.phase) ==> s.held == map[])
  }

  // ---- the pins ----

  lemma NoPins(lh: seq<nat>, pinned: map<nat, Block>)
    requires pinned.Keys <= Elems(lh) && lh == []
    ensures pinned == map[]
  {
    assert pinned.Keys == {};
  }

  lemma InstallPins(io: Io, t: Io, i: nat)
    requires i < |io.lh| && io.pinned.Keys <= Elems(io.lh[i..])
    requires t.lh == io.lh && t.pinned == io.pinned - {io.lh[i]} && t.phase == AfterInstall(io.lh, i + 1)
    ensures PinsAgree(t)
  {
    assert Elems(io.lh[i..]) <= Elems(io.lh[i + 1..]) + {io.lh[i]};
    if i + 1 == |io.lh| { NoPins(io.lh[i + 1..], t.pinned); }
  }

  lemma AppendPins(s: State, op: nat)
    requires PinsAgree(s.io) && op in s.used && op in s.pending && s.phase.Running?
    ensures PinsAgree(AppendStep(s, op).io)
  {
    var w := s.pending[op];
    assert Elems(Absorb(s.lh, w.block)) == Elems(s.lh) + {w.block};
  }

  lemma EndPins(s: State, op: nat)
    requires PinsAgree(s.io) && s.phase.Running?
    ensures PinsAgree(EndStep(s, op).io)
  {
    if s.lh == [] { NoPins(s.lh, s.pinned); }
  }

  lemma WritePins(g: Geometry, s: State)
    requires Readable(g, s) && PinsAgree(s.io) && s.phase.WritingLog? && s.phase.i < |s.lh|
    ensures PinsAgree(WriteLogStep(g, s).io)
  {
    hide Readable, Room, Bread;
  }

  lemma HeaderPins(g: Geometry, s: State)
    requires Readable(g, s) && PinsAgree(s.io) && s.phase.WritingHead?
    ensures PinsAgree(HeaderStep(g, s).io)
  {
    hide Readable, Room, EncodeHeader;
    assert s.lh[0..] == s.lh;
    if s.lh == [] { NoPins(s.lh, s.pinned); }
  }

  lemma IoPins(g: Geometry, s: State, e: Event)
    requires Readable(g, s) && PinsAgree(s.io) && Enabled(g, s, e)
    requires e.InstallBlock? || e.ClearHeader? || e.RecReadHead? || e.RecInstallBlock? || e.RecClearHeader?
    ensures PinsAgree(Next(g, s, e).io)
  {
    hide Readable, Room, EncodeHeader, DecodeHeader, Bread;
    if e.InstallBlock? && Next(g, s, e).io != s.io { InstallPins(s.io, Next(g, s, e).io, s.phase.i); }
  }

  lemma QuietPins(g: Geometry, s: State, e: Event)
    requires Readable(g, s) && PinsAgree(s.io) && Enabled(g, s, e)
    requires e.BeginOp? || e.BeginWait? || e.Wake? || e.Hold? || e.Release? || e.LogTest? || e.FinishCommit? || e.Crash?
    requires e.FinishCommit? ==> s.lh == []
    ensures PinsAgree(Next(g, s, e).io)
  {
    hide Readable, Room;
  }

  lemma StepKeepsPins(g: Geometry, s: State, e: Event)
    requires Readable(g, s) && OpsInv(s) && PinsAgree(s.io) && Enabled(g, s, e)
    ensures PinsAgree(Next(g, s, e).io)
  {
    if e.EndOp? || e.LogAppend? { EndsRunning(s, e.op); }
    assert e.FinishCommit? ==> s.lh == [];
    hide OpsInv, PinsAgree, Readable, WriteLogStep, HeaderStep, InstallStep, ClearStep, RecReadStep;
    match e
    case LogAppend(op) => AppendPins(s, op);
    case EndOp(op) => EndPins(s, op);
    case WriteLogBlock => WritePins(g, s);
    case WriteHeader => HeaderPins(g, s);
    case InstallBlock => IoPins(g, s, e);
    case ClearHeader => IoPins(g, s, e);
    case RecReadHead => IoPins(g, s, e);
    case RecInstallBlock => IoPins(g, s, e);
    case RecClearHeader => IoPins(g, s, e);
    case _ => QuietPins(g, s, e);
  }

  // ---- the buffers ----

  /** Only an append pins. */
  lemma PinsShrink(g: Geometry, s: State, e: Event)
    requires Readable(g, s) && Enabled(g, s, e) && !e.LogAppend?
    ensures Next(g, s, e).pinned.Keys <= s.pinned.Keys
  {
    hide Readable, Room, EncodeHeader, DecodeHeader, Bread;
  }

  lemma PendingShrinks(g: Geometry, s: State, e: Event)
    requires Readable(g, s) && Enabled(g, s, e) && !e.LogTest?
    ensures PendingBlocks(Next(g, s, e).pending) <= PendingBlocks(s.pending)
  {
    if IsOpEvent(e) {
      hide Readable, Room;
    } else {
      KeepsOps(g, s, e);
      hide Next;
    }
  }

  lemma HeldShrinks(g: Geometry, s: State, e: Event)
    requires Readable(g, s) && Enabled(g, s, e) && !e.Hold?
    ensures HeldBlocks(Next(g, s, e).held) <= HeldBlocks(s.held)
  {
    hide Readable, Room, EncodeHeader, DecodeHeader, Bread;
  }

  lemma AppendBufs(s: State, op: nat)
    requires op in s.used && op in s.pending
    ensures Bufs(AppendStep(s, op)) <= Bufs(s)
  {
    assert s.pending[op].block in PendingBlocks(s.pending);
    assert PendingBlocks(s.pending - {op}) <= PendingBlocks(s.pending);
  }

  lemma TestBufs(g: Geometry, s: State, op: nat, b: nat, data: Block)
    requires |Bufs(s)| <= g.nbuf
    ensures |Bufs(TestStep(g, s, op, b, data))| <= g.nbuf
  {
    hide PendingBlocks, HeldBlocks;
    var t := TestStep(g, s, op, b, data);
    if t.ops == s.ops {
      hide TestStep, Room;
      assert Bufs(t) == Bufs(s);
    } else {
      PendingPut(s.pending, op, Write(op, b, data));
      AtMost(Bufs(t), Bufs(s) + {b, b});
    }
  }

  lemma PendingPut(pending: map<nat, Write>, op: nat, w: Write)
    ensures PendingBlocks(pending[op := w]) <= PendingBlocks(pending) + {w.block}
  {}

  lemma HoldBufs(g: Geometry, s: State, r: nat, b: nat)
    requires |Bufs(s)| <= g.nbuf
    ensures |Bufs(HoldStep(g, s, r, b))| <= g.nbuf
  {
    assert HeldBlocks(s.held[r := b]) <= HeldBlocks(s.held) + {b};
    hide PendingBlocks, HeldBlocks;
    AtMost(Bufs(HoldStep(g, s, r, b)), Bufs(s) + {b, b});
  }

  /** Whatever is in use is in a buffer. */
  lemma StepKeepsBufs(g: Geometry, s: State, e: Event)
    requires Readable(g, s) && Enabled(g, s, e) && |Bufs(s)| <= g.nbuf
    ensures |Bufs(Next(g, s, e))| <= g.nbuf
  {
    hide Readable, PendingBlocks, HeldBlocks, TestStep, HoldStep, AppendStep;
    match e
    case LogTest(op, b, data) => hide Bufs; TestBufs(g, s, op, b, data);
    case Hold(r, b) => hide Bufs; HoldBufs(g, s, r, b);
    case LogAppend(op) => hide Bufs; AppendBufs(s, op); AtMost(Bufs(AppendStep(s, op)), Bufs(s));
    case _ =>
      hide Next, Enabled;
      PinsShrink(g, s, e);
      PendingShrinks(g, s, e);
      HeldShrinks(g, s, e);
      AtMost(Bufs(Next(g, s, e)), Bufs(s));
  }

  lemma StepKeepsHeld(g: Geometry, s: State, e: Event)
    requires Readable(g, s) && Enabled(g, s, e) && (Recovering(s.phase) ==> s.held == map[])
    ensures Recovering(Next(g, s, e).phase) ==> Next(g, s, e).held == map[]
  {
    hide Readable, Room, EncodeHeader, DecodeHeader, Bread;
  }

  lemma StepKeepsCache(g: Geometry, s: State, e: Event)
    requires Readable(g, s) && OpsInv(s) && Enabled(g, s, e) && CacheInv(g, s)
    ensures CacheInv(g, Next(g, s, e))
  {
    hide Readable, OpsInv, Enabled, Next, Bufs, PinsAgree;
    StepKeepsPins(g, s, e);
    StepKeepsBufs(g, s, e);
    StepKeepsHeld(g, s, e);
  }

  // ---- the array ----

  lemma CardOfKeys(m: map<nat, nat>)
    ensures |m| == |m.Keys|
  {}

  /** Other processes have in buffers what they got there and have not let go. */
  lemma HeldExactly(g: Geometry, s: State, e: Event, r: nat, b: nat)
    requires Readable(g, s) && Enabled(g, s, e)
    ensures var t := Next(g, s, e);
            (r in t.held && t.held[r] == b) <==>
              (e == Hold(r, b) && t.fate == Alive) ||
              (r in s.held && s.held[r] == b && e != Release(r) && !e.Crash?)
  {
    hide Readable, EncodeHeader, DecodeHeader, Bread, Buffered;
  }

  /** An append of a new block has it and all the listed ones in buffers. */
  lemma ListedAreCached(g: Geometry, s: State, op: nat)
    requires OpsInv(s) && CacheInv(g, s) && op in s.used && op in s.pending && s.pending[op].block !in s.lh
    ensures |s.lh| < g.nbuf
  {
    EndsRunning(s, op);
    var b := s.pending[op].block;
    assert b in PendingBlocks(s.pending);
    DistinctCard(s.lh);
    assert |Elems(s.lh) + {b}| == |s.lh| + 1;
    AtMost(Elems(s.lh) + {b}, Bufs(s));
  }

  /** There are three operations at most, and each that is past its test found two places left in the area. */
  ghost predicate AreaInv(g: Geometry, s: State) {
    s.outstanding <= LOGSIZE / MAXOPBLOCKS && (s.pending == map[] || |s.lh| + |s.pending| <= g.size + 1)
  }

  lemma TestKeepsArea(g: Geometry, s: State, e: Event)
    requires Readable(g, s) && OpsInv(s) && Enabled(g, s, e) && e.LogTest? && AreaInv(g, s)
    ensures AreaInv(g, Next(g, s, e))
  {
    hide Readable, Room, OpsInv;
    PendingFew(s, e.op, Write(e.op, e.block, e.data));
  }

  lemma PendingFew(s: State, op: nat, w: Write)
    requires OpsInv(s) && op in s.used
    ensures |s.pending[op := w]| <= s.outstanding
  {
    var p := s.pending[op := w];
    assert p.Keys <= s.used.Keys;
    AtMost(p.Keys, s.used.Keys);
    CardOfKeys(s.used);
    PendingCard(p);
  }

  lemma PendingCard(m: map<nat, Write>)
    ensures |m| == |m.Keys|
  {}

  lemma AppendKeepsArea(g: Geometry, s: State, op: nat)
    requires op in s.used && op in s.pending && AreaInv(g, s)
    ensures AreaInv(g, AppendStep(s, op))
  {
    assert (s.pending - {op}).Keys == s.pending.Keys - {op};
    PendingCard(s.pending);
    PendingCard(s.pending - {op});
  }

  lemma OtherKeepsArea(g: Geometry, s: State, e: Event)
    requires Readable(g, s) && OpsInv(s) && Enabled(g, s, e) && AreaInv(g, s) && !e.LogTest? && !e.LogAppend?
    ensures AreaInv(g, Next(g, s, e))
  {
    if s.phase.Running? && !e.Crash? {
      KeepsList(g, s, e);
      OpsShrink(g, s, e);
    } else {
      OpsShrink(g, s, e);
    }
    hide Next, Readable, CutSplitsOps;
  }

  lemma OpsShrink(g: Geometry, s: State, e: Event)
    requires Readable(g, s) && OpsInv(s) && Enabled(g, s, e) && !e.LogTest? && !e.LogAppend?
    ensures Next(g, s, e).pending == s.pending || Next(g, s, e).pending == map[]
    ensures Next(g, s, e).outstanding <= s.outstanding || Next(g, s, e).outstanding <= LOGSIZE / MAXOPBLOCKS
    ensures !s.phase.Running? || e.Crash? ==> Next(g, s, e).pending == map[]
  {
    if !s.phase.Running? { NonePendingOutside(s); }
    hide OpsInv;
    if IsOpEvent(e) {
      hide Readable;
    } else {
      KeepsOps(g, s, e);
      hide Next;
    }
  }

  lemma NonePendingOutside(s: State)
    requires OpsInv(s) && !s.phase.Running?
    ensures s.pending == map[]
  {
    assert forall op :: op !in s.pending;
  }

  // ---- no append writes behind the array ----

  ghost predicate Bounded(g: Geometry, s: State) {
    OpsInv(s) && CacheInv(g, s) && AreaInv(g, s) && !s.overrun
  }

  /** What keeps the append from writing behind the array, budgets or not. */
  predicate SmallEnough(g: Geometry) { g.nbuf <= LOGSIZE || g.size < LOGSIZE }

  lemma AppendInBounds(g: Geometry, s: State, op: nat)
    requires SmallEnough(g) && Bounded(g, s) && op in s.used && op in s.pending
    ensures !AppendStep(s, op).overrun
  {
    if s.pending[op].block !in s.lh {
      ListedAreCached(g, s, op);
      SomePending(s.pending, op);
    }
    hide OpsInv, CacheInv;
  }

  lemma SomePending(m: map<nat, Write>, op: nat)
    requires op in m
    ensures |m| >= 1 && m != map[]
  {
    assert m.Keys != {};
    PendingCard(m);
  }

  lemma StepStaysBounded(g: Geometry, s: State, e: Event)
    requires SmallEnough(g) && Bounded(g, s) && Readable(g, s) && Enabled(g, s, e)
    ensures Bounded(g, Next(g, s, e))
  {
    hide SmallEnough, OpsInv, CacheInv, AreaInv, Readable;
    StepKeepsOps(g, s, e);
    StepKeepsCache(g, s, e);
    if e.LogAppend? {
      AppendInBounds(g, s, e.op);
      AppendKeepsArea(g, s, e.op);
    } else if e.LogTest? {
      KeepsBounds(g, s, e);
      TestKeepsArea(g, s, e);
    } else {
      KeepsBounds(g, s, e);
      OtherKeepsArea(g, s, e);
    }
  }

  lemma {:induction false} RunStaysBounded(g: Geometry, s: State, es: seq<Event>)
    requires SmallEnough(g) && Bounded(g, s) && ValidRun(g, s, es)
    ensures Bounded(g, Exec(g, s, es))
    decreases |es|
  {
    hide SmallEnough, Bounded, Next, Readable, Enabled;
    if es != [] {
      StepStaysBounded(g, s, es[0]);
      RunStaysBounded(g, Next(g, s, es[0]), es[1..]);
    }
  }

  lemma InitBounded(g: Geometry, d: Disk)
    ensures Bounded(g, InitState(d))
  {
    assert Bufs(InitState(d)) == {};
  }
}
