/** When the kernel survives: exactly when operations within their budgets, beside processes that hold so many buffers
    at most, never make it panic; and what holds for the sizes that are built. */
module LogPanics {
  import opened Basics
  import opened Blocks
  import opened LogDisk
  import opened LogProtocol
  import opened LogTheorems
  import opened LogBuffers
  import opened LogFill
  import opened LogSize

  /** Other processes hold `h` buffers at most. */
  predicate Sparing(h: nat, s: State, e: Event) { e.Hold? ==> |s.held| < h }

  ghost predicate SparingRun(g: Geometry, h: nat, s: State, es: seq<Event>)
    decreases |es|
  {
    es == [] || (Readable(g, s) && Enabled(g, s, es[0]) && Disciplined(s, es[0]) && Sparing(h, s, es[0])
                 && SparingRun(g, h, Next(g, s, es[0]), es[1..]))
  }

  /** The area holds every list that fits the array; the cache holds it as well, with the log block that is being
      written and what the others hold. */
  predicate Ample(g: Geometry, h: nat) { g.size > LOGSIZE && g.nbuf > LOGSIZE + h }

  // ---- counting buffers ----

  lemma {:induction false} HeldBound(held: map<nat, nat>)
    ensures |HeldBlocks(held)| <= |held|
  {
    CardOfKeys(held);
    if held == map[] {
      assert HeldBlocks(held) == {};
    } else {
      var r :| r in held;
      var rest := held - {r};
      CardOfKeys(rest);
      assert rest.Keys == held.Keys - {r};
      HeldBound(rest);
      HeldSplit(held, r);
      Grows(HeldBlocks(rest), held[r]);
    }
  }

  lemma HeldSplit(held: map<nat, nat>, r: nat)
    requires r in held
    ensures HeldBlocks(held) == HeldBlocks(held - {r}) + {held[r]}
  {
    forall b | b in HeldBlocks(held)
      ensures b in HeldBlocks(held - {r}) + {held[r]}
    {
      var o :| o in held && held[o] == b;
      if o != r { assert o in held - {r}; }
    }
  }

  lemma {:induction false} ElemsBound(s: seq<nat>)
    ensures |Elems(s)| <= |s|
  {
    if s == [] {
      assert Elems(s) == {};
    } else {
      var n := |s| - 1;
      ElemsBound(s[..n]);
      assert Elems(s) == Elems(s[..n]) + {s[n]};
      Grows(Elems(s[..n]), s[n]);
    }
  }

  /** Pins are on listed blocks; pending and held ones come on top. */
  lemma BufsBound(s: State, b: nat, extra: nat)
    requires s.pinned.Keys <= Elems(s.lh) && (b == extra || b in Elems(s.lh))
    ensures |Bufs(s) + {extra, b}| <= |s.lh| + |s.pending| + |s.held| + 1
  {
    PendingBound(s.pending);
    HeldBound(s.held);
    ElemsBound(s.lh);
    var p, q, r := Elems(s.lh), PendingBlocks(s.pending), HeldBlocks(s.held);
    assert Bufs(s) + {extra, b} <= p + q + r + {extra};
    hide PendingBlocks, HeldBlocks, Elems;
    AtMost(Bufs(s) + {extra, b}, p + q + r + {extra});
    hide Bufs;
    Grows(p + q + r, extra);
  }

  /** Operations with a block left keep at least as many unspent. */
  lemma {:induction false} UnspentOfSome(used: map<nat, nat>, ops: set<nat>, n: nat)
    requires forall o :: o in used ==> used[o] <= MAXOPBLOCKS
    requires forall o :: o in ops ==> o in used && used[o] < MAXOPBLOCKS && o < n
    ensures Unspent(used, n) >= |ops|
  {
    if n == 0 {
      assert ops == {};
    } else if n - 1 in ops {
      UnspentOfSome(used, ops - {n - 1}, n - 1);
    } else {
      UnspentOfSome(used, ops, n - 1);
    }
  }

  lemma PendingReserved(s: State)
    requires OpsInv(s) && Reserved(s)
    ensures |s.lh| + |s.pending| <= LOGSIZE
  {
    PendingCard(s.pending);
    UnspentOfSome(s.used, s.pending.Keys, s.nextOp);
  }

  lemma PinsListed(io: Io)
    requires PinsAgree(io)
    ensures io.pinned.Keys <= Elems(io.lh)
  {
    if io.phase.Installing? { assert Elems(io.lh[io.phase.i..]) <= Elems(io.lh); }
  }

  /** A buffer for a block that is not listed, and for one that is. */
  lemma RoomFor(g: Geometry, h: nat, s: State, x: nat, b: nat)
    requires Ample(g, h) && OpsInv(s) && Reserved(s) && CacheInv(g, s) && |s.held| <= h && (b == x || b in s.lh)
    ensures Room(g, s, x, b)
  {
    hide OpsInv, Reserved, Bufs, PinsAgree;
    PinsListed(s.io);
    PendingReserved(s);
    BufsBound(s, b, x);
  }

  // ---- every step lives ----

  /** A kernel that works, with at most `h` buffers held by others. */
  ghost predicate Works(g: Geometry, h: nat, s: State) {
    Inv(g, s) && Reserved(s) && CacheInv(g, s) && |s.held| <= h && s.fate == Alive && Short(g, s.lh)
  }

  lemma TestLives(g: Geometry, h: nat, s: State, e: Event)
    requires Ample(g, h) && Works(g, h, s) && Enabled(g, s, e) && Disciplined(s, e) && e.LogTest?
    ensures TestStep(g, s, e.op, e.block, e.data).fate == Alive
  {
    hide DiskInv, OpsInv, Reserved, CacheInv, Room;
    RoomLeft(s, e.op);
    RoomFor(g, h, s, e.block, e.block);
  }

  lemma HoldLives(g: Geometry, h: nat, s: State, e: Event)
    requires Ample(g, h) && Works(g, h, s) && e.Hold?
    ensures HoldStep(g, s, e.r, e.block).fate == Alive
  {
    hide DiskInv, OpsInv, Reserved, CacheInv, Room;
    RoomFor(g, h, s, e.block, e.block);
  }

  lemma EndLives(g: Geometry, s: State, op: nat)
    requires OpsInv(s) && op in s.used && s.fate == Alive
    ensures EndStep(s, op).fate == Alive
  {
    EndsRunning(s, op);
    hide CutSplitsOps;
  }

  lemma IoLives(g: Geometry, h: nat, s: State, e: Event)
    requires Ample(g, h) && Works(g, h, s) && Readable(g, s) && Enabled(g, s, e)
    requires e.WriteLogBlock? || e.InstallBlock? || e.RecInstallBlock?
    ensures Next(g, s, e).fate == Alive
  {
    hide DiskInv, OpsInv, Reserved, CacheInv, Room, Readable, Bread;
    LogBlockOnDevice(g, s, s.phase.i);
    RoomFor(g, h, s, LogBlock(g, s.phase.i), s.lh[s.phase.i]);
  }

  lemma LogBlockOnDevice(g: Geometry, s: State, i: nat)
    requires Readable(g, s) && Short(g, s.lh) && i < |s.lh|
    ensures LogBlock(g, i) < g.nblocks
  {}

  lemma HeaderLives(g: Geometry, h: nat, s: State, e: Event)
    requires Ample(g, h) && Works(g, h, s) && Readable(g, s) && Enabled(g, s, e)
    requires e.WriteHeader? || e.ClearHeader? || e.RecReadHead? || e.RecClearHeader?
    ensures Next(g, s, e).fate == Alive
  {
    hide DiskInv, OpsInv, Reserved, CacheInv, Room, Readable, EncodeHeader, DecodeHeader;
    RoomFor(g, h, s, g.start, g.start);
  }

  lemma OthersLive(g: Geometry, s: State, e: Event)
    requires Readable(g, s) && Enabled(g, s, e) && s.fate == Alive
    requires e.BeginOp? || e.BeginWait? || e.Wake? || e.Release? || e.LogAppend? || e.FinishCommit? || e.Crash?
    ensures Next(g, s, e).fate == Alive
  {
    hide Readable;
  }

  lemma StepLives(g: Geometry, h: nat, s: State, e: Event)
    requires Ample(g, h) && Works(g, h, s) && Readable(g, s) && Enabled(g, s, e) && Disciplined(s, e)
    ensures Next(g, s, e).fate == Alive
  {
    hide Ample, DiskInv, OpsInv, Reserved, CacheInv, Readable, Disciplined;
    hide TestStep, HoldStep, EndStep, WriteLogStep, InstallStep, HeaderStep, ClearStep, RecReadStep;
    match e
    case LogTest(_, _, _) => TestLives(g, h, s, e);
    case Hold(_, _) => HoldLives(g, h, s, e);
    case EndOp(op) => EndLives(g, s, op);
    case WriteLogBlock => IoLives(g, h, s, e);
    case InstallBlock => IoLives(g, h, s, e);
    case RecInstallBlock => IoLives(g, h, s, e);
    case WriteHeader => HeaderLives(g, h, s, e);
    case ClearHeader => HeaderLives(g, h, s, e);
    case RecReadHead => HeaderLives(g, h, s, e);
    case RecClearHeader => HeaderLives(g, h, s, e);
    case _ => OthersLive(g, s, e);
  }

  lemma StepHolds(g: Geometry, h: nat, s: State, e: Event)
    requires Readable(g, s) && Enabled(g, s, e) && Sparing(h, s, e) && |s.held| <= h
    ensures |Next(g, s, e).held| <= h
  {
    hide Readable;
    if e.Hold? {
      CardAdd(s.held, e.r, e.block);
      hide Room;
    } else if e.Release? {
      CardRemove(s.held, e.r);
    } else {
      hide Next;
      KeepsHeld(g, s, e);
    }
  }

  lemma KeepsHeld(g: Geometry, s: State, e: Event)
    requires Readable(g, s) && Enabled(g, s, e) && !e.Hold? && !e.Release?
    ensures Next(g, s, e).held == s.held || Next(g, s, e).held == map[]
  {
    hide Readable, Room, EncodeHeader, DecodeHeader, Bread;
  }

  lemma ShortStays(g: Geometry, s: State)
    requires Inv(g, s) && g.size > LOGSIZE
    ensures Short(g, s.lh) && Readable(g, s)
  {}

  lemma StepWorks(g: Geometry, h: nat, s: State, e: Event)
    requires Ample(g, h) && Works(g, h, s) && Enabled(g, s, e) && Disciplined(s, e) && Sparing(h, s, e)
    ensures Readable(g, s) && Works(g, h, Next(g, s, e))
  {
    ShortStays(g, s);
    SafeFits(g, s, e);
    hide Readable, Inv, Reserved, CacheInv, Enabled, Disciplined, Sparing, Next, Fits;
    InvMeans(g, s);
    StepKeepsInv(g, s, e);
    StepKeepsReserved(g, s, e);
    StepKeepsCache(g, s, e);
    StepLives(g, h, s, e);
    StepHolds(g, h, s, e);
    ShortStays(g, Next(g, s, e));
  }

  lemma InvMeans(g: Geometry, s: State)
    requires Inv(g, s)
    ensures DiskInv(g, s) && OpsInv(s)
  {}

  lemma {:induction false} RunWorks(g: Geometry, h: nat, s: State, es: seq<Event>)
    requires Ample(g, h) && Works(g, h, s) && SparingRun(g, h, s, es)
    ensures ValidRun(g, s, es) && Works(g, h, Exec(g, s, es))
    decreases |es|
  {
    hide Ample, Works, Enabled, Disciplined, Sparing, Next, Readable;
    if es != [] {
      StepWorks(g, h, s, es[0]);
      RunWorks(g, h, Next(g, s, es[0]), es[1..]);
    }
  }

  // ---- the runs that panic ----

  lemma {:induction false} FillIsSparing(g: Geometry, h: nat, s: State, es: seq<Event>)
    requires DisciplinedRun(g, s, es) && forall i :: 0 <= i < |es| ==> !es[i].Hold?
    ensures SparingRun(g, h, s, es)
    decreases |es|
  {
    hide Readable, Enabled, Disciplined, Next;
    if es != [] { FillIsSparing(g, h, Next(g, s, es[0]), es[1..]); }
  }

  lemma {:induction false} JoinSparing(g: Geometry, h: nat, s: State, es: seq<Event>, fs: seq<Event>)
    requires ValidRun(g, s, es) && SparingRun(g, h, s, es) && SparingRun(g, h, Exec(g, s, es), fs)
    ensures SparingRun(g, h, s, es + fs)
    decreases |es|
  {
    hide Readable, Enabled, Disciplined, Next, Sparing;
    if es == [] {
      assert es + fs == fs;
    } else {
      JoinSparing(g, h, Next(g, s, es[0]), es[1..], fs);
      assert (es + fs)[1..] == es[1..] + fs;
    }
  }

  /** With the cache or the area full, one more `log_write` stops the kernel. */
  lemma TestDies(g: Geometry, d: Disk, s: State, blocks: seq<nat>, k: nat, data: Block)
    requires Homes(g, blocks) && Filled(g, d, s, blocks, k, data) && s.pending == map[] && k < LOGSIZE
    requires k == g.nbuf || k == g.size - 1
    ensures Enabled(g, s, LogTest(Turn(k), blocks[k], data)) && Disciplined(s, LogTest(Turn(k), blocks[k], data))
    ensures TestStep(g, s, Turn(k), blocks[k], data).fate != Alive
  {
    hide Room, Filled, Homes;
    HomesAre(g, blocks, k);
    FilledMeans(g, d, s, blocks, k, data);
    ShareLeft(k, k);
    if k == g.nbuf { CacheFull(g, d, s, blocks, k, data); }
  }

  lemma HomesAre(g: Geometry, blocks: seq<nat>, k: nat)
    requires Homes(g, blocks) && k < LOGSIZE
    ensures k < |blocks| && IsHome(g, blocks[k])
  {}

  lemma CacheFull(g: Geometry, d: Disk, s: State, blocks: seq<nat>, k: nat, data: Block)
    requires Homes(g, blocks) && Filled(g, d, s, blocks, k, data) && s.pending == map[] && k == g.nbuf < LOGSIZE
    ensures !Room(g, s, blocks[k], blocks[k])
  {
    hide Filled;
    FilledBufs(g, d, s, blocks, k, data);
    assert PendingBlocks(s.pending) == {};
    hide PendingBlocks, Bufs;
    DistinctCard(blocks[..k + 1]);
    assert Bufs(s) + {blocks[k], blocks[k]} == Elems(blocks[..k + 1]);
  }

  lemma EarlyPanic(g: Geometry, d: Disk, blocks: seq<nat>) returns (es: seq<Event>)
    requires ValidDisk(g, d) && Homes(g, blocks) && (g.nbuf < LOGSIZE || g.size <= LOGSIZE)
    ensures FillRun(g, d, es) && Exec(g, InitState(d), es).fate != Alive
  {
    var k := Min(g.nbuf, g.size - 1);
    var fs := Fill(g, d, blocks, k, d[0]);
    var s := Exec(g, InitState(d), fs);
    hide Filled, Readable, Enabled, Disciplined, TestStep, FillRun, Exec, Next, Turn;
    FilledReadable(g, d, s, blocks, k, d[0]);
    TestDies(g, d, s, blocks, k, d[0]);
    NextTest(g, s, Turn(k), blocks[k], d[0]);
    es := Extended(g, d, fs, LogTest(Turn(k), blocks[k], d[0]), TestStep(g, s, Turn(k), blocks[k], d[0]));
  }

  /** `others` are blocks that other processes can hold, none of them logged. */
  ghost predicate Others(g: Geometry, blocks: seq<nat>, others: seq<nat>) {
    Distinct(others) && forall i :: 0 <= i < |others| ==> IsHome(g, others[i]) && others[i] !in blocks
  }

  ghost function HeldOf(others: seq<nat>, j: nat): map<nat, nat>
    requires j <= |others|
  {
    map i | 0 <= i < j :: others[i]
  }

  lemma HeldOfBlocks(others: seq<nat>, j: nat)
    requires j <= |others|
    ensures HeldBlocks(HeldOf(others, j)) == Elems(others[..j]) && |HeldOf(others, j)| == j
  {
    forall b | b in Elems(others[..j])
      ensures b in HeldBlocks(HeldOf(others, j))
    {
      var i :| 0 <= i < j && others[i] == b;
      assert i in HeldOf(others, j);
    }
    HeldOfCard(others, j);
  }

  lemma {:induction false} HeldOfCard(others: seq<nat>, j: nat)
    requires j <= |others|
    ensures |HeldOf(others, j)| == j
  {
    if j == 0 {
      assert HeldOf(others, 0) == map[];
    } else {
      HeldOfCard(others, j - 1);
      assert HeldOf(others, j) == HeldOf(others, j - 1)[j - 1 := others[j - 1]];
      CardAdd(HeldOf(others, j - 1), j - 1, others[j - 1]);
    }
  }

  /** All of `blocks` are pinned and the first `j` of `others` are held. */
  ghost predicate Crowded(g: Geometry, s: State, blocks: seq<nat>, others: seq<nat>, j: nat) {
    && j <= |others| && s.pinned.Keys == Elems(blocks) && s.pending == map[] && s.held == HeldOf(others, j)
    && s.fate == Alive && !s.overrun && Homes(g, blocks) && Others(g, blocks, others)
  }

  lemma CrowdedBufs(g: Geometry, s: State, blocks: seq<nat>, others: seq<nat>, j: nat)
    requires Crowded(g, s, blocks, others, j)
    ensures j <= |others| && Bufs(s) == Elems(blocks) + Elems(others[..j]) && |Bufs(s)| == LOGSIZE + j
  {
    HeldOfBlocks(others, j);
    assert PendingBlocks(s.pending) == {};
    hide PendingBlocks, HeldBlocks, HeldOf;
    DistinctCard(blocks);
    DistinctCard(others[..j]);
    assert Elems(blocks) !! Elems(others[..j]);
  }

  lemma CrowdedRoom(g: Geometry, s: State, blocks: seq<nat>, others: seq<nat>, j: nat, x: nat, b: nat)
    requires Crowded(g, s, blocks, others, j) && (b == x || b in blocks)
    ensures LOGSIZE + j < g.nbuf ==> Room(g, s, x, b)
    ensures x !in blocks && x !in others && LOGSIZE + j >= g.nbuf ==> !Room(g, s, x, b)
  {
    hide Crowded, Bufs;
    CrowdedBufs(g, s, blocks, others, j);
    OneMoreBlock(Bufs(s), blocks, others, j, x, b);
  }

  lemma OneMoreBlock(bufs: set<nat>, blocks: seq<nat>, others: seq<nat>, j: nat, x: nat, b: nat)
    requires j <= |others| && bufs == Elems(blocks) + Elems(others[..j]) && (b == x || b in blocks)
    ensures |bufs + {x, b}| <= |bufs| + 1
    ensures x !in blocks && x !in others ==> |bufs + {x, b}| == |bufs| + 1
  {
    assert bufs + {x, b} == bufs + {x};
    assert x !in blocks && x !in others ==> x !in bufs;
    hide Elems;
    Grows(bufs, x);
  }

  lemma HeldOfNext(others: seq<nat>, j: nat)
    requires j < |others|
    ensures HeldOf(others, j)[j := others[j]] == HeldOf(others, j + 1) && j !in HeldOf(others, j)
    ensures |HeldOf(others, j)| == j
  {
    HeldOfCard(others, j);
  }

  lemma HoldFits(g: Geometry, s: State, r: nat, b: nat)
    requires Room(g, s, b, b)
    ensures HoldStep(g, s, r, b) == s.(held := s.held[r := b])
  {
    hide Room;
  }

  lemma CrowdedNext(g: Geometry, s: State, blocks: seq<nat>, others: seq<nat>, j: nat)
    requires Crowded(g, s, blocks, others, j) && j < |others|
    ensures Crowded(g, s.(held := HeldOf(others, j + 1)), blocks, others, j + 1)
    ensures s.held == HeldOf(others, j) && s.fate == Alive && !s.overrun && IsHome(g, others[j])
  {
    hide HeldOf, Homes;
  }

  lemma HoldOne(g: Geometry, h: nat, s: State, blocks: seq<nat>, others: seq<nat>, j: nat)
    requires Readable(g, s) && Crowded(g, s, blocks, others, j) && s.phase.Running? && j < |others| && j < h
    requires LOGSIZE + j < g.nbuf
    ensures var e := Hold(j, others[j]);
            && Enabled(g, s, e) && Disciplined(s, e) && Sparing(h, s, e)
            && Next(g, s, e) == s.(held := HeldOf(others, j + 1)) && Crowded(g, Next(g, s, e), blocks, others, j + 1)
  {
    hide Room, Readable, Crowded, HeldOf, HoldStep;
    CrowdedNext(g, s, blocks, others, j);
    CrowdedRoom(g, s, blocks, others, j, others[j], others[j]);
    HeldOfNext(others, j);
    HoldFits(g, s, j, others[j]);
  }

  lemma {:induction false} HoldMany(g: Geometry, h: nat, s: State, blocks: seq<nat>, others: seq<nat>, j: nat, n: nat)
    returns (es: seq<Event>)
    requires Readable(g, s) && Crowded(g, s, blocks, others, j) && s.phase.Running? && j <= n <= |others| && n <= h
    requires LOGSIZE + n <= g.nbuf
    ensures ValidRun(g, s, es) && SparingRun(g, h, s, es) && Exec(g, s, es) == s.(held := HeldOf(others, n))
    ensures Crowded(g, Exec(g, s, es), blocks, others, n) && Readable(g, Exec(g, s, es))
    decreases n - j
  {
    if j == n {
      es := [];
    } else {
      var e := Hold(j, others[j]);
      HoldOne(g, h, s, blocks, others, j);
      HeldReadable(g, s, HeldOf(others, j + 1));
      hide Readable, Crowded, Enabled, Disciplined, Sparing, Next, HeldOf;
      var fs := HoldMany(g, h, Next(g, s, e), blocks, others, j + 1, n);
      es := [e] + fs;
      assert es[1..] == fs;
    }
  }

  lemma HeldReadable(g: Geometry, s: State, held: map<nat, nat>)
    requires Readable(g, s)
    ensures Readable(g, s.(held := held))
  {}

  /** With every buffer pinned or held the commit finds none for its first log block. */
  lemma CommitDies(g: Geometry, s: State, blocks: seq<nat>, others: seq<nat>, j: nat)
    requires Readable(g, s) && Crowded(g, s, blocks, others, j) && s.phase == WritingLog(0) && s.lh == blocks
    requires g.size >= 2 && g.nbuf == LOGSIZE + j
    ensures Enabled(g, s, WriteLogBlock) && WriteLogStep(g, s).fate == NoBuffers
  {
    hide Room, Readable, Homes, Others;
    LogBlockIsNone(g, blocks, others);
    CrowdedRoom(g, s, blocks, others, j, LogBlock(g, 0), s.lh[0]);
  }

  lemma LogBlockIsNone(g: Geometry, blocks: seq<nat>, others: seq<nat>)
    requires Homes(g, blocks) && Others(g, blocks, others) && g.size >= 2
    ensures LogBlock(g, 0) !in blocks && LogBlock(g, 0) !in others && |blocks| == LOGSIZE
  {
    assert InLog(g, LogBlock(g, 0));
  }

  /** A full list, and so many buffers held that none is left for the commit. */
  lemma LatePanic(g: Geometry, h: nat, d: Disk, blocks: seq<nat>, others: seq<nat>) returns (es: seq<Event>)
    requires ValidDisk(g, d) && Homes(g, blocks) && Others(g, blocks, others) && |others| == h
    requires g.size > LOGSIZE && LOGSIZE <= g.nbuf <= LOGSIZE + h
    ensures ValidRun(g, InitState(d), es) && SparingRun(g, h, InitState(d), es)
    ensures Exec(g, InitState(d), es).fate == NoBuffers
  {
    var n := g.nbuf - LOGSIZE;
    var fs := Fill(g, d, blocks, LOGSIZE, d[0]);
    var s := Exec(g, InitState(d), fs);
    FillRunValid(g, d, fs);
    FillIsSparing(g, h, InitState(d), fs);
    assert FilledOps(s.ops, blocks, LOGSIZE);
    FilledCrowded(g, d, s, blocks, others, d[0]);
    hide Filled, FillRun, FilledOps, Crowded, Readable, Enabled, Next, Disciplined, Sparing, HeldOf;
    var hs := HoldMany(g, h, s, blocks, others, 0, n);
    es := LastSteps(g, h, d, Exec(g, s, hs), blocks, others, n);
    JoinRuns(g, s, hs, es);
    JoinSparing(g, h, s, hs, es);
    JoinRuns(g, InitState(d), fs, hs + es);
    JoinSparing(g, h, InitState(d), fs, hs + es);
    es := fs + (hs + es);
  }

  lemma FilledCrowded(g: Geometry, d: Disk, s: State, blocks: seq<nat>, others: seq<nat>, data: Block)
    requires ValidDisk(g, d) && Homes(g, blocks) && Others(g, blocks, others)
    requires Filled(g, d, s, blocks, LOGSIZE, data) && s.pending == map[]
    ensures Readable(g, s) && Crowded(g, s, blocks, others, 0) && s.phase.Running? && s.lh == blocks
  {
    FilledReadable(g, d, s, blocks, LOGSIZE, data);
    assert blocks[..LOGSIZE] == blocks;
    assert HeldOf(others, 0) == map[];
    hide Readable, FilledPast, FilledOps;
  }

  lemma LastSteps(g: Geometry, h: nat, d: Disk, s: State, blocks: seq<nat>, others: seq<nat>, j: nat)
    returns (es: seq<Event>)
    requires Readable(g, s) && Crowded(g, s, blocks, others, j) && s.lh == blocks && FilledOps(s.ops, blocks, LOGSIZE)
    requires g.size >= 2 && g.nbuf == LOGSIZE + j
    ensures ValidRun(g, s, es) && SparingRun(g, h, s, es) && Exec(g, s, es).fate == NoBuffers
    ensures Exec(g, s, es).disk == s.disk && Exec(g, s, es).lh == s.lh
  {
    var ends := [EndOp(0), EndOp(1), EndOp(2)];
    EndRun(g, d, s, blocks, LOGSIZE, ZeroBlock());
    FillIsSparing(g, h, s, ends);
    var t := Exec(g, s, ends);
    StillCrowded(g, s, t, blocks, others, j);
    hide Crowded, Readable, FilledOps, Exec, Next, Enabled;
    CommitDies(g, t, blocks, others, j);
    NextWriteLog(g, t);
    DeadAsBefore(g, t);
    OneStep(g, h, t, WriteLogBlock);
    JoinRuns(g, s, ends, [WriteLogBlock]);
    JoinSparing(g, h, s, ends, [WriteLogBlock]);
    es := ends + [WriteLogBlock];
  }

  lemma DeadAsBefore(g: Geometry, s: State)
    requires Readable(g, s) && s.phase.WritingLog? && s.phase.i < |s.lh| && WriteLogStep(g, s).fate == NoBuffers
    requires s.fate == Alive
    ensures WriteLogStep(g, s).io == s.io
  {
    hide Readable, Room, Bread;
  }

  lemma StillCrowded(g: Geometry, s: State, t: State, blocks: seq<nat>, others: seq<nat>, j: nat)
    requires Readable(g, s) && Crowded(g, s, blocks, others, j)
    requires t.io == s.io.(phase := WritingLog(0)) && t.past == s.past && t.held == s.held && t.pending == map[]
    requires t.fate == Alive && !t.overrun
    ensures Readable(g, t) && Crowded(g, t, blocks, others, j)
  {}

  lemma OneStep(g: Geometry, h: nat, s: State, e: Event)
    requires Readable(g, s) && Enabled(g, s, e) && Disciplined(s, e) && Sparing(h, s, e)
    ensures ValidRun(g, s, [e]) && SparingRun(g, h, s, [e]) && Exec(g, s, [e]) == Next(g, s, e)
  {
    hide Readable, Enabled, Disciplined, Next;
    assert ValidRun(g, Next(g, s, e), []) && SparingRun(g, h, Next(g, s, e), []) && [e][1..] == [];
  }

  /** Operations within their budgets, beside processes that hold `h` buffers at most, never make the kernel panic
      exactly when the area has more than LOGSIZE blocks and the cache more than LOGSIZE + h buffers. */
  lemma PanicExact(g: Geometry, h: nat, d: Disk, blocks: seq<nat>, others: seq<nat>)
    requires ValidDisk(g, d) && HeaderIs(g, d, []) && Homes(g, blocks) && Others(g, blocks, others) && |others| == h
    ensures (forall es :: SparingRun(g, h, InitState(d), es) ==>
               ValidRun(g, InitState(d), es) && Exec(g, InitState(d), es).fate == Alive)
        <==> Ample(g, h)
  {
    if Ample(g, h) {
      InitWorks(g, h, d);
      forall es | SparingRun(g, h, InitState(d), es)
        ensures ValidRun(g, InitState(d), es) && Exec(g, InitState(d), es).fate == Alive
      {
        RunWorks(g, h, InitState(d), es);
      }
    } else if g.nbuf < LOGSIZE || g.size <= LOGSIZE {
      var es := EarlyPanic(g, d, blocks);
      FillIsSparing(g, h, InitState(d), es);
    } else {
      var es := LatePanic(g, h, d, blocks, others);
    }
  }

  lemma InitWorks(g: Geometry, h: nat, d: Disk)
    requires ValidDisk(g, d) && HeaderIs(g, d, [])
    ensures Works(g, h, InitState(d))
  {
    InitSafe(g, d);
    InitBounded(g, d);
    hide DiskInv, OpsInv, Reserved, PinsAgree, AreaInv;
  }

  // ---- the sizes that are built ----

  /** With no more buffers than blocks in the area, or places in the array, every append fits, budgets or not. */
  predicate SmallCache(g: Geometry) { 2 <= g.size && g.nbuf <= g.size && g.nbuf <= LOGSIZE }

  lemma CachedFits(g: Geometry, s: State, e: Event)
    requires SmallCache(g) && OpsInv(s) && CacheInv(g, s) && Enabled(g, s, e)
    ensures Fits(g, s, e)
  {
    if e.LogAppend? && s.pending[e.op].block !in s.lh {
      ListedAreCached(g, s, e.op);
      assert |s.lh + [s.pending[e.op].block]| == |s.lh| + 1;
    }
    hide OpsInv, CacheInv;
  }

  lemma {:induction false} SmallCacheRuns(g: Geometry, s: State, es: seq<Event>)
    requires SmallCache(g) && Inv(g, s) && CacheInv(g, s) && ValidRun(g, s, es)
    ensures Inv(g, Exec(g, s, es))
    decreases |es|
  {
    hide SmallCache, DiskInv, OpsInv, CacheInv, Readable, Enabled, Next, Fits;
    if es != [] {
      CachedFits(g, s, es[0]);
      StepKeepsInv(g, s, es[0]);
      StepKeepsCache(g, s, es[0]);
      SmallCacheRuns(g, Next(g, s, es[0]), es[1..]);
    }
  }

  /** Then every run is crash-atomic, whatever its operations log. */
  lemma SmallCacheIsAtomic(g: Geometry, d: Disk, es: seq<Event>)
    requires SmallCache(g) && ValidDisk(g, d) && HeaderIs(g, d, []) && ValidRun(g, InitState(d), es)
    ensures Atomic(g, Exec(g, InitState(d), es)) && !Exec(g, InitState(d), es).overrun
  {
    InitInv(g, d);
    InitBounded(g, d);
    SmallCacheRuns(g, InitState(d), es);
    InvRecovers(g, Exec(g, InitState(d), es));
  }

  /** The log area of the image, and the cache: 30 blocks from block 2 on, 30 buffers. */
  const BUILT: Geometry := Geometry(2, 30, 1000, 30)

  /** Operations within their budgets can fill an area and a cache of LOGSIZE each: the commit then stops before it
      has written anything. */
  lemma FullListDies(g: Geometry, d: Disk, blocks: seq<nat>) returns (es: seq<Event>)
    requires ValidDisk(g, d) && Homes(g, blocks) && g.size == g.nbuf == LOGSIZE
    ensures ValidRun(g, InitState(d), es) && SparingRun(g, 0, InitState(d), es)
    ensures var s := Exec(g, InitState(d), es); s.fate == NoBuffers && s.lh == blocks && s.disk == d
  {
    var fs := Overfilled(g, d, blocks, d[0]);
    var s := Exec(g, InitState(d), fs);
    FillRunValid(g, d, fs);
    FillIsSparing(g, 0, InitState(d), fs);
    assert FilledOps(s.ops, blocks, LOGSIZE) && s.disk == d;
    FilledCrowded(g, d, s, blocks, [], d[0]);
    hide Filled, FillRun, FilledOps, Crowded, Readable, Enabled, Next, Disciplined, Sparing, HeldOf;
    es := LastSteps(g, 0, d, s, blocks, [], 0);
    JoinRuns(g, InitState(d), fs, es);
    JoinSparing(g, 0, InitState(d), fs, es);
    es := fs + es;
  }

  /** As built, every run is crash-atomic and none writes behind the array; but operations within their budgets can
      make the kernel panic, by the test of `log_write` or for want of a buffer. */
  lemma AsBuilt(d: Disk, blocks: seq<nat>)
    requires ValidDisk(BUILT, d) && HeaderIs(BUILT, d, []) && Homes(BUILT, blocks)
    ensures forall es :: ValidRun(BUILT, InitState(d), es) ==>
              Atomic(BUILT, Exec(BUILT, InitState(d), es)) && !Exec(BUILT, InitState(d), es).overrun
    ensures exists es :: FillRun(BUILT, d, es) && Exec(BUILT, InitState(d), es).fate == TooBig
    ensures exists es :: ValidRun(BUILT, InitState(d), es) && SparingRun(BUILT, 0, InitState(d), es) &&
                         Exec(BUILT, InitState(d), es).fate == NoBuffers
  {
    forall es | ValidRun(BUILT, InitState(d), es)
      ensures Atomic(BUILT, Exec(BUILT, InitState(d), es)) && !Exec(BUILT, InitState(d), es).overrun
    {
      SmallCacheIsAtomic(BUILT, d, es);
    }
    var es := SmallLogPanics(BUILT, d, blocks);
    es := FullListDies(BUILT, d, blocks);
  }
}
