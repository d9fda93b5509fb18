/** What every run of the log protocol guarantees: crash atomicity, the group-commit cut, and the
    `begin_op` reservation. */
module LogTheorems {
  import opened Basics
  import opened Blocks
  import opened LogDisk
  import opened LogProtocol

  ghost predicate ValidRun(g: Geometry, s: State, es: seq<Event>)
    decreases |es|
  {
    es == [] || (Readable(g, s) && Enabled(g, s, es[0]) && ValidRun(g, Next(g, s, es[0]), es[1..]))
  }

  ghost function Exec(g: Geometry, s: State, es: seq<Event>): State
    requires ValidRun(g, s, es)
    decreases |es|
  {
    if es == [] then s else Exec(g, Next(g, s, es[0]), es[1..])
  }

  /** A run in which every append finds room. */
  ghost predicate FittingRun(g: Geometry, s: State, es: seq<Event>)
    decreases |es|
  {
    es == [] ||
    (Readable(g, s) && Enabled(g, s, es[0]) && Fits(g, s, es[0]) && FittingRun(g, Next(g, s, es[0]), es[1..]))
  }

  lemma {:induction false} RunKeepsInv(g: Geometry, s: State, es: seq<Event>)
    requires Inv(g, s) && FittingRun(g, s, es)
    ensures ValidRun(g, s, es) && Inv(g, Exec(g, s, es))
    decreases |es|
  {
    if es != [] {
      StepKeepsInv(g, s, es[0]);
      RunKeepsInv(g, Next(g, s, es[0]), es[1..]);
    }
  }

  // ---- The writes of a run, told from its events ----

  /** The history after an event: an append adds what its operation tested last, a crash leaves what was committed. */
  function Told(tests: map<nat, Change>, h: seq<Write>, cut: nat, e: Event): seq<Write> {
    match e
    case LogAppend(op) => if op in tests then h + [Write(op, tests[op].block, tests[op].data)] else h
    case Crash => if cut <= |h| then h[..cut] else h
    case _ => h
  }

  /** The block and data of the last test of each operation. */
  function Tests(tests: map<nat, Change>, e: Event): map<nat, Change> {
    match e
    case LogTest(op, b, data) => tests[op := Change(b, data)]
    case _ => tests
  }

  /** The writes that a run logs, after those of `h`.  Of the states only the commit points count. */
  ghost function RunWrites(g: Geometry, s: State, tests: map<nat, Change>, h: seq<Write>, es: seq<Event>): seq<Write>
    requires ValidRun(g, s, es)
    decreases |es|
  {
    if es == [] then h
    else RunWrites(g, Next(g, s, es[0]), Tests(tests, es[0]), Told(tests, h, s.cut, es[0]), es[1..])
  }

  ghost predicate FromTests(tests: map<nat, Change>, s: State) {
    forall op :: op in s.pending ==>
      op in tests && s.pending[op] == Write(op, tests[op].block, tests[op].data)
  }

  lemma TestTells(g: Geometry, s: State, tests: map<nat, Change>, e: Event)
    requires Readable(g, s) && Enabled(g, s, e) && FromTests(tests, s)
    ensures FromTests(Tests(tests, e), Next(g, s, e))
  {
    hide Readable, Room;
    if !IsOpEvent(e) {
      hide Next;
      KeepsOps(g, s, e);
    }
  }

  lemma StepTells(g: Geometry, s: State, tests: map<nat, Change>, e: Event)
    requires Readable(g, s) && Enabled(g, s, e) && FromTests(tests, s)
    ensures var t := Next(g, s, e);
            t.init == s.init && (t.overrun || t.hist == Told(tests, s.hist, s.cut, e))
  {
    hide Room, HistoryIsHome, EncodeHeader, ValidDisk;
    if !e.LogAppend? && !e.WriteHeader? && !e.Crash? {
      hide Next, FromTests;
      KeepsPast(g, s, e);
    }
  }

  lemma {:induction false} HistoryIsTold(g: Geometry, s: State, tests: map<nat, Change>, es: seq<Event>)
    requires ValidRun(g, s, es) && FromTests(tests, s)
    ensures var t := Exec(g, s, es);
            t.init == s.init && (t.overrun || t.hist == RunWrites(g, s, tests, s.hist, es))
    decreases |es|
  {
    if es != [] {
      hide Next, Readable, FromTests, Told, Tests;
      StepTells(g, s, tests, es[0]);
      TestTells(g, s, tests, es[0]);
      HistoryIsTold(g, Next(g, s, es[0]), Tests(tests, es[0]), es[1..]);
    }
  }

  /** The history of a run from the start is what its events log. */
  lemma HistoryIsLogged(g: Geometry, d: Disk, es: seq<Event>)
    requires ValidRun(g, InitState(d), es)
    ensures var t := Exec(g, InitState(d), es);
            t.init == d && (t.overrun || t.hist == RunWrites(g, InitState(d), map[], [], es))
  {
    HistoryIsTold(g, InitState(d), map[], es);
  }

  // ---- The cache shows the last write ----

  ghost predicate Shown(g: Geometry, d: Disk, pinned: map<nat, Block>, logical: Disk)
    requires ValidDisk(g, d) && ValidDisk(g, logical)
  {
    forall b: nat :: IsHome(g, b) ==> logical[b] == if b in pinned then pinned[b] else d[b]
  }

  /** Whoever reads a block now gets what was logged for it last, committed or not. */
  ghost predicate CacheShows(g: Geometry, s: State)
    requires Readable(g, s)
  {
    Shown(g, s.disk, s.pinned, Logical(g, s))
  }

  lemma HeaderShown(g: Geometry, d: Disk, pinned: map<nat, Block>, logical: Disk, hb: Block)
    requires ValidDisk(g, d) && ValidDisk(g, logical) && Shown(g, d, pinned, logical)
    ensures Shown(g, d[g.start := hb], pinned, logical)
  {}

  lemma InstallShown(g: Geometry, d: Disk, pinned: map<nat, Block>, logical: Disk, h: nat)
    requires ValidDisk(g, d) && ValidDisk(g, logical) && Shown(g, d, pinned, logical) && IsHome(g, h)
    ensures Shown(g, d[h := logical[h]], pinned - {h}, logical)
  {}

  lemma HeaderKeepsShows(g: Geometry, s: State)
    requires Readable(g, s) && CacheShows(g, s) && Readable(g, HeaderStep(g, s))
    ensures CacheShows(g, HeaderStep(g, s))
  {
    ListEncodable(g, s.lh);
    HeaderShown(g, s.disk, s.pinned, Logical(g, s), EncodeHeader(s.disk[g.start], s.lh));
    hide Room, EncodeHeader, Shown, Readable, Replay;
  }

  /** The block that is about to be copied home has the contents that are shown. */
  lemma LoggedIsShown(g: Geometry, s: State)
    requires Inv(g, s) && s.phase.Installing? && s.phase.i < |s.lh|
    ensures var x := LogBlock(g, s.phase.i);
            x < g.nblocks && x !in s.pinned && IsHome(g, s.lh[s.phase.i]) &&
            s.disk[x] == Logical(g, s)[s.lh[s.phase.i]]
  {
    hide OpsInv, HistoryIsHome, PutList, Word;
    LogBlockNotPinned(g, s, s.phase.i);
    assert s.hist[..s.cut] == s.hist;
    assert DecodeHeader(s.disk[g.start]) == s.lh;
  }

  lemma InstallKeepsShows(g: Geometry, s: State)
    requires Inv(g, s) && s.phase.Installing? && s.phase.i < |s.lh| && CacheShows(g, s)
    requires Readable(g, InstallStep(g, s, s.phase.i, AfterInstall(s.lh, s.phase.i + 1)))
    ensures CacheShows(g, InstallStep(g, s, s.phase.i, AfterInstall(s.lh, s.phase.i + 1)))
  {
    DiskReadable(g, s);
    LoggedIsShown(g, s);
    hide Inv, Readable;
    InstallShown(g, s.disk, s.pinned, Logical(g, s), s.lh[s.phase.i]);
    hide Room, Shown, Replay;
  }

  lemma UncommittedShows(g: Geometry, s: State)
    requires Inv(g, s) && (s.phase.Running? || s.phase.WritingLog? || s.phase.WritingHead? || s.phase.Finishing?)
    ensures CacheShows(g, s)
  {}

  lemma SameShows(g: Geometry, s: State, t: State)
    requires Readable(g, s) && Readable(g, t) && CacheShows(g, s) && t.io == s.io && t.past == s.past
    ensures CacheShows(g, t)
  {
    hide Replay, Readable;
  }

  /** In a commit too, after its commit point as well as before it. */
  lemma StepKeepsShows(g: Geometry, s: State, e: Event)
    requires Inv(g, s) && Enabled(g, s, e) && Inv(g, Next(g, s, e))
    requires Recovering(s.phase) || CacheShows(g, s)
    ensures Recovering(Next(g, s, e).phase) || CacheShows(g, Next(g, s, e))
  {
    hide Inv, Readable, CacheShows, Next;
    InvReadable(g, s);
    InvReadable(g, Next(g, s, e));
    var t := Next(g, s, e);
    if t.phase.Running? || t.phase.WritingLog? || t.phase.WritingHead? || t.phase.Finishing? {
      UncommittedShows(g, t);
    } else if e == WriteHeader {
      NextHeader(g, s);
      HeaderKeepsShows(g, s);
    } else if e == InstallBlock {
      NextInstall(g, s);
      InstallKeepsShows(g, s);
    } else if !Recovering(t.phase) {
      QuietInCommit(g, s, e);
      SameShows(g, s, t);
    }
  }

  lemma InvReadable(g: Geometry, s: State)
    requires Inv(g, s)
    ensures Readable(g, s)
  {}

  lemma NextHeader(g: Geometry, s: State)
    requires Readable(g, s) && Enabled(g, s, WriteHeader)
    ensures Next(g, s, WriteHeader) == HeaderStep(g, s) && s.phase.WritingHead?
  {}

  lemma NextInstall(g: Geometry, s: State)
    requires Readable(g, s) && Enabled(g, s, InstallBlock)
    ensures s.phase.Installing? && s.phase.i < |s.lh|
    ensures Next(g, s, InstallBlock) == InstallStep(g, s, s.phase.i, AfterInstall(s.lh, s.phase.i + 1))
  {
    hide Readable, InstallStep;
  }

  lemma KeepsIo(g: Geometry, s: State, e: Event)
    requires Readable(g, s) && Enabled(g, s, e)
    requires e.BeginOp? || e.BeginWait? || e.Wake? || e.Hold? || e.Release? || e.LogTest?
    ensures Next(g, s, e).io == s.io && Next(g, s, e).past == s.past
  {
    hide Readable, Room;
  }

  lemma ClearKeepsIo(g: Geometry, s: State)
    requires Readable(g, s) && Enabled(g, s, ClearHeader)
    ensures var t := Next(g, s, ClearHeader);
            s.phase.Clearing? && t.past == s.past && (t.phase.Finishing? || t.io == s.io)
  {
    hide Readable, Room, EncodeHeader;
  }

  lemma EndsOutside(s: State, op: nat)
    requires s.phase.Running? && op in s.used
    ensures var p := EndStep(s, op).phase; !p.Installing? && !p.Clearing?
    ensures op in s.pending ==> AppendStep(s, op).phase.Running?
  {}

  lemma OthersOutside(g: Geometry, s: State, e: Event)
    requires Readable(g, s) && Enabled(g, s, e)
    requires e.WriteLogBlock? || e.FinishCommit? || e.Crash? || e.RecReadHead? || e.RecInstallBlock? ||
             e.RecClearHeader?
    ensures var p := Next(g, s, e).phase; !p.Installing? && !p.Clearing?
  {
    hide Readable, Room, EncodeHeader, DecodeHeader, Bread;
  }

  /** Nothing but the commit itself touches disk and pins after the commit point. */
  lemma QuietInCommit(g: Geometry, s: State, e: Event)
    requires Inv(g, s) && Readable(g, s) && Enabled(g, s, e) && e != WriteHeader && e != InstallBlock
    requires var p := Next(g, s, e).phase; p.Installing? || p.Clearing?
    ensures Next(g, s, e).io == s.io && Next(g, s, e).past == s.past && !Recovering(s.phase)
  {
    hide DiskInv, OpsInv, Readable, Next, Recovering;
    if e.BeginOp? || e.BeginWait? || e.Wake? || e.Hold? || e.Release? || e.LogTest? {
      KeepsIo(g, s, e);
    } else if e == ClearHeader {
      ClearKeepsIo(g, s);
    } else if e.LogAppend? || e.EndOp? {
      OpsOutside(g, s, e);
    } else {
      OthersOutside(g, s, e);
    }
    InCommit(s.phase);
  }

  lemma InCommit(p: Phase)
    ensures p.Installing? || p.Clearing? ==> !Recovering(p)
  {}

  lemma OpsOutside(g: Geometry, s: State, e: Event)
    requires Readable(g, s) && OpsInv(s) && Enabled(g, s, e) && (e.LogAppend? || e.EndOp?)
    ensures var p := Next(g, s, e).phase; !p.Installing? && !p.Clearing?
  {
    EndsRunning(s, e.op);
    EndsOutside(s, e.op);
    hide OpsInv, Readable, AppendStep, EndStep;
  }

  /** A block that an operation logs reads back at once, and no other block reads differently. */
  lemma LoggedReadsBack(g: Geometry, s: State, op: nat, b: nat, data: Block)
    requires Readable(g, s) && ValidRun(g, s, [LogTest(op, b, data), LogAppend(op)])
    ensures var t := Exec(g, s, [LogTest(op, b, data), LogAppend(op)]);
            t.overrun || (|t.disk| == |s.disk| == g.nblocks && Bread(t, b) == data &&
                          forall c: nat :: c < g.nblocks && c != b ==> Bread(t, c) == Bread(s, c))
  {
    var es := [LogTest(op, b, data), LogAppend(op)];
    TwoSteps(g, s, es[0], es[1]);
    TestPends(g, s, op, b, data);
    hide Readable, Next, Exec, ValidRun;
    AppendReads(g, Next(g, s, es[0]), op);
  }

  lemma TwoSteps(g: Geometry, s: State, e: Event, f: Event)
    requires ValidRun(g, s, [e, f])
    ensures Readable(g, s) && Enabled(g, s, e) && Readable(g, Next(g, s, e)) && Enabled(g, Next(g, s, e), f)
    ensures Exec(g, s, [e, f]) == Next(g, Next(g, s, e), f)
  {
    hide Next, Enabled, Readable;
    FirstStep(g, s, e, [f]);
    FirstStep(g, Next(g, s, e), f, []);
    assert [e] + [f] == [e, f] && [f] + [] == [f];
  }

  lemma FirstStep(g: Geometry, s: State, e: Event, es: seq<Event>)
    requires ValidRun(g, s, [e] + es)
    ensures Readable(g, s) && Enabled(g, s, e) && ValidRun(g, Next(g, s, e), es)
    ensures Exec(g, s, [e] + es) == Exec(g, Next(g, s, e), es)
  {
    hide Next, Enabled, Readable;
    assert ([e] + es)[1..] == es;
  }

  lemma TestPends(g: Geometry, s: State, op: nat, b: nat, data: Block)
    requires Readable(g, s) && Enabled(g, s, LogTest(op, b, data)) && Next(g, s, LogTest(op, b, data)).fate == Alive
    ensures var t := Next(g, s, LogTest(op, b, data));
            t.io == s.io && op in t.pending && t.pending[op] == Write(op, b, data) && |s.disk| == g.nblocks
  {
    hide Room;
  }

  lemma AppendReads(g: Geometry, s: State, op: nat)
    requires Readable(g, s) && Enabled(g, s, LogAppend(op))
    ensures var t, w := Next(g, s, LogAppend(op)), s.pending[op];
            t.overrun || (t.disk == s.disk && w.block < |s.disk| && Bread(t, w.block) == w.data &&
                          forall c: nat :: c < |s.disk| && c != w.block ==> Bread(t, c) == Bread(s, c))
  {}

  /** Every operation has all its writes before position `cut` of the history, or all after it. */
  ghost predicate OpsWhole(h: seq<Write>, cut: nat)
    requires cut <= |h|
  {
    forall i, j :: 0 <= i < cut <= j < |h| ==> h[i].op != h[j].op
  }

  /** A crash now and a recovery leave the replay of the first `cut` logged writes. */
  ghost predicate RecoversTo(g: Geometry, s: State, cut: nat) {
    && Readable(g, s) && WellFormedHeader(s.disk[g.start]) && ValidHeader(g, DecodeHeader(s.disk[g.start]))
    && cut <= |s.hist| && SameHome(g, Recover(g, s.disk), Replay(s.init, s.hist[..cut]))
  }

  /** A crash now loses no part of an operation without losing all of it. */
  ghost predicate Atomic(g: Geometry, s: State) {
    exists cut: nat :: RecoversTo(g, s, cut) && OpsWhole(s.hist, cut)
  }

  lemma InvRecovers(g: Geometry, s: State)
    requires Inv(g, s)
    ensures RecoversTo(g, s, s.cut) && OpsWhole(s.hist, s.cut)
  {
    RecoverRestores(g, s.disk, Committed(g, s));
  }

  /** The commit point is the header write: no other step of a live kernel moves the cut, and that one
      moves it past every logged write, unless there is no buffer for it. */
  lemma HeaderWriteCommits(g: Geometry, s: State, e: Event)
    requires Inv(g, s) && Enabled(g, s, e) && e != Crash
    ensures e != WriteHeader ==> Next(g, s, e).cut == s.cut && s.hist <= Next(g, s, e).hist
    ensures e == WriteHeader ==> s.outstanding == 0 && Next(g, s, e).hist == s.hist &&
                                 (Next(g, s, e).cut == |s.hist| || Next(g, s, e) == s.(fate := NoBuffers))
  {
    if e == WriteHeader {
      assert s.outstanding == 0;
      hide DiskInv, OpsInv, EncodeHeader, Room;
    } else if e.LogAppend? {
      hide DiskInv, OpsInv;
    } else {
      hide DiskInv, OpsInv, Next;
      KeepsPast(g, s, e);
    }
  }

  predicate IsRecoveryEvent(e: Event) {
    e.Crash? || e.RecReadHead? || e.RecInstallBlock? || e.RecClearHeader?
  }

  /** Recovery interrupted by any number of further crashes still ends in the state of the first one:
      every home block all-old or all-new, according to where the cut was. */
  lemma {:induction false} RecoverySurvivesCrashes(g: Geometry, s: State, es: seq<Event>)
    requires Inv(g, s) && s.cut == |s.hist| && ValidRun(g, s, es)
    requires forall i :: 0 <= i < |es| ==> IsRecoveryEvent(es[i])
    ensures var t := Exec(g, s, es);
            && Readable(g, t) && t.init == s.init && t.hist == s.hist && t.cut == s.cut
            && (t.phase == Running && t.outstanding == 0 ==> SameHome(g, t.disk, Committed(g, s)))
    decreases |es|
  {
    if es == [] {
      if s.phase == Running && s.outstanding == 0 { QuietIsHome(g, s); }
    } else {
      StepKeepsInv(g, s, es[0]);
      var t := Next(g, s, es[0]);
      RecoveryKeepsHistory(g, s, es[0]);
      hide Inv, Next, Enabled;
      RecoverySurvivesCrashes(g, t, es[1..]);
    }
  }

  lemma QuietIsHome(g: Geometry, s: State)
    requires Inv(g, s) && s.cut == |s.hist| && s.phase == Running && s.outstanding == 0
    ensures SameHome(g, s.disk, Committed(g, s))
  {
    assert s.hist[..s.cut] == s.hist;
  }

  lemma RecoveryKeepsHistory(g: Geometry, s: State, e: Event)
    requires Readable(g, s) && Enabled(g, s, e) && IsRecoveryEvent(e) && s.cut == |s.hist|
    ensures Next(g, s, e).hist == s.hist && Next(g, s, e).cut == s.cut && Next(g, s, e).init == s.init
  {
    assert s.hist[..s.cut] == s.hist;
  }

  // ---- The reservation of begin_op ----

  /** Log space the operations numbered below `n` may still claim. */
  ghost function Unspent(used: map<nat, nat>, n: nat): int {
    if n == 0 then 0
    else Unspent(used, n - 1) + if n - 1 in used then MAXOPBLOCKS - used[n - 1] else 0
  }

  lemma {:induction false} UnspentUpdate(used: map<nat, nat>, op: nat, v: nat, n: nat)
    ensures Unspent(used[op := v], n) == Unspent(used, n) +
      if op >= n then 0 else if op in used then used[op] - v else MAXOPBLOCKS - v
  {
    if n > 0 { UnspentUpdate(used, op, v, n - 1); }
  }

  lemma {:induction false} UnspentRemove(used: map<nat, nat>, op: nat, n: nat)
    requires op in used
    ensures Unspent(used - {op}, n) == Unspent(used, n) - if op < n then MAXOPBLOCKS - used[op] else 0
  {
    if n > 0 { UnspentRemove(used, op, n - 1); }
  }

  lemma {:induction false} UnspentBound(used: map<nat, nat>, n: nat)
    requires forall op :: op in used ==> used[op] <= MAXOPBLOCKS
    ensures Unspent(used, n) <= MAXOPBLOCKS * |used|
  {
    hide Unspent;
    UnspentStep(used, n);
    if n == 0 {
    } else if n - 1 in used {
      CardRemove(used, n - 1);
      UnspentRemove(used, n - 1, n - 1);
      UnspentBound(used - {n - 1}, n - 1);
    } else {
      UnspentBound(used, n - 1);
    }
  }

  lemma UnspentStep(used: map<nat, nat>, n: nat)
    ensures Unspent(used, 0) == 0
    ensures n > 0 ==>
              Unspent(used, n) == Unspent(used, n - 1) + if n - 1 in used then MAXOPBLOCKS - used[n - 1] else 0
  {}

  lemma {:induction false} UnspentNonnegative(used: map<nat, nat>, n: nat)
    requires forall op :: op in used ==> used[op] <= MAXOPBLOCKS
    ensures Unspent(used, n) >= 0
  {
    if n > 0 { UnspentNonnegative(used, n - 1); }
  }

  /** An operation that still has blocks left keeps the unspent space positive. */
  lemma UnspentOfOne(used: map<nat, nat>, op: nat, n: nat)
    requires op in used && op < n && forall o :: o in used ==> used[o] <= MAXOPBLOCKS
    ensures Unspent(used, n) >= MAXOPBLOCKS - used[op]
  {
    UnspentRemove(used, op, n);
    UnspentNonnegative(used - {op}, n);
  }

  /** The blocks listed plus what operations in progress may still list fit the array; one that is past the
      test of a `log_write` has a block left for its append. */
  ghost predicate Reserved(s: State) {
    && (forall op :: op in s.used ==> s.used[op] <= MAXOPBLOCKS)
    && (forall op :: op in s.pending && op in s.used ==> s.used[op] < MAXOPBLOCKS)
    && |s.lh| + Unspent(s.used, s.nextOp) <= LOGSIZE
  }

  /** The event is a `log_write` only of an operation that has not used up its blocks. */
  predicate Disciplined(s: State, e: Event) {
    e.LogTest? && e.op in s.used ==> s.used[e.op] < MAXOPBLOCKS
  }

  lemma {:induction false} EmptyUnspent(n: nat)
    ensures Unspent(map[], n) == 0
  {
    if n > 0 { EmptyUnspent(n - 1); }
  }

  /** Whoever has blocks left finds the array not full. */
  lemma RoomLeft(s: State, op: nat)
    requires OpsInv(s) && Reserved(s) && op in s.used && s.used[op] < MAXOPBLOCKS
    ensures |s.lh| < LOGSIZE && s.outstanding >= 1
  {
    UnspentOfOne(s.used, op, s.nextOp);
    CardRemove(s.used, op);
  }

  lemma AppendKeepsReserved(g: Geometry, s: State, op: nat)
    requires Readable(g, s) && OpsInv(s) && Enabled(g, s, LogAppend(op)) && Reserved(s)
    ensures Reserved(Next(g, s, LogAppend(op))) && !Next(g, s, LogAppend(op)).overrun
  {
    RoomLeft(s, op);
    UnspentUpdate(s.used, op, s.used[op] + 1, s.nextOp);
    hide Readable, CountersAgree;
  }

  lemma BeginKeepsReserved(g: Geometry, s: State)
    requires Readable(g, s) && OpsInv(s) && Enabled(g, s, BeginOp) && Reserved(s)
    ensures Reserved(Next(g, s, BeginOp))
  {
    hide Readable;
    UnspentBound(s.used, s.nextOp);
    UnspentUpdate(s.used, s.nextOp, 0, s.nextOp);
  }

  lemma EndKeepsReserved(g: Geometry, s: State, op: nat)
    requires Readable(g, s) && OpsInv(s) && Enabled(g, s, EndOp(op)) && Reserved(s)
    ensures Reserved(Next(g, s, EndOp(op)))
    ensures s.fate == Alive ==> Next(g, s, EndOp(op)).fate == Alive
  {
    hide Readable;
    UnspentRemove(s.used, op, s.nextOp);
  }

  /** While operations run, only an append changes the list. */
  lemma KeepsList(g: Geometry, s: State, e: Event)
    requires Readable(g, s) && Enabled(g, s, e) && s.phase.Running? && !e.LogAppend? && !e.Crash?
    ensures Next(g, s, e).lh == s.lh
  {
    hide Readable, Room, EncodeHeader, DecodeHeader, Bread;
  }

  lemma ListFits(g: Geometry, s: State, e: Event)
    requires Readable(g, s) && Enabled(g, s, e) && !e.LogAppend?
    ensures |Next(g, s, e).lh| <= LOGSIZE
  {
    hide Readable, Room, EncodeHeader, DecodeHeader, Bread, WellFormedHeader;
    ReadableFits(g, s);
  }

  lemma ReadableFits(g: Geometry, s: State)
    requires Readable(g, s)
    ensures |s.lh| <= LOGSIZE
    ensures s.phase.RecReading? ==> |DecodeHeader(s.disk[g.start])| <= LOGSIZE
  {}

  lemma TestKeepsReserved(g: Geometry, s: State, e: Event)
    requires Readable(g, s) && Enabled(g, s, e) && Reserved(s) && e.LogTest? && Disciplined(s, e)
    ensures Reserved(Next(g, s, e))
  {
    hide Readable, Room;
  }

  lemma NoneReserved(s: State)
    requires |s.lh| <= LOGSIZE && s.used == map[]
    ensures Reserved(s)
  {
    EmptyUnspent(s.nextOp);
  }

  lemma OtherKeepsReserved(g: Geometry, s: State, e: Event)
    requires Readable(g, s) && OpsInv(s) && Enabled(g, s, e) && Reserved(s)
    requires !e.BeginOp? && !e.LogTest? && !e.LogAppend? && !e.EndOp?
    ensures Reserved(Next(g, s, e)) && !Next(g, s, e).overrun
  {
    KeepsBounds(g, s, e);
    ListFits(g, s, e);
    if IsOpEvent(e) {
      assert Next(g, s, e).used == map[] by { hide Readable, Reserved, CutSplitsOps; }
      hide Reserved, Next, OpsInv;
      NoneReserved(Next(g, s, e));
    } else {
      KeepsOps(g, s, e);
      if s.phase.Running? {
        KeepsList(g, s, e);
        hide Next, OpsInv, Readable;
      } else {
        assert s.used == map[];
        hide Reserved, Next, OpsInv;
        NoneReserved(Next(g, s, e));
      }
    }
  }

  /** In every log area, however small. */
  lemma StepKeepsReserved(g: Geometry, s: State, e: Event)
    requires Readable(g, s) && OpsInv(s) && Enabled(g, s, e) && Reserved(s) && Disciplined(s, e)
    ensures Reserved(Next(g, s, e)) && !Next(g, s, e).overrun
  {
    hide Reserved, OpsInv, Next, Readable;
    if !e.LogAppend? { KeepsBounds(g, s, e); }
    match e
    case BeginOp => BeginKeepsReserved(g, s);
    case LogTest(op, b, data) => TestKeepsReserved(g, s, e);
    case LogAppend(op) => AppendKeepsReserved(g, s, op);
    case EndOp(op) => EndKeepsReserved(g, s, op);
    case _ => OtherKeepsReserved(g, s, e);
  }

  ghost predicate DisciplinedRun(g: Geometry, s: State, es: seq<Event>)
    decreases |es|
  {
    es == [] || (Readable(g, s) && Enabled(g, s, es[0]) && Disciplined(s, es[0])
                 && DisciplinedRun(g, Next(g, s, es[0]), es[1..]))
  }

  /** The blocks listed plus what operations in progress may still list never exceed the array, and no append
      writes behind its end. */
  lemma {:induction false} RunKeepsReserved(g: Geometry, s: State, es: seq<Event>)
    requires OpsInv(s) && Reserved(s) && !s.overrun && DisciplinedRun(g, s, es)
    ensures ValidRun(g, s, es)
    ensures OpsInv(Exec(g, s, es)) && Reserved(Exec(g, s, es)) && !Exec(g, s, es).overrun
    decreases |es|
  {
    hide OpsInv, Reserved, Next, Readable, Enabled, Disciplined;
    if es != [] {
      StepKeepsOps(g, s, es[0]);
      StepKeepsReserved(g, s, es[0]);
      RunKeepsReserved(g, Next(g, s, es[0]), es[1..]);
    }
  }

  // ---- The cut ----

  /** The log areas in which no append can go wrong: large enough for every list that the array can hold, too small
      for any, or such that a list too long for the area leaves no buffer to commit it with. */
  predicate SafeArea(g: Geometry) { g.size > LOGSIZE || g.size == 1 || g.size >= g.nbuf }

  ghost predicate Safe(g: Geometry, s: State) {
    Inv(g, s) && Reserved(s) && (g.size == 1 ==> s.pending == map[])
  }

  lemma SafeFits(g: Geometry, s: State, e: Event)
    requires SafeArea(g) && Safe(g, s) && Enabled(g, s, e)
    ensures Fits(g, s, e)
  {
    hide DiskInv, OpsInv, Reserved;
    AreaNotEmpty(g, s);
    if e.LogAppend? {
      PendingHasRoom(s, e.op);
      RoomLeft(s, e.op);
      assert |s.lh + [s.pending[e.op].block]| == |s.lh| + 1;
    }
  }

  lemma AreaNotEmpty(g: Geometry, s: State)
    requires DiskInv(g, s)
    ensures g.size >= 1
  {}

  lemma PendingHasRoom(s: State, op: nat)
    requires Reserved(s) && op in s.pending && op in s.used
    ensures s.used[op] < MAXOPBLOCKS
  {}

  /** In an area of one block every test fails. */
  lemma NonePending(g: Geometry, s: State, e: Event)
    requires Readable(g, s) && Enabled(g, s, e) && g.size == 1 && s.pending == map[]
    ensures Next(g, s, e).pending == map[]
  {
    hide Readable, Room, EncodeHeader, DecodeHeader;
  }

  lemma SafeStep(g: Geometry, s: State, e: Event)
    requires SafeArea(g) && Safe(g, s) && Enabled(g, s, e) && Disciplined(s, e)
    ensures Safe(g, Next(g, s, e))
  {
    SafeFits(g, s, e);
    StepKeepsInv(g, s, e);
    StepKeepsReserved(g, s, e);
    if g.size == 1 { NonePending(g, s, e); }
    hide Inv, Reserved, Readable;
  }

  lemma {:induction false} RunIsSafe(g: Geometry, s: State, es: seq<Event>)
    requires SafeArea(g) && Safe(g, s) && DisciplinedRun(g, s, es)
    ensures FittingRun(g, s, es) && ValidRun(g, s, es) && Safe(g, Exec(g, s, es))
    decreases |es|
  {
    hide Safe, SafeArea, Next, Readable, Enabled, Disciplined, Fits;
    if es != [] {
      SafeReadable(g, s);
      SafeFits(g, s, es[0]);
      SafeStep(g, s, es[0]);
      RunIsSafe(g, Next(g, s, es[0]), es[1..]);
    }
  }

  lemma {:induction false} RunShows(g: Geometry, s: State, es: seq<Event>)
    requires SafeArea(g) && Safe(g, s) && DisciplinedRun(g, s, es) && Readable(g, s)
    requires Recovering(s.phase) || CacheShows(g, s)
    ensures ValidRun(g, s, es) && Readable(g, Exec(g, s, es))
    ensures Recovering(Exec(g, s, es).phase) || CacheShows(g, Exec(g, s, es))
    decreases |es|
  {
    hide Safe, SafeArea, Next, Readable, Enabled, Disciplined, CacheShows, Inv;
    if es != [] {
      SafeStep(g, s, es[0]);
      SafeReadable(g, s);
      SafeReadable(g, Next(g, s, es[0]));
      StepKeepsShows(g, s, es[0]);
      RunShows(g, Next(g, s, es[0]), es[1..]);
    }
  }

  /** After any run of operations within their budgets, also in the middle of a commit: a read gives what the run
      logged last. */
  lemma LatestIsShown(g: Geometry, d: Disk, es: seq<Event>, b: nat)
    requires ValidDisk(g, d) && HeaderIs(g, d, []) && SafeArea(g) && DisciplinedRun(g, InitState(d), es) && IsHome(g, b)
    ensures ValidRun(g, InitState(d), es)
    ensures var s, h := Exec(g, InitState(d), es), RunWrites(g, InitState(d), map[], [], es);
            && |s.disk| == |d| == g.nblocks && (forall i :: 0 <= i < |h| ==> h[i].block < |d|)
            && (!Recovering(s.phase) ==> Bread(s, b) == Replay(d, h)[b])
  {
    InitSafe(g, d);
    RunIsSafe(g, InitState(d), es);
    InitShows(g, d);
    RunShows(g, InitState(d), es);
    HistoryIsLogged(g, d, es);
    SafeReadable(g, Exec(g, InitState(d), es));
    hide Safe, Exec, RunWrites, ValidRun, DisciplinedRun, Replay, SafeArea;
  }

  lemma InitShows(g: Geometry, d: Disk)
    requires ValidDisk(g, d) && HeaderIs(g, d, [])
    ensures Readable(g, InitState(d)) && CacheShows(g, InitState(d))
  {}

  lemma SafeReadable(g: Geometry, s: State)
    requires Safe(g, s)
    ensures Readable(g, s) && Inv(g, s)
  {}

  lemma InitSafe(g: Geometry, d: Disk)
    requires ValidDisk(g, d) && HeaderIs(g, d, [])
    ensures Safe(g, InitState(d)) && OpsInv(InitState(d)) && Reserved(InitState(d))
  {
    InitInv(g, d);
    EmptyUnspent(0);
  }

  /** Crash at the end of any run of operations within their budgets and recover: the disk is the replay of
      a prefix of the logged writes that splits no operation.  A commit never overlaps an operation, and once
      the last `end_op` has returned nothing of the history is lost. */
  lemma CrashRecoversCut(g: Geometry, d: Disk, es: seq<Event>)
    requires ValidDisk(g, d) && HeaderIs(g, d, []) && SafeArea(g) && DisciplinedRun(g, InitState(d), es)
    ensures ValidRun(g, InitState(d), es)
    ensures var s := Exec(g, InitState(d), es);
            && RecoversTo(g, s, s.cut) && OpsWhole(s.hist, s.cut)
            && (s.committing ==> s.outstanding == 0)
            && (s.phase == Running && s.outstanding == 0 ==> s.cut == |s.hist|)
            && s.init == d && s.hist == RunWrites(g, InitState(d), map[], [], es)
  {
    InitSafe(g, d);
    RunIsSafe(g, InitState(d), es);
    HistoryIsLogged(g, d, es);
    InvRecovers(g, Exec(g, InitState(d), es));
  }
}
