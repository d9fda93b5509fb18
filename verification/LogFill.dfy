/** Runs of three operations that fill the log, within their budgets. */
module LogFill {
  import opened Basics
  import opened Blocks
  import opened LogDisk
  import opened LogProtocol
  import opened LogTheorems
  import opened LogBuffers

  lemma {:induction false} AppendRun(g: Geometry, s: State, es: seq<Event>, e: Event)
    requires DisciplinedRun(g, s, es) && ValidRun(g, s, es)
    requires Readable(g, Exec(g, s, es)) && Enabled(g, Exec(g, s, es), e)
    ensures ValidRun(g, s, es + [e]) && Exec(g, s, es + [e]) == Next(g, Exec(g, s, es), e)
    ensures Disciplined(Exec(g, s, es), e) ==> DisciplinedRun(g, s, es + [e])
    decreases |es|
  {
    hide Next, Readable, Enabled, Disciplined;
    if es == [] {
      assert ValidRun(g, Next(g, s, e), []);
    } else {
      AppendRun(g, Next(g, s, es[0]), es[1..], e);
      assert (es + [e])[1..] == es[1..] + [e];
    }
  }

  lemma {:induction false} JoinRuns(g: Geometry, s: State, es: seq<Event>, fs: seq<Event>)
    requires ValidRun(g, s, es) && ValidRun(g, Exec(g, s, es), fs)
    ensures ValidRun(g, s, es + fs) && Exec(g, s, es + fs) == Exec(g, Exec(g, s, es), fs)
    ensures DisciplinedRun(g, s, es) && DisciplinedRun(g, Exec(g, s, es), fs) ==> DisciplinedRun(g, s, es + fs)
    decreases |es|
  {
    hide Next, Readable, Enabled, Disciplined;
    if es == [] {
      assert es + fs == fs;
    } else {
      JoinRuns(g, Next(g, s, es[0]), es[1..], fs);
      assert (es + fs)[1..] == es[1..] + fs;
    }
  }

  /** Three operations that take turns: how many of the first `k` blocks each has listed. */
  function Shares(k: nat): map<nat, nat> {
    map[0 := (k + 2) / 3, 1 := (k + 1) / 3, 2 := k / 3]
  }

  /** Whose turn the `k`-th block is. */
  function Turn(k: nat): nat { k % 3 }

  lemma NextShare(k: nat)
    ensures Turn(k) in Shares(k) && Shares(k)[Turn(k)] == k / 3
    ensures Shares(k)[Turn(k) := k / 3 + 1] == Shares(k + 1)
  {}

  ghost predicate FilledIo(io: Io, d: Disk, blocks: seq<nat>, k: nat, data: Block) {
    && k <= |blocks| && io.disk == d && io.phase == Running && io.lh == blocks[..k]
    && io.pinned.Keys == Elems(blocks[..k]) && forall b :: b in io.pinned ==> io.pinned[b] == data
  }

  ghost predicate FilledOps(ops: Ops, blocks: seq<nat>, k: nat) {
    && !ops.committing && ops.outstanding == 3 && ops.used == Shares(k) && ops.nextOp == 3
    && forall op :: op in ops.pending ==> ops.pending[op].block in blocks
  }

  ghost predicate FilledPast(past: Past, d: Disk, blocks: seq<nat>) {
    past.init == d && past.cut == 0 && forall i :: 0 <= i < |past.hist| ==> past.hist[i].block in blocks
  }

  /** Three operations are in progress and have listed the first `k` of `blocks`, all with contents `data`; nothing
      else has happened since the disk was `d`. */
  ghost predicate Filled(g: Geometry, d: Disk, s: State, blocks: seq<nat>, k: nat, data: Block) {
    && s.fate == Alive && !s.overrun && s.held == map[]
    && FilledIo(s.io, d, blocks, k, data) && FilledOps(s.ops, blocks, k) && FilledPast(s.past, d, blocks)
  }

  /** Blocks that a run may log: as many as the array holds, at home. */
  ghost predicate Homes(g: Geometry, blocks: seq<nat>) {
    |blocks| == LOGSIZE && Distinct(blocks) && forall i :: 0 <= i < |blocks| ==> IsHome(g, blocks[i])
  }

  lemma FilledReadable(g: Geometry, d: Disk, s: State, blocks: seq<nat>, k: nat, data: Block)
    requires ValidDisk(g, d) && Homes(g, blocks) && Filled(g, d, s, blocks, k, data)
    ensures Readable(g, s)
  {
    assert forall b: nat :: b in blocks ==> IsHome(g, b);
  }

  /** A run within the budgets in which nobody else takes a buffer. */
  ghost predicate FillRun(g: Geometry, d: Disk, es: seq<Event>) {
    && ValidRun(g, InitState(d), es) && DisciplinedRun(g, InitState(d), es)
    && forall i :: 0 <= i < |es| ==> !es[i].Hold?
  }

  lemma ThreeBegin(g: Geometry, d: Disk, blocks: seq<nat>, data: Block)
    requires ValidDisk(g, d) && Homes(g, blocks)
    ensures var es := [BeginOp, BeginOp, BeginOp];
            && FillRun(g, d, es)
            && Filled(g, d, Exec(g, InitState(d), es), blocks, 0, data) && Exec(g, InitState(d), es).pending == map[]
  {
    var s0 := InitState(d);
    var s1 := BeginStep(s0);
    var s2 := BeginStep(s1);
    var s3 := BeginStep(s2);
    assert ValidRun(g, s3, []) && DisciplinedRun(g, s3, []);
    assert ValidRun(g, s2, [BeginOp]) && DisciplinedRun(g, s2, [BeginOp]);
    assert ValidRun(g, s1, [BeginOp, BeginOp]) && DisciplinedRun(g, s1, [BeginOp, BeginOp]);
    assert [BeginOp, BeginOp, BeginOp][1..] == [BeginOp, BeginOp];
    assert s3.used == Shares(0);
  }

  lemma PrefixStep(blocks: seq<nat>, k: nat)
    requires k < |blocks| && Distinct(blocks)
    ensures Absorb(blocks[..k], blocks[k]) == blocks[..k + 1] && blocks[k] !in blocks[..k]
  {
    assert blocks[k] !in blocks[..k];
  }

  lemma PendingSplit(pending: map<nat, Write>, op: nat)
    requires op in pending
    ensures PendingBlocks(pending) == PendingBlocks(pending - {op}) + {pending[op].block}
  {
    forall b | b in PendingBlocks(pending)
      ensures b in PendingBlocks(pending - {op}) + {pending[op].block}
    {
      var o :| o in pending && pending[o].block == b;
      if o != op { assert o in pending - {op}; }
    }
  }

  /** The blocks of pending operations are no more than the operations. */
  lemma {:induction false} PendingBound(pending: map<nat, Write>)
    ensures |PendingBlocks(pending)| <= |pending|
  {
    PendingCard(pending);
    if pending == map[] {
      assert PendingBlocks(pending) == {};
    } else {
      var op :| op in pending;
      var rest := pending - {op};
      PendingCard(rest);
      assert rest.Keys == pending.Keys - {op};
      PendingBound(rest);
      PendingSplit(pending, op);
      Grows(PendingBlocks(rest), pending[op].block);
    }
  }

  /** With `k` blocks listed and these pending there is a buffer for one more. */
  ghost predicate OneMore(g: Geometry, k: nat, pending: map<nat, Write>) { k + |pending| < g.nbuf }

  lemma FilledRoom(g: Geometry, d: Disk, s: State, blocks: seq<nat>, k: nat, data: Block, b: nat)
    requires Homes(g, blocks) && Filled(g, d, s, blocks, k, data) && OneMore(g, k, s.pending)
    ensures Room(g, s, b, b)
  {
    PendingBound(s.pending);
    DistinctCard(blocks[..k]);
    FilledBufs(g, d, s, blocks, k, data);
    hide PendingBlocks, Elems, Filled, Homes, Bufs;
    Joined(Elems(blocks[..k]), PendingBlocks(s.pending), Bufs(s), b);
  }

  lemma FilledBufs(g: Geometry, d: Disk, s: State, blocks: seq<nat>, k: nat, data: Block)
    requires Filled(g, d, s, blocks, k, data)
    ensures k <= |blocks| && Bufs(s) == Elems(blocks[..k]) + PendingBlocks(s.pending)
  {
    hide PendingBlocks, Elems, FilledOps, FilledPast;
    assert HeldBlocks(s.held) == {};
  }

  lemma Joined(x: set<nat>, y: set<nat>, z: set<nat>, b: nat)
    requires z == x + y
    ensures |z + {b, b}| <= |x| + |y| + 1
  {
    assert {b, b} == {b};
    Grows(z, b);
  }

  lemma TestPasses(g: Geometry, s: State, op: nat, b: nat, data: Block)
    requires Room(g, s, b, b) && |s.lh| < LOGSIZE && |s.lh| < g.size - 1 && s.outstanding >= 1
    ensures TestStep(g, s, op, b, data) == s.(ops := s.ops.(pending := s.pending[op := Write(op, b, data)]))
  {
    hide Room;
  }

  lemma TestOne(g: Geometry, d: Disk, s: State, blocks: seq<nat>, k: nat, j: nat, data: Block)
    requires Homes(g, blocks) && Filled(g, d, s, blocks, k, data) && k <= j < LOGSIZE && j <= k + 2
    requires k < g.size - 1 && OneMore(g, k, s.pending) && Turn(j) !in s.pending
    ensures var e := LogTest(Turn(j), blocks[j], data);
            && Enabled(g, s, e) && Disciplined(s, e)
            && TestStep(g, s, e.op, e.block, e.data).pending == s.pending[Turn(j) := Write(Turn(j), blocks[j], data)]
            && Filled(g, d, TestStep(g, s, e.op, e.block, e.data), blocks, k, data)
  {
    hide Room, OneMore;
    FilledRoom(g, d, s, blocks, k, data, blocks[j]);
    ShareLeft(k, j);
    hide FilledPast;
  }

  lemma ShareLeft(k: nat, j: nat)
    requires k <= j <= k + 2 && j < LOGSIZE
    ensures Turn(j) in Shares(k) && Shares(k)[Turn(j)] < MAXOPBLOCKS
  {}

  lemma AppendOne(g: Geometry, d: Disk, s: State, blocks: seq<nat>, k: nat, data: Block)
    requires Homes(g, blocks) && Filled(g, d, s, blocks, k, data) && k < LOGSIZE
    requires Turn(k) in s.pending && s.pending[Turn(k)] == Write(Turn(k), blocks[k], data)
    ensures Enabled(g, s, LogAppend(Turn(k))) && Turn(k) in s.used
    ensures AppendStep(s, Turn(k)).pending == s.pending - {Turn(k)} &&
            Filled(g, d, AppendStep(s, Turn(k)), blocks, k + 1, data)
  {
    NextShare(k);
    PrefixStep(blocks, k);
    assert blocks[..k + 1] == blocks[..k] + [blocks[k]];
  }

  // ---- filling the log ----

  /** One whole `log_write` without another process in between. */
  lemma FillOne(g: Geometry, d: Disk, fs: seq<Event>, blocks: seq<nat>, k: nat, data: Block) returns (es: seq<Event>)
    requires ValidDisk(g, d) && Homes(g, blocks) && k < LOGSIZE && k < g.size - 1 && k < g.nbuf
    requires FillRun(g, d, fs)
    requires Filled(g, d, Exec(g, InitState(d), fs), blocks, k, data) && Exec(g, InitState(d), fs).pending == map[]
    ensures FillRun(g, d, es)
    ensures Filled(g, d, Exec(g, InitState(d), es), blocks, k + 1, data) && Exec(g, InitState(d), es).pending == map[]
  {
    hide Filled, FillRun, Exec;
    es := Tested(g, d, fs, blocks, k, k, data);
    es := Appended(g, d, es, blocks, k, data);
    assert map[Turn(k) := Write(Turn(k), blocks[k], data)] - {Turn(k)} == map[];
  }

  lemma Extended(g: Geometry, d: Disk, fs: seq<Event>, e: Event, t: State) returns (es: seq<Event>)
    requires FillRun(g, d, fs) && !e.Hold?
    requires Readable(g, Exec(g, InitState(d), fs)) && Enabled(g, Exec(g, InitState(d), fs), e)
    requires Disciplined(Exec(g, InitState(d), fs), e) && t == Next(g, Exec(g, InitState(d), fs), e)
    ensures FillRun(g, d, es) && Exec(g, InitState(d), es) == t
  {
    hide Readable, Enabled, Disciplined, Next, Exec, ValidRun, DisciplinedRun;
    AppendRun(g, InitState(d), fs, e);
    es := fs + [e];
  }

  lemma NextTest(g: Geometry, s: State, op: nat, b: nat, data: Block)
    requires Readable(g, s) && Enabled(g, s, LogTest(op, b, data))
    ensures Next(g, s, LogTest(op, b, data)) == TestStep(g, s, op, b, data)
  {
    hide Readable, Enabled, TestStep;
  }

  lemma Tested(g: Geometry, d: Disk, fs: seq<Event>, blocks: seq<nat>, k: nat, j: nat, data: Block)
    returns (es: seq<Event>)
    requires ValidDisk(g, d) && Homes(g, blocks) && k <= j < LOGSIZE && j <= k + 2 && k < g.size - 1
    requires FillRun(g, d, fs) && OneMore(g, k, Exec(g, InitState(d), fs).pending)
    requires Filled(g, d, Exec(g, InitState(d), fs), blocks, k, data) && Turn(j) !in Exec(g, InitState(d), fs).pending
    ensures FillRun(g, d, es)
    ensures Filled(g, d, Exec(g, InitState(d), es), blocks, k, data)
    ensures Exec(g, InitState(d), es).pending ==
              Exec(g, InitState(d), fs).pending[Turn(j) := Write(Turn(j), blocks[j], data)]
  {
    var s, e := Exec(g, InitState(d), fs), LogTest(Turn(j), blocks[j], data);
    hide Filled, Readable, Enabled, Disciplined, TestStep, Homes, ValidDisk, FillRun, Exec, OneMore, Turn, Next;
    FilledReadable(g, d, s, blocks, k, data);
    TestOne(g, d, s, blocks, k, j, data);
    NextTest(g, s, Turn(j), blocks[j], data);
    es := Extended(g, d, fs, e, TestStep(g, s, e.op, e.block, e.data));
  }

  lemma Appended(g: Geometry, d: Disk, fs: seq<Event>, blocks: seq<nat>, k: nat, data: Block)
    returns (es: seq<Event>)
    requires ValidDisk(g, d) && Homes(g, blocks) && k < LOGSIZE
    requires FillRun(g, d, fs)
    requires var s := Exec(g, InitState(d), fs);
             Filled(g, d, s, blocks, k, data) && Turn(k) in s.pending &&
             s.pending[Turn(k)] == Write(Turn(k), blocks[k], data)
    ensures FillRun(g, d, es)
    ensures Filled(g, d, Exec(g, InitState(d), es), blocks, k + 1, data)
    ensures Exec(g, InitState(d), es).pending == Exec(g, InitState(d), fs).pending - {Turn(k)}
  {
    var s, e := Exec(g, InitState(d), fs), LogAppend(Turn(k));
    assert Disciplined(s, e);
    hide Filled, Readable, Enabled, Disciplined, AppendStep, Homes, ValidDisk, FillRun, Exec, Turn;
    FilledReadable(g, d, s, blocks, k, data);
    AppendOne(g, d, s, blocks, k, data);
    es := Extended(g, d, fs, e, AppendStep(s, Turn(k)));
  }

  /** Three operations within their budgets can fill the log up to its limit. */
  lemma {:induction false} Fill(g: Geometry, d: Disk, blocks: seq<nat>, k: nat, data: Block) returns (es: seq<Event>)
    requires ValidDisk(g, d) && Homes(g, blocks) && k <= LOGSIZE && k <= g.size - 1 && k <= g.nbuf
    ensures FillRun(g, d, es)
    ensures Filled(g, d, Exec(g, InitState(d), es), blocks, k, data) && Exec(g, InitState(d), es).pending == map[]
  {
    if k == 0 {
      es := [BeginOp, BeginOp, BeginOp];
      ThreeBegin(g, d, blocks, data);
    } else {
      var fs := Fill(g, d, blocks, k - 1, data);
      es := FillOne(g, d, fs, blocks, k - 1, data);
    }
  }

  // ---- and end ----

  lemma OneEnd(g: Geometry, s: State, op: nat)
    requires Readable(g, s) && s.fate == Alive && !s.overrun && !s.committing && s.outstanding > 1
    requires op in s.used && op !in s.pending
    ensures Enabled(g, s, EndOp(op))
    ensures var t := Next(g, s, EndOp(op));
            && Readable(g, t) && t.io == s.io && t.past == s.past && t.held == s.held && t.fate == Alive && !t.overrun
            && t.ops == s.ops.(outstanding := s.outstanding - 1, used := s.used - {op})
  {
    hide ValidDisk, WellFormedHeader, HistoryIsHome;
  }

  lemma LastEnd(g: Geometry, s: State, op: nat)
    requires Readable(g, s) && s.fate == Alive && !s.overrun && !s.committing && s.outstanding == 1 && s.lh != []
    requires op in s.used && op !in s.pending
    ensures Enabled(g, s, EndOp(op))
    ensures var t := Next(g, s, EndOp(op));
            && t.io == s.io.(phase := WritingLog(0)) && t.past == s.past && t.held == s.held && t.pending == s.pending
            && t.fate == Alive && !t.overrun
  {
    hide Readable;
  }

  /** The three operations end, and the commit begins. */
  lemma EndRun(g: Geometry, d: Disk, s: State, blocks: seq<nat>, k: nat, data: Block)
    requires Readable(g, s) && s.fate == Alive && !s.overrun && 0 < |s.lh| && s.pending == map[]
    requires FilledOps(s.ops, blocks, k)
    ensures var es := [EndOp(0), EndOp(1), EndOp(2)];
            && ValidRun(g, s, es) && DisciplinedRun(g, s, es)
            && var t := Exec(g, s, es);
            && t.io == s.io.(phase := WritingLog(0)) && t.past == s.past && t.held == s.held && t.pending == map[]
            && t.fate == Alive && !t.overrun
  {
    hide Readable, Enabled, Next;
    OneEnd(g, s, 0);
    var s1 := Next(g, s, EndOp(0));
    OneEnd(g, s1, 1);
    var s2 := Next(g, s1, EndOp(1));
    LastEnd(g, s2, 2);
    var s3 := Next(g, s2, EndOp(2));
    assert ValidRun(g, s3, []) && DisciplinedRun(g, s3, []);
    assert [EndOp(2)][1..] == [] && ValidRun(g, s2, [EndOp(2)]) && DisciplinedRun(g, s2, [EndOp(2)]);
    assert [EndOp(1), EndOp(2)][1..] == [EndOp(2)];
    assert ValidRun(g, s1, [EndOp(1), EndOp(2)]) && DisciplinedRun(g, s1, [EndOp(1), EndOp(2)]);
    assert [EndOp(0), EndOp(1), EndOp(2)][1..] == [EndOp(1), EndOp(2)];
  }
}
