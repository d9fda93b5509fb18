/** From the log to the files: a process that makes one transaction after the other finds, after a crash at any moment
    and recovery, the disk as some number of whole transactions left it; so a crash in `filewrite` leaves a valid file
    system with a whole number of chunks in the file. */
module CrashSafe {
  import opened Basics
  import opened Blocks
  import opened LogDisk
  import opened LogProtocol
  import opened LogTheorems
  import opened LogBudget
  import opened Inodes
  import opened FileSystem
  import opened FileWrite
  import opened OpenFile

  // ---- transactions in turn ----

  /** Transaction `k` takes disk `k` to disk `k + 1`. */
  ghost predicate Chain(disks: seq<Disk>, plan: seq<seq<Change>>) {
    && |disks| == |plan| + 1
    && forall k :: 0 <= k < |plan| ==> Applied(disks[k], plan[k]) == disks[k + 1]
  }

  function Begins(es: seq<Event>): nat {
    if es == [] then 0 else Begins(es[..|es| - 1]) + if es[|es| - 1].BeginOp? then 1 else 0
  }

  function Ends(es: seq<Event>): nat {
    if es == [] then 0 else Ends(es[..|es| - 1]) + if es[|es| - 1].EndOp? then 1 else 0
  }

  /** Event `k` is one of operations in turn: number `i` of them is transaction `i`, asks for its writes in order and
      ends when it has asked for all. */
  ghost predicate InTurn(plan: seq<seq<Change>>, es: seq<Event>, k: nat)
    requires k < |es|
  {
    match es[k]
    case BeginOp => Begins(es[..k]) == Ends(es[..k]) < |plan|
    case LogTest(op, _, _) => op < |plan| && Requested(es[..k + 1], op) <= plan[op]
    case EndOp(op) => op < |plan| && Requested(es[..k], op) == plan[op]
    case Crash => false
    case _ => true
  }

  /** Transactions one at a time.  Other processes may use the cache and the log may sleep and wake, but nobody else
      logs. */
  ghost predicate TakenInTurn(plan: seq<seq<Change>>, es: seq<Event>) {
    forall k: nat :: k < |es| ==> InTurn(plan, es, k)
  }

  /** The same, from what has been logged so far. */
  ghost predicate NowInTurn(plan: seq<seq<Change>>, s: State, e: Event) {
    match e
    case BeginOp => s.outstanding == 0 && s.nextOp < |plan|
    case LogTest(op, b, data) => op < |plan| && OpWrites(s.hist, op) + [Change(b, data)] <= plan[op]
    case EndOp(op) => op < |plan| && OpWrites(s.hist, op) == plan[op]
    case Crash => false
    case _ => true
  }

  ghost predicate SerialRun(g: Geometry, plan: seq<seq<Change>>, s: State, es: seq<Event>)
    decreases |es|
  {
    es == [] || (Readable(g, s) && Enabled(g, s, es[0]) && NowInTurn(plan, s, es[0])
                 && SerialRun(g, plan, Next(g, s, es[0]), es[1..]))
  }

  ghost predicate Counted(es: seq<Event>, s: State) {
    s.nextOp == Begins(es) && s.outstanding == Begins(es) - Ends(es)
  }

  lemma CountNext(es: seq<Event>, e: Event)
    ensures Begins(es + [e]) == Begins(es) + (if e.BeginOp? then 1 else 0)
    ensures Ends(es + [e]) == Ends(es) + (if e.EndOp? then 1 else 0)
  {
    assert (es + [e])[..|es|] == es;
  }

  lemma StepCounts(g: Geometry, es: seq<Event>, s: State, e: Event)
    requires Readable(g, s) && Enabled(g, s, e) && Counted(es, s) && !e.Crash?
    ensures Counted(es + [e], Next(g, s, e))
  {
    CountNext(es, e);
    hide Begins, Ends, Readable, Room;
    if !IsOpEvent(e) {
      hide Next;
      KeepsOps(g, s, e);
    }
  }

  lemma TurnNow(g: Geometry, plan: seq<seq<Change>>, s: State, ps: seq<Event>, e: Event, es: seq<Event>)
    requires Heard(ps, s) && Counted(ps, s) && Enabled(g, s, e) && InTurn(plan, ps + [e] + es, |ps|)
    ensures NowInTurn(plan, s, e)
  {
    var all := ps + [e] + es;
    assert all[|ps|] == e && all[..|ps|] == ps && all[..|ps| + 1] == ps + [e];
    hide Begins, Ends, Requested, OpWrites;
    if e.LogTest? { RequestedNext(ps, e, e.op); }
    if e.EndOp? { NothingInTest(s, e.op); }
  }

  lemma NothingInTest(s: State, op: nat)
    requires op !in s.pending
    ensures Given(s, op) == OpWrites(s.hist, op)
  {}

  lemma {:induction false} TurnIsSerial(g: Geometry, plan: seq<seq<Change>>, s: State, ps: seq<Event>, es: seq<Event>)
    requires OpsInv(s) && Heard(ps, s) && Counted(ps, s) && ValidRun(g, s, es) && TakenInTurn(plan, ps + es)
    ensures SerialRun(g, plan, s, es)
    decreases |es|
  {
    hide OpsInv, Heard, Counted, Readable, Next, InTurn, NowInTurn, Enabled;
    if es != [] {
      assert ps + [es[0]] + es[1..] == ps + es;
      assert InTurn(plan, ps + es, |ps|);
      TurnNow(g, plan, s, ps, es[0], es[1..]);
      NoCrashInTurn(plan, s, es[0]);
      StepKeepsOps(g, s, es[0]);
      StepHeard(g, ps, s, es[0]);
      StepCounts(g, ps, s, es[0]);
      TurnIsSerial(g, plan, Next(g, s, es[0]), ps + [es[0]], es[1..]);
    }
  }

  lemma NoCrashInTurn(plan: seq<seq<Change>>, s: State, e: Event)
    requires NowInTurn(plan, s, e)
    ensures !e.Crash?
  {}

  ghost function AsMap(plan: seq<seq<Change>>): map<nat, seq<Change>> { map k: nat | k < |plan| :: plan[k] }

  lemma {:induction false} SerialIsPlanned(g: Geometry, plan: seq<seq<Change>>, s: State, es: seq<Event>)
    requires SerialRun(g, plan, s, es)
    ensures PlannedRun(g, AsMap(plan), s, es)
    decreases |es|
  {
    if es != [] {
      NowIsPlanned(plan, s, es[0]);
      hide Next, Readable, Enabled, NowInTurn, AsPlanned, AsMap;
      SerialIsPlanned(g, plan, Next(g, s, es[0]), es[1..]);
    }
  }

  lemma NowIsPlanned(plan: seq<seq<Change>>, s: State, e: Event)
    requires NowInTurn(plan, s, e)
    ensures AsPlanned(AsMap(plan), s, e)
  {
    hide OpWrites;
  }

  // ---- the disks they leave ----

  /** How many operations have ended. */
  ghost function Ended(ops: Ops): nat
    requires ops.used == map[] || ops.nextOp > 0
  {
    if ops.used == map[] then ops.nextOp else ops.nextOp - 1
  }

  /** The cache shows the last whole transaction and what the one in progress has logged; the commit point lies between
      two transactions. */
  ghost predicate Serial(g: Geometry, disks: seq<Disk>, plan: seq<seq<Change>>, s: State) {
    && Chain(disks, plan) && s.nextOp <= |plan| && s.init == disks[0] && Readable(g, s)
    && (s.used == map[] || (s.nextOp > 0 && s.used.Keys == {s.nextOp - 1}))
    && Replay(s.init, s.hist) == Applied(disks[Ended(s.ops)], OpWrites(s.hist, Ended(s.ops)))
    && s.cutOp <= s.nextOp && Replay(s.init, s.hist[..s.cut]) == disks[s.cutOp]
  }

  lemma OnlyOne(s: State)
    requires OpsInv(s) && s.outstanding == 0
    ensures s.used == map[]
  {
    assert |s.used| == 0;
  }

  lemma BeginSerial(g: Geometry, disks: seq<Disk>, plan: seq<seq<Change>>, s: State, t: State)
    requires Serial(g, disks, plan, s) && OpsInv(s) && s.outstanding == 0 && s.nextOp < |plan|
    requires t == BeginStep(s) && Readable(g, t)
    ensures Serial(g, disks, plan, t)
  {
    OnlyOne(s);
    hide OpsInv, Readable, Replay, Applied, OpWrites, Chain;
  }

  lemma WriteShows(init: Disk, h: seq<Write>, w: Write, d: Disk)
    requires w.block < |init| && forall i :: 0 <= i < |h| ==> h[i].block < |init|
    requires Replay(init, h) == Applied(d, OpWrites(h, w.op))
    ensures Replay(init, h + [w]) == Applied(d, OpWrites(h + [w], w.op))
  {
    OpWritesNext(h, w, w.op);
    ReplayAppend(init, h, w);
    ReplaySize(init, h);
    AppliedSize(d, OpWrites(h, w.op));
    AppliedNext(d, OpWrites(h, w.op), Change(w.block, w.data));
    hide Replay, Applied, OpWrites;
  }

  lemma AppliedSize(d: Disk, writes: seq<Change>)
    ensures |Applied(d, writes)| == |d|
  {}

  lemma ReplaySize(init: Disk, h: seq<Write>)
    requires forall i :: 0 <= i < |h| ==> h[i].block < |init|
    ensures |Replay(init, h)| == |init|
  {}

  lemma InProgress(g: Geometry, disks: seq<Disk>, plan: seq<seq<Change>>, s: State, op: nat)
    requires Serial(g, disks, plan, s) && OpsInv(s) && op in s.used && op in s.pending
    ensures s.pending[op].op == op == Ended(s.ops) == s.nextOp - 1 && op < |disks| && s.used.Keys == {op}
    ensures s.pending[op].block < |s.init| && s.cut <= |s.hist|
    ensures forall i :: 0 <= i < |s.hist| ==> s.hist[i].block < |s.init|
    ensures Replay(s.init, s.hist) == Applied(disks[op], OpWrites(s.hist, op))
  {
    hide Replay, Applied, OpWrites, CountersAgree;
  }

  lemma AppendSerial(g: Geometry, disks: seq<Disk>, plan: seq<seq<Change>>, s: State, op: nat, t: State)
    requires Serial(g, disks, plan, s) && OpsInv(s) && op in s.used && op in s.pending && t == AppendStep(s, op)
    requires Readable(g, t) && !t.overrun
    ensures Serial(g, disks, plan, t)
  {
    hide OpsInv, Readable, Replay, Applied, OpWrites, Chain;
    var w := s.pending[op];
    InProgress(g, disks, plan, s, op);
    WriteShows(s.init, s.hist, w, disks[op]);
    UsedKeys(s, op, t);
    assert t.hist == s.hist + [w];
    hide AppendStep;
    assert t.hist[..s.cut] == s.hist[..s.cut];
  }

  lemma UsedKeys(s: State, op: nat, t: State)
    requires op in s.used && op in s.pending && t == AppendStep(s, op) && !t.overrun
    ensures t.used.Keys == s.used.Keys && t.nextOp == s.nextOp && t.init == s.init && t.cut == s.cut
    ensures t.cutOp == s.cutOp && t.used != map[]
  {
    assert op in t.used;
  }

  lemma EndSerial(g: Geometry, disks: seq<Disk>, plan: seq<seq<Change>>, s: State, op: nat, t: State)
    requires Serial(g, disks, plan, s) && OpsInv(s) && op in s.used && op < |plan| && OpWrites(s.hist, op) == plan[op]
    requires t == EndStep(s, op) && Readable(g, t)
    ensures Serial(g, disks, plan, t)
  {
    hide OpsInv, Readable, Replay, OpWrites, Applied;
    FutureWrites(s);
    LastOut(s, op);
    AppliedNone(disks[s.nextOp]);
    hide EndStep;
  }

  lemma LastOut(s: State, op: nat)
    requires s.used != map[] ==> s.nextOp > 0 && s.used.Keys == {s.nextOp - 1}
    requires op in s.used
    ensures var t := EndStep(s, op);
            op == s.nextOp - 1 && t.used == map[] && t.past == s.past && t.nextOp == s.nextOp
  {
    assert EndStep(s, op).used.Keys == {};
  }

  lemma AppliedNone(d: Disk)
    ensures Applied(d, []) == d
  {}

  lemma HeaderSerial(g: Geometry, disks: seq<Disk>, plan: seq<seq<Change>>, s: State, t: State)
    requires Serial(g, disks, plan, s) && OpsInv(s) && s.phase.WritingHead? && t == HeaderStep(g, s) && Readable(g, t)
    ensures Serial(g, disks, plan, t)
  {
    FutureWrites(s);
    assert s.used == map[];
    HeaderPast(g, s);
    assert s.hist[..|s.hist|] == s.hist;
    hide OpsInv, Readable, Replay, OpWrites, HeaderStep;
  }

  lemma HeaderPast(g: Geometry, s: State)
    requires Readable(g, s)
    ensures var t := HeaderStep(g, s);
            t.ops == s.ops && (t.past == s.past || t.past == s.past.(cut := |s.hist|, cutOp := s.nextOp))
  {
    hide Readable, Room, EncodeHeader;
  }

  lemma OtherSerial(g: Geometry, disks: seq<Disk>, plan: seq<seq<Change>>, s: State, t: State)
    requires Serial(g, disks, plan, s) && Readable(g, t)
    requires t.past == s.past && t.used == s.used && t.nextOp == s.nextOp
    ensures Serial(g, disks, plan, t)
  {
    hide Readable, Replay, Applied, OpWrites, Chain;
  }

  lemma TestKeepsUsed(g: Geometry, s: State, e: Event)
    requires Readable(g, s) && Enabled(g, s, e) && (e.LogTest? || e.FinishCommit?)
    ensures Next(g, s, e).used == s.used && Next(g, s, e).nextOp == s.nextOp
  {
    hide Readable, Room;
  }

  lemma StepSerial(g: Geometry, disks: seq<Disk>, plan: seq<seq<Change>>, s: State, e: Event)
    requires Serial(g, disks, plan, s) && OpsInv(s) && Readable(g, s) && Enabled(g, s, e) && NowInTurn(plan, s, e)
    requires Readable(g, Next(g, s, e)) && !Next(g, s, e).overrun
    ensures Serial(g, disks, plan, Next(g, s, e))
  {
    hide Serial, OpsInv, Readable;
    var t := Next(g, s, e);
    match e
    case BeginOp => BeginSerial(g, disks, plan, s, t);
    case LogAppend(op) => AppendSerial(g, disks, plan, s, op, t);
    case EndOp(op) => EndSerial(g, disks, plan, s, op, t);
    case WriteHeader => HeaderSerial(g, disks, plan, s, t);
    case _ =>
      hide Next, NowInTurn;
      KeepsPast(g, s, e);
      if IsOpEvent(e) { TestKeepsUsed(g, s, e); } else { KeepsOps(g, s, e); }
      OtherSerial(g, disks, plan, s, t);
  }

  lemma {:induction false} RunSerial(g: Geometry, disks: seq<Disk>, plan: seq<seq<Change>>, s: State, es: seq<Event>)
    requires SafeArea(g) && Safe(g, s) && DisciplinedRun(g, s, es) && SerialRun(g, plan, s, es)
    requires Serial(g, disks, plan, s)
    ensures ValidRun(g, s, es) && Serial(g, disks, plan, Exec(g, s, es))
    decreases |es|
  {
    hide Serial, SafeArea, Safe, Next, Readable, Enabled, Disciplined, NowInTurn;
    if es != [] {
      var t := Next(g, s, es[0]);
      SafeStep(g, s, es[0]);
      SafeMeans(g, s);
      SafeMeans(g, t);
      StepSerial(g, disks, plan, s, es[0]);
      RunSerial(g, disks, plan, t, es[1..]);
    }
  }

  lemma SafeMeans(g: Geometry, s: State)
    requires Safe(g, s)
    ensures Readable(g, s) && OpsInv(s) && !s.overrun
  {}

  lemma InitSerial(g: Geometry, disks: seq<Disk>, plan: seq<seq<Change>>)
    requires Chain(disks, plan) && ValidDisk(g, disks[0])
    ensures Serial(g, disks, plan, InitState(disks[0]))
  {}

  /** A crash now and a recovery leave the disk as the first `k` transactions did. */
  ghost predicate RecoversDisk(g: Geometry, s: State, d: Disk) {
    && ValidDisk(g, s.disk) && WellFormedHeader(s.disk[g.start]) && ValidHeader(g, DecodeHeader(s.disk[g.start]))
    && ValidDisk(g, d) && SameHome(g, Recover(g, s.disk), d)
  }

  /** After any run of transactions in turn, a crash and a recovery leave the disk between two of them, and once the
      last `end_op` has returned, after all that have ended. */
  lemma TransactionsSurvive(g: Geometry, disks: seq<Disk>, plan: seq<seq<Change>>, es: seq<Event>) returns (k: nat)
    requires Chain(disks, plan) && ValidDisk(g, disks[0]) && HeaderIs(g, disks[0], []) && SafeArea(g)
    requires ValidRun(g, InitState(disks[0]), es) && TakenInTurn(plan, es)
    requires forall j :: 0 <= j < |plan| ==> WithinBudget(plan[j])
    ensures k < |disks|
    ensures var s := Exec(g, InitState(disks[0]), es);
            && k <= s.nextOp && RecoversDisk(g, s, disks[k])
            && (s.phase == Running && s.outstanding == 0 ==>
                  s.nextOp < |disks| && RecoversDisk(g, s, disks[s.nextOp]))
  {
    InitHeard(disks[0]);
    assert [] + es == es;
    TurnIsSerial(g, plan, InitState(disks[0]), [], es);
    SerialIsPlanned(g, plan, InitState(disks[0]), es);
    PlannedIsBudgeted(g, AsMap(plan), InitState(disks[0]), es);
    InitSafe(g, disks[0]);
    BudgetedIsDisciplined(g, InitState(disks[0]), es);
    CrashRecoversCut(g, disks[0], es);
    InitSerial(g, disks, plan);
    RunSerial(g, disks, plan, InitState(disks[0]), es);
    var s := Exec(g, InitState(disks[0]), es);
    RunKeepsReserved(g, InitState(disks[0]), es);
    k := s.cutOp;
    hide Exec, ValidRun, SerialRun, PlannedRun, BudgetedRun, DisciplinedRun, OpsInv, Reserved;
    Recovered(g, disks, plan, s);
  }

  lemma Recovered(g: Geometry, disks: seq<Disk>, plan: seq<seq<Change>>, s: State)
    requires Serial(g, disks, plan, s) && OpsInv(s) && RecoversTo(g, s, s.cut)
    requires s.phase == Running && s.outstanding == 0 ==> s.cut == |s.hist|
    ensures s.cutOp < |disks| && RecoversDisk(g, s, disks[s.cutOp])
    ensures s.phase == Running && s.outstanding == 0 ==> s.nextOp < |disks| && RecoversDisk(g, s, disks[s.nextOp])
  {
    if s.phase == Running && s.outstanding == 0 {
      OnlyOne(s);
      FutureWrites(s);
      assert s.hist[..s.cut] == s.hist;
    }
    hide OpsInv, OpWrites, Recover, Replay;
  }

  // ---- the file system on the recovered disk ----

  /** The log of a file system with this super block: between block 1 and the inodes. */
  function LogArea(sb: Superblock, nbuf: nat): Geometry
    requires sb.inodestart >= 3
  {
    Geometry(2, sb.inodestart - 2, sb.size, nbuf)
  }

  ghost predicate HasLog(sb: Superblock) { 3 <= sb.inodestart <= sb.bmapstart }

  /** Outside the log area both disks are the same. */
  ghost predicate SameBehind(sb: Superblock, d: Disk, e: Disk) {
    |e| == |d| && forall b: nat :: sb.inodestart <= b < |d| ==> e[b] == d[b]
  }

  lemma SameSlot(sb: Superblock, d: Disk, e: Disk, inodes: seq<Inode>, owner: map<nat, (nat, nat)>, i: nat, n: nat)
    requires OwnInv(sb, d, inodes, owner) && HasLog(sb) && SameBehind(sb, d, e) && i < |inodes| && n <= ROOT
    ensures |inodes[i].addrs| == NDIRECT + 1 && Slot(e, inodes[i], n) == Slot(d, inodes[i], n)
    ensures Slot(d, inodes[i], n) == 0 || sb.nmeta <= Slot(d, inodes[i], n) < |d|
  {
    var root := Slot(d, inodes[i], ROOT);
    if root != 0 { assert root in owner; }
    var b := Slot(d, inodes[i], n);
    if b != 0 { assert b in owner; }
    hide BitmapAgrees;
  }

  lemma SameData(sb: Superblock, d: Disk, e: Disk, inodes: seq<Inode>, owner: map<nat, (nat, nat)>, i: nat, n: nat)
    requires OwnInv(sb, d, inodes, owner) && HasLog(sb) && SameBehind(sb, d, e) && i < |inodes| && n < MAXFILE
    ensures |inodes[i].addrs| == NDIRECT + 1 && DataAt(e, inodes[i], n) == DataAt(d, inodes[i], n)
  {
    SameSlot(sb, d, e, inodes, owner, i, n);
    NmetaBehind(sb, d, inodes, owner);
    hide OwnInv, Slot;
  }

  lemma NmetaBehind(sb: Superblock, d: Disk, inodes: seq<Inode>, owner: map<nat, (nat, nat)>)
    requires OwnInv(sb, d, inodes, owner) && HasLog(sb)
    ensures sb.inodestart <= sb.bmapstart <= sb.nmeta
  {}

  lemma SameMark(sb: Superblock, d: Disk, e: Disk, b: nat)
    requires ValidSuperblock(sb) && |d| == sb.size && HasLog(sb) && SameBehind(sb, d, e) && b < sb.size
    ensures BBlock(sb, b) < |d| && Marked(sb, e, b) == Marked(sb, d, b)
  {
    assert BBlock(sb, b) < sb.nmeta;
    hide Bit;
  }

  lemma SameOwners(sb: Superblock, d: Disk, e: Disk, inodes: seq<Inode>, owner: map<nat, (nat, nat)>)
    requires OwnInv(sb, d, inodes, owner) && HasLog(sb) && SameBehind(sb, d, e)
    ensures OwnInv(sb, e, inodes, owner)
  {
    forall i: nat, n: nat | i < |inodes| && n <= ROOT
      ensures Slot(e, inodes[i], n) == Slot(d, inodes[i], n)
    {
      SameSlot(sb, d, e, inodes, owner, i, n);
    }
    forall b: nat | b < sb.size
      ensures Marked(sb, e, b) == Marked(sb, d, b)
    {
      SameMark(sb, d, e, b);
    }
    hide Slot, Marked;
  }

  lemma SameInode(sb: Superblock, d: Disk, e: Disk, inodes: seq<Inode>, owner: map<nat, (nat, nat)>, i: nat)
    requires FsInv(sb, d, inodes, owner) && OwnInv(sb, e, inodes, owner) && HasLog(sb) && SameBehind(sb, d, e)
    requires i < |inodes|
    ensures Dense(e, inodes[i]) && WrittenThrough(sb, e, inodes, i)
  {
    assert Dense(d, inodes[i]) && WrittenThrough(sb, d, inodes, i);
    assert IBlock(sb, i) < sb.bmapstart;
    forall n: nat | n <= ROOT
      ensures Slot(e, inodes[i], n) == Slot(d, inodes[i], n)
    {
      SameSlot(sb, d, e, inodes, owner, i, n);
    }
    hide Slot, OwnersAgree, BitmapAgrees, DinodeAt;
  }

  /** The files do not depend on what is in the log area. */
  lemma FilesBehind(sb: Superblock, d: Disk, e: Disk, inodes: seq<Inode>, owner: map<nat, (nat, nat)>)
    requires FsInv(sb, d, inodes, owner) && HasLog(sb) && SameBehind(sb, d, e)
    ensures FsInv(sb, e, inodes, owner)
  {
    SameOwners(sb, d, e, inodes, owner);
    forall i: nat | i < |inodes|
      ensures Dense(e, inodes[i]) && WrittenThrough(sb, e, inodes, i)
    {
      SameInode(sb, d, e, inodes, owner, i);
    }
    hide OwnInv, DenseTo, WrittenThrough;
  }

  lemma ContentBehind(sb: Superblock, d: Disk, e: Disk, inodes: seq<Inode>, owner: map<nat, (nat, nat)>, i: nat)
    requires FsInv(sb, d, inodes, owner) && HasLog(sb) && SameBehind(sb, d, e) && i < |inodes|
    ensures |inodes[i].addrs| == NDIRECT + 1 && inodes[i].size <= MAXFILE * BSIZE
    ensures Content(e, inodes[i]) == Content(d, inodes[i])
  {
    assert Dense(d, inodes[i]);
    forall n: nat | n < MAXFILE
      ensures DataAt(e, inodes[i], n) == DataAt(d, inodes[i], n)
    {
      SameData(sb, d, e, inodes, owner, i, n);
    }
    SameContent(d, e, inodes[i]);
  }

  /** The file system that a kernel finds on the recovered disk `e`: what it reads as the inodes are those of `s`. */
  function Mounted(s: Fs, e: Disk): Fs { Fs(e, s.inodes, s.owner, {}, [], e) }

  /** On the recovered disk `e` there is a valid file system with the files of `s`. */
  ghost predicate Survives(sb: Superblock, s: Fs, e: Disk) {
    && Valid(sb, Mounted(s, e))
    && forall j :: 0 <= j < |s.inodes| ==>
         && |s.inodes[j].addrs| == NDIRECT + 1 && s.inodes[j].size <= MAXFILE * BSIZE
         && Content(e, s.inodes[j]) == Content(s.disk, s.inodes[j])
  }

  lemma MountSurvives(sb: Superblock, s: Fs, e: Disk)
    requires Valid(sb, s) && HasLog(sb) && SameBehind(sb, s.disk, e)
    ensures Survives(sb, s, e)
  {
    FilesBehind(sb, s.disk, e, s.inodes, s.owner);
    assert BlocksOf([]) == {};
    forall j: nat | j < |s.inodes|
      ensures |s.inodes[j].addrs| == NDIRECT + 1 && s.inodes[j].size <= MAXFILE * BSIZE
      ensures Content(e, s.inodes[j]) == Content(s.disk, s.inodes[j])
    {
      ContentBehind(sb, s.disk, e, s.inodes, s.owner, j);
    }
    hide FsInv;
  }

  // ---- filewrite ----

  ghost function Disks(states: seq<Fs>): seq<Disk> { seq(|states|, k requires 0 <= k < |states| => states[k].disk) }

  ghost function Plan(states: seq<Fs>): seq<seq<Change>>
    requires states != []
  {
    seq(|states| - 1, k requires 0 <= k < |states| - 1 => states[k + 1].writes)
  }

  lemma ChunksChain(sb: Superblock, states: seq<Fs>, i: nat, off: nat, src: seq<byte>, n: nat)
    requires states != [] && ChunkByChunk(sb, states, i, off, src, n)
    ensures Chain(Disks(states), Plan(states))
    ensures forall j :: 0 <= j < |Plan(states)| ==> WithinBudget(Plan(states)[j])
  {
    forall k | 0 < k < |states|
      ensures Applied(states[k - 1].disk, states[k].writes) == states[k].disk && WithinBudget(states[k].writes)
    {
      assert Valid(sb, states[k]);
    }
    hide ChunkByChunk, Applied, WithinBudget;
  }

  lemma RecoveredBehind(sb: Superblock, nbuf: nat, s: State, d: Disk)
    requires HasLog(sb) && RecoversDisk(LogArea(sb, nbuf), s, d)
    ensures SameBehind(sb, d, Recover(LogArea(sb, nbuf), s.disk))
  {
    hide Recover;
  }

  /** A run of the log, from an empty one, in which a process makes the transactions between `states` in turn. */
  ghost predicate WriteRun(sb: Superblock, nbuf: nat, states: seq<Fs>, es: seq<Event>) {
    && states != [] && HasLog(sb)
    && var g, d := LogArea(sb, nbuf), states[0].disk;
    && ValidDisk(g, d) && HeaderIs(g, d, []) && SafeArea(g) && ValidRun(g, InitState(d), es)
    && TakenInTurn(Plan(states), es)
  }

  /** A crash after this run and a recovery leave a valid file system with the files of state number `k`.  With no
      transaction in progress, every transaction that has ended is in it. */
  ghost predicate CrashLeaves(sb: Superblock, nbuf: nat, states: seq<Fs>, es: seq<Event>, k: nat) {
    && k < |states| && HasLog(sb)
    && var g, d := LogArea(sb, nbuf), states[0].disk;
    && ValidRun(g, InitState(d), es)
    && var s := Exec(g, InitState(d), es);
    && k <= s.nextOp && RecoversDisk(g, s, states[k].disk) && Survives(sb, states[k], Recover(g, s.disk))
    && (s.phase == Running && s.outstanding == 0 ==>
          s.nextOp < |states| && RecoversDisk(g, s, states[s.nextOp].disk))
  }

  /** State number `k` differs from the first by `k` whole chunks of `src` in inode `i`, or by all of it. */
  ghost predicate WroteChunks(sb: Superblock, states: seq<Fs>, k: nat, i: nat, off: nat, src: seq<byte>, n: nat) {
    k < |states| && SoFar(sb, states[0], states[k], i, off, src, Min(k * CHUNK, n))
  }

  /** Crash `filewrite` at any moment and recover: the file system is valid, a whole number of chunks is in the file, or
      all the bytes, and every other file is as it was. */
  lemma FilewriteSurvives(sb: Superblock, nbuf: nat, states: seq<Fs>, i: nat, off: nat, src: seq<byte>, n: nat,
                          es: seq<Event>)
    returns (k: nat)
    requires WriteRun(sb, nbuf, states, es) && ChunkByChunk(sb, states, i, off, src, n)
    ensures CrashLeaves(sb, nbuf, states, es, k) && WroteChunks(sb, states, k, i, off, src, n)
  {
    var g := LogArea(sb, nbuf);
    ChunksChain(sb, states, i, off, src, n);
    hide TakenInTurn, ValidRun, SafeArea, HeaderIs, Chain, WithinBudget;
    k := TransactionsSurvive(g, Disks(states), Plan(states), es);
    hide ValidRun, Exec;
    var s := Exec(g, InitState(states[0].disk), es);
    hide RecoversDisk, Survives, Recover, SoFar, Valid;
    RecoveredBehind(sb, nbuf, s, states[k].disk);
    MountSurvives(sb, states[k], Recover(g, s.disk));
  }
}
