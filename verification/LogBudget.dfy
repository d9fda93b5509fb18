/** From the blocks that operations log to the reservation of `begin_op`: operations that log at most
    MAXOPBLOCKS blocks each, and fewer before each `log_write`, are within their budgets however they
    interleave. */
module LogBudget {
  import opened Basics
  import opened Blocks
  import opened LogDisk
  import opened LogProtocol
  import opened LogTheorems

  /** The blocks that operation `op` has logged. */
  ghost function OpBlocks(h: seq<Write>, op: nat): set<nat> {
    if h == [] then {} else OpBlocks(h[..|h| - 1], op) + if Last(h).op == op then {Last(h).block} else {}
  }

  lemma OpBlocksAppend(h: seq<Write>, w: Write, op: nat)
    ensures OpBlocks(h + [w], op) == OpBlocks(h, op) + if w.op == op then {w.block} else {}
  {
    assert (h + [w])[..|h|] == h;
  }

  lemma {:induction false} OpBlocksNone(h: seq<Write>, op: nat)
    requires forall i :: 0 <= i < |h| ==> h[i].op != op
    ensures OpBlocks(h, op) == {}
  {
    if h != [] { OpBlocksNone(h[..|h| - 1], op); }
  }

  /** What an operation has logged is listed, and it is charged for no more than that. */
  ghost predicate ChargedOne(h: seq<Write>, lh: seq<nat>, used: nat, op: nat) {
    (forall b :: b in OpBlocks(h, op) ==> b in lh) && used <= |OpBlocks(h, op)|
  }

  ghost predicate Charged(s: State) {
    forall op :: op in s.used ==> ChargedOne(s.hist, s.lh, s.used[op], op)
  }

  lemma ChargedWrite(h: seq<Write>, lh: seq<nat>, used: nat, w: Write, o: nat)
    requires ChargedOne(h, lh, used, o)
    ensures ChargedOne(h + [w], Absorb(lh, w.block), used + if o == w.op && w.block !in lh then 1 else 0, o)
  {
    OpBlocksAppend(h, w, o);
    hide OpBlocks;
    Grows(OpBlocks(h, o), w.block);
  }

  lemma ChargedAppend(s: State, op: nat, o: nat)
    requires OpsInv(s) && Charged(s) && op in s.used && op in s.pending && o in s.used
    requires s.pending[op].block in s.lh || |s.lh| < LOGSIZE
    ensures var t := AppendStep(s, op); o in t.used && ChargedOne(t.hist, t.lh, t.used[o], o)
  {
    assert s.pending[op].op == op;
    hide OpsInv, ChargedOne, Absorb;
    ChargedWrite(s.hist, s.lh, s.used[o], s.pending[op], o);
  }

  lemma BeginKeepsCharged(s: State)
    requires OpsInv(s) && Charged(s)
    ensures Charged(BeginStep(s))
  {
    hide CountersAgree;
    OpBlocksNone(s.hist, s.nextOp);
    hide OpBlocks;
  }

  lemma AppendKeepsCharged(s: State, op: nat)
    requires OpsInv(s) && Charged(s) && op in s.used && op in s.pending && !s.overrun && !AppendStep(s, op).overrun
    ensures Charged(AppendStep(s, op))
  {
    hide ChargedOne;
    var t := AppendStep(s, op);
    forall o | o in t.used
      ensures ChargedOne(t.hist, t.lh, t.used[o], o)
    {
      ChargedAppend(s, op, o);
    }
  }

  lemma UsedShrinks(g: Geometry, s: State, e: Event)
    requires Readable(g, s) && Enabled(g, s, e) && !e.BeginOp? && !e.LogAppend?
    ensures forall o :: o in Next(g, s, e).used ==> o in s.used && Next(g, s, e).used[o] == s.used[o]
  {
    hide Readable, Room;
    if e.EndOp? {
      hide Next;
      EndUsed(g, s, e.op);
    } else if IsOpEvent(e) {
      OpUsed(g, s, e);
    } else {
      hide Next;
      KeepsOps(g, s, e);
    }
  }

  lemma EndUsed(g: Geometry, s: State, op: nat)
    requires Readable(g, s) && Enabled(g, s, EndOp(op))
    ensures Next(g, s, EndOp(op)).used == s.used - {op}
  {
    hide Readable;
  }

  lemma OpUsed(g: Geometry, s: State, e: Event)
    requires Readable(g, s) && Enabled(g, s, e) && (e.LogTest? || e.FinishCommit? || e.Crash?)
    ensures Next(g, s, e).used == s.used || Next(g, s, e).used == map[]
  {
    hide Readable, Room;
  }

  lemma NoneOutside(s: State)
    requires OpsInv(s) && !s.phase.Running?
    ensures s.used == map[]
  {}

  lemma CrashEndsAll(g: Geometry, s: State)
    requires Readable(g, s) && Enabled(g, s, Crash)
    ensures Next(g, s, Crash).used == map[]
  {
    hide Readable;
  }

  /** No other step adds to the history or the list while an operation is in progress. */
  lemma OtherSteps(g: Geometry, s: State, e: Event)
    requires Readable(g, s) && OpsInv(s) && Enabled(g, s, e) && !e.BeginOp? && !e.LogAppend?
    ensures var t := Next(g, s, e);
            t.used == map[] ||
            (t.hist == s.hist && t.lh == s.lh && forall o :: o in t.used ==> o in s.used && t.used[o] == s.used[o])
  {
    hide Readable, OpsInv, Next;
    UsedShrinks(g, s, e);
    if e.Crash? {
      CrashEndsAll(g, s);
    } else if s.phase.Running? {
      KeepsList(g, s, e);
      KeepsPast(g, s, e);
    } else {
      NoneOutside(s);
    }
  }

  lemma StepKeepsCharged(g: Geometry, s: State, e: Event)
    requires Readable(g, s) && OpsInv(s) && Charged(s) && Enabled(g, s, e) && !Next(g, s, e).overrun
    ensures Charged(Next(g, s, e))
  {
    if e.BeginOp? {
      BeginKeepsCharged(s);
    } else if e.LogAppend? {
      AppendKeepsCharged(s, e.op);
    } else {
      OtherSteps(g, s, e);
      hide Next, ChargedOne, OpsInv, Readable;
    }
  }

  /** Before each `log_write` an operation has logged fewer than MAXOPBLOCKS blocks. */
  ghost predicate Budgeted(s: State, e: Event) {
    e.LogTest? ==> |OpBlocks(s.hist, e.op)| < MAXOPBLOCKS
  }

  ghost predicate BudgetedRun(g: Geometry, s: State, es: seq<Event>)
    decreases |es|
  {
    es == [] || (Readable(g, s) && Enabled(g, s, es[0]) && Budgeted(s, es[0])
                 && BudgetedRun(g, Next(g, s, es[0]), es[1..]))
  }

  /** Absorption only helps: operations whose own writes stay within the budget are disciplined, whatever the
      others do. */
  lemma {:induction false} BudgetedIsDisciplined(g: Geometry, s: State, es: seq<Event>)
    requires OpsInv(s) && Reserved(s) && !s.overrun && Charged(s) && BudgetedRun(g, s, es)
    ensures DisciplinedRun(g, s, es)
    decreases |es|
  {
    if es != [] {
      assert Disciplined(s, es[0]) by { hide OpBlocks; }
      hide OpsInv, Reserved, Next, Readable, Enabled, Charged, Disciplined;
      StepKeepsOps(g, s, es[0]);
      StepKeepsReserved(g, s, es[0]);
      StepKeepsCharged(g, s, es[0]);
      BudgetedIsDisciplined(g, Next(g, s, es[0]), es[1..]);
    }
  }

  /** So a file system whose operations log at most that much is crash-atomic. */
  lemma BudgetedRunsAreAtomic(g: Geometry, d: Disk, es: seq<Event>)
    requires ValidDisk(g, d) && HeaderIs(g, d, []) && SafeArea(g) && BudgetedRun(g, InitState(d), es)
    ensures ValidRun(g, InitState(d), es) && Atomic(g, Exec(g, InitState(d), es))
  {
    InitSafe(g, d);
    BudgetedIsDisciplined(g, InitState(d), es);
    CrashRecoversCut(g, d, es);
  }

  // ---- transactions ----

  /** The calls of `log_write` that operation `op` has made, in order. */
  ghost function OpWrites(h: seq<Write>, op: nat): seq<Change> {
    if h == [] then []
    else OpWrites(h[..|h| - 1], op) + if Last(h).op == op then [Change(Last(h).block, Last(h).data)] else []
  }

  lemma {:induction false} OpBlocksAre(h: seq<Write>, op: nat)
    ensures OpBlocks(h, op) == BlocksOf(OpWrites(h, op))
  {
    if h != [] {
      OpBlocksAre(h[..|h| - 1], op);
      var w := OpWrites(h[..|h| - 1], op);
      assert forall x :: x in w + [Change(Last(h).block, Last(h).data)] <==>
               x in w || x == Change(Last(h).block, Last(h).data);
    } else {
      assert BlocksOf([]) == {};
    }
  }

  lemma OpWritesNext(h: seq<Write>, w: Write, op: nat)
    ensures OpWrites(h + [w], op) == OpWrites(h, op) + if w.op == op then [Change(w.block, w.data)] else []
  {
    assert (h + [w])[..|h|] == h;
  }

  lemma {:induction false} NoWritesYet(h: seq<Write>, op: nat)
    requires forall i :: 0 <= i < |h| ==> h[i].op != op
    ensures OpWrites(h, op) == []
  {
    if h != [] { NoWritesYet(h[..|h| - 1], op); }
  }

  lemma FutureWrites(s: State)
    requires OpsInv(s)
    ensures OpWrites(s.hist, s.nextOp) == []
  {
    NoWritesYet(s.hist, s.nextOp);
  }

  // ---- what the events of a run ask for ----

  function RequestedBy(e: Event, op: nat): seq<Change> {
    if e.LogTest? && e.op == op then [Change(e.block, e.data)] else []
  }

  /** What operation `op` asks `log_write` for in the events of a run, in order. */
  ghost function Requested(es: seq<Event>, op: nat): seq<Change> {
    if es == [] then [] else Requested(es[..|es| - 1], op) + RequestedBy(es[|es| - 1], op)
  }

  lemma RequestedNext(es: seq<Event>, e: Event, op: nat)
    ensures Requested(es + [e], op) == Requested(es, op) + RequestedBy(e, op)
  {
    assert (es + [e])[..|es|] == es;
  }

  lemma RequestedSame(es: seq<Event>, e: Event)
    requires !e.LogTest?
    ensures forall op :: Requested(es + [e], op) == Requested(es, op)
  {
    forall op
      ensures Requested(es + [e], op) == Requested(es, op)
    {
      hide Requested;
      RequestedNext(es, e, op);
    }
  }

  lemma {:induction false} RequestedPrefix(es: seq<Event>, fs: seq<Event>, op: nat)
    ensures Requested(es, op) <= Requested(es + fs, op)
  {
    if fs == [] {
      assert es + fs == es;
    } else {
      RequestedPrefix(es, fs[..|fs| - 1], op);
      assert es + fs == es + fs[..|fs| - 1] + [fs[|fs| - 1]];
      RequestedNext(es + fs[..|fs| - 1], fs[|fs| - 1], op);
    }
  }

  /** Each operation asks for the writes of its transaction, one after the other. */
  ghost predicate Follows(plan: map<nat, seq<Change>>, es: seq<Event>) {
    forall op :: Requested(es, op) != [] ==> op in plan && Requested(es, op) <= plan[op]
  }

  function InTest(pending: map<nat, Write>, op: nat): seq<Change> {
    if op in pending then [Change(pending[op].block, pending[op].data)] else []
  }

  /** What an operation has logged and what is between its test and its append. */
  ghost function Given(s: State, op: nat): seq<Change> { OpWrites(s.hist, op) + InTest(s.pending, op) }

  /** After the events `es` the history has what each operation in progress asked for, except for what is between its
      test and its append. */
  ghost predicate Heard(es: seq<Event>, s: State) {
    && (s.fate == Alive ==> forall op :: op in s.used ==> Requested(es, op) == Given(s, op))
    && (forall op :: op >= s.nextOp ==> Requested(es, op) == [])
  }

  lemma BeginHeard(es: seq<Event>, s: State)
    requires OpsInv(s) && Heard(es, s)
    ensures Heard(es + [BeginOp], BeginStep(s))
  {
    hide Requested, OpWrites;
    RequestedSame(es, BeginOp);
    FutureWrites(s);
    assert s.nextOp !in s.pending;
  }

  lemma TestHeard(g: Geometry, es: seq<Event>, s: State, e: Event)
    requires OpsInv(s) && Heard(es, s) && Readable(g, s) && Enabled(g, s, e) && e.LogTest? && s.fate == Alive
    ensures Heard(es + [e], Next(g, s, e))
  {
    hide Requested, OpWrites, Room, Readable, CountersAgree;
    forall op
      ensures Requested(es + [e], op) == Requested(es, op) + RequestedBy(e, op)
    {
      RequestedNext(es, e, op);
    }
  }

  lemma AppendHeard(g: Geometry, es: seq<Event>, s: State, op: nat)
    requires OpsInv(s) && Heard(es, s) && Readable(g, s) && Enabled(g, s, LogAppend(op)) && s.fate == Alive
    ensures Heard(es + [LogAppend(op)], Next(g, s, LogAppend(op)))
  {
    hide Requested, Given, Readable, OpsInv, Next;
    AppendMoves(g, s, op);
    RequestedSame(es, LogAppend(op));
  }

  /** An append takes the write of its operation from between test and append to the history. */
  lemma AppendMoves(g: Geometry, s: State, op: nat)
    requires OpsInv(s) && Readable(g, s) && Enabled(g, s, LogAppend(op))
    ensures var t := Next(g, s, LogAppend(op));
            && t.used.Keys == s.used.Keys && t.nextOp == s.nextOp && t.fate == s.fate
            && forall o :: Given(t, o) == Given(s, o)
  {
    hide OpWrites, InTest, Readable;
    var t := Next(g, s, LogAppend(op));
    assert s.pending[op].op == op;
    hide OpsInv;
    forall o
      ensures Given(t, o) == Given(s, o)
    {
      MovesOne(s.hist, s.pending, op, o);
    }
  }

  lemma MovesOne(h: seq<Write>, pending: map<nat, Write>, op: nat, o: nat)
    requires op in pending && pending[op].op == op
    ensures OpWrites(h + [pending[op]], o) + InTest(pending - {op}, o) == OpWrites(h, o) + InTest(pending, o)
  {
    hide OpWrites;
    OpWritesNext(h, pending[op], o);
    if o == op {
      assert InTest(pending - {op}, o) == [];
    } else {
      assert InTest(pending - {op}, o) == InTest(pending, o);
      assert OpWrites(h, o) + [] == OpWrites(h, o);
    }
  }

  /** Steps after which the operations in progress have logged what they had before. */
  lemma OtherHeard(es: seq<Event>, s: State, e: Event, t: State)
    requires Heard(es, s) && !e.LogTest? && t.nextOp == s.nextOp && (s.fate == Alive || t.used == map[])
    requires forall op :: op in t.used ==> op in s.used
    requires t.used == map[] || (t.hist == s.hist && t.pending == s.pending)
    ensures Heard(es + [e], t)
  {
    hide Requested, OpWrites;
    RequestedSame(es, e);
  }

  lemma KeepsNextOp(g: Geometry, s: State, e: Event)
    requires Readable(g, s) && Enabled(g, s, e) && !e.BeginOp? && !e.LogTest? && !e.LogAppend?
    ensures Next(g, s, e).nextOp == s.nextOp
    ensures e.Crash? || Next(g, s, e).pending == s.pending
  {
    hide Readable, Room, EncodeHeader, DecodeHeader, Bread;
  }

  lemma StepHeard(g: Geometry, es: seq<Event>, s: State, e: Event)
    requires OpsInv(s) && Heard(es, s) && Readable(g, s) && Enabled(g, s, e)
    ensures Heard(es + [e], Next(g, s, e))
  {
    hide OpsInv, Heard, Readable, Next;
    match e
    case BeginOp => NextBegin(g, s); BeginHeard(es, s);
    case LogTest(_, _, _) => TestHeard(g, es, s, e);
    case LogAppend(op) => AppendHeard(g, es, s, op);
    case _ =>
      KeepsNextOp(g, s, e);
      OtherSteps(g, s, e);
      if e.Crash? { CrashEndsAll(g, s); }
      OtherHeard(es, s, e, Next(g, s, e));
  }

  lemma NextBegin(g: Geometry, s: State)
    requires Readable(g, s) && Enabled(g, s, BeginOp)
    ensures Next(g, s, BeginOp) == BeginStep(s)
  {
    hide Readable;
  }

  /** What an operation asks for next is the next write of its transaction. */
  ghost predicate AsPlanned(plan: map<nat, seq<Change>>, s: State, e: Event) {
    e.LogTest? ==> e.op in plan && OpWrites(s.hist, e.op) + [Change(e.block, e.data)] <= plan[e.op]
  }

  ghost predicate PlannedRun(g: Geometry, plan: map<nat, seq<Change>>, s: State, es: seq<Event>)
    decreases |es|
  {
    es == [] || (Readable(g, s) && Enabled(g, s, es[0]) && AsPlanned(plan, s, es[0])
                 && PlannedRun(g, plan, Next(g, s, es[0]), es[1..]))
  }

  lemma HeardTest(g: Geometry, plan: map<nat, seq<Change>>, ps: seq<Event>, s: State, e: Event)
    requires Heard(ps, s) && Enabled(g, s, e) && e.LogTest?
    requires Requested(ps + [e], e.op) != [] ==> e.op in plan && Requested(ps + [e], e.op) <= plan[e.op]
    ensures AsPlanned(plan, s, e)
  {
    RequestedNext(ps, e, e.op);
    hide Requested, OpWrites;
  }

  lemma FollowsPrefix(plan: map<nat, seq<Change>>, ps: seq<Event>, es: seq<Event>, op: nat)
    requires Follows(plan, ps + es) && Requested(ps, op) != []
    ensures op in plan && Requested(ps, op) <= plan[op]
  {
    RequestedPrefix(ps, es, op);
  }

  lemma {:induction false} FollowsIsPlanned(g: Geometry, plan: map<nat, seq<Change>>, s: State, ps: seq<Event>,
                                            es: seq<Event>)
    requires OpsInv(s) && Heard(ps, s) && ValidRun(g, s, es) && Follows(plan, ps + es)
    ensures PlannedRun(g, plan, s, es)
    decreases |es|
  {
    hide OpsInv, Heard, Readable, Next, Follows, AsPlanned, Enabled;
    if es != [] {
      StepKeepsOps(g, s, es[0]);
      StepHeard(g, ps, s, es[0]);
      assert ps + [es[0]] + es[1..] == ps + es;
      FirstAsPlanned(g, plan, s, ps, es[0], es[1..]);
      FollowsIsPlanned(g, plan, Next(g, s, es[0]), ps + [es[0]], es[1..]);
    }
  }

  lemma FirstAsPlanned(g: Geometry, plan: map<nat, seq<Change>>, s: State, ps: seq<Event>, e: Event, es: seq<Event>)
    requires Heard(ps, s) && Enabled(g, s, e) && Follows(plan, ps + [e] + es)
    ensures AsPlanned(plan, s, e)
  {
    hide Heard, Follows, Enabled, Requested;
    if e.LogTest? {
      if Requested(ps + [e], e.op) != [] { FollowsPrefix(plan, ps + [e], es, e.op); }
      HeardTest(g, plan, ps, s, e);
    }
  }

  lemma PlannedStepIsBudgeted(plan: map<nat, seq<Change>>, s: State, e: Event)
    requires AsPlanned(plan, s, e) && forall op :: op in plan ==> WithinBudget(plan[op])
    ensures Budgeted(s, e)
  {
    if e.LogTest? {
      var w := OpWrites(s.hist, e.op);
      OpBlocksAre(s.hist, e.op);
      assert (w + [Change(e.block, e.data)])[..|w|] == w;
      assert plan[e.op][..|w|] == w;
    }
  }

  lemma {:induction false} PlannedIsBudgeted(g: Geometry, plan: map<nat, seq<Change>>, s: State, es: seq<Event>)
    requires PlannedRun(g, plan, s, es) && forall op :: op in plan ==> WithinBudget(plan[op])
    ensures BudgetedRun(g, s, es)
    decreases |es|
  {
    if es != [] {
      PlannedStepIsBudgeted(plan, s, es[0]);
      hide Next, Readable, Enabled, Budgeted, AsPlanned, WithinBudget;
      PlannedIsBudgeted(g, plan, Next(g, s, es[0]), es[1..]);
    }
  }

  lemma InitHeard(d: Disk)
    ensures OpsInv(InitState(d)) && Heard([], InitState(d))
  {}

  /** Any interleaving of transactions that are each within the budget, such as those of `filewrite`, is
      crash-atomic. */
  lemma TransactionsAreAtomic(g: Geometry, d: Disk, plan: map<nat, seq<Change>>, es: seq<Event>)
    requires ValidDisk(g, d) && HeaderIs(g, d, []) && SafeArea(g)
    requires ValidRun(g, InitState(d), es) && Follows(plan, es) && forall op :: op in plan ==> WithinBudget(plan[op])
    ensures Atomic(g, Exec(g, InitState(d), es))
  {
    InitHeard(d);
    assert [] + es == es;
    FollowsIsPlanned(g, plan, InitState(d), [], es);
    PlannedIsBudgeted(g, plan, InitState(d), es);
    BudgetedRunsAreAtomic(g, d, es);
  }
}
