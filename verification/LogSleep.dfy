/** Nobody is forgotten in `begin_op`: a process sleeps there only while a commit is on or a full budget more does not
    fit, so the wakeups of `end_op` are enough. */
module LogSleep {
  import opened Blocks
  import opened LogDisk
  import opened LogProtocol
  import opened LogTheorems

  ghost predicate NobodyForgotten(s: State) {
    (s.asleep != {} ==> !Enters(s)) && (Recovering(s.phase) ==> s.asleep == {})
  }

  lemma EndWakes(s: State, op: nat)
    requires OpsInv(s) && op in s.used && NobodyForgotten(s)
    ensures NobodyForgotten(EndStep(s, op))
  {
    EndsRunning(s, op);
    hide CutSplitsOps;
  }

  lemma AppendWakes(s: State, op: nat)
    requires OpsInv(s) && op in s.used && op in s.pending && NobodyForgotten(s)
    ensures NobodyForgotten(AppendStep(s, op))
  {
    EndsRunning(s, op);
    hide OpsInv;
  }

  lemma OpWakes(g: Geometry, s: State, e: Event)
    requires Readable(g, s) && Enabled(g, s, e) && NobodyForgotten(s)
    requires e.BeginOp? || e.LogTest? || e.FinishCommit? || e.Crash?
    ensures NobodyForgotten(Next(g, s, e))
  {
    hide Readable, Room;
  }

  /** Outside `Running` a change of the list goes on under a commit, or before anybody can sleep. */
  lemma QuietWakes(g: Geometry, s: State, e: Event)
    requires Readable(g, s) && OpsInv(s) && Enabled(g, s, e) && NobodyForgotten(s) && !IsOpEvent(e)
    ensures NobodyForgotten(Next(g, s, e))
  {
    hide Readable, OpsInv;
    KeepsOps(g, s, e);
    if s.phase.Running? { KeepsList(g, s, e); } else { OutsideCommits(s); }
    SleepersGrow(g, s, e);
    RecoveringStays(g, s, e);
    hide Next;
  }

  lemma OutsideCommits(s: State)
    requires OpsInv(s) && !s.phase.Running?
    ensures s.committing || Recovering(s.phase)
  {}

  lemma SleepersGrow(g: Geometry, s: State, e: Event)
    requires Readable(g, s) && Enabled(g, s, e) && !IsOpEvent(e)
    ensures Next(g, s, e).asleep <= s.asleep || (e.BeginWait? && Next(g, s, e).lh == s.lh)
  {
    hide Readable, Room, EncodeHeader, DecodeHeader, Bread;
  }

  lemma RecoveringStays(g: Geometry, s: State, e: Event)
    requires Readable(g, s) && Enabled(g, s, e) && !e.Crash?
    ensures Recovering(Next(g, s, e).phase) ==> Recovering(s.phase)
  {
    hide Readable, Room, EncodeHeader, DecodeHeader, Bread;
  }

  lemma StepWakes(g: Geometry, s: State, e: Event)
    requires Readable(g, s) && OpsInv(s) && Enabled(g, s, e) && NobodyForgotten(s)
    ensures NobodyForgotten(Next(g, s, e))
  {
    hide Readable, OpsInv, NobodyForgotten, EndStep, AppendStep;
    if e.EndOp? {
      EndWakes(s, e.op);
    } else if e.LogAppend? {
      AppendWakes(s, e.op);
    } else if IsOpEvent(e) {
      OpWakes(g, s, e);
    } else {
      QuietWakes(g, s, e);
    }
  }

  lemma {:induction false} RunWakes(g: Geometry, s: State, es: seq<Event>)
    requires OpsInv(s) && NobodyForgotten(s) && ValidRun(g, s, es)
    ensures OpsInv(Exec(g, s, es)) && NobodyForgotten(Exec(g, s, es))
    decreases |es|
  {
    hide OpsInv, NobodyForgotten, Readable, Enabled, Next;
    if es != [] {
      StepKeepsOps(g, s, es[0]);
      StepWakes(g, s, es[0]);
      RunWakes(g, Next(g, s, es[0]), es[1..]);
    }
  }

  /** In every state of every run: whoever sleeps in `begin_op` sleeps because of a commit or of a log too full, and
      some operation is in progress or a commit on whose end wakes them all. */
  lemma SleepersHaveReason(g: Geometry, d: Disk, es: seq<Event>)
    requires ValidRun(g, InitState(d), es)
    ensures var s := Exec(g, InitState(d), es);
            s.asleep != {} ==> !Enters(s) && (s.committing || s.outstanding > 0)
  {
    RunWakes(g, InitState(d), es);
    var s := Exec(g, InitState(d), es);
    hide OpsInv, NobodyForgotten, Exec;
    if s.asleep != {} { Reason(s); }
  }

  lemma Reason(s: State)
    requires OpsInv(s) && NobodyForgotten(s) && s.asleep != {}
    ensures !Enters(s) && (s.committing || s.outstanding > 0)
  {
    if s.used == map[] { assert |s.used| == 0; }
  }

  /** The end of an operation, or of the commit it starts, wakes everybody. */
  lemma EveryEndWakes(g: Geometry, s: State, e: Event)
    requires Readable(g, s) && OpsInv(s) && Enabled(g, s, e) && (e.EndOp? || e.FinishCommit?)
    ensures Next(g, s, e).asleep == {} || (Next(g, s, e).committing && Next(g, s, e).outstanding == 0)
  {
    if e.EndOp? { EndsRunning(s, e.op); }
    hide Readable, CutSplitsOps;
  }

  /** What makes a sleeper in `begin_op` runnable: another reason, the end of an operation that is not the last one, the
      end of a commit; a crash ends all processes. */
  predicate EndsSleep(s: State, e: Event, p: nat) {
    e == Wake(p) || e.FinishCommit? || e.Crash? || (e.EndOp? && !s.committing && s.outstanding != 1)
  }

  lemma AsleepExactly(g: Geometry, s: State, e: Event, p: nat)
    requires Readable(g, s) && Enabled(g, s, e)
    ensures p in Next(g, s, e).asleep <==> e == BeginWait(p) || (p in s.asleep && !EndsSleep(s, e, p))
  {
    hide Readable, Room, EncodeHeader, DecodeHeader, Bread;
  }

  /** Whoever goes to sleep sleeps on until then. */
  lemma {:induction false} SleepsUntilWoken(g: Geometry, s: State, es: seq<Event>, p: nat)
    requires ValidRun(g, s, es) && p in s.asleep
    requires forall k :: 0 <= k < |es| ==> es[k] != Wake(p) && !es[k].EndOp? && !es[k].FinishCommit? && !es[k].Crash?
    ensures p in Exec(g, s, es).asleep
    decreases |es|
  {
    hide Readable, Enabled, Next;
    if es != [] {
      AsleepExactly(g, s, es[0], p);
      SleepsUntilWoken(g, Next(g, s, es[0]), es[1..], p);
    }
  }
}
