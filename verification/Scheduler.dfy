/** The aging scheduler: which process a pass picks, and how priorities grow over a run. */
module Scheduler {
  import opened Basics
  import opened ProcTable
  import opened Processes

  /** Priorities of used slots are in range, and below the top a wait count is below the threshold. */
  ghost predicate PriorityOk(p: Proc) {
    && (p.state != UNUSED ==>
          MIN_PRIORITY <= p.priority <= MAX_PRIORITY && (p.priority < MAX_PRIORITY ==> p.ticks < AGING_THRESHOLD))
    && (p.state == EMBRYO ==> p.ticks == 0)
  }

  ghost predicate PrioritiesOk(s: State) { forall j :: 0 <= j < |s.t| ==> PriorityOk(s.t[j]) }

  /** What a step does to the priority and wait count of slot `j`: one pass of aging, a new value, or nothing. */
  ghost predicate Resets(s: State, e: Event, j: nat)
    requires WellFormed(s)
  {
    || (e.SetPriority? && e.i == j) || (e.Alloc? && e.e == j)
    || (e.Link? && e.i < |s.t| && s.mode[e.i].Forking? && s.mode[e.i].e == j)
  }

  predicate Passes(e: Event) { e.Dispatch? || e.Idle? }

  lemma StepPriority(s: State, e: Event, j: nat)
    requires Inv(s) && Enabled(s, e) && j < |s.t| && !Resets(s, e, j)
    ensures |Step(s, e).t| == |s.t|
    ensures Passes(e) ==> Step(s, e).t[j].priority == Age(s.t[j]).priority && Step(s, e).t[j].ticks == Age(s.t[j]).ticks
    ensures !Passes(e) ==> Step(s, e).t[j].priority == s.t[j].priority && Step(s, e).t[j].ticks == s.t[j].ticks
  {
    hide Exited, ParentOk, WaitOk, PidsOk, ExitsOk, MakersOk, HasZombie, HasChild;
    if e.Exit? {
      ExitedLength(s.t, e.i, s.init);
      ExitedAt(s, e.i, j);
    }
  }

  lemma StepStates(s: State, e: Event, j: nat)
    requires Inv(s) && Enabled(s, e) && j < |s.t| && !Resets(s, e, j)
    ensures |Step(s, e).t| == |s.t|
    ensures Step(s, e).t[j].state == EMBRYO ==> s.t[j].state == EMBRYO
    ensures Step(s, e).t[j].state != UNUSED ==> s.t[j].state != UNUSED
  {
    hide Exited, ParentOk, WaitOk, PidsOk, ExitsOk, MakersOk, HasZombie, HasChild;
    match e {
      case Exit(i) =>
        ExitedLength(s.t, i, s.init);
        ExitedAt(s, i, j);
      case ForkDone(i) => assert ModeOk(s, i);
      case _ =>
    }
  }

  lemma ResetPriority(s: State, e: Event, j: nat)
    requires Inv(s) && Enabled(s, e) && j < |s.t| && Resets(s, e, j) && PrioritiesOk(s)
    ensures |Step(s, e).t| == |s.t| && PriorityOk(Step(s, e).t[j])
  {
    match e {
      case Link(i) => assert ModeOk(s, i);
      case _ =>
    }
  }

  lemma StepKeepsPriorities(s: State, e: Event)
    requires Inv(s) && Enabled(s, e) && PrioritiesOk(s)
    ensures PrioritiesOk(Step(s, e))
  {
    assert |Step(s, e).t| == |s.t| by { StepLength(s, e); }
    hide Step, Enabled;
    forall j: nat | j < |s.t|
      ensures PriorityOk(Step(s, e).t[j])
    {
      if Resets(s, e, j) {
        ResetPriority(s, e, j);
      } else {
        StepPriority(s, e, j);
        StepStates(s, e, j);
      }
    }
  }

  lemma StepLength(s: State, e: Event)
    requires Inv(s) && Enabled(s, e)
    ensures |Step(s, e).t| == |s.t|
  {}

  lemma InitPriorities(s: State)
    requires Init(s)
    ensures PrioritiesOk(s)
  {}

  lemma {:induction false} RunKeepsPriorities(trace: seq<State>, es: seq<Event>, k: nat)
    requires IsRun(trace, es) && k < |trace|
    ensures PrioritiesOk(trace[k])
  {
    hide Step, Enabled, Inv, PrioritiesOk, Init;
    if k == 0 {
      InitPriorities(trace[0]);
    } else {
      RunKeepsPriorities(trace, es, k - 1);
      RunKeepsInv(trace, es, k - 1);
      StepKeepsPriorities(trace[k - 1], es[k - 1]);
    }
  }

  // ---- what a child starts with ----

  /** Process `i` has linked the child in slot `c` to itself, which has this priority and has not waited. */
  ghost predicate Inherits(s: State, i: nat, c: nat, priority: int) {
    && i < |s.t| && c < |s.t| && |s.mode| == |s.t| && s.mode[i] == Linked(c)
    && s.t[c].priority == priority && s.t[c].ticks == 0
  }

  lemma LinkInherits(s: State, i: nat)
    requires Inv(s) && PrioritiesOk(s) && Enabled(s, Link(i))
    ensures s.mode[i].Forking? && Inherits(Step(s, Link(i)), i, s.mode[i].e, s.t[i].priority)
  {
    assert ModeOk(s, i);
  }

  lemma StaysLinked(s: State, e: Event, i: nat, c: nat)
    requires Inv(s) && Enabled(s, e) && i < |s.t| && s.mode[i] == Linked(c) && e != ForkDone(i)
    ensures i < |Step(s, e).t| == |s.t| == |Step(s, e).mode| && Step(s, e).mode[i] == Linked(c)
  {
    hide ParentOk, WaitOk, PidsOk, ExitsOk, MakersOk, HasZombie, HasChild;
    assert ModeOk(s, i);
    if e.Exit? { ExitedLength(s.t, e.i, s.init); }
  }

  lemma NotReset(s: State, e: Event, i: nat, c: nat)
    requires Inv(s) && Enabled(s, e) && i < |s.t| && s.mode[i] == Linked(c) && !(e.SetPriority? && e.i == c)
    ensures c < |s.t| && s.t[c].state == EMBRYO && !Resets(s, e, c)
  {
    assert ModeOk(s, i);
    if e.Link? && e.i != i { OneMaker(s, i, e.i); }
    hide ParentOk, WaitOk, PidsOk, ExitsOk, MakersOk, HasZombie, HasChild;
  }

  lemma StepInherits(s: State, e: Event, i: nat, c: nat, priority: int)
    requires Inv(s) && Enabled(s, e) && Inherits(s, i, c, priority) && e != ForkDone(i) && !(e.SetPriority? && e.i == c)
    ensures Inherits(Step(s, e), i, c, priority)
  {
    hide Inv, Enabled, Step, Resets;
    StaysLinked(s, e, i, c);
    NotReset(s, e, i, c);
    StepPriority(s, e, c);
  }

  lemma {:induction false} RunInherits(trace: seq<State>, es: seq<Event>, i: nat, a: nat, b: nat)
    requires IsRun(trace, es) && a < b < |trace| && es[a] == Link(i) && i < |trace[a].mode| && trace[a].mode[i].Forking?
    requires forall k :: a < k < b ==>
               es[k] != ForkDone(i) && !(es[k].SetPriority? && es[k].i == trace[a].mode[i].e)
    ensures i < |trace[a].t| && Inherits(trace[b], i, trace[a].mode[i].e, trace[a].t[i].priority)
    decreases b
  {
    hide Step, Inv, Inherits, Init;
    RunKeepsInv(trace, es, b - 1);
    if a + 1 == b {
      RunKeepsPriorities(trace, es, a);
      LinkInherits(trace[a], i);
    } else {
      RunInherits(trace, es, i, a, b - 1);
      StepInherits(trace[b - 1], es[b - 1], i, trace[a].mode[i].e, trace[a].t[i].priority);
    }
  }

  lemma DoneStarts(s: State, i: nat, c: nat, priority: int)
    requires Inv(s) && Enabled(s, ForkDone(i)) && Inherits(s, i, c, priority)
    ensures var u := Step(s, ForkDone(i));
            && c < |u.t| && u.t[c].state == RUNNABLE && u.t[c].priority == priority && u.t[c].ticks == 0
            && u.t[c].parent == Some(i) && u.t[c].pid == s.t[c].pid
  {
    assert ModeOk(s, i);
  }

  /** A child enters the table with the priority that its parent had when it linked it to itself, unless somebody has
      set it since, and with no time waited. */
  lemma ForkInherits(trace: seq<State>, es: seq<Event>, i: nat, a: nat, b: nat)
    requires IsRun(trace, es) && a < b < |es| && es[a] == Link(i) && es[b] == ForkDone(i)
    requires i < |trace[a].mode| && trace[a].mode[i].Forking?
    requires forall k :: a < k < b ==>
               es[k] != ForkDone(i) && !(es[k].SetPriority? && es[k].i == trace[a].mode[i].e)
    ensures var c, t := trace[a].mode[i].e, trace[b + 1].t;
            && i < |trace[a].t| && c < |t| && t[c].state == RUNNABLE && t[c].parent == Some(i)
            && t[c].priority == trace[a].t[i].priority && t[c].ticks == 0
  {
    hide Step, Inv, Inherits, Init;
    RunInherits(trace, es, i, a, b);
    RunKeepsInv(trace, es, b);
    DoneStarts(trace[b], i, trace[a].mode[i].e, trace[a].t[i].priority);
    assert trace[b + 1] == Step(trace[b], es[b]);
  }

  /** Passes of the scheduler between two moments of a run that found slot `j` runnable. */
  ghost function Waits(trace: seq<State>, es: seq<Event>, j: nat, a: nat, b: nat): nat
    requires a <= b <= |es| == |trace| - 1
    requires forall k :: 0 <= k < |trace| ==> j < |trace[k].t|
    decreases b
  {
    if a == b then 0
    else Waits(trace, es, j, a, b - 1) + if Passes(es[b - 1]) && trace[b - 1].t[j].state == RUNNABLE then 1 else 0
  }

  lemma AgeOnce(p: Proc, p0: int, n: nat)
    requires p.priority == Min(MAX_PRIORITY, p0 + n / AGING_THRESHOLD) &&
             (p.priority < MAX_PRIORITY ==> p.ticks == n % AGING_THRESHOLD)
    requires p.state == RUNNABLE
    ensures Age(p).priority == Min(MAX_PRIORITY, p0 + (n + 1) / AGING_THRESHOLD)
    ensures Age(p).priority < MAX_PRIORITY ==> Age(p).ticks == (n + 1) % AGING_THRESHOLD
  {}

  /** The closed form of aging: from priority `p0` and wait count `t0`, after `N` passes that found it runnable and
      whatever else, the priority is `min(5, p0 + (t0 + N) / 100)`, as long as nobody sets it. */
  lemma {:induction false} AgingClosedForm(trace: seq<State>, es: seq<Event>, j: nat, a: nat, b: nat)
    requires IsRun(trace, es) && a <= b <= |es| && (forall k :: 0 <= k < |trace| ==> j < |trace[k].t|)
    requires trace[a].t[j].state != UNUSED
    requires forall k :: a <= k < b ==> WellFormed(trace[k]) && !Resets(trace[k], es[k], j)
    ensures var p, q, n := trace[a].t[j], trace[b].t[j], trace[a].t[j].ticks + Waits(trace, es, j, a, b);
            && q.priority == Min(MAX_PRIORITY, p.priority + n / AGING_THRESHOLD)
            && (q.priority < MAX_PRIORITY ==> q.ticks == n % AGING_THRESHOLD)
    decreases b
  {
    hide Step, Enabled, Inv, Init;
    RunKeepsPriorities(trace, es, a);
    if a < b {
      AgingClosedForm(trace, es, j, a, b - 1);
      RunKeepsInv(trace, es, b - 1);
      StepPriority(trace[b - 1], es[b - 1], j);
      if trace[b - 1].t[j].state == RUNNABLE {
        AgeOnce(trace[b - 1].t[j], trace[a].t[j].priority, trace[a].t[j].ticks + Waits(trace, es, j, a, b - 1));
      }
    }
  }

  /** `setpriority` gives the priority and starts the waiting anew. */
  lemma SetThenAges(trace: seq<State>, es: seq<Event>, pid: nat, j: nat, priority: int, a: nat, b: nat)
    requires IsRun(trace, es) && a < b <= |es| && (forall k :: 0 <= k < |trace| ==> j < |trace[k].t|)
    requires es[a] == SetPriority(pid, j, priority) && trace[a].t[j].state != UNUSED
    requires forall k :: a < k < b ==> WellFormed(trace[k]) && !Resets(trace[k], es[k], j)
    ensures trace[a].t[j].pid == pid
    ensures trace[b].t[j].priority == Min(MAX_PRIORITY, priority + Waits(trace, es, j, a + 1, b) / AGING_THRESHOLD)
  {
    hide *;
    RunStep(trace, es, a);
    SetStarts(trace[a], pid, j, priority);
    AgingClosedForm(trace, es, j, a + 1, b);
    var p := trace[a + 1].t[j];
    assert p.ticks + Waits(trace, es, j, a + 1, b) == Waits(trace, es, j, a + 1, b);
  }

  lemma RunStep(trace: seq<State>, es: seq<Event>, a: nat)
    requires IsRun(trace, es) && a < |es|
    ensures |trace| == |es| + 1 && WellFormed(trace[a]) && Enabled(trace[a], es[a])
    ensures trace[a + 1] == Step(trace[a], es[a])
  {
    hide Step, Enabled, WellFormed, Init;
  }

  lemma SetStarts(s: State, pid: nat, j: nat, priority: int)
    requires WellFormed(s) && Enabled(s, SetPriority(pid, j, priority))
    ensures j < |s.t| && s.t[j].pid == pid
    ensures var p := Step(s, SetPriority(pid, j, priority)).t;
            j < |p| && p[j].priority == priority && p[j].ticks == 0 && p[j].state == s.t[j].state
  {}

  /** When anyone is runnable, a pass dispatches someone. */
  lemma SomeoneRuns(trace: seq<State>, es: seq<Event>, k: nat, j: nat)
    requires IsRun(trace, es) && k < |es| && es[k] == Idle && j < |trace[k].t|
    ensures trace[k].t[j].state != RUNNABLE
  {
    RunKeepsPriorities(trace, es, k);
    assert PriorityOk(trace[k].t[j]);
    assert Aged(trace[k].t)[j] == Age(trace[k].t[j]);
  }

  /** A runnable process that the pass finds at the top priority is passed over exactly when a lower slot is
      runnable at the top too. */
  lemma PassedOver(s: State, i: nat, r: WaitScan, j: nat)
    requires WellFormed(s) && Enabled(s, Dispatch(i, r)) && j < |s.t| && PrioritiesOk(s)
    requires s.t[j].state == RUNNABLE && Age(s.t[j]).priority == MAX_PRIORITY
    ensures i != j <==> exists k :: 0 <= k < j && s.t[k].state == RUNNABLE && Age(s.t[k]).priority == MAX_PRIORITY
  {
    var t := Aged(s.t);
    assert t[j] == Age(s.t[j]) && t[i] == Age(s.t[i]) && PriorityOk(s.t[i]);
    if i != j { assert 0 <= i < j && s.t[i].state == RUNNABLE && Age(s.t[i]).priority == MAX_PRIORITY; }
    if k :| 0 <= k < j && s.t[k].state == RUNNABLE &&
            Age(s.t[k]).priority == MAX_PRIORITY { assert t[k] == Age(s.t[k]); }
  }

  // ---- starvation is possible ----

  /** Two runnable processes at the top, and nobody else runnable. */
  ghost predicate Rivals(s: State, a: nat, b: nat) {
    && WellFormed(s) && a < b < |s.t| && s.mode[a] == User
    && s.t[a].state == s.t[b].state == RUNNABLE && s.t[a].priority == s.t[b].priority == MAX_PRIORITY
    && (forall j :: 0 <= j < |s.t| && j != a && j != b ==> s.t[j].state != RUNNABLE)
  }

  /** The lower slot runs and yields, and everything is as before but for the wait counts. */
  lemma Round(s: State, a: nat, b: nat)
    requires Rivals(s, a, b)
    ensures Enabled(s, Dispatch(a, NoChildren))
    ensures var u := Step(s, Dispatch(a, NoChildren));
            && WellFormed(u) && u.t[b].state == RUNNABLE && u.t[b].priority == MAX_PRIORITY
            && Enabled(u, Yield(a)) && Rivals(Step(u, Yield(a)), a, b)
  {
    assert Aged(s.t)[a] == Age(s.t[a]) && Aged(s.t)[b] == Age(s.t[b]);
  }

  /** No pass can pick the higher slot. */
  lemma NeverPicked(s: State, a: nat, b: nat, i: nat, r: WaitScan)
    requires Rivals(s, a, b) && Enabled(s, Dispatch(i, r))
    ensures i == a
  {
    assert Aged(s.t)[a] == Age(s.t[a]) && Aged(s.t)[b] == Age(s.t[b]);
  }

  lemma OneMoreStep(trace: seq<State>, es: seq<Event>, e: Event)
    requires IsRun(trace, es) && WellFormed(trace[|es|]) && Enabled(trace[|es|], e)
    ensures IsRun(trace + [Step(trace[|es|], e)], es + [e])
  {
    hide Step, Enabled, WellFormed, Init;
    var ts, fs := trace + [Step(trace[|es|], e)], es + [e];
    forall k | 0 <= k < |fs|
      ensures WellFormed(ts[k]) && Enabled(ts[k], fs[k]) && ts[k + 1] == Step(ts[k], fs[k])
    {
      if k < |es| { assert ts[k] == trace[k] && ts[k + 1] == trace[k + 1]; }
    }
  }

  /** The first process is dispatched and forks. */
  lemma Forks(s: State) returns (trace: seq<State>)
    requires Init(s) && |s.t| >= 2 && s.init == 0
    ensures var es := [Dispatch(0, NoChildren), Alloc(0, 1), Link(0), ForkDone(0)];
            IsRun(trace, es) && trace[0] == s && Forked(trace[4])
  {
    assert Aged(s.t)[0] == Age(s.t[0]);
    assert forall j :: 0 < j < |s.t| ==> Aged(s.t)[j] == Age(s.t[j]);
    var s1 := Step(s, Dispatch(0, NoChildren));
    var s2 := Step(s1, Alloc(0, 1));
    var s3 := Step(s2, Link(0));
    var s4 := Step(s3, ForkDone(0));
    trace := [s, s1, s2, s3, s4];
  }

  /** Two processes, in the first two slots: the first runs, the second can. */
  ghost predicate Forked(s: State) {
    && WellFormed(s) && |s.t| >= 2 && s.mode[0] == User && s.t[0].state == RUNNING && s.t[1].state == RUNNABLE
    && s.t[0].pid == 1 && s.t[1].pid == 2 && forall j :: 2 <= j < |s.t| ==> s.t[j].state == UNUSED
  }

  /** Both get the top priority, and the first one yields. */
  lemma Raises(s: State)
    requires Forked(s)
    ensures Enabled(s, SetPriority(1, 0, 5))
    ensures var u := Step(s, SetPriority(1, 0, 5));
            && WellFormed(u) && Enabled(u, SetPriority(2, 1, 5))
            && var v := Step(u, SetPriority(2, 1, 5));
            && WellFormed(v) && Enabled(v, Yield(0)) && Rivals(Step(v, Yield(0)), 0, 1)
  {}

  /** How the run starts: the first process forks and sets both priorities to the top. */
  function Opening(): seq<Event> {
    [Dispatch(0, NoChildren), Alloc(0, 1), Link(0),
     ForkDone(0)] + [SetPriority(1, 0, 5)] + [SetPriority(2, 1, 5)] + [Yield(0)]
  }

  lemma Opens(s: State) returns (trace: seq<State>)
    requires Init(s) && |s.t| >= 2 && s.init == 0
    ensures IsRun(trace, Opening()) && trace[0] == s && Rivals(trace[7], 0, 1)
  {
    trace := Forks(s);
    Raises(trace[4]);
    hide Forked, Rivals, Step, Enabled, WellFormed, Init;
    var es := [Dispatch(0, NoChildren), Alloc(0, 1), Link(0), ForkDone(0)];
    OneMoreStep(trace, es, SetPriority(1, 0, 5));
    trace, es := trace + [Step(trace[4], SetPriority(1, 0, 5))], es + [SetPriority(1, 0, 5)];
    OneMoreStep(trace, es, SetPriority(2, 1, 5));
    trace, es := trace + [Step(trace[5], SetPriority(2, 1, 5))], es + [SetPriority(2, 1, 5)];
    OneMoreStep(trace, es, Yield(0));
    trace := trace + [Step(trace[6], Yield(0))];
  }

  /** Then it runs and yields, `n` times. */
  function Turns(n: nat): seq<Event> {
    if n == 0 then [] else Turns(n - 1) + [Dispatch(0, NoChildren)] + [Yield(0)]
  }

  lemma {:induction false} TurnsLength(n: nat)
    ensures |Turns(n)| == 2 * n
  {
    if n > 0 { TurnsLength(n - 1); }
  }

  /** The second process is runnable at the top, and in every other state it is up to a pass that cannot pick it. */
  ghost predicate Neglected(s: State, k: nat) {
    && 1 < |s.t| && s.t[1].state == RUNNABLE && s.t[1].priority == MAX_PRIORITY && (k % 2 == 1 ==> Rivals(s, 0, 1))
  }

  lemma NeglectedTurn(s: State, k: nat)
    requires Neglected(s, k) && k % 2 == 1
    ensures WellFormed(s) && Enabled(s, Dispatch(0, NoChildren))
    ensures var u := Step(s, Dispatch(0, NoChildren));
            WellFormed(u) && Neglected(u, k + 1) && Enabled(u, Yield(0)) && Neglected(Step(u, Yield(0)), k + 2)
  {
    Round(s, 0, 1);
  }

  /** From the state the kernel boots into there is a run, as long as you like, in which the second process is
      runnable at the top all along, no pass of the scheduler could have picked it, and nothing but ties went against
      it. */
  lemma {:induction false} Starves(s: State, n: nat) returns (trace: seq<State>)
    requires Init(s) && |s.t| >= 2 && s.init == 0
    ensures IsRun(trace, Opening() + Turns(n)) && trace[0] == s && |trace| == 8 + 2 * n
    ensures forall k :: 7 <= k < |trace| ==> Neglected(trace[k], k)
  {
    hide Rivals, Step, Enabled, WellFormed, Init;
    TurnsLength(n);
    if n == 0 {
      trace := Opens(s);
      RivalsNeglect(trace[7]);
      assert Opening() + Turns(0) == Opening();
    } else {
      trace := Starves(s, n - 1);
      TurnsLength(n - 1);
      TurnsNext(n);
      trace := OneTurn(trace, Opening() + Turns(n - 1));
    }
  }

  lemma OneTurn(trace: seq<State>, es: seq<Event>) returns (ts: seq<State>)
    requires IsRun(trace, es) && |es| % 2 == 1 && |es| >= 7 && forall k :: 7 <= k < |trace| ==> Neglected(trace[k], k)
    ensures IsRun(ts, es + [Dispatch(0, NoChildren)] + [Yield(0)]) && ts[0] == trace[0] && |ts| == |trace| + 2
    ensures forall k :: 7 <= k < |ts| ==> Neglected(ts[k], k)
  {
    hide Neglected, Step, Enabled, WellFormed, Init;
    NeglectedTurn(trace[|es|], |es|);
    OneMoreStep(trace, es, Dispatch(0, NoChildren));
    ts := trace + [Step(trace[|es|], Dispatch(0, NoChildren))];
    OneMoreStep(ts, es + [Dispatch(0, NoChildren)], Yield(0));
    ts := ts + [Step(ts[|es| + 1], Yield(0))];
  }

  lemma RivalsNeglect(s: State)
    requires Rivals(s, 0, 1)
    ensures Neglected(s, 7)
  {}

  lemma TurnsNext(n: nat)
    requires n > 0
    ensures Opening() + Turns(n - 1) + [Dispatch(0, NoChildren)] + [Yield(0)] == Opening() + Turns(n)
  {}
}
