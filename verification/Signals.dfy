/** What kills and what wakes a process, over whole runs: the mark that `kill` leaves, how long it stays and whose it
    is, and when a sleep ends. */
module Signals {
  import opened Basics
  import opened ProcTable
  import opened Processes

  // ---- the mark stays until the process is reaped ----

  /** `kill` marks the process and ends its sleep; it changes nothing else. */
  lemma KillMarks(s: State, pid: nat, i: nat)
    requires WellFormed(s) && Enabled(s, Kill(pid, i))
    ensures var u := Step(s, Kill(pid, i));
            && i < |s.t| == |u.t| && u.t[i].killed && u.t[i].state != SLEEPING && u.t[i].pid == pid
            && (s.t[i].state != SLEEPING ==> u.t[i].state == s.t[i].state)
            && (s.t[i].state == SLEEPING ==> u.t[i].state == RUNNABLE)
            && forall j :: 0 <= j < |s.t| && j != i ==> u.t[j] == s.t[j]
  {}

  /** Event `e` reaps slot `j`. */
  ghost predicate Reaps(s: State, e: Event, j: nat)
    requires WellFormed(s)
  {
    (e.Wait? && e.r == Zombie(j)) || (e.Dispatch? && e.i < |s.t| && s.mode[e.i] == Waiting && e.r == Zombie(j))
  }

  /** What an event makes of the mark and the pid of a slot. */
  ghost predicate Marks(s: State, e: Event, j: nat, q: Proc)
    requires WellFormed(s) && j < |s.t|
  {
    var p := s.t[j];
    if Reaps(s, e, j) then q.state == UNUSED && !q.killed && q.pid == 0
    else
      && q.killed == (p.killed || (e.Kill? && e.i == j))
      && q.pid == (if e.Alloc? && e.e == j then s.nextpid else p.pid)
      && (Alive(p.state) || p.state == ZOMBIE ==> Alive(q.state) || q.state == ZOMBIE)
  }

  lemma WaitMarks(s: State, e: Event, j: nat)
    requires Inv(s) && Enabled(s, e) && (e.Wait? || e.Dispatch?) && j < |s.t|
    ensures |Step(s, e).t| == |s.t| && Marks(s, e, j, Step(s, e).t[j])
  {
    hide ParentOk, WaitOk, ModeOk, PidsOk, ExitsOk, MakersOk, HasZombie, HasChild;
    if e.Dispatch? { GentleStart(s, e.i); }
  }

  lemma ExitMarks(s: State, i: nat, j: nat)
    requires Inv(s) && Enabled(s, Exit(i)) && j < |s.t|
    ensures |Step(s, Exit(i)).t| == |s.t| && Marks(s, Exit(i), j, Step(s, Exit(i)).t[j])
  {
    hide Exited, ParentOk, WaitOk, ModeOk, PidsOk, ExitsOk, MakersOk, HasZombie, HasChild;
    ExitedLength(s.t, i, s.init);
    ExitedAt(s, i, j);
  }

  lemma StepKilled(s: State, e: Event, j: nat)
    requires Inv(s) && Enabled(s, e) && j < |s.t|
    ensures |Step(s, e).t| == |s.t| && Marks(s, e, j, Step(s, e).t[j])
  {
    hide Exited, WaitPass, ParentOk, WaitOk, PidsOk, ExitsOk, MakersOk, HasZombie, HasChild;
    match e {
      case Exit(i) => ExitMarks(s, i, j);
      case Wait(_, _) => WaitMarks(s, e, j);
      case Dispatch(_, _) => WaitMarks(s, e, j);
      case ForkFail(i) => assert ModeOk(s, i);
      case Link(i) => assert ModeOk(s, i);
      case ForkDone(i) => assert ModeOk(s, i);
      case _ =>
    }
  }

  /** Once a process is marked it stays so, with the same pid, until it is reaped. */
  lemma {:induction false} KilledUntilReaped(trace: seq<State>, es: seq<Event>, i: nat, a: nat, b: nat)
    requires IsRun(trace, es) && a <= b <= |es| && i < |trace[a].t| && trace[a].t[i].killed
    requires forall k :: a <= k < b ==> WellFormed(trace[k]) && !Reaps(trace[k], es[k], i)
    ensures i < |trace[b].t| && trace[b].t[i].killed
    ensures Alive(trace[a].t[i].state) || trace[a].t[i].state == ZOMBIE ==>
              trace[b].t[i].pid == trace[a].t[i].pid && (Alive(trace[b].t[i].state) || trace[b].t[i].state == ZOMBIE)
    decreases b
  {
    hide Step, Enabled, Inv, Init;
    if a < b {
      KilledUntilReaped(trace, es, i, a, b - 1);
      RunKeepsInv(trace, es, b - 1);
      StepKilled(trace[b - 1], es[b - 1], i);
      if es[b - 1].Alloc? { AllocTakesUnused(trace[b - 1], es[b - 1].i, es[b - 1].e); }
    }
  }

  lemma AllocTakesUnused(s: State, i: nat, e: nat)
    requires WellFormed(s) && Enabled(s, Alloc(i, e))
    ensures e < |s.t| && s.t[e].state == UNUSED
  {}

  /** A process that is killed does not sleep in `wait`. */
  ghost predicate KilledAwake(s: State) {
    WellFormed(s) && forall j :: 0 <= j < |s.t| && s.t[j].killed && s.mode[j] == Waiting ==> s.t[j].state != SLEEPING
  }

  lemma StepKeepsAwake(s: State, e: Event)
    requires Inv(s) && Enabled(s, e) && KilledAwake(s)
    ensures KilledAwake(Step(s, e))
  {
    hide Exited, ParentOk, WaitOk, PidsOk, ExitsOk, MakersOk, HasZombie, HasChild;
    var u := Step(s, e);
    if e.Exit? {
      ExitedLength(s.t, e.i, s.init);
      forall j: nat | j < |s.t|
        ensures u.t[j].killed == s.t[j].killed && (u.t[j].state == SLEEPING ==> s.t[j].state == SLEEPING)
      {
        ExitedAt(s, e.i, j);
      }
    }
  }

  lemma {:induction false} RunKeepsAwake(trace: seq<State>, es: seq<Event>, k: nat)
    requires IsRun(trace, es) && k < |trace|
    ensures KilledAwake(trace[k])
  {
    if k > 0 {
      RunKeepsAwake(trace, es, k - 1);
      RunKeepsInv(trace, es, k - 1);
      StepKeepsAwake(trace[k - 1], es[k - 1]);
    }
  }

  // ---- whose mark it is ----

  /** The pids that calls of `kill` have named. */
  ghost function Named(es: seq<Event>): set<nat> {
    if es == [] then {} else Named(es[..|es| - 1]) + if es[|es| - 1].Kill? then {es[|es| - 1].pid} else {}
  }

  lemma NamedNext(es: seq<Event>, k: nat)
    requires k < |es|
    ensures Named(es[..k + 1]) == Named(es[..k]) + if es[k].Kill? then {es[k].pid} else {}
  {
    assert es[..k + 1][..k] == es[..k];
  }

  lemma {:induction false} NamedBelow(trace: seq<State>, es: seq<Event>, k: nat)
    requires IsRun(trace, es) && k < |trace|
    ensures forall x :: x in Named(es[..k]) ==> x < trace[k].nextpid
  {
    if k > 0 {
      NamedBelow(trace, es, k - 1);
      NamedNext(es, k - 1);
      RunKeepsInv(trace, es, k - 1);
      hide Named;
      PidsGrow(trace[k - 1], es[k - 1]);
    }
  }

  lemma PidsGrow(s: State, e: Event)
    requires Inv(s) && Enabled(s, e)
    ensures s.nextpid <= Step(s, e).nextpid && (e.Kill? ==> e.pid < s.nextpid)
  {}

  /** Every marked slot has a pid that a `kill` named. */
  ghost predicate Blamed(s: State, es: seq<Event>) {
    forall j :: 0 <= j < |s.t| && s.t[j].killed ==> s.t[j].pid in Named(es)
  }

  /** The event hands out a slot that is marked. */
  ghost predicate TakesMarked(s: State, e: Event) { e.Alloc? && e.e < |s.t| && s.t[e.e].killed }

  lemma StepBlamed(s: State, e: Event, before: seq<Event>, after: seq<Event>)
    requires Inv(s) && Enabled(s, e) && Blamed(s, before) && (forall x :: x in Named(before) ==> x < s.nextpid)
    requires Named(after) == Named(before) + if e.Kill? then {e.pid} else {}
    ensures Blamed(Step(s, e), after) <==> !TakesMarked(s, e)
  {
    assert WellFormed(s);
    hide Named, Inv, Step, Enabled;
    var u := Step(s, e);
    assert |u.t| == |s.t| by { StepKilled(s, e, s.init); }
    forall j: nat | j < |s.t|
      ensures u.t[j].killed ==> u.t[j].pid in Named(after) || (e.Alloc? && e.e == j && s.t[j].killed)
    {
      StepKilled(s, e, j);
      if e.Kill? && e.i == j { KillMarks(s, e.pid, j); }
    }
    if TakesMarked(s, e) { BornMarked(s, e); }
  }

  lemma BornMarked(s: State, e: Event)
    requires WellFormed(s) && Enabled(s, e) && TakesMarked(s, e)
    ensures var u := Step(s, e); |u.t| == |s.t| && u.t[e.e].killed && u.t[e.e].pid == s.nextpid
  {}

  lemma {:induction false} RunBlamed(trace: seq<State>, es: seq<Event>, k: nat)
    requires IsRun(trace, es) && k < |trace| && forall j :: 0 <= j < k ==> !TakesMarked(trace[j], es[j])
    ensures Blamed(trace[k], es[..k])
  {
    if k > 0 {
      RunBlamed(trace, es, k - 1);
      RunKeepsInv(trace, es, k - 1);
      NamedBelow(trace, es, k - 1);
      NamedNext(es, k - 1);
      hide Named, Inv, Step, Enabled, Blamed;
      StepBlamed(trace[k - 1], es[k - 1], es[..k - 1], es[..k]);
    }
  }

  /** In every state of a run each marked slot has a pid that a `kill` named, if and only if no `allocproc` of the run
      takes a slot that is marked: it does not clear the mark. */
  lemma BlamedExactly(trace: seq<State>, es: seq<Event>)
    requires IsRun(trace, es)
    ensures (forall k :: 0 <= k < |trace| ==> Blamed(trace[k], es[..k])) <==>
              (forall k :: 0 <= k < |es| ==> !TakesMarked(trace[k], es[k]))
  {
    hide Named, Inv, Step, Enabled, Init, Blamed, TakesMarked;
    if forall k :: 0 <= k < |es| ==> !TakesMarked(trace[k], es[k]) {
      forall k | 0 <= k < |trace|
        ensures Blamed(trace[k], es[..k])
      {
        RunBlamed(trace, es, k);
      }
    }
    if forall k :: 0 <= k < |trace| ==> Blamed(trace[k], es[..k]) {
      forall k | 0 <= k < |es|
        ensures !TakesMarked(trace[k], es[k])
      {
        RunKeepsInv(trace, es, k);
        NamedBelow(trace, es, k);
        NamedNext(es, k);
        StepBlamed(trace[k], es[k], es[..k], es[..k + 1]);
        assert Blamed(trace[k + 1], es[..k + 1]);
      }
    }
  }

  /** No free slot is marked. */
  ghost predicate FreeUnmarked(s: State) {
    forall j :: 0 <= j < |s.t| && s.t[j].state == UNUSED ==> !s.t[j].killed
  }

  /** A `kill` that names the pid of a free slot, which is 0 for one that never was used or was reaped; or a `fork` that
      fails after its child has been killed. */
  ghost predicate Stray(s: State, e: Event)
    requires WellFormed(s)
  {
    || (e.Kill? && e.i < |s.t| && s.t[e.i].state == UNUSED)
    || (e.ForkFail? && e.i < |s.t| && s.mode[e.i].Forking? && s.mode[e.i].e < |s.t| && s.t[s.mode[e.i].e].killed)
  }

  lemma StepStray(s: State, e: Event)
    requires Inv(s) && Enabled(s, e) && FreeUnmarked(s)
    ensures FreeUnmarked(Step(s, e)) <==> !Stray(s, e)
  {
    var u := Step(s, e);
    assert |u.t| == |s.t| by { StepKilled(s, e, s.init); }
    if e.ForkFail? { assert ModeOk(s, e.i); }
    forall j: nat | j < |s.t|
      ensures u.t[j].state == UNUSED && u.t[j].killed ==> Stray(s, e)
    {
      StepKilled(s, e, j);
      NewlyFree(s, e, j);
    }
    if Stray(s, e) { StrayMarks(s, e); }
    hide Step, Inv, Enabled;
  }

  lemma NewlyFree(s: State, e: Event, j: nat)
    requires Inv(s) && Enabled(s, e) && j < |s.t| && |Step(s, e).t| == |s.t|
    ensures Step(s, e).t[j].state == UNUSED ==>
              s.t[j].state == UNUSED || Reaps(s, e, j) || (e.ForkFail? && s.mode[e.i].e == j)
  {
    hide Exited, ParentOk, WaitOk, PidsOk, ExitsOk, MakersOk, HasZombie, HasChild;
    match e {
      case Exit(i) =>
        ExitedLength(s.t, i, s.init);
        ExitedAt(s, i, j);
      case Dispatch(i, r) => GentleStart(s, i);
      case _ =>
    }
  }

  lemma StrayMarks(s: State, e: Event)
    requires Inv(s) && Enabled(s, e) && Stray(s, e)
    ensures !FreeUnmarked(Step(s, e))
  {
    var u := Step(s, e);
    var j := if e.Kill? then e.i else s.mode[e.i].e;
    assert u.t[j].state == UNUSED && u.t[j].killed;
  }

  lemma {:induction false} RunStray(trace: seq<State>, es: seq<Event>, k: nat)
    requires IsRun(trace, es) && k < |trace| &&
             forall j :: 0 <= j < k ==> WellFormed(trace[j]) && !Stray(trace[j], es[j])
    ensures FreeUnmarked(trace[k])
  {
    if k > 0 {
      RunStray(trace, es, k - 1);
      RunKeepsInv(trace, es, k - 1);
      hide Inv, Step, Enabled, FreeUnmarked, Stray;
      StepStray(trace[k - 1], es[k - 1]);
    }
  }

  /** No free slot is ever marked, if and only if no event of the run is stray; and then every marked slot has a pid
      that a `kill` named. */
  lemma UnmarkedExactly(trace: seq<State>, es: seq<Event>)
    requires IsRun(trace, es)
    ensures (forall k :: 0 <= k < |trace| ==> FreeUnmarked(trace[k])) <==>
              (forall k :: 0 <= k < |es| ==> WellFormed(trace[k]) && !Stray(trace[k], es[k]))
    ensures (forall k :: 0 <= k < |trace| ==> FreeUnmarked(trace[k])) ==>
              (forall k :: 0 <= k < |trace| ==> Blamed(trace[k], es[..k]))
  {
    hide Named, Inv, Step, Init, Blamed, Stray;
    if forall k :: 0 <= k < |es| ==> WellFormed(trace[k]) && !Stray(trace[k], es[k]) {
      forall k | 0 <= k < |trace|
        ensures FreeUnmarked(trace[k])
      {
        RunStray(trace, es, k);
      }
    }
    if forall k :: 0 <= k < |trace| ==> FreeUnmarked(trace[k]) {
      forall k | 0 <= k < |es|
        ensures WellFormed(trace[k]) && !Stray(trace[k], es[k]) && !TakesMarked(trace[k], es[k])
      {
        RunKeepsInv(trace, es, k);
        StepStray(trace[k], es[k]);
        assert FreeUnmarked(trace[k + 1]);
        if es[k].Alloc? { AllocTakesUnused(trace[k], es[k].i, es[k].e); }
      }
      BlamedExactly(trace, es);
    }
  }

  /** The first process runs, and every other slot is free. */
  ghost predicate Booted(s: State) {
    && WellFormed(s) && |s.t| >= 2 && s.init == 0 && s.t[0].state == RUNNING && s.t[0].pid == 1 && s.mode[0] == User
    && s.nextpid == 2 && forall j :: 0 < j < |s.t| ==> s.t[j].state == UNUSED && s.t[j].pid == 0
  }

  lemma Boots(s: State)
    requires Init(s) && |s.t| >= 2 && s.init == 0
    ensures WellFormed(s) && Enabled(s, Dispatch(0, NoChildren)) && Booted(Step(s, Dispatch(0, NoChildren)))
    ensures |Step(s, Dispatch(0, NoChildren)).t| == |s.t|
  {
    assert Aged(s.t)[0] == Age(s.t[0]);
    assert forall j :: 0 < j < |s.t| ==> Aged(s.t)[j] == Age(s.t[j]);
  }

  lemma KillsNobody(s: State)
    requires Booted(s)
    ensures Enabled(s, Kill(0, 1)) && Booted(Step(s, Kill(0, 1))) && Step(s, Kill(0, 1)).t[1].killed
    ensures |Step(s, Kill(0, 1)).t| == |s.t|
  {}

  lemma ForkKilled(s: State) returns (s1: State, s2: State, s3: State)
    requires Booted(s) && s.t[1].killed
    ensures Enabled(s, Alloc(0, 1)) && s1 == Step(s, Alloc(0, 1)) && WellFormed(s1)
    ensures Enabled(s1, Link(0)) && s2 == Step(s1, Link(0)) && WellFormed(s2)
    ensures Enabled(s2, ForkDone(0)) && s3 == Step(s2, ForkDone(0)) && |s3.t| == |s.t|
    ensures s3.t[1].state == RUNNABLE && s3.t[1].killed && s3.t[1].pid == 2
  {
    s1 := Step(s, Alloc(0, 1));
    s2 := Step(s1, Link(0));
    s3 := Step(s2, ForkDone(0));
  }

  /** Such a run: `kill` of pid 0 marks a free slot, and the next child is killed from birth though nobody named it. */
  lemma BornKilled(s: State) returns (trace: seq<State>)
    requires Init(s) && |s.t| >= 2 && s.init == 0
    ensures var es := [Dispatch(0, NoChildren), Kill(0, 1), Alloc(0, 1), Link(0), ForkDone(0)];
            && IsRun(trace, es) && trace[0] == s && |trace[5].t| == |s.t|
            && trace[5].t[1].state == RUNNABLE && trace[5].t[1].killed && trace[5].t[1].pid == 2 && 2 !in Named(es)
  {
    var es := [Dispatch(0, NoChildren), Kill(0, 1), Alloc(0, 1), Link(0), ForkDone(0)];
    hide Step, Enabled, Init, Booted, Named;
    NamedFive(es);
    Boots(s);
    var s1 := Step(s, es[0]);
    BootedForm(s1);
    KillsNobody(s1);
    var s2 := Step(s1, es[1]);
    BootedForm(s2);
    var s3, s4, s5 := ForkKilled(s2);
    trace := [s, s1, s2, s3, s4, s5];
  }

  lemma BootedForm(s: State)
    requires Booted(s)
    ensures WellFormed(s) && |s.t| >= 2
  {}

  lemma NamedFive(es: seq<Event>)
    requires |es| == 5 && es[1] == Kill(0, 1) && forall k :: 0 <= k < 5 && k != 1 ==> !es[k].Kill?
    ensures Named(es) == {0}
  {
    assert es[..0] == [] && es[..5] == es;
    NamedNext(es, 0);
    NamedNext(es, 1);
    NamedNext(es, 2);
    NamedNext(es, 3);
    NamedNext(es, 4);
  }

  // ---- what ends a sleep ----

  /** A sleep ends by a wakeup on its channel, by `kill`, or, in `wait`, when a child exits or init inherits a
      zombie. */
  lemma SleepEnds(s: State, e: Event, j: nat)
    requires Inv(s) && Enabled(s, e) && j < |s.t| && s.t[j].state == SLEEPING
    ensures |Step(s, e).t| == |s.t|
    ensures var q := Step(s, e).t[j];
            if q.state == SLEEPING then q.chan == s.t[j].chan
            else
              || (e.Wakeup? && s.t[j].chan == Other(e.k)) || (e.Kill? && e.i == j)
              || (e.Exit? && s.t[j].chan.OfProc? &&
                  (s.t[e.i].parent == Some(s.t[j].chan.i) || (s.t[j].chan.i == s.init && HasZombie(s.t, e.i))))
  {
    hide Exited, ParentOk, WaitOk, PidsOk, ExitsOk, MakersOk, HasZombie, HasChild;
    match e {
      case Exit(i) =>
        ExitedLength(s.t, i, s.init);
        ExitedAt(s, i, j);
        ExitWakes(s, i, j);
      case Dispatch(i, r) => GentleStart(s, i);
      case ForkFail(i) => assert ModeOk(s, i);
      case Link(i) => assert ModeOk(s, i);
      case ForkDone(i) => assert ModeOk(s, i);
      case _ =>
    }
  }

  lemma ExitWakes(s: State, i: nat, j: nat)
    requires WellFormed(s) && i < |s.t| && i != j && j < |s.t| && s.t[j].state == SLEEPING
    ensures var q := Exited(s.t, i, s.init)[j];
            q.state != SLEEPING ==>
              s.t[j].chan.OfProc? &&
              (s.t[i].parent == Some(s.t[j].chan.i) || (s.t[j].chan.i == s.init && HasZombie(s.t, i)))
  {}

  lemma {:induction false} SleepsOn(trace: seq<State>, es: seq<Event>, i: nat, a: nat, b: nat)
    requires IsRun(trace, es) && a < b < |trace|
    requires forall m :: a <= m <= b ==> i < |trace[m].t| && trace[m].t[i].state == SLEEPING
    ensures trace[b].t[i].chan == trace[a].t[i].chan
    decreases b
  {
    hide Step, Enabled, Inv, Init;
    RunKeepsInv(trace, es, b - 1);
    SleepEnds(trace[b - 1], es[b - 1], i);
    if a < b - 1 { SleepsOn(trace, es, i, a, b - 1); }
  }

  /** Whoever went to sleep on a channel and is still in that sleep is woken by the next wakeup on it, and nobody is
      left asleep there. */
  lemma WokenByName(trace: seq<State>, es: seq<Event>, i: nat, k: nat, a: nat, b: nat)
    requires IsRun(trace, es) && a < b < |es| && es[a] == Sleep(i, k) && es[b] == Wakeup(k)
    requires forall m :: a < m <= b ==> i < |trace[m].t| && trace[m].t[i].state == SLEEPING
    ensures i < |trace[b + 1].t| && trace[b + 1].t[i].state == RUNNABLE
    ensures var t := trace[b + 1].t;
            forall j :: 0 <= j < |t| ==> !(t[j].state == SLEEPING && t[j].chan == Other(k))
  {
    assert trace[a + 1] == Step(trace[a], es[a]);
    assert trace[a + 1].t[i].chan == Other(k);
    if a + 1 < b { SleepsOn(trace, es, i, a + 1, b); }
    assert trace[b + 1] == Step(trace[b], es[b]);
  }

  // ---- nothing is left behind ----

  /** Only sleepers, and those just woken, have a channel. */
  predicate ChanOk(p: Proc) { p.state != SLEEPING && p.state != RUNNABLE ==> p.chan == NoChan }

  /** A child in the making has a maker. */
  ghost predicate HasMaker(s: State, c: nat) {
    exists i :: 0 <= i < |s.mode| && (s.mode[i] == Forking(c) || s.mode[i] == Linked(c))
  }

  ghost predicate Tidy(s: State) {
    && (forall j :: 0 <= j < |s.t| ==> ChanOk(s.t[j]))
    && (forall c :: 0 <= c < |s.t| && s.t[c].state == EMBRYO ==> HasMaker(s, c))
  }

  lemma StepKeepsChan(s: State, e: Event, j: nat)
    requires Inv(s) && Enabled(s, e) && j < |s.t| && Tidy(s)
    ensures |Step(s, e).t| == |s.t| && ChanOk(Step(s, e).t[j])
  {
    hide Exited, ParentOk, WaitOk, PidsOk, ExitsOk, MakersOk, HasZombie, HasChild, HasMaker;
    assert ChanOk(s.t[j]);
    match e {
      case Exit(i) =>
        ExitedLength(s.t, i, s.init);
        ExitedAt(s, i, j);
        assert ChanOk(s.t[i]);
      case Dispatch(i, r) => GentleStart(s, i);
      case ForkFail(i) => assert ModeOk(s, i);
      case Link(i) => assert ModeOk(s, i);
      case ForkDone(i) => assert ModeOk(s, i);
      case _ =>
    }
  }

  /** What a step makes of the modes: a maker stays one until its child is done with. */
  lemma MakerStays(s: State, e: Event, i: nat, c: nat)
    requires Inv(s) && Enabled(s, e) && i < |s.mode| && (s.mode[i] == Forking(c) || s.mode[i] == Linked(c))
    ensures var u := Step(s, e);
            && |u.mode| == |s.mode| && |u.t| == |s.t| && c < |s.t|
            && (u.mode[i] == Forking(c) || u.mode[i] == Linked(c) || u.t[c].state != EMBRYO)
  {
    hide Exited, ParentOk, WaitOk, PidsOk, ExitsOk, MakersOk, HasZombie, HasChild;
    assert ModeOk(s, i);
    if e.Exit? { ExitedLength(s.t, e.i, s.init); }
  }

  lemma NewEmbryo(s: State, e: Event, c: nat)
    requires Inv(s) && Enabled(s, e) && c < |s.t| && |Step(s, e).t| == |s.t| && Step(s, e).t[c].state == EMBRYO
    ensures s.t[c].state == EMBRYO || (e.Alloc? && e.e == c && HasMaker(Step(s, e), c))
  {
    hide Exited, ParentOk, WaitOk, PidsOk, ExitsOk, MakersOk, HasZombie, HasChild;
    match e {
      case Exit(i) => ExitedAt(s, i, c);
      case Alloc(i, d) => assert d == c ==> Step(s, e).mode[i] == Forking(c);
      case Link(i) => assert ModeOk(s, i);
      case ForkDone(i) => assert ModeOk(s, i);
      case Dispatch(i, r) => GentleStart(s, i);
      case _ =>
    }
  }

  lemma StepKeepsMaker(s: State, e: Event, c: nat)
    requires Inv(s) && Enabled(s, e) && c < |s.t| && Tidy(s) && |Step(s, e).t| == |s.t|
    ensures Step(s, e).t[c].state == EMBRYO ==> HasMaker(Step(s, e), c)
  {
    assert WellFormed(s);
    hide Inv, Enabled, Step, ChanOk;
    if Step(s, e).t[c].state == EMBRYO {
      NewEmbryo(s, e, c);
      if s.t[c].state == EMBRYO {
        var i :| 0 <= i < |s.mode| && (s.mode[i] == Forking(c) || s.mode[i] == Linked(c));
        MakerStays(s, e, i, c);
      }
    }
  }

  lemma StepKeepsTidy(s: State, e: Event)
    requires Inv(s) && Enabled(s, e) && Tidy(s)
    ensures Tidy(Step(s, e))
  {
    StepKilled(s, e, s.init);
    hide Inv, Enabled, Step, ChanOk, HasMaker, Marks;
    forall j: nat | j < |s.t|
      ensures ChanOk(Step(s, e).t[j]) && (Step(s, e).t[j].state == EMBRYO ==> HasMaker(Step(s, e), j))
    {
      StepKeepsChan(s, e, j);
      StepKeepsMaker(s, e, j);
    }
  }

  /** In every state of every run a child in the making has a maker, so that no slot is lost, and no process but a
      sleeper or one just woken has a channel. */
  lemma {:induction false} RunKeepsTidy(trace: seq<State>, es: seq<Event>, k: nat)
    requires IsRun(trace, es) && k < |trace|
    ensures Tidy(trace[k])
  {
    if k > 0 {
      RunKeepsTidy(trace, es, k - 1);
      RunKeepsInv(trace, es, k - 1);
      hide Inv, Enabled, Step, Tidy;
      StepKeepsTidy(trace[k - 1], es[k - 1]);
    }
  }
}
