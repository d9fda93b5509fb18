/** Processes forking, exiting, waiting and being killed, each part that holds `ptable.lock` one step. */
module Processes {
  import opened Basics
  import opened ProcTable

  /** Where a process stands between steps: outside, in `fork` with a child slot it has not yet, or has, linked
      to itself, or in `wait`. */
  datatype Mode = User | Forking(e: nat) | Linked(e: nat) | Waiting

  /** `exited` and `reaped` record the pids of processes that exited and of those `wait` reported, in order. */
  datatype State = State(t: seq<Proc>, nextpid: nat, init: nat, mode: seq<Mode>, exited: set<nat>, reaped: seq<nat>)

  datatype Event =
    | Alloc(i: nat, e: nat) | ForkFail(i: nat) | Link(i: nat) | ForkDone(i: nat)
    | Exit(i: nat) | Wait(i: nat, r: WaitScan) | Sleep(i: nat, k: nat) | Yield(i: nat)
    | Wakeup(k: nat) | Kill(pid: nat, i: nat) | SetPriority(pid: nat, i: nat, priority: int)
    | Dispatch(i: nat, r: WaitScan) | Idle

  predicate Alive(s: ProcState) { s == RUNNABLE || s == RUNNING || s == SLEEPING }

  ghost predicate WellFormed(s: State) { |s.mode| == |s.t| && s.init < |s.t| }

  /** One pass of `wait` by process `i`, which holds the lock and runs. */
  function WaitPass(s: State, i: nat, r: WaitScan): State
    requires WellFormed(s) && i < |s.t| && (r.Zombie? ==> r.z < |s.t|)
  {
    match r
    case Zombie(z) => s.(t := s.t[z := Reaped(s.t[z])], mode := s.mode[i := User], reaped := s.reaped + [s.t[z].pid])
    case NoChildren => s.(mode := s.mode[i := User])
    case Children =>
      if s.t[i].killed then s.(mode := s.mode[i := User])
      else s.(t := s.t[i := s.t[i].(state := SLEEPING, chan := OfProc(i))], mode := s.mode[i := Waiting])
  }

  /** The scheduler's pass: everyone ages, and `i` runs. */
  function Started(s: State, i: nat): State
    requires WellFormed(s) && i < |s.t|
  {
    var t := Aged(s.t);
    s.(t := t[i := t[i].(state := RUNNING, chan := NoChan)])
  }

  ghost predicate Enabled(s: State, e: Event)
    requires WellFormed(s)
  {
    match e
    case Alloc(i, e) => i < |s.t| && s.t[i].state == RUNNING && s.mode[i] == User && FirstUnused(s.t, Some(e))
    case ForkFail(i) => i < |s.t| && s.t[i].state == RUNNING && s.mode[i].Forking?
    case Link(i) => i < |s.t| && s.t[i].state == RUNNING && s.mode[i].Forking?
    case ForkDone(i) => i < |s.t| && s.t[i].state == RUNNING && s.mode[i].Linked?
    case Exit(i) => i < |s.t| && s.t[i].state == RUNNING && s.mode[i] == User && i != s.init
    case Wait(i, r) => i < |s.t| && s.t[i].state == RUNNING && s.mode[i] == User && Scanned(s.t, i, r)
    case Sleep(i, k) => i < |s.t| && s.t[i].state == RUNNING && s.mode[i] == User
    case Yield(i) => i < |s.t| && s.t[i].state == RUNNING
    case Wakeup(k) => true
    case Kill(pid, i) => FirstPid(s.t, pid, Some(i))
    case SetPriority(pid, i, priority) => FirstPid(s.t, pid, Some(i)) && MIN_PRIORITY <= priority <= MAX_PRIORITY
    case Dispatch(i, r) => Chosen(Aged(s.t), Some(i)) && (s.mode[i] == Waiting ==> Scanned(Started(s, i).t, i, r))
    case Idle => Chosen(Aged(s.t), None)
  }

  ghost function Step(s: State, e: Event): State
    requires WellFormed(s) && Enabled(s, e)
  {
    match e
    case Alloc(i, e) =>
      s.(t := s.t[e := s.t[e].(state := EMBRYO, pid := s.nextpid, priority := DEFAULT_PRIORITY, ticks := 0)],
         nextpid := s.nextpid + 1,
         mode := s.mode[i := Forking(e)])
    case ForkFail(i) =>
      if s.mode[i].e < |s.t| then
        s.(t := s.t[s.mode[i].e := s.t[s.mode[i].e].(state := UNUSED)], mode := s.mode[i := User])
      else s
    case Link(i) =>
      if s.mode[i].e < |s.t| then
        s.(t := s.t[s.mode[i].e := s.t[s.mode[i].e].(parent := Some(i), priority := s.t[i].priority)],
           mode := s.mode[i := Linked(s.mode[i].e)])
      else s
    case ForkDone(i) =>
      if s.mode[i].e < |s.t| then
        s.(t := s.t[s.mode[i].e := s.t[s.mode[i].e].(state := RUNNABLE)], mode := s.mode[i := User])
      else s
    case Exit(i) => s.(t := Exited(s.t, i, s.init), exited := s.exited + {s.t[i].pid})
    case Wait(i, r) => WaitPass(s, i, r)
    case Sleep(i, k) => s.(t := s.t[i := s.t[i].(state := SLEEPING, chan := Other(k))])
    case Yield(i) => s.(t := s.t[i := s.t[i].(state := RUNNABLE)])
    case Wakeup(k) => s.(t := Woken(s.t, Other(k)))
    case Kill(pid, i) => s.(t := s.t[i := Killed(s.t[i])])
    case SetPriority(pid, i, priority) => s.(t := s.t[i := s.t[i].(priority := priority, ticks := 0)])
    case Dispatch(i, r) => if s.mode[i] == Waiting then WaitPass(Started(s, i), i, r) else Started(s, i)
    case Idle => s.(t := Aged(s.t))
  }

  // ---- the invariants ----

  /** Whoever is somebody's parent is alive, and everyone but init has a parent from its first run to its reaping. */
  ghost predicate ParentOk(s: State, j: nat)
    requires WellFormed(s) && j < |s.t|
  {
    var p := s.t[j];
    && (p.parent.Some? ==> p.parent.value < |s.t| && Alive(s.t[p.parent.value].state))
    && (j != s.init && (Alive(p.state) || p.state == ZOMBIE) ==> p.parent.Some?)
    && (p.state == UNUSED ==> p.parent == None) && p.parent != Some(j) && (j == s.init ==> p.parent == None)
  }

  /** A process asleep in `wait` sleeps on itself and has no zombie child. */
  ghost predicate WaitOk(s: State, j: nat)
    requires WellFormed(s) && j < |s.t|
  {
    s.t[j].state == SLEEPING && s.mode[j] == Waiting ==> s.t[j].chan == OfProc(j) && !HasZombie(s.t, j)
  }

  /** A child slot in the making has one maker, and is linked to it or to nobody. */
  ghost predicate ModeOk(s: State, j: nat)
    requires WellFormed(s) && j < |s.t|
  {
    && (s.mode[j] != User ==> Alive(s.t[j].state))
    && (s.mode[j].Forking? ==>
          s.mode[j].e < |s.t| && s.t[s.mode[j].e].state == EMBRYO && s.t[s.mode[j].e].parent == None)
    && (s.mode[j].Linked? ==>
          s.mode[j].e < |s.t| && s.t[s.mode[j].e].state == EMBRYO && s.t[s.mode[j].e].parent == Some(j))
    && (s.mode[j].Forking? || s.mode[j].Linked? ==> s.t[j].state != SLEEPING)
  }

  ghost predicate MakersOk(s: State)
    requires WellFormed(s)
  {
    forall i, j ::
      0 <= i < j < |s.t| && (s.mode[i].Forking? || s.mode[i].Linked?) && (s.mode[j].Forking? || s.mode[j].Linked?) ==>
      s.mode[i].e != s.mode[j].e
  }

  /** Pids are handed out once. */
  ghost predicate PidsOk(s: State)
    requires WellFormed(s)
  {
    && (forall j :: 0 <= j < |s.t| ==> s.t[j].pid < s.nextpid)
    && (forall i, j :: 0 <= i < j < |s.t| && s.t[i].state != UNUSED && s.t[j].state != UNUSED ==>
          s.t[i].pid != s.t[j].pid)
  }

  /** The processes that exited are the zombies and those reported, and nobody is reported twice. */
  ghost predicate ExitsOk(s: State)
    requires WellFormed(s)
  {
    && (forall j :: 0 <= j < |s.t| && s.t[j].state != UNUSED ==>
          (s.t[j].state == ZOMBIE) == (s.t[j].pid in s.exited) && s.t[j].pid !in s.reaped)
    && (forall i, j :: 0 <= i < j < |s.reaped| ==> s.reaped[i] != s.reaped[j])
    && (forall x :: x in s.reaped ==> x in s.exited)
    && (forall x :: x in s.exited ==> x < s.nextpid)
    && (forall x :: x in s.exited && x !in s.reaped ==>
          exists j :: 0 <= j < |s.t| && s.t[j].state == ZOMBIE && s.t[j].pid == x)
  }

  ghost predicate Inv(s: State) {
    && WellFormed(s) && Alive(s.t[s.init].state) && MakersOk(s) && PidsOk(s) && ExitsOk(s)
    && (forall j: nat :: j < |s.t| ==> ParentOk(s, j) && WaitOk(s, j) && ModeOk(s, j))
  }

  ghost predicate Init(s: State) {
    && WellFormed(s) && s.nextpid == 2 && s.exited == {} && s.reaped == []
    && (forall j :: 0 <= j < |s.t| ==>
          s.mode[j] == User && s.t[j].parent == None && s.t[j].chan == NoChan && !s.t[j].killed)
    && (forall j :: 0 <= j < |s.t| && j != s.init ==> s.t[j].state == UNUSED && s.t[j].pid == 0)
    && s.t[s.init].state == RUNNABLE && s.t[s.init].pid == 1 && s.t[s.init].priority == DEFAULT_PRIORITY &&
       s.t[s.init].ticks == 0
  }

  lemma InitInv(s: State)
    requires Init(s)
    ensures Inv(s)
  {}

  // ---- steps that only move processes among the alive states ----

  ghost predicate GentleAt(s: State, u: State, j: nat)
    requires WellFormed(s) && j < |s.t| == |u.t|
  {
    var p, q := s.t[j], u.t[j];
    && q.pid == p.pid && q.parent == p.parent && (q.state == p.state || (Alive(p.state) && Alive(q.state)))
    && (q.state == SLEEPING && s.mode[j] != User ==> p.state == SLEEPING && q.chan == p.chan)
  }

  ghost predicate Gentle(s: State, u: State)
    requires WellFormed(s)
  {
    && |u.t| == |s.t| && u == s.(t := u.t)
    && forall j: nat :: j < |s.t| ==> GentleAt(s, u, j)
  }

  lemma GentleZombie(s: State, u: State, j: nat)
    requires WellFormed(s) && Gentle(s, u)
    ensures HasZombie(u.t, j) == HasZombie(s.t, j)
  {
    if HasZombie(s.t, j) {
      var k :| 0 <= k < |s.t| && IsChild(s.t[k], j) && s.t[k].state == ZOMBIE;
      assert GentleAt(s, u, k);
    }
    if HasZombie(u.t, j) {
      var k :| 0 <= k < |u.t| && IsChild(u.t[k], j) && u.t[k].state == ZOMBIE;
      assert GentleAt(s, u, k);
    }
  }

  lemma GentleAtKeeps(s: State, u: State, j: nat)
    requires Inv(s) && Gentle(s, u) && j < |s.t|
    ensures WellFormed(u) && ParentOk(u, j) && WaitOk(u, j) && ModeOk(u, j)
  {
    assert GentleAt(s, u, j) && ParentOk(s, j) && WaitOk(s, j) && ModeOk(s, j);
    GentleZombie(s, u, j);
    if s.t[j].parent.Some? { assert GentleAt(s, u, s.t[j].parent.value); }
    if s.mode[j].Forking? || s.mode[j].Linked? { assert GentleAt(s, u, s.mode[j].e); }
  }

  lemma GentleExits(s: State, u: State)
    requires WellFormed(s) && PidsOk(s) && ExitsOk(s) && MakersOk(s) && Gentle(s, u)
    ensures WellFormed(u) && PidsOk(u) && ExitsOk(u) && MakersOk(u)
  {
    forall j: nat | j < |s.t|
      ensures u.t[j].pid == s.t[j].pid && (u.t[j].state == ZOMBIE) == (s.t[j].state == ZOMBIE) &&
              (u.t[j].state == UNUSED) == (s.t[j].state == UNUSED)
    {
      assert GentleAt(s, u, j);
    }
    forall x | x in u.exited && x !in u.reaped
      ensures exists j :: 0 <= j < |u.t| && u.t[j].state == ZOMBIE && u.t[j].pid == x
    {
      var j :| 0 <= j < |s.t| && s.t[j].state == ZOMBIE && s.t[j].pid == x;
      assert u.t[j].state == ZOMBIE && u.t[j].pid == x;
    }
  }

  lemma GentleKeeps(s: State, u: State)
    requires Inv(s) && Gentle(s, u)
    ensures Inv(u)
  {
    GentleExits(s, u);
    assert GentleAt(s, u, s.init);
    forall j: nat | j < |u.t|
      ensures ParentOk(u, j) && WaitOk(u, j) && ModeOk(u, j)
    {
      GentleAtKeeps(s, u, j);
    }
  }

  /** Sleeping, yielding, waking, killing, setting priorities and dispatching are such steps. */
  lemma GentleStep(s: State, e: Event)
    requires Inv(s) && Enabled(s, e) && (e.Sleep? || e.Yield? || e.Wakeup? || e.Kill? || e.SetPriority? || e.Idle?)
    ensures Gentle(s, Step(s, e))
  {
    forall j: nat | j < |s.t|
      ensures GentleAt(s, Step(s, e), j)
    {
      assert ModeOk(s, j);
    }
  }

  lemma GentleStart(s: State, i: nat)
    requires Inv(s) && Chosen(Aged(s.t), Some(i))
    ensures i < |s.t| && s.t[i].state == RUNNABLE && Gentle(s, Started(s, i))
  {}

  // ---- fork ----

  lemma SameZombies(t: seq<Proc>, u: seq<Proc>, e: nat, j: nat)
    requires |u| == |t| && e < |t| && u == t[e := u[e]] && t[e].state != ZOMBIE && u[e].state != ZOMBIE
    ensures HasZombie(u, j) == HasZombie(t, j)
  {
    if HasZombie(t, j) {
      var k :| 0 <= k < |t| && IsChild(t[k], j) && t[k].state == ZOMBIE;
      assert u[k] == t[k];
    }
    if HasZombie(u, j) {
      var k :| 0 <= k < |u| && IsChild(u[k], j) && u[k].state == ZOMBIE;
      assert u[k] == t[k];
    }
  }

  /** A step of `fork` writes one slot that is nobody's parent: nobody is affected but its maker. */
  ghost predicate ForkStep(s: State, u: State, i: nat, e: nat)
    requires WellFormed(s)
  {
    && i < |s.t| && e < |s.t| == |u.t| && i != e && |u.mode| == |s.mode| && s.nextpid <= u.nextpid
    && u == s.(t := s.t[e := u.t[e]], mode := s.mode[i := u.mode[i]], nextpid := u.nextpid)
    && !Alive(s.t[e].state) && s.t[e].state != ZOMBIE && u.t[e].state != ZOMBIE && s.mode[e] == User
    && s.mode[i] != Waiting && u.mode[i] != Waiting && s.t[i].state == RUNNING && e != s.init
    && (forall j :: 0 <= j < |s.t| && j != i && (s.mode[j].Forking? || s.mode[j].Linked?) ==> s.mode[j].e != e)
  }

  lemma ForkStepAt(s: State, u: State, i: nat, e: nat, j: nat)
    requires Inv(s) && ForkStep(s, u, i, e) && WellFormed(u) && j < |s.t|
    requires ModeOk(u, i) && ParentOk(u, e)
    ensures ParentOk(u, j) && WaitOk(u, j) && ModeOk(u, j)
  {
    assert ParentOk(s, j) && WaitOk(s, j) && ModeOk(s, j);
    SameZombies(s.t, u.t, e, j);
  }

  lemma ForkKeeps(s: State, u: State, i: nat, e: nat)
    requires Inv(s) && ForkStep(s, u, i, e) && WellFormed(u) && ModeOk(u, i) && ParentOk(u, e) && PidsOk(u) &&
             ExitsOk(u) && MakersOk(u)
    ensures Inv(u)
  {
    assert ParentOk(s, s.init);
    forall j: nat | j < |u.t|
      ensures ParentOk(u, j) && WaitOk(u, j) && ModeOk(u, j)
    {
      ForkStepAt(s, u, i, e, j);
    }
  }

  lemma AllocKeeps(s: State, i: nat, e: nat)
    requires Inv(s) && Enabled(s, Alloc(i, e))
    ensures Inv(Step(s, Alloc(i, e)))
  {
    var u := Step(s, Alloc(i, e));
    assert ModeOk(s, i) && ModeOk(s, e) && ParentOk(s, e);
    forall j: nat | j < |s.t| && (s.mode[j].Forking? || s.mode[j].Linked?)
      ensures s.mode[j].e != e
    {
      assert ModeOk(s, j);
    }
    ZombieStays(s, u, e);
    ForkKeeps(s, u, i, e);
  }

  /** A change at a slot that is no zombie keeps the witnesses of `ExitsOk`. */
  lemma ZombieStays(s: State, u: State, e: nat)
    requires WellFormed(s) && ExitsOk(s) && e < |s.t| == |u.t| && u.t == s.t[e := u.t[e]] && s.t[e].state != ZOMBIE &&
             u.exited == s.exited && u.reaped == s.reaped
    ensures forall x :: x in u.exited && x !in u.reaped ==>
              exists j :: 0 <= j < |u.t| && u.t[j].state == ZOMBIE && u.t[j].pid == x
  {
    forall x | x in u.exited && x !in u.reaped
      ensures exists j :: 0 <= j < |u.t| && u.t[j].state == ZOMBIE && u.t[j].pid == x
    {
      var j :| 0 <= j < |s.t| && s.t[j].state == ZOMBIE && s.t[j].pid == x;
      assert u.t[j] == s.t[j];
    }
  }

  lemma OneMaker(s: State, i: nat, j: nat)
    requires WellFormed(s) && MakersOk(s) && i < |s.t| && j < |s.t| && i != j
    requires (s.mode[i].Forking? || s.mode[i].Linked?) && (s.mode[j].Forking? || s.mode[j].Linked?)
    ensures s.mode[i].e != s.mode[j].e
  {
    if j < i { assert s.mode[j].e != s.mode[i].e; }
  }

  lemma MakerShape(s: State, ev: Event)
    requires Inv(s) && Enabled(s, ev) && (ev.ForkFail? || ev.Link? || ev.ForkDone?)
    ensures s.mode[ev.i].Forking? || s.mode[ev.i].Linked?
    ensures var i, e, u := ev.i, s.mode[ev.i].e, Step(s, ev);
            && ForkStep(s, u, i, e) && WellFormed(u) && ModeOk(u, i) && ParentOk(u, e)
            && u.t[e].pid == s.t[e].pid && s.t[e].state == EMBRYO && u.nextpid == s.nextpid
            && (u.mode[i] == User || u.mode[i] == Linked(e))
  {
    var i := ev.i;
    assert ModeOk(s, i);
    var e := s.mode[i].e;
    assert ModeOk(s, e) && ParentOk(s, e) && ParentOk(s, i);
    forall j: nat | j < |s.t| && j != i && (s.mode[j].Forking? || s.mode[j].Linked?)
      ensures s.mode[j].e != e
    {
      OneMaker(s, i, j);
    }
    hide PidsOk, ExitsOk, MakersOk, WaitOk;
  }

  lemma MakerBooks(s: State, u: State, i: nat, e: nat)
    requires WellFormed(s) && WellFormed(u) && PidsOk(s) && ExitsOk(s) && MakersOk(s) && ForkStep(s, u, i, e)
    requires u.t[e].pid == s.t[e].pid && s.t[e].state == EMBRYO && u.nextpid == s.nextpid
    requires u.mode[i] == User || u.mode[i] == Linked(e)
    ensures PidsOk(u) && ExitsOk(u) && MakersOk(u)
  {
    ZombieStays(s, u, e);
  }

  lemma MakerStepKeeps(s: State, ev: Event)
    requires Inv(s) && Enabled(s, ev) && (ev.ForkFail? || ev.Link? || ev.ForkDone?)
    ensures Inv(Step(s, ev))
  {
    MakerShape(s, ev);
    hide ForkStep, PidsOk, ExitsOk, MakersOk, WaitOk, ModeOk, ParentOk, Step, Enabled;
    MakerBooks(s, Step(s, ev), ev.i, s.mode[ev.i].e);
    ForkKeeps(s, Step(s, ev), ev.i, s.mode[ev.i].e);
  }

  // ---- exit ----

  lemma ExitedAt(s: State, i: nat, j: nat)
    requires WellFormed(s) && i < |s.t| && i != s.init && j < |s.t|
    ensures var p, q := s.t[j], Exited(s.t, i, s.init)[j];
            && q.pid == p.pid && q.parent == Reparent(p, i, s.init).parent && q.chan == p.chan &&
               q.killed == p.killed && q.priority == p.priority && q.ticks == p.ticks
            && (j == i ==> q.state == ZOMBIE)
            && (j != i ==> q.state == p.state || (p.state == SLEEPING && q.state == RUNNABLE))
            && (j != i && p.state == SLEEPING && s.t[i].parent == Some(j) && p.chan == OfProc(j) ==>
                  q.state == RUNNABLE)
            && (j == s.init && p.state == SLEEPING && p.chan == OfProc(j) && HasZombie(s.t, i) ==> q.state == RUNNABLE)
  {}

  lemma ExitParent(s: State, i: nat, j: nat)
    requires Inv(s) && Enabled(s, Exit(i)) && j < |s.t|
    ensures WellFormed(Step(s, Exit(i))) && ParentOk(Step(s, Exit(i)), j) && ModeOk(Step(s, Exit(i)), j)
  {
    hide Exited;
    assert ParentOk(s, j) && ModeOk(s, j);
    assert |Exited(s.t, i, s.init)| == |s.t| by { ExitedLength(s.t, i, s.init); }
    ExitedAt(s, i, j);
    ExitedAt(s, i, s.init);
    if s.t[j].parent.Some? { ExitedAt(s, i, s.t[j].parent.value); }
    if s.mode[j].Forking? || s.mode[j].Linked? { ExitedAt(s, i, s.mode[j].e); }
  }

  lemma ExitedLength(t: seq<Proc>, i: nat, init: nat)
    requires i < |t|
    ensures |Exited(t, i, init)| == |t|
  {}

  /** Nobody is left asleep in `wait` with a zombie child: the parent of the one that exits was woken, and so was
      init if it got a zombie. */
  lemma ExitWait(s: State, i: nat, j: nat)
    requires Inv(s) && Enabled(s, Exit(i)) && j < |s.t|
    ensures WellFormed(Step(s, Exit(i))) && WaitOk(Step(s, Exit(i)), j)
  {
    var u := Step(s, Exit(i));
    assert WaitOk(s, j) && ParentOk(s, i);
    ExitedAt(s, i, j);
    ExitedAt(s, i, i);
    if HasZombie(u.t, j) {
      var k :| 0 <= k < |u.t| && IsChild(u.t[k], j) && u.t[k].state == ZOMBIE;
      ExitedAt(s, i, k);
      hide Exited;
      if k != i {
        assert s.t[k].state == ZOMBIE;
        assert IsChild(s.t[k], j) ==> HasZombie(s.t, j);
        assert IsChild(s.t[k], i) ==> HasZombie(s.t, i);
      }
    }
  }

  lemma ExitExits(s: State, i: nat)
    requires Inv(s) && Enabled(s, Exit(i))
    ensures WellFormed(Step(s, Exit(i))) && PidsOk(Step(s, Exit(i))) && ExitsOk(Step(s, Exit(i))) &&
            MakersOk(Step(s, Exit(i)))
  {
    var u := Step(s, Exit(i));
    forall j: nat | j < |s.t|
      ensures u.t[j].pid == s.t[j].pid && (u.t[j].state == ZOMBIE) == (s.t[j].state == ZOMBIE || j == i) &&
              (u.t[j].state == UNUSED) == (s.t[j].state == UNUSED)
    {
      ExitedAt(s, i, j);
    }
    hide Exited;
    forall x | x in u.exited && x !in u.reaped
      ensures exists j :: 0 <= j < |u.t| && u.t[j].state == ZOMBIE && u.t[j].pid == x
    {
      if x == s.t[i].pid {
        assert u.t[i].state == ZOMBIE && u.t[i].pid == x;
      } else {
        var j :| 0 <= j < |s.t| && s.t[j].state == ZOMBIE && s.t[j].pid == x;
        assert u.t[j].state == ZOMBIE && u.t[j].pid == x;
      }
    }
  }

  lemma ExitKeeps(s: State, i: nat)
    requires Inv(s) && Enabled(s, Exit(i))
    ensures Inv(Step(s, Exit(i)))
  {
    var u := Step(s, Exit(i));
    ExitExits(s, i);
    ExitedAt(s, i, s.init);
    hide Exited;
    forall j: nat | j < |u.t|
      ensures ParentOk(u, j) && WaitOk(u, j) && ModeOk(u, j)
    {
      ExitParent(s, i, j);
      ExitWait(s, i, j);
    }
  }

  // ---- wait ----

  lemma ReapAt(s: State, i: nat, z: nat, j: nat)
    requires Inv(s) && i < |s.t| && z < |s.t| && IsChild(s.t[z], i) && s.t[z].state == ZOMBIE && j < |s.t|
    ensures var u := WaitPass(s, i, Zombie(z));
            WellFormed(u) && ParentOk(u, j) && WaitOk(u, j) && (j != i ==> ModeOk(u, j))
  {
    var u := WaitPass(s, i, Zombie(z));
    assert ParentOk(s, j) && WaitOk(s, j) && ModeOk(s, j) && ParentOk(s, z) && ModeOk(s, z);
    if HasZombie(u.t, j) {
      var k :| 0 <= k < |u.t| && IsChild(u.t[k], j) && u.t[k].state == ZOMBIE;
      assert s.t[k] == u.t[k];
    }
  }

  lemma ReapKeeps(s: State, i: nat, z: nat)
    requires Inv(s) && i < |s.t| && (s.mode[i] == User || s.mode[i] == Waiting) && s.t[i].state == RUNNING
    requires z < |s.t| && IsChild(s.t[z], i) && s.t[z].state == ZOMBIE
    ensures Inv(WaitPass(s, i, Zombie(z)))
  {
    var u := WaitPass(s, i, Zombie(z));
    forall j: nat | j < |s.t|
      ensures ParentOk(u, j) && WaitOk(u, j) && ModeOk(u, j)
    {
      ReapAt(s, i, z, j);
    }
    ReapExits(s, i, z);
  }

  lemma ReapExits(s: State, i: nat, z: nat)
    requires Inv(s) && i < |s.t| && z < |s.t| && s.t[z].state == ZOMBIE
    ensures var u := WaitPass(s, i, Zombie(z)); WellFormed(u) && PidsOk(u) && ExitsOk(u) && MakersOk(u)
  {
    var u := WaitPass(s, i, Zombie(z));
    forall x | x in u.exited && x !in u.reaped
      ensures exists j :: 0 <= j < |u.t| && u.t[j].state == ZOMBIE && u.t[j].pid == x
    {
      assert u.reaped[|s.reaped|] == s.t[z].pid;
      var j :| 0 <= j < |s.t| && s.t[j].state == ZOMBIE && s.t[j].pid == x;
      assert u.t[j] == s.t[j];
    }
    assert forall j :: 0 <= j < |u.t| && u.t[j].state != UNUSED ==> j != z && u.t[j] == s.t[j];
    forall j | 0 <= j < |u.t| && u.t[j].state != UNUSED
      ensures u.t[j].pid != s.t[z].pid
    {
      if j < z { assert s.t[j].pid != s.t[z].pid; } else { assert s.t[z].pid != s.t[j].pid; }
    }
  }

  lemma WaitPassKeeps(s: State, i: nat, r: WaitScan)
    requires Inv(s) && i < |s.t| && (s.mode[i] == User || s.mode[i] == Waiting) && s.t[i].state == RUNNING &&
             Scanned(s.t, i, r)
    ensures Inv(WaitPass(s, i, r))
  {
    if r.Zombie? {
      ReapKeeps(s, i, r.z);
    } else {
      var u := WaitPass(s, i, r);
      assert u.t == s.t[i := u.t[i]];
      ZombieStays(s, u, i);
      forall j: nat | j < |s.t|
        ensures ParentOk(u, j) && WaitOk(u, j) && ModeOk(u, j)
      {
        assert ParentOk(s, j) && WaitOk(s, j) && ModeOk(s, j);
        SameZombies(s.t, u.t, i, j);
      }
    }
  }

  // ---- every run ----

  lemma StepKeepsInv(s: State, e: Event)
    requires Inv(s) && Enabled(s, e)
    ensures Inv(Step(s, e))
  {
    match e {
      case Alloc(i, c) => AllocKeeps(s, i, c);
      case ForkFail(i) => MakerStepKeeps(s, e);
      case Link(i) => MakerStepKeeps(s, e);
      case ForkDone(i) => MakerStepKeeps(s, e);
      case Exit(i) => ExitKeeps(s, i);
      case Wait(i, r) => WaitPassKeeps(s, i, r);
      case Dispatch(i, r) =>
        GentleStart(s, i);
        GentleKeeps(s, Started(s, i));
        if s.mode[i] == Waiting { WaitPassKeeps(Started(s, i), i, r); }
      case _ =>
        GentleStep(s, e);
        GentleKeeps(s, Step(s, e));
    }
  }

  ghost predicate IsRun(trace: seq<State>, es: seq<Event>) {
    && |trace| == |es| + 1 && Init(trace[0])
    && forall k :: 0 <= k < |es| ==>
         WellFormed(trace[k]) && Enabled(trace[k], es[k]) && trace[k + 1] == Step(trace[k], es[k])
  }

  lemma {:induction false} RunKeepsInv(trace: seq<State>, es: seq<Event>, k: nat)
    requires IsRun(trace, es) && k < |trace|
    ensures Inv(trace[k])
  {
    if k == 0 {
      InitInv(trace[0]);
    } else {
      RunKeepsInv(trace, es, k - 1);
      StepKeepsInv(trace[k - 1], es[k - 1]);
    }
  }

  /** In every state between steps: a process that runs, can run, sleeps or is a zombie, other than init, has a
      parent that is alive; nobody is asleep in `wait` with a zombie child; pids of used slots are unique; and
      no exit is reported twice, or to anyone before it happens. */
  lemma ExitAndWait(trace: seq<State>, es: seq<Event>, k: nat)
    requires IsRun(trace, es) && k < |trace|
    ensures var s := trace[k];
            && WellFormed(s)
            && (forall j :: 0 <= j < |s.t| && j != s.init && (Alive(s.t[j].state) || s.t[j].state == ZOMBIE) ==>
                  s.t[j].parent.Some? && s.t[j].parent.value < |s.t| && Alive(s.t[s.t[j].parent.value].state))
            && (forall j :: 0 <= j < |s.t| && s.t[j].state == SLEEPING && s.mode[j] == Waiting ==> !HasZombie(s.t, j))
            && (forall i, j :: 0 <= i < j < |s.t| && s.t[i].state != UNUSED && s.t[j].state != UNUSED ==>
                  s.t[i].pid != s.t[j].pid)
            && (forall i, j :: 0 <= i < j < |s.reaped| ==> s.reaped[i] != s.reaped[j])
            && (forall x :: x in s.reaped ==> x in s.exited)
  {
    RunKeepsInv(trace, es, k);
    var s := trace[k];
    forall j: nat | j < |s.t|
      ensures j != s.init && (Alive(s.t[j].state) || s.t[j].state == ZOMBIE) ==>
                s.t[j].parent.Some? && s.t[j].parent.value < |s.t| && Alive(s.t[s.t[j].parent.value].state)
      ensures s.t[j].state == SLEEPING && s.mode[j] == Waiting ==> !HasZombie(s.t, j)
    {
      assert ParentOk(s, j) && WaitOk(s, j);
    }
  }
}
