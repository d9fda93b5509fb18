/** `acquiresleep`, `releasesleep` and `holdingsleep` over `sleep` and `wakeup`, for any number of processes,
    CPUs and sleep locks, one memory access or lock operation at a time. */
module SleepLock {
  import opened Basics

  /** Where a process stands; `c` is the sleep lock, which is also the channel. */
  datatype Pc =
    | Idle
    // acquiresleep
    | AcqEnter(c: nat) | AcqTest(c: nat) | AcqSet(c: nat) | AcqPid(c: nat) | AcqExit(c: nat)
    // sleep, called from acquiresleep
    | SlpEnter(c: nat) | SlpUnlock(c: nat) | SlpChan(c: nat) | SlpState(c: nat) | SlpSched(c: nat)
    | Asleep(c: nat) | WokenChan(c: nat) | WokenUnlock(c: nat) | WokenRelock(c: nat)
    // releasesleep, and wakeup inside it with its scan at entry `w`
    | RelEnter(c: nat) | RelClear(c: nat) | RelPid(c: nat) | RelWakeup(c: nat) | RelScan(c: nat, w: nat)
    | RelScanned(c: nat) | RelExit(c: nat)
    // holdingsleep
    | HoldEnter(c: nat) | HoldRead(c: nat) | HoldExit(c: nat, r: bool)

  datatype Run = RUNNABLE | RUNNING | SLEEPING

  /** Per process: where it is, its state, `chan`, and the sleep locks it has acquired and not yet given up.
      Per sleep lock: the owner of its spinlock, `locked`, `pid`, and who set `locked`.  `ptable` is the owner
      of `ptable.lock`. */
  datatype State = State(pc: seq<Pc>, run: seq<Run>, chan: seq<Option<nat>>, owns: seq<set<nat>>,
                         spin: seq<Option<nat>>, locked: seq<bool>, pid: seq<nat>, holder: seq<Option<nat>>,
                         ptable: Option<nat>)

  /** Process `i` starts an operation or makes its next move; the scheduler dispatches or preempts one; or
      some other holder of `ptable.lock`, as `kill` does, makes a sleeper runnable. */
  datatype Event = Acquire(i: nat, c: nat) | Release(i: nat, c: nat) | Holding(i: nat, c: nat) | Move(i: nat)
                 | Dispatch(i: nat) | Preempt(i: nat) | Poke(i: nat)

  /** The sleep lock whose spinlock a process holds there. */
  function SpinOf(p: Pc): Option<nat> {
    match p
    case AcqTest(c) => Some(c)
    case AcqSet(c) => Some(c)
    case AcqPid(c) => Some(c)
    case AcqExit(c) => Some(c)
    case SlpEnter(c) => Some(c)
    case SlpUnlock(c) => Some(c)
    case RelClear(c) => Some(c)
    case RelPid(c) => Some(c)
    case RelWakeup(c) => Some(c)
    case RelScan(c, _) => Some(c)
    case RelScanned(c) => Some(c)
    case RelExit(c) => Some(c)
    case HoldRead(c) => Some(c)
    case HoldExit(c, _) => Some(c)
    case _ => None
  }

  predicate HoldsPtable(p: Pc) {
    p.SlpUnlock? || p.SlpChan? || p.SlpState? || p.SlpSched? || p.WokenChan? || p.WokenUnlock? || p.RelScan? ||
    p.RelScanned?
  }

  ghost predicate WellFormed(s: State) {
    && |s.run| == |s.chan| == |s.owns| == |s.pc|
    && |s.locked| == |s.pid| == |s.holder| == |s.spin|
    && (forall i :: 0 <= i < |s.pc| && !s.pc[i].Idle? ==> s.pc[i].c < |s.spin|)
    && (forall i, c :: 0 <= i < |s.pc| && c in s.owns[i] ==> c < |s.spin|)
  }

  ghost predicate Init(s: State) {
    && WellFormed(s) && s.ptable == None
    && (forall i :: 0 <= i < |s.pc| ==> s.pc[i] == Idle && s.run[i] == RUNNABLE && s.chan[i] == None && s.owns[i] == {})
    && (forall c :: 0 <= c < |s.spin| ==> s.spin[c] == None && !s.locked[c] && s.pid[c] == 0 && s.holder[c] == None)
  }

  /** A process at a spinning `acquire` waits until the lock is free. */
  ghost predicate CanMove(s: State, i: nat)
    requires WellFormed(s) && i < |s.pc|
  {
    && (s.run[i] == RUNNING || s.pc[i].SlpSched?)
    && match s.pc[i] {
         case Idle => false
         case AcqEnter(c) => s.spin[c] == None
         case RelEnter(c) => s.spin[c] == None
         case HoldEnter(c) => s.spin[c] == None
         case WokenRelock(c) => s.spin[c] == None
         case SlpEnter(c) => s.ptable == None
         case RelWakeup(c) => s.ptable == None
         case _ => !s.pc[i].Asleep?
       }
  }

  /** `releasesleep` is called only by a process that holds the lock: its callers test `holdingsleep`. */
  ghost predicate Enabled(s: State, e: Event)
    requires WellFormed(s)
  {
    && e.i < |s.pc|
    && match e {
         case Acquire(i, c) => s.pc[i] == Idle && s.run[i] == RUNNING && c < |s.spin|
         case Release(i, c) => s.pc[i] == Idle && s.run[i] == RUNNING && c in s.owns[i]
         case Holding(i, c) => s.pc[i] == Idle && s.run[i] == RUNNING && c < |s.spin|
         case Move(i) => CanMove(s, i)
         case Dispatch(i) => s.run[i] == RUNNABLE && s.ptable == None
         case Preempt(i) => s.run[i] == RUNNING && s.ptable == None && SpinOf(s.pc[i]) == None
         case Poke(i) => s.run[i] == SLEEPING && s.ptable == None
       }
  }

  function At(s: State, i: nat, p: Pc): State
    requires i < |s.pc|
  {
    s.(pc := s.pc[i := p])
  }

  /** The pid of slot `i`; 0 is nobody's. */
  function PidOf(i: nat): nat { i + 1 }

  function Step(s: State, e: Event): State
    requires WellFormed(s) && Enabled(s, e)
  {
    match e
    case Acquire(i, c) => At(s, i, AcqEnter(c))
    case Release(i, c) => At(s, i, RelEnter(c))
    case Holding(i, c) => At(s, i, HoldEnter(c))
    case Move(i) => MoveOf(s, i)
    case Dispatch(i) =>
      if s.pc[i].Asleep? then At(s, i, WokenChan(s.pc[i].c)).(run := s.run[i := RUNNING], ptable := Some(i))
      else s.(run := s.run[i := RUNNING])
    case Preempt(i) => s.(run := s.run[i := RUNNABLE])
    case Poke(i) => s.(run := s.run[i := RUNNABLE])
  }

  function MoveOf(s: State, i: nat): State
    requires WellFormed(s) && i < |s.pc| && CanMove(s, i)
  {
    match s.pc[i]
    case AcqEnter(c) => At(s, i, AcqTest(c)).(spin := s.spin[c := Some(i)])
    case AcqTest(c) => At(s, i, if s.locked[c] then SlpEnter(c) else AcqSet(c))
    case AcqSet(c) => At(s, i, AcqPid(c)).(locked := s.locked[c := true], holder := s.holder[c := Some(i)])
    case AcqPid(c) => At(s, i, AcqExit(c)).(pid := s.pid[c := PidOf(i)])
    case AcqExit(c) => At(s, i, Idle).(spin := s.spin[c := None], owns := s.owns[i := s.owns[i] + {c}])
    case SlpEnter(c) => At(s, i, SlpUnlock(c)).(ptable := Some(i))
    case SlpUnlock(c) => At(s, i, SlpChan(c)).(spin := s.spin[c := None])
    case SlpChan(c) => At(s, i, SlpState(c)).(chan := s.chan[i := Some(c)])
    case SlpState(c) => At(s, i, SlpSched(c)).(run := s.run[i := SLEEPING])
    case SlpSched(c) => At(s, i, Asleep(c)).(ptable := None)
    case WokenChan(c) => At(s, i, WokenUnlock(c)).(chan := s.chan[i := None])
    case WokenUnlock(c) => At(s, i, WokenRelock(c)).(ptable := None)
    case WokenRelock(c) => At(s, i, AcqTest(c)).(spin := s.spin[c := Some(i)])
    case RelEnter(c) => At(s, i, RelClear(c)).(spin := s.spin[c := Some(i)])
    case RelClear(c) => At(s, i, RelPid(c)).(locked := s.locked[c := false], holder := s.holder[c := None],
                                             owns := s.owns[i := s.owns[i] - {c}])
    case RelPid(c) => At(s, i, RelWakeup(c)).(pid := s.pid[c := 0])
    case RelWakeup(c) => At(s, i, RelScan(c, 0)).(ptable := Some(i))
    case RelScan(c, w) =>
      if w >= |s.pc| then At(s, i, RelScanned(c))
      else At(s, i, RelScan(c, w + 1)).(run := if s.run[w] == SLEEPING &&
                                        s.chan[w] == Some(c) then s.run[w := RUNNABLE] else s.run)
    case RelScanned(c) => At(s, i, RelExit(c)).(ptable := None)
    case RelExit(c) => At(s, i, Idle).(spin := s.spin[c := None])
    case HoldEnter(c) => At(s, i, HoldRead(c)).(spin := s.spin[c := Some(i)])
    case HoldRead(c) => At(s, i, HoldExit(c, s.locked[c] && s.pid[c] == PidOf(i)))
    case HoldExit(c, r) => At(s, i, Idle).(spin := s.spin[c := None])
  }

  // ---- the invariant, one process and one lock at a time ----

  /** A process is in a critical section of a spinlock exactly when it owns that spinlock. */
  ghost predicate LocksOk(s: State, j: nat)
    requires WellFormed(s) && j < |s.pc|
  {
    && (forall c: nat :: c < |s.spin| ==> (SpinOf(s.pc[j]) == Some(c)) == (s.spin[c] == Some(j)))
    && HoldsPtable(s.pc[j]) == (s.ptable == Some(j))
  }

  ghost predicate OwnersOk(s: State)
    requires WellFormed(s)
  {
    && (forall c :: 0 <= c < |s.spin| && s.spin[c].Some? ==> s.spin[c].value < |s.pc|)
    && (s.ptable.Some? ==> s.ptable.value < |s.pc|)
  }

  /** A process is off the CPU only asleep, or where it holds no lock. */
  ghost predicate RunOk(s: State, j: nat)
    requires WellFormed(s) && j < |s.pc|
  {
    var p := s.pc[j];
    && (s.run[j] == SLEEPING ==> p.SlpSched? || p.Asleep?)
    && (p.SlpSched? ==> s.run[j] == SLEEPING)
    && (p.Asleep? ==> s.run[j] != RUNNING)
    && (p.SlpState? || p.SlpSched? || p.Asleep? ==> s.chan[j] == Some(p.c))
    && (!(p.SlpState? || p.SlpSched? || p.Asleep? || p.WokenChan?) ==> s.chan[j] == None)
    && (s.run[j] == RUNNABLE ==> SpinOf(p) == None && !HoldsPtable(p))
  }

  /** What a process has set or seen of `locked` and `pid` while it holds the spinlock, and what it owns. */
  ghost predicate HolderOk(s: State, j: nat)
    requires WellFormed(s) && j < |s.pc|
  {
    var p := s.pc[j];
    && (forall c :: c in s.owns[j] ==> s.holder[c] == Some(j) && s.pid[c] == PidOf(j))
    && (p.AcqPid? || p.AcqExit? ==> s.holder[p.c] == Some(j) && p.c !in s.owns[j])
    && (p.AcqExit? ==> s.pid[p.c] == PidOf(j))
    && (p.RelEnter? || p.RelClear? ==> p.c in s.owns[j])
    && (p.AcqSet? || p.RelPid? ==> !s.locked[p.c])
    && (p.HoldExit? ==> p.r == (p.c in s.owns[j]))
  }

  ghost predicate LockedOk(s: State, c: nat)
    requires WellFormed(s) && c < |s.spin|
  {
    && s.locked[c] == s.holder[c].Some?
    && (!s.locked[c] && !(s.spin[c].Some? && s.spin[c].value < |s.pc| && s.pc[s.spin[c].value] == RelPid(c)) ==>
          s.pid[c] == 0)
    && (s.locked[c] ==>
          var h := s.holder[c].value;
          h < |s.pc| && (c in s.owns[h] || s.pc[h] == AcqPid(c) || s.pc[h] == AcqExit(c)))
  }

  /** The holder of the spinlock of `c` has cleared `locked`, and its wakeup will still reach entry `j`. */
  ghost predicate WillWake(s: State, c: nat, j: nat)
    requires WellFormed(s) && c < |s.spin|
  {
    && s.spin[c].Some? && s.spin[c].value < |s.pc|
    && match s.pc[s.spin[c].value] {
         case RelPid(d) => true
         case RelWakeup(d) => true
         case RelScan(d, w) => w <= j
         case _ => false
       }
  }

  /** Whoever goes to sleep, or is asleep, on a sleep lock: it is locked, or the wakeup is still to come. */
  ghost predicate SleepOk(s: State, j: nat)
    requires WellFormed(s) && j < |s.pc|
  {
    var p := s.pc[j];
    && (p.SlpEnter? || p.SlpUnlock? ==> s.locked[p.c])
    && (p.SlpChan? || p.SlpState? || p.SlpSched? || (p.Asleep? && s.run[j] == SLEEPING) ==>
          s.locked[p.c] || WillWake(s, p.c, j))
  }

  ghost predicate Inv(s: State) {
    && WellFormed(s) && OwnersOk(s)
    && (forall j: nat :: j < |s.pc| ==> LocksOk(s, j) && RunOk(s, j) && HolderOk(s, j) && SleepOk(s, j))
    && (forall c: nat :: c < |s.spin| ==> LockedOk(s, c))
  }

  lemma InitInv(s: State)
    requires Init(s)
    ensures Inv(s)
  {}

  /** How a move changes the spinlocks and `ptable.lock`: as its two positions in the code say. */
  ghost predicate LockEffect(s: State, t: State, i: nat) {
    SpinEffect(s, t, i) && TableEffect(s, t, i)
  }

  ghost predicate SpinEffect(s: State, t: State, i: nat) {
    && i < |s.pc| && i < |t.pc| && t.pc == s.pc[i := t.pc[i]] && |t.spin| == |s.spin|
    && match (SpinOf(s.pc[i]), SpinOf(t.pc[i])) {
         case (None, Some(c)) => c < |s.spin| && s.spin[c] == None && t.spin == s.spin[c := Some(i)]
         case (Some(c), None) => c < |s.spin| && t.spin == s.spin[c := None]
         case (a, b) => a == b && t.spin == s.spin
       }
  }

  ghost predicate TableEffect(s: State, t: State, i: nat) {
    && i < |s.pc| && i < |t.pc|
    && if HoldsPtable(t.pc[i]) then (HoldsPtable(s.pc[i]) || s.ptable == None) && t.ptable == Some(i)
       else t.ptable == if HoldsPtable(s.pc[i]) then None else s.ptable
  }

  lemma MoveLockEffect(s: State, i: nat)
    requires WellFormed(s) && i < |s.pc| && CanMove(s, i) && LocksOk(s, i)
    ensures LockEffect(s, MoveOf(s, i), i)
  {
    MoveSpinEffect(s, i);
    MoveTableEffect(s, i);
    hide MoveOf, SpinOf, HoldsPtable, CanMove, LocksOk;
  }

  lemma MoveSpinEffect(s: State, i: nat)
    requires WellFormed(s) && i < |s.pc| && CanMove(s, i) && LocksOk(s, i)
    ensures SpinEffect(s, MoveOf(s, i), i)
  {
    hide *;
    if InSleep(s.pc[i]) { SleepSpinEffect(s, i); } else { OtherSpinEffect(s, i); }
  }

  /** In `sleep`. */
  predicate InSleep(p: Pc) {
    p.SlpEnter? || p.SlpUnlock? || p.SlpChan? || p.SlpState? || p.SlpSched? || p.Asleep? || p.WokenChan? ||
    p.WokenUnlock? || p.WokenRelock?
  }

  lemma SleepSpinEffect(s: State, i: nat)
    requires WellFormed(s) && i < |s.pc| && CanMove(s, i) && InSleep(s.pc[i])
    ensures SpinEffect(s, MoveOf(s, i), i)
  {
    hide HoldsPtable;
  }

  lemma OtherSpinEffect(s: State, i: nat)
    requires WellFormed(s) && i < |s.pc| && CanMove(s, i) && !InSleep(s.pc[i])
    ensures SpinEffect(s, MoveOf(s, i), i)
  {
    hide HoldsPtable;
  }

  lemma MoveTableEffect(s: State, i: nat)
    requires WellFormed(s) && i < |s.pc| && CanMove(s, i) && (HoldsPtable(s.pc[i]) ==> s.ptable == Some(i))
    ensures TableEffect(s, MoveOf(s, i), i)
  {
    hide *;
    if InSleep(s.pc[i]) { SleepTableEffect(s, i); } else { OtherTableEffect(s, i); }
  }

  lemma SleepTableEffect(s: State, i: nat)
    requires WellFormed(s) && i < |s.pc| && CanMove(s, i) && (HoldsPtable(s.pc[i]) ==> s.ptable == Some(i)) &&
             InSleep(s.pc[i])
    ensures TableEffect(s, MoveOf(s, i), i)
  {
    hide SpinOf;
  }

  lemma OtherTableEffect(s: State, i: nat)
    requires WellFormed(s) && i < |s.pc| && CanMove(s, i) && (HoldsPtable(s.pc[i]) ==> s.ptable == Some(i)) &&
             !InSleep(s.pc[i])
    ensures TableEffect(s, MoveOf(s, i), i)
  {
    hide SpinOf;
  }

  lemma MoveWellFormed(s: State, i: nat)
    requires WellFormed(s) && i < |s.pc| && CanMove(s, i)
    ensures WellFormed(MoveOf(s, i)) && |MoveOf(s, i).pc| == |s.pc|
  {}

  lemma EffectKeepsLocks(s: State, t: State, i: nat, j: nat)
    requires WellFormed(s) && WellFormed(t) && OwnersOk(s) && i < |s.pc| && j < |s.pc| && LocksOk(s, i) && LocksOk(s, j)
    requires |t.pc| == |s.pc| && LockEffect(s, t, i)
    ensures OwnersOk(t) && LocksOk(t, j)
  {
    hide SpinOf, HoldsPtable;
  }

  lemma MoveKeepsRun(s: State, i: nat, j: nat)
    requires WellFormed(s) && i < |s.pc| && CanMove(s, i) && j < |s.pc|
    requires LocksOk(s, i) && LocksOk(s, j) && RunOk(s, i) && RunOk(s, j)
    ensures WellFormed(MoveOf(s, i)) && RunOk(MoveOf(s, i), j)
  {
    hide *;
    MoveWellFormed(s, i);
    if InSleep(s.pc[i]) { SleepKeepsRun(s, i, j); } else { OtherKeepsRun(s, i, j); }
  }

  lemma SleepKeepsRun(s: State, i: nat, j: nat)
    requires WellFormed(s) && i < |s.pc| && CanMove(s, i) && j < |s.pc| && InSleep(s.pc[i])
    requires LocksOk(s, i) && LocksOk(s, j) && RunOk(s, i) && RunOk(s, j)
    requires WellFormed(MoveOf(s, i)) && |MoveOf(s, i).pc| == |s.pc|
    ensures RunOk(MoveOf(s, i), j)
  {}

  lemma OtherKeepsRun(s: State, i: nat, j: nat)
    requires WellFormed(s) && i < |s.pc| && CanMove(s, i) && j < |s.pc| && !InSleep(s.pc[i])
    requires LocksOk(s, i) && LocksOk(s, j) && RunOk(s, i) && RunOk(s, j)
    requires WellFormed(MoveOf(s, i)) && |MoveOf(s, i).pc| == |s.pc|
    ensures RunOk(MoveOf(s, i), j)
  {}

  lemma MoveKeepsLocked(s: State, i: nat, c: nat)
    requires WellFormed(s) && i < |s.pc| && CanMove(s, i) && c < |s.spin|
    requires LocksOk(s, i) && HolderOk(s, i) && LockedOk(s, c)
    ensures WellFormed(MoveOf(s, i)) && LockedOk(MoveOf(s, i), c)
  {
    hide *;
    MoveWellFormed(s, i);
    if InSleep(s.pc[i]) {
      SleepKeepsLocked(s, i, c);
    } else if InRelease(s.pc[i]) {
      ReleaseKeepsLocked(s, i, c);
    } else {
      OtherKeepsLocked(s, i, c);
    }
  }

  /** In `releasesleep`. */
  predicate InRelease(p: Pc) {
    p.RelEnter? || p.RelClear? || p.RelPid? || p.RelWakeup? || p.RelScan? || p.RelScanned? || p.RelExit?
  }

  lemma ReleaseKeepsLocked(s: State, i: nat, c: nat)
    requires WellFormed(s) && i < |s.pc| && CanMove(s, i) && c < |s.spin| && InRelease(s.pc[i])
    requires LocksOk(s, i) && HolderOk(s, i) && LockedOk(s, c)
    requires WellFormed(MoveOf(s, i)) && |MoveOf(s, i).pc| == |s.pc|
    ensures LockedOk(MoveOf(s, i), c)
  {
    hide HoldsPtable;
  }

  lemma SleepKeepsLocked(s: State, i: nat, c: nat)
    requires WellFormed(s) && i < |s.pc| && CanMove(s, i) && c < |s.spin| && InSleep(s.pc[i])
    requires LocksOk(s, i) && HolderOk(s, i) && LockedOk(s, c)
    requires WellFormed(MoveOf(s, i)) && |MoveOf(s, i).pc| == |s.pc|
    ensures LockedOk(MoveOf(s, i), c)
  {
    hide HoldsPtable;
  }

  lemma OtherKeepsLocked(s: State, i: nat, c: nat)
    requires WellFormed(s) && i < |s.pc| && CanMove(s, i) && c < |s.spin| && !InSleep(s.pc[i]) && !InRelease(s.pc[i])
    requires LocksOk(s, i) && HolderOk(s, i) && LockedOk(s, c)
    requires WellFormed(MoveOf(s, i)) && |MoveOf(s, i).pc| == |s.pc|
    ensures LockedOk(MoveOf(s, i), c)
  {
    hide HoldsPtable;
  }

  /** A locked sleep lock stays locked, or its holder is now about to wake the sleepers. */
  lemma StillLocked(s: State, i: nat, c: nat, j: nat)
    requires WellFormed(s) && i < |s.pc| && CanMove(s, i) && c < |s.spin| && j < |s.pc| && LocksOk(s, i) && s.locked[c]
    ensures WellFormed(MoveOf(s, i)) && (MoveOf(s, i).locked[c] || WillWake(MoveOf(s, i), c, j))
  {
    MoveWellFormed(s, i);
  }

  /** A wakeup that is to come is still to come, unless this was its visit to entry `j`. */
  lemma StillWakes(s: State, i: nat, c: nat, j: nat)
    requires WellFormed(s) && OwnersOk(s) && i < |s.pc| && CanMove(s, i) && c < |s.spin| && j < |s.pc| &&
             LocksOk(s, i) && WillWake(s, c, j)
    requires s.pc[i] != RelScan(c, j)
    ensures WellFormed(MoveOf(s, i)) && WillWake(MoveOf(s, i), c, j)
  {
    MoveWellFormed(s, i);
  }

  /** A process that goes to sleep saw `locked` set, under the spinlock it still holds. */
  lemma MoverSleeps(s: State, i: nat)
    requires WellFormed(s) && i < |s.pc| && CanMove(s, i) && LocksOk(s, i) && RunOk(s, i) && SleepOk(s, i)
    ensures WellFormed(MoveOf(s, i)) && SleepOk(MoveOf(s, i), i)
  {
    MoveWellFormed(s, i);
  }

  /** The scan of `wakeup` at entry `j` leaves nobody asleep there. */
  lemma Visited(s: State, i: nat, j: nat)
    requires WellFormed(s) && i < |s.pc| && CanMove(s, i) && j < |s.pc| && j != i && !s.pc[j].Idle? &&
             s.pc[i] == RelScan(s.pc[j].c, j)
    requires LocksOk(s, i) && LocksOk(s, j) && RunOk(s, j) && SleepOk(s, j)
    ensures WellFormed(MoveOf(s, i)) && SleepOk(MoveOf(s, i), j)
  {
    MoveWellFormed(s, i);
  }

  lemma OtherSame(s: State, i: nat, j: nat)
    requires WellFormed(s) && i < |s.pc| && CanMove(s, i) && j < |s.pc| && j != i
    ensures MoveOf(s, i).owns[j] == s.owns[j] && MoveOf(s, i).pc[j] == s.pc[j]
    ensures MoveOf(s, i).run[j] == SLEEPING ==> s.run[j] == SLEEPING
  {}

  lemma MoveKeepsSleep(s: State, i: nat, j: nat)
    requires Inv(s) && i < |s.pc| && CanMove(s, i) && j < |s.pc|
    ensures WellFormed(MoveOf(s, i)) && SleepOk(MoveOf(s, i), j)
  {
    hide MoveOf;
    assert LocksOk(s, i) && RunOk(s, i) && SleepOk(s, i) && LocksOk(s, j) && RunOk(s, j) && SleepOk(s, j);
    MoveWellFormed(s, i);
    var p := s.pc[j];
    if j == i {
      MoverSleeps(s, i);
    } else {
      OtherSame(s, i, j);
      if p.Idle? {
      } else if s.pc[i] == RelScan(p.c, j) {
        Visited(s, i, j);
      } else {
        if s.locked[p.c] { StillLocked(s, i, p.c, j); }
        if WillWake(s, p.c, j) { StillWakes(s, i, p.c, j); }
        if SpinOf(p).Some? { LockedUnderSpin(s, i, j); }
      }
    }
  }

  /** Who holds the spinlock keeps `locked` as it is against every other process. */
  lemma LockedUnderSpin(s: State, i: nat, j: nat)
    requires WellFormed(s) && i < |s.pc| && CanMove(s, i) && j < |s.pc| && j != i && LocksOk(s, i) && LocksOk(s, j)
    requires SpinOf(s.pc[j]).Some?
    ensures MoveOf(s, i).pc[j] == s.pc[j]
    ensures MoveOf(s, i).locked[s.pc[j].c] == s.locked[s.pc[j].c] && MoveOf(s, i).pid[s.pc[j].c] == s.pid[s.pc[j].c]
    ensures MoveOf(s, i).holder[s.pc[j].c] == s.holder[s.pc[j].c]
  {}

  lemma MoverHolds(s: State, i: nat)
    requires Inv(s) && i < |s.pc| && CanMove(s, i)
    ensures WellFormed(MoveOf(s, i)) && HolderOk(MoveOf(s, i), i)
  {
    assert LocksOk(s, i) && HolderOk(s, i);
    if !s.pc[i].Idle? { assert LockedOk(s, s.pc[i].c); }
    MoveWellFormed(s, i);
    hide *;
    if s.pc[i].HoldRead? { HoldingAnswers(s, i); }
    if InSleep(s.pc[i]) || s.pc[i].AcqEnter? || s.pc[i].AcqTest? { ReaderHolds(s, i); } else { WriterHolds(s, i); }
  }

  lemma ReaderHolds(s: State, i: nat)
    requires WellFormed(s) && i < |s.pc| && CanMove(s, i) && HolderOk(s, i) && WellFormed(MoveOf(s, i)) &&
             |MoveOf(s, i).pc| == |s.pc|
    requires InSleep(s.pc[i]) || s.pc[i].AcqEnter? || s.pc[i].AcqTest?
    ensures HolderOk(MoveOf(s, i), i)
  {}

  lemma WriterHolds(s: State, i: nat)
    requires WellFormed(s) && i < |s.pc| && CanMove(s, i) && HolderOk(s, i)
    requires !s.pc[i].Idle? ==> LockedOk(s, s.pc[i].c)
    requires s.pc[i].HoldRead? ==> (s.locked[s.pc[i].c] && s.pid[s.pc[i].c] == PidOf(i)) == (s.pc[i].c in s.owns[i])
    requires WellFormed(MoveOf(s, i)) && |MoveOf(s, i).pc| == |s.pc|
    requires !InSleep(s.pc[i]) && !s.pc[i].AcqEnter? && !s.pc[i].AcqTest?
    ensures HolderOk(MoveOf(s, i), i)
  {
    var p, t := s.pc[i], MoveOf(s, i);
    forall c | c in t.owns[i]
      ensures t.holder[c] == Some(i) && t.pid[c] == PidOf(i)
    {
      assert c in s.owns[i] || (p == AcqExit(c));
    }
  }

  /** What `holdingsleep` reads is whether its caller owns the lock. */
  lemma HoldingAnswers(s: State, i: nat)
    requires Inv(s) && i < |s.pc| && s.pc[i].HoldRead?
    ensures (s.locked[s.pc[i].c] && s.pid[s.pc[i].c] == PidOf(i)) == (s.pc[i].c in s.owns[i])
  {
    var c := s.pc[i].c;
    assert LocksOk(s, i) && HolderOk(s, i) && LockedOk(s, c);
    assert s.spin[c] == Some(i);
    if s.locked[c] {
      var h := s.holder[c].value;
      assert LocksOk(s, h) && HolderOk(s, h);
      assert c in s.owns[h];
    }
  }

  /** What another process owns, nobody else gives up or overwrites. */
  lemma OwnedStays(s: State, i: nat, j: nat, c: nat)
    requires WellFormed(s) && i < |s.pc| && CanMove(s, i) && j < |s.pc| && j != i && c < |s.spin|
    requires HolderOk(s, i) && LockedOk(s, c) && s.holder[c] == Some(j) && s.pid[c] == PidOf(j)
    ensures MoveOf(s, i).owns[j] == s.owns[j] && MoveOf(s, i).holder[c] == Some(j) && MoveOf(s, i).pid[c] == PidOf(j)
  {}

  lemma OthersHold(s: State, i: nat, j: nat)
    requires Inv(s) && i < |s.pc| && CanMove(s, i) && j < |s.pc| && j != i
    ensures WellFormed(MoveOf(s, i)) && HolderOk(MoveOf(s, i), j)
  {
    hide MoveOf;
    assert LocksOk(s, i) && HolderOk(s, i) && LocksOk(s, j) && HolderOk(s, j);
    MoveWellFormed(s, i);
    MoveLockEffect(s, i);
    var t := MoveOf(s, i);
    forall c | c in s.owns[j]
      ensures t.holder[c] == Some(j) && t.pid[c] == PidOf(j)
    {
      assert LockedOk(s, c);
      OwnedStays(s, i, j, c);
    }
    OtherSame(s, i, j);
    if SpinOf(s.pc[j]).Some? { LockedUnderSpin(s, i, j); }
  }

  lemma MoveKeepsInv(s: State, i: nat)
    requires Inv(s) && i < |s.pc| && CanMove(s, i)
    ensures Inv(MoveOf(s, i))
  {
    hide MoveOf, LocksOk, RunOk, HolderOk, SleepOk, LockedOk;
    var t := MoveOf(s, i);
    MoveWellFormed(s, i);
    MoveLockEffect(s, i);
    EffectKeepsLocks(s, t, i, i);
    forall j: nat | j < |t.pc|
      ensures LocksOk(t, j) && RunOk(t, j) && HolderOk(t, j) && SleepOk(t, j)
    {
      EffectKeepsLocks(s, t, i, j);
      MoveKeepsRun(s, i, j);
      if j == i { MoverHolds(s, i); } else { OthersHold(s, i, j); }
      MoveKeepsSleep(s, i, j);
    }
    forall c: nat | c < |t.spin|
      ensures LockedOk(t, c)
    {
      MoveKeepsLocked(s, i, c);
    }
  }

  /** Starting an operation, dispatching, preempting and poking take no lock away and put nobody to sleep. */
  lemma OtherKeepsInv(s: State, e: Event)
    requires Inv(s) && Enabled(s, e) && !e.Move?
    ensures Inv(Step(s, e))
  {
    var t := Step(s, e);
    assert LocksOk(s, e.i) && RunOk(s, e.i) && HolderOk(s, e.i) && SleepOk(s, e.i);
    OtherOwners(s, e);
    hide LocksOk, RunOk, HolderOk, SleepOk, LockedOk, Step, Enabled;
    forall j: nat | j < |t.pc|
      ensures LocksOk(t, j) && RunOk(t, j) && HolderOk(t, j) && SleepOk(t, j)
    {
      OtherKeeps(s, e, j);
    }
    forall c: nat | c < |t.spin|
      ensures LockedOk(t, c)
    {
      StartKeepsLocked(s, e, c);
    }
  }

  lemma OtherKeeps(s: State, e: Event, j: nat)
    requires WellFormed(s) && Enabled(s, e) && !e.Move? && j < |s.pc|
    requires LocksOk(s, e.i) && RunOk(s, e.i) && HolderOk(s, e.i) && SleepOk(s, e.i)
    requires LocksOk(s, j) && RunOk(s, j) && HolderOk(s, j) && SleepOk(s, j)
    ensures var t := Step(s, e); WellFormed(t) && LocksOk(t, j) && RunOk(t, j) && HolderOk(t, j) && SleepOk(t, j)
  {
    OtherWellFormed(s, e);
    OtherKeepsLocks(s, e, j);
    OtherKeepsHold(s, e, j);
    hide LocksOk, RunOk, HolderOk, SleepOk, Step, Enabled;
  }

  lemma OtherOwners(s: State, e: Event)
    requires Inv(s) && Enabled(s, e) && !e.Move?
    ensures WellFormed(Step(s, e)) && OwnersOk(Step(s, e)) && |Step(s, e).pc| == |s.pc|
    ensures |Step(s, e).spin| == |s.spin|
  {
    hide LocksOk, RunOk, HolderOk, SleepOk, LockedOk;
  }

  lemma StartKeepsLocked(s: State, e: Event, c: nat)
    requires Inv(s) && Enabled(s, e) && !e.Move? && c < |s.spin| && WellFormed(Step(s, e))
    requires |Step(s, e).spin| == |s.spin|
    ensures LockedOk(Step(s, e), c)
  {
    assert LockedOk(s, c);
    hide LocksOk, RunOk, HolderOk, SleepOk, OwnersOk;
  }

  lemma OtherWellFormed(s: State, e: Event)
    requires WellFormed(s) && Enabled(s, e) && !e.Move?
    ensures WellFormed(Step(s, e)) && |Step(s, e).pc| == |s.pc|
  {}

  lemma OtherKeepsLocks(s: State, e: Event, j: nat)
    requires WellFormed(s) && Enabled(s, e) && !e.Move? && j < |s.pc|
    requires LocksOk(s, e.i) && RunOk(s, e.i) && LocksOk(s, j) && RunOk(s, j)
    requires WellFormed(Step(s, e)) && |Step(s, e).pc| == |s.pc|
    ensures LocksOk(Step(s, e), j) && RunOk(Step(s, e), j)
  {}

  lemma OtherKeepsHold(s: State, e: Event, j: nat)
    requires WellFormed(s) && Enabled(s, e) && !e.Move? && j < |s.pc|
    requires LocksOk(s, e.i) && HolderOk(s, e.i) && SleepOk(s, e.i) && HolderOk(s, j) && SleepOk(s, j)
    requires WellFormed(Step(s, e)) && |Step(s, e).pc| == |s.pc|
    ensures HolderOk(Step(s, e), j) && SleepOk(Step(s, e), j)
  {}

  // ---- every run ----

  /** The states a run of events passes through. */
  ghost predicate IsRun(trace: seq<State>, es: seq<Event>) {
    && |trace| == |es| + 1 && Init(trace[0])
    && forall k :: 0 <= k < |es| ==>
         WellFormed(trace[k]) && Enabled(trace[k], es[k]) && trace[k + 1] == Step(trace[k], es[k])
  }

  lemma {:induction false} RunKeepsInv(trace: seq<State>, es: seq<Event>, k: nat)
    requires IsRun(trace, es) && k < |trace|
    ensures Inv(trace[k])
  {
    if k == 0 {
      InitInv(trace[0]);
    } else {
      RunKeepsInv(trace, es, k - 1);
      var e := es[k - 1];
      if e.Move? { MoveKeepsInv(trace[k - 1], e.i); } else { OtherKeepsInv(trace[k - 1], e); }
    }
  }

  /** A releaser has cleared `locked` of `c` and its wakeup is not over. */
  ghost predicate Waking(s: State, c: nat) {
    exists i ::
      0 <= i < |s.pc| && (s.pc[i] == RelPid(c) || s.pc[i] == RelWakeup(c) || (s.pc[i].RelScan? && s.pc[i].c == c))
  }

  /** No two processes hold a sleep lock at once, and `holdingsleep` tells each caller the truth. */
  lemma MutualExclusion(trace: seq<State>, es: seq<Event>, k: nat, i: nat, j: nat, c: nat)
    requires IsRun(trace, es) && k < |trace| && i < |trace[k].pc| == |trace[k].owns| && j < |trace[k].pc|
    ensures c in trace[k].owns[i] && c in trace[k].owns[j] ==> i == j
    ensures trace[k].pc[i].HoldExit? ==> trace[k].pc[i].r == (trace[k].pc[i].c in trace[k].owns[i])
  {
    RunKeepsInv(trace, es, k);
    assert HolderOk(trace[k], i) && HolderOk(trace[k], j);
  }

  /** `acquiresleep` of lock `c` returns to process `i`. */
  ghost predicate Gets(s: State, e: Event, i: nat, c: nat) { e == Move(i) && i < |s.pc| && s.pc[i] == AcqExit(c) }

  /** `releasesleep` of lock `c` by process `i` clears `locked`. */
  ghost predicate GivesUp(s: State, e: Event, i: nat, c: nat) { e == Move(i) && i < |s.pc| && s.pc[i] == RelClear(c) }

  lemma StepOwns(s: State, e: Event, i: nat, c: nat)
    requires WellFormed(s) && Enabled(s, e) && i < |s.pc|
    ensures i < |Step(s, e).owns|
    ensures Gets(s, e, i, c) || (c in s.owns[i] && !GivesUp(s, e, i, c)) ==> c in Step(s, e).owns[i]
  {
    if e.Move? { MoveOwns(s, e.i); }
    hide MoveOf;
  }

  lemma MoveOwns(s: State, i: nat)
    requires WellFormed(s) && i < |s.pc| && CanMove(s, i)
    ensures var p := s.pc[i];
            MoveOf(s, i).owns == match p
                                 case AcqExit(c) => s.owns[i := s.owns[i] + {c}]
                                 case RelClear(c) => s.owns[i := s.owns[i] - {c}]
                                 case _ => s.owns
  {}

  lemma {:induction false} KeepsOwning(trace: seq<State>, es: seq<Event>, i: nat, c: nat, a: nat, k: nat)
    requires IsRun(trace, es) && a < k <= |es| && Gets(trace[a], es[a], i, c)
    requires forall m :: a < m < k ==> !GivesUp(trace[m], es[m], i, c)
    ensures i < |trace[k].owns| && c in trace[k].owns[i]
    decreases k
  {
    hide Step, Enabled, Init, Gets, GivesUp;
    RunKeepsInv(trace, es, k - 1);
    if a + 1 < k { KeepsOwning(trace, es, i, c, a, k - 1); } else { GetsInRange(trace[a], es[a], i, c); }
    StepOwns(trace[k - 1], es[k - 1], i, c);
  }

  lemma GetsInRange(s: State, e: Event, i: nat, c: nat)
    requires Gets(s, e, i, c)
    ensures i < |s.pc|
  {}

  /** Between two returns of `acquiresleep` on the same lock, to whomever, the one who got it first has cleared it. */
  lemma Exclusive(trace: seq<State>, es: seq<Event>, i: nat, j: nat, c: nat, a: nat, b: nat)
    requires IsRun(trace, es) && a < b < |es| && Gets(trace[a], es[a], i, c) && Gets(trace[b], es[b], j, c)
    ensures exists m :: a < m < b && GivesUp(trace[m], es[m], i, c)
  {
    hide Step, Enabled, Init, GivesUp, WellFormed;
    RunKeepsInv(trace, es, b);
    NobodyOwns(trace[b], j, c);
    hide Gets;
    if forall m :: a < m < b ==> !GivesUp(trace[m], es[m], i, c) { KeepsOwning(trace, es, i, c, a, b); }
  }

  lemma NobodyOwns(s: State, j: nat, c: nat)
    requires Inv(s) && j < |s.pc| && s.pc[j] == AcqExit(c)
    ensures forall i :: 0 <= i < |s.owns| ==> c !in s.owns[i]
  {
    forall i: nat | i < |s.owns|
      ensures c !in s.owns[i]
    {
      assert HolderOk(s, i) && HolderOk(s, j);
    }
  }

  /** A sleep ends only by `kill` or by a wakeup on its channel. */
  lemma OnlyWoken(s: State, e: Event, j: nat)
    requires Inv(s) && Enabled(s, e) && j < |s.pc| && s.run[j] == SLEEPING
    ensures j < |Step(s, e).run|
    ensures Step(s, e).run[j] == SLEEPING || e == Poke(j) ||
            (e.Move? && s.pc[e.i].RelScan? && s.pc[e.i].w == j && s.chan[j] == Some(s.pc[e.i].c))
  {
    assert RunOk(s, j);
    hide LocksOk, HolderOk, SleepOk, LockedOk;
  }

  /** A process taken off the CPU, or made runnable in its sleep, goes on when it is dispatched: where it was, or past
      the sleep with `ptable.lock` in hand. */
  lemma GoesOn(s: State, i: nat)
    requires Inv(s) && i < |s.pc|
    ensures Enabled(s, Preempt(i)) ==>
              Enabled(Step(s, Preempt(i)), Dispatch(i)) && Step(Step(s, Preempt(i)), Dispatch(i)) == s
    ensures Enabled(s, Poke(i)) ==>
              && Enabled(Step(s, Poke(i)), Dispatch(i))
              && var t := Step(Step(s, Poke(i)), Dispatch(i));
              s.pc[i].Asleep? && t.pc[i] == WokenChan(s.pc[i].c) && t.run[i] == RUNNING && t.ptable == Some(i)
  {
    assert RunOk(s, i) && LocksOk(s, i);
    hide HolderOk, SleepOk, LockedOk;
    if Enabled(s, Preempt(i)) { assert s.run[i := RUNNABLE][i := RUNNING] == s.run; }
  }

  /** A lock that is free, with nobody about to clear its pid, has none; and outside `sleep` a process has no
      channel. */
  lemma NothingStale(trace: seq<State>, es: seq<Event>, k: nat)
    requires IsRun(trace, es) && k < |trace|
    ensures var s := trace[k];
            && WellFormed(s)
            && (forall c ::
                  0 <= c < |s.spin| && !s.locked[c] && (forall i :: 0 <= i < |s.pc| ==> s.pc[i] != RelPid(c)) ==>
                  s.pid[c] == 0)
            && forall i :: 0 <= i < |s.pc| && !InSleep(s.pc[i]) ==> s.chan[i] == None
  {
    RunKeepsInv(trace, es, k);
    var s := trace[k];
    forall i: nat | i < |s.pc| && !InSleep(s.pc[i])
      ensures s.chan[i] == None
    {
      assert RunOk(s, i);
    }
    forall c: nat | c < |s.spin| && !s.locked[c] && forall i :: 0 <= i < |s.pc| ==> s.pc[i] != RelPid(c)
      ensures s.pid[c] == 0
    {
      assert LockedOk(s, c);
    }
  }

  /** No lost wakeup. */
  lemma NoLostWakeup(trace: seq<State>, es: seq<Event>, k: nat, j: nat, c: nat)
    requires IsRun(trace, es) && k < |trace| && WellFormed(trace[k]) && j < |trace[k].pc| && c < |trace[k].spin|
    requires !trace[k].locked[c] && !Waking(trace[k], c)
    ensures !(trace[k].run[j] == SLEEPING && trace[k].chan[j] == Some(c))
  {
    RunKeepsInv(trace, es, k);
    NobodyAsleep(trace[k], j, c);
  }

  lemma NobodyAsleep(s: State, j: nat, c: nat)
    requires Inv(s) && j < |s.pc| && c < |s.spin| && !s.locked[c] && !Waking(s, c)
    ensures !(s.run[j] == SLEEPING && s.chan[j] == Some(c))
  {
    assert RunOk(s, j) && SleepOk(s, j);
    if s.spin[c].Some? { assert LocksOk(s, s.spin[c].value); }
  }

  /** The protocol cannot jam: when no process can move and none can be dispatched, every process still
      inside an operation is asleep on a sleep lock that is held. */
  lemma QuietMeansHeld(trace: seq<State>, es: seq<Event>, k: nat, j: nat)
    requires IsRun(trace, es) && k < |trace| && WellFormed(trace[k]) && j < |trace[k].pc| && trace[k].pc[j] != Idle
    requires forall i: nat :: i < |trace[k].pc| ==> !CanMove(trace[k], i) && !Enabled(trace[k], Dispatch(i))
    ensures trace[k].pc[j].Asleep? && trace[k].run[j] == SLEEPING && trace[k].locked[trace[k].pc[j].c]
  {
    RunKeepsInv(trace, es, k);
    var s := trace[k];
    PtableHolderMoves(s);
    SpinHolderMoves(s, s.pc[j].c);
    assert LocksOk(s, j) && RunOk(s, j) && SleepOk(s, j);
    assert !CanMove(s, j) && !Enabled(s, Dispatch(j));
  }

  /** Whoever holds `ptable.lock` can move. */
  lemma PtableHolderMoves(s: State)
    requires Inv(s)
    ensures s.ptable.Some? ==> s.ptable.value < |s.pc| && CanMove(s, s.ptable.value)
  {
    if s.ptable.Some? { assert LocksOk(s, s.ptable.value) && RunOk(s, s.ptable.value); }
  }

  /** And then whoever holds a spinlock can. */
  lemma SpinHolderMoves(s: State, c: nat)
    requires Inv(s) && c < |s.spin| && s.ptable == None
    ensures s.spin[c].Some? ==> s.spin[c].value < |s.pc| && CanMove(s, s.spin[c].value)
  {
    if s.spin[c].Some? { assert LocksOk(s, s.spin[c].value) && RunOk(s, s.spin[c].value); }
  }
}
