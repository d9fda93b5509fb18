/** The process table: what the scans of `wakeup1`, `exit`, `wait`, `allocproc`, `kill` and `scheduler` do to it. */
module ProcTable {
  import opened Basics

  datatype ProcState = UNUSED | EMBRYO | SLEEPING | RUNNABLE | RUNNING | ZOMBIE

  /** What a process sleeps on: a process, as in `wait`, or anything else. */
  datatype Chan = NoChan | OfProc(i: nat) | Other(k: nat)

  datatype Proc = Proc(state: ProcState, pid: nat, parent: Option<nat>, chan: Chan, killed: bool, priority: int,
                       ticks: nat)

  const MIN_PRIORITY: int := 1
  const MAX_PRIORITY: int := 5
  const DEFAULT_PRIORITY: int := 3
  const AGING_THRESHOLD: nat := 100

  // ---- one entry ----

  function Wake(p: Proc, c: Chan): Proc {
    if p.state == SLEEPING && p.chan == c then p.(state := RUNNABLE) else p
  }

  function Reparent(p: Proc, cur: nat, init: nat): Proc {
    if p.parent == Some(cur) then p.(parent := Some(init)) else p
  }

  /** One pass of the scheduler over an entry. */
  function Age(p: Proc): Proc {
    if p.state != RUNNABLE then p
    else if p.ticks + 1 >= AGING_THRESHOLD && p.priority < MAX_PRIORITY then p.(priority := p.priority + 1, ticks := 0)
    else p.(ticks := p.ticks + 1)
  }

  // ---- the table ----

  /** Everyone asleep on `c` becomes runnable, nothing else changes. */
  function Woken(t: seq<Proc>, c: Chan): (r: seq<Proc>)
    ensures |r| == |t| && forall j :: 0 <= j < |t| ==> r[j] == Wake(t[j], c)
  {
    seq(|t|, j requires 0 <= j < |t| => Wake(t[j], c))
  }

  function Adopted(t: seq<Proc>, cur: nat, init: nat): (r: seq<Proc>)
    ensures |r| == |t| && forall j :: 0 <= j < |t| ==> r[j] == Reparent(t[j], cur, init)
  {
    seq(|t|, j requires 0 <= j < |t| => Reparent(t[j], cur, init))
  }

  function Aged(t: seq<Proc>): (r: seq<Proc>)
    ensures |r| == |t| && forall j :: 0 <= j < |t| ==> r[j] == Age(t[j])
  {
    seq(|t|, j requires 0 <= j < |t| => Age(t[j]))
  }

  predicate IsChild(p: Proc, cur: nat) { p.parent == Some(cur) }

  ghost predicate HasZombie(t: seq<Proc>,
                            cur: nat) { exists j :: 0 <= j < |t| && IsChild(t[j], cur) && t[j].state == ZOMBIE }

  ghost predicate HasChild(t: seq<Proc>, cur: nat) { exists j :: 0 <= j < |t| && IsChild(t[j], cur) }

  /** The part of `exit` under the lock: wake the parent, pass the children to init and wake it if one of them
      is a zombie, become a zombie. */
  ghost function Exited(t: seq<Proc>, cur: nat, init: nat): (r: seq<Proc>)
    requires cur < |t|
    ensures |r| == |t|
  {
    var a := match t[cur].parent { case Some(q) => Woken(t, OfProc(q)) case None => t };
    var b := Adopted(a, cur, init);
    var c := if HasZombie(t, cur) then Woken(b, OfProc(init)) else b;
    c[cur := c[cur].(state := ZOMBIE)]
  }

  /** A killed entry: out of any sleep. */
  function Killed(p: Proc): Proc { p.(killed := true, state := if p.state == SLEEPING then RUNNABLE else p.state) }

  /** A reaped entry. */
  function Reaped(p: Proc): Proc { p.(state := UNUSED, pid := 0, parent := None, killed := false) }

  /** What `scheduler` picks: a runnable process of the highest priority, at the lowest slot that has it. */
  ghost predicate Chosen(t: seq<Proc>, r: Option<nat>) {
    match r
    case None => forall j :: 0 <= j < |t| && t[j].state == RUNNABLE ==> t[j].priority < MIN_PRIORITY
    case Some(i) =>
      && i < |t| && t[i].state == RUNNABLE && t[i].priority >= MIN_PRIORITY
      && forall j :: 0 <= j < |t| && t[j].state == RUNNABLE ==>
           t[j].priority < t[i].priority || (t[j].priority == t[i].priority && i <= j)
  }

  /** What the scan of `wait` meets first: a zombie child, else whether there is a child at all. */
  datatype WaitScan = Zombie(z: nat) | Children | NoChildren

  ghost predicate Scanned(t: seq<Proc>, cur: nat, r: WaitScan) {
    match r
    case Zombie(z) => z < |t| && IsChild(t[z], cur) && t[z].state == ZOMBIE &&
                      forall j :: 0 <= j < z ==> !(IsChild(t[j], cur) && t[j].state == ZOMBIE)
    case Children => HasChild(t, cur) && !HasZombie(t, cur)
    case NoChildren => !HasChild(t, cur)
  }

  /** The lowest slot with this pid. */
  ghost predicate FirstPid(t: seq<Proc>, pid: nat, r: Option<nat>) {
    match r
    case None => forall j :: 0 <= j < |t| ==> t[j].pid != pid
    case Some(i) => i < |t| && t[i].pid == pid && forall j :: 0 <= j < i ==> t[j].pid != pid
  }

  ghost predicate FirstUnused(t: seq<Proc>, r: Option<nat>) {
    match r
    case None => forall j :: 0 <= j < |t| ==> t[j].state != UNUSED
    case Some(i) => i < |t| && t[i].state == UNUSED && forall j :: 0 <= j < i ==> t[j].state != UNUSED
  }
}
