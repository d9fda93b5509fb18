/** The table scans of the kernel, in place. */
module ProcCode {
  import opened Basics
  import opened ProcTable

  method Wakeup1(t: array<Proc>, c: Chan)
    modifies t
    ensures t[..] == Woken(old(t[..]), c)
  {
    var j := 0;
    while j < t.Length
      invariant 0 <= j <= t.Length
      invariant forall k :: 0 <= k < j ==> t[k] == Wake(old(t[k]), c)
      invariant forall k :: j <= k < t.Length ==> t[k] == old(t[k])
    {
      if t[j].state == SLEEPING && t[j].chan == c { t[j] := t[j].(state := RUNNABLE); }
      j := j + 1;
    }
  }

  /** The aging phase of `scheduler`. */
  method AgingPass(t: array<Proc>)
    modifies t
    ensures t[..] == Aged(old(t[..]))
  {
    var j := 0;
    while j < t.Length
      invariant 0 <= j <= t.Length
      invariant forall k :: 0 <= k < j ==> t[k] == Age(old(t[k]))
      invariant forall k :: j <= k < t.Length ==> t[k] == old(t[k])
    {
      if t[j].state == RUNNABLE {
        t[j] := t[j].(ticks := t[j].ticks + 1);
        if t[j].ticks >= AGING_THRESHOLD && t[j].priority < MAX_PRIORITY {
          t[j] := t[j].(priority := t[j].priority + 1, ticks := 0);
        }
      }
      j := j + 1;
    }
  }

  /** The scan of `exit` that gives away the children, waking init in the middle of it when one is a zombie. */
  method AdoptChildren(t: array<Proc>, cur: nat, init: nat)
    requires cur != init
    modifies t
    ensures t[..] == if HasZombie(old(t[..]), cur) then Woken(Adopted(old(t[..]), cur, init), OfProc(init))
                     else Adopted(old(t[..]), cur, init)
  {
    var j := 0;
    ghost var woke := false;
    while j < t.Length
      invariant 0 <= j <= t.Length
      invariant woke <==> exists k :: 0 <= k < j && IsChild(old(t[k]), cur) && old(t[k]).state == ZOMBIE
      invariant forall k :: 0 <= k < j ==>
                  t[k] == if woke then Wake(Reparent(old(t[k]), cur, init), OfProc(init))
                          else Reparent(old(t[k]), cur, init)
      invariant forall k :: j <= k < t.Length ==> t[k] == if woke then Wake(old(t[k]), OfProc(init)) else old(t[k])
    {
      if t[j].parent == Some(cur) {
        t[j] := t[j].(parent := Some(init));
        if t[j].state == ZOMBIE {
          Wakeup1(t, OfProc(init));
          woke := true;
        }
      }
      j := j + 1;
    }
    assert HasZombie(old(t[..]), cur) <==> woke by {
      if woke {
        var k :| 0 <= k < j && IsChild(old(t[k]), cur) && old(t[k]).state == ZOMBIE;
        assert old(t[..])[k] == old(t[k]);
      }
    }
  }

  /** `exit`, from its taking of the lock on. */
  method Exit(t: array<Proc>, cur: nat, init: nat)
    requires cur < t.Length && cur != init
    modifies t
    ensures t[..] == Exited(old(t[..]), cur, init)
  {
    ghost var was := t[..];
    if t[cur].parent.Some? { Wakeup1(t, OfProc(t[cur].parent.value)); }
    ghost var woken := t[..];
    assert HasZombie(woken, cur) == HasZombie(was, cur) by { WokenZombies(was, woken, t[cur].parent, cur); }
    AdoptChildren(t, cur, init);
    t[cur] := t[cur].(state := ZOMBIE);
  }

  lemma WokenZombies(t: seq<Proc>, w: seq<Proc>, q: Option<nat>, cur: nat)
    requires w == match q { case Some(i) => Woken(t, OfProc(i)) case None => t }
    ensures HasZombie(w, cur) == HasZombie(t, cur)
  {
    if HasZombie(t, cur) {
      var j :| 0 <= j < |t| && IsChild(t[j], cur) && t[j].state == ZOMBIE;
      assert IsChild(w[j], cur) && w[j].state == ZOMBIE;
    }
    if HasZombie(w, cur) {
      var j :| 0 <= j < |w| && IsChild(w[j], cur) && w[j].state == ZOMBIE;
      assert IsChild(t[j], cur) && t[j].state == ZOMBIE;
    }
  }

  /** The scan of `wait`, which reaps the first zombie child. */
  method ScanChildren(t: array<Proc>, cur: nat) returns (r: WaitScan, pid: nat)
    modifies t
    ensures Scanned(old(t[..]), cur, r)
    ensures r.Zombie? ==> pid == old(t[..])[r.z].pid && t[..] == old(t[..])[r.z := Reaped(old(t[..])[r.z])]
    ensures !r.Zombie? ==> t[..] == old(t[..])
  {
    var havekids, j := false, 0;
    while j < t.Length
      invariant 0 <= j <= t.Length && t[..] == old(t[..])
      invariant havekids <==> exists k :: 0 <= k < j && IsChild(t[k], cur)
      invariant forall k :: 0 <= k < j ==> !(IsChild(t[k], cur) && t[k].state == ZOMBIE)
    {
      if t[j].parent == Some(cur) {
        havekids := true;
        if t[j].state == ZOMBIE {
          pid := t[j].pid;
          t[j] := t[j].(pid := 0, parent := None, killed := false, state := UNUSED);
          return Zombie(j), pid;
        }
      }
      j := j + 1;
    }
    pid := 0;
    r := if havekids then Children else NoChildren;
    if havekids {
      ghost var k :| 0 <= k < j && IsChild(t[k], cur);
      assert IsChild(old(t[..])[k], cur);
    }
  }

  /** The selection phase of `scheduler`. */
  method PickPass(t: array<Proc>) returns (r: Option<nat>)
    ensures Chosen(t[..], r)
  {
    r := None;
    var best, j := MIN_PRIORITY - 1, 0;
    while j < t.Length
      invariant 0 <= j <= t.Length
      invariant match r { case None => best == MIN_PRIORITY - 1 case Some(i) => i < j && t[i].state == RUNNABLE &&
                         t[i].priority == best >= MIN_PRIORITY }
      invariant forall k :: 0 <= k < j && t[k].state == RUNNABLE ==> t[k].priority <= best
      invariant r.Some? ==> forall k :: 0 <= k < r.value && t[k].state == RUNNABLE ==> t[k].priority < best
    {
      if t[j].state == RUNNABLE && t[j].priority > best {
        best, r := t[j].priority, Some(j);
      }
      j := j + 1;
    }
  }

  /** The scan of `allocproc`. */
  method FindUnused(t: array<Proc>) returns (r: Option<nat>)
    ensures FirstUnused(t[..], r)
  {
    var j := 0;
    while j < t.Length
      invariant 0 <= j <= t.Length && forall k :: 0 <= k < j ==> t[k].state != UNUSED
    {
      if t[j].state == UNUSED { return Some(j); }
      j := j + 1;
    }
    r := None;
  }

  /** `kill`. */
  method Kill(t: array<Proc>, pid: nat) returns (r: Option<nat>)
    modifies t
    ensures FirstPid(old(t[..]), pid, r)
    ensures r.None? ==> t[..] == old(t[..])
    ensures r.Some? ==> t[..] == old(t[..])[r.value := Killed(old(t[..])[r.value])]
  {
    var j := 0;
    while j < t.Length
      invariant 0 <= j <= t.Length && t[..] == old(t[..]) && forall k :: 0 <= k < j ==> t[k].pid != pid
    {
      if t[j].pid == pid {
        t[j] := t[j].(killed := true);
        if t[j].state == SLEEPING { t[j] := t[j].(state := RUNNABLE); }
        return Some(j);
      }
      j := j + 1;
    }
    r := None;
  }

  /** `sys_setpriority`: false when the priority is out of range or there is no such process. */
  method SetPriority(t: array<Proc>, pid: nat, priority: int) returns (ok: bool)
    modifies t
    ensures ok <==>
              MIN_PRIORITY <= priority <= MAX_PRIORITY && exists j :: 0 <= j < t.Length && old(t[..])[j].pid == pid
    ensures !ok ==> t[..] == old(t[..])
    ensures ok ==>
              exists i: nat ::
                FirstPid(old(t[..]), pid, Some(i)) &&
                t[..] == old(t[..])[i := old(t[..])[i].(priority := priority, ticks := 0)]
  {
    if priority < 1 || priority > 5 { return false; }
    var j := 0;
    while j < t.Length
      invariant 0 <= j <= t.Length && t[..] == old(t[..]) && forall k :: 0 <= k < j ==> t[k].pid != pid
    {
      if t[j].pid == pid {
        t[j] := t[j].(priority := priority, ticks := 0);
        assert FirstPid(old(t[..]), pid, Some(j)) && old(t[..])[j].pid == pid;
        return true;
      }
      j := j + 1;
    }
    ok := false;
  }
}
