/** A pipe: a ring buffer with wrapping counters, and readers and writers that sleep on it. */
module Pipe {
  import opened Basics

  const PIPESIZE: nat := 512

  // ---- the ring buffer ----

  datatype Ring = Ring(data: seq<byte>, nread: nat, nwrite: nat)

  /** The tests of `pipewrite` and `piperead`, on 32-bit counters. */
  predicate IsFull(r: Ring) { r.nwrite == (r.nread + PIPESIZE) % UINT }
  predicate IsEmpty(r: Ring) { r.nread == r.nwrite }

  function Put(r: Ring, b: byte): Ring
    requires |r.data| == PIPESIZE
  {
    r.(data := r.data[r.nwrite % PIPESIZE := b], nwrite := (r.nwrite + 1) % UINT)
  }

  /** The ring holds the bytes stored and not yet delivered, whatever its counters have wrapped to. */
  ghost predicate Rep(r: Ring, stored: seq<byte>, delivered: seq<byte>) {
    && |r.data| == PIPESIZE && |delivered| <= |stored| <= |delivered| + PIPESIZE
    && delivered == stored[..|delivered|]
    && r.nread == |delivered| % UINT && r.nwrite == |stored| % UINT
    && (forall k :: |delivered| <= k < |stored| ==> r.data[k % PIPESIZE] == stored[k])
  }

  /** Counting modulo 2^32 loses nothing: the tests say how much is in flight. */
  lemma Counters(r: Ring, stored: seq<byte>, delivered: seq<byte>)
    requires Rep(r, stored, delivered)
    ensures IsFull(r) <==> |stored| == |delivered| + PIPESIZE
    ensures IsEmpty(r) <==> |stored| == |delivered|
    ensures r.nwrite % PIPESIZE == |stored| % PIPESIZE && r.nread % PIPESIZE == |delivered| % PIPESIZE
  {
    Apart(|delivered|, |stored|);
    Apart(|stored|, |delivered| + PIPESIZE);
    WrapSlot(|stored|);
    WrapSlot(|delivered|);
    assert (r.nread + PIPESIZE) % UINT == (|delivered| + PIPESIZE) % UINT;
  }

  lemma Apart(a: nat, b: nat)
    requires a <= b <= a + PIPESIZE
    ensures a % UINT == b % UINT <==> a == b
  {}

  lemma WrapSlot(n: nat)
    ensures n % UINT % PIPESIZE == n % PIPESIZE
  {
    assert UINT == PIPESIZE * 0x80_0000;
    assert n == n / UINT * UINT + n % UINT;
    assert n == PIPESIZE * (n / UINT * 0x80_0000) + n % UINT;
  }

  lemma NextCount(n: nat)
    ensures (n % UINT + 1) % UINT == (n + 1) % UINT
  {}

  lemma PutRep(r: Ring, stored: seq<byte>, delivered: seq<byte>, b: byte)
    requires Rep(r, stored, delivered) && !IsFull(r)
    ensures Rep(Put(r, b), stored + [b], delivered)
  {
    Counters(r, stored, delivered);
    NextCount(|stored|);
    var t := Put(r, b);
    assert t.data == r.data[|stored| % PIPESIZE := b] && t.nwrite == |stored + [b]| % UINT;
    forall k | |delivered| <= k < |stored| + 1
      ensures t.data[k % PIPESIZE] == (stored + [b])[k]
    {
      if k < |stored| { SlotsApart(k, |stored|); }
    }
  }

  lemma SlotsApart(j: nat, k: nat)
    requires j < k < j + PIPESIZE
    ensures j % PIPESIZE != k % PIPESIZE
  {}

  function Next(r: Ring): (byte, Ring)
    requires |r.data| == PIPESIZE
  {
    (r.data[r.nread % PIPESIZE], r.(nread := (r.nread + 1) % UINT))
  }

  lemma NextRep(r: Ring, stored: seq<byte>, delivered: seq<byte>)
    requires Rep(r, stored, delivered) && !IsEmpty(r)
    ensures |delivered| < |stored| && Next(r).0 == stored[|delivered|] &&
            Rep(Next(r).1, stored, delivered + [stored[|delivered|]])
  {
    Counters(r, stored, delivered);
    var n := |delivered|;
    NextCount(n);
    assert Next(r).0 == r.data[n % PIPESIZE];
    assert Next(r).1 == r.(nread := (n + 1) % UINT);
    Drop(stored, delivered);
  }

  lemma Drop(stored: seq<byte>, delivered: seq<byte>)
    requires |delivered| < |stored| && delivered == stored[..|delivered|]
    ensures delivered + [stored[|delivered|]] == stored[..|delivered| + 1]
  {}

  /** Bytes of `src` from `i` on, until the ring is full. */
  function Fill(r: Ring, src: seq<byte>, i: nat): (Ring, nat)
    requires i <= |src| && |r.data| == PIPESIZE
    decreases |src| - i
  {
    if i == |src| || IsFull(r) then (r, i) else Fill(Put(r, src[i]), src, i + 1)
  }

  /** Up to `n` bytes, until the ring is empty. */
  function Drain(r: Ring, n: nat): (seq<byte>, Ring)
    requires |r.data| == PIPESIZE
    decreases n
  {
    if n == 0 || IsEmpty(r) then ([], r)
    else
      var rest := Drain(Next(r).1, n - 1);
      ([Next(r).0] + rest.0, rest.1)
  }

  lemma {:induction false} FillRep(r: Ring, src: seq<byte>, i: nat, stored: seq<byte>, delivered: seq<byte>)
    requires i <= |src| && Rep(r, stored, delivered)
    ensures var (t, j) := Fill(r, src, i);
            j == Min(|src|, i + PIPESIZE - (|stored| - |delivered|)) && i <= j <= |src| &&
            Rep(t, stored + src[i..j], delivered)
    decreases |src| - i
  {
    Counters(r, stored, delivered);
    if i == |src| || IsFull(r) {
      assert stored + src[i..i] == stored;
    } else {
      PutRep(r, stored, delivered, src[i]);
      FillRep(Put(r, src[i]), src, i + 1, stored + [src[i]], delivered);
      var j := Fill(r, src, i).1;
      assert stored + [src[i]] + src[i + 1..j] == stored + src[i..j];
    }
  }

  lemma {:induction false} DrainRep(r: Ring, n: nat, stored: seq<byte>, delivered: seq<byte>)
    requires Rep(r, stored, delivered)
    ensures var (out, t) := Drain(r, n);
            |out| == Min(n, |stored| - |delivered|) && out == stored[|delivered|..|delivered| + |out|] &&
            Rep(t, stored, delivered + out)
    decreases n
  {
    Counters(r, stored, delivered);
    if n == 0 || IsEmpty(r) {
      assert delivered + [] == delivered;
    } else {
      NextRep(r, stored, delivered);
      var b := stored[|delivered|];
      DrainRep(Next(r).1, n - 1, stored, delivered + [b]);
      hide Rep, IsEmpty, Next;
      OneAhead(stored, delivered, b, Drain(Next(r).1, n - 1).0);
    }
  }

  /** A byte taken first and the bytes taken after it are the bytes taken. */
  lemma OneAhead(stored: seq<byte>, delivered: seq<byte>, b: byte, out: seq<byte>)
    requires |delivered| + 1 + |out| <= |stored| && b == stored[|delivered|]
    requires out == stored[|delivered| + 1..|delivered| + 1 + |out|]
    ensures delivered + [b] + out == delivered + ([b] + out)
    ensures [b] + out == stored[|delivered|..|delivered| + |[b] + out|]
  {}

  /** `struct pipe` without its flags, and the copying loops of `pipewrite` and `piperead`. */
  class Buffer {
    const data: array<byte>
    var nread: nat
    var nwrite: nat

    ghost predicate Valid()
      reads this, data
    {
      data.Length == PIPESIZE && nread < UINT && nwrite < UINT
    }

    ghost function AsRing(): (r: Ring)
      requires Valid()
      reads this, data
      ensures |r.data| == PIPESIZE
    {
      Ring(data[..], nread, nwrite)
    }

    constructor ()
      ensures Valid() && fresh(data) && Rep(AsRing(), [], [])
    {
      data := new byte[PIPESIZE](_ => 0);
      nread, nwrite := 0, 0;
    }

    method WriteBytes(src: seq<byte>, i: nat) returns (j: nat)
      requires Valid() && i <= |src|
      modifies this, data
      ensures Valid() && (AsRing(), j) == Fill(old(AsRing()), src, i)
    {
      j := i;
      while j < |src| && nwrite != (nread + PIPESIZE) % UINT
        invariant i <= j <= |src| && Valid() && Fill(AsRing(), src, j) == Fill(old(AsRing()), src, i)
      {
        ghost var r := AsRing();
        data[nwrite % PIPESIZE] := src[j];
        nwrite := (nwrite + 1) % UINT;
        assert AsRing() == Put(r, src[j]);
        j := j + 1;
      }
    }

    method ReadBytes(n: nat) returns (out: seq<byte>)
      requires Valid()
      modifies this
      ensures Valid() && (out, AsRing()) == Drain(old(AsRing()), n)
    {
      out := [];
      var i := 0;
      assert [] + Drain(AsRing(), n).0 == Drain(AsRing(), n).0;
      while i < n && nread != nwrite
        invariant 0 <= i <= n && Valid()
        invariant Drain(old(AsRing()), n) == (out + Drain(AsRing(), n - i).0, Drain(AsRing(), n - i).1)
        decreases n - i
      {
        ghost var r := AsRing();
        var b := data[nread % PIPESIZE];
        nread := (nread + 1) % UINT;
        assert AsRing() == Next(r).1 && b == Next(r).0;
        assert out + ([b] + Drain(AsRing(), n - i - 1).0) == out + [b] + Drain(AsRing(), n - i - 1).0;
        out := out + [b];
        i := i + 1;
      }
      assert out + [] == out;
    }
  }

  // ---- readers and writers ----

  /** `call` is the number of the call, counting all calls on the pipe. */
  datatype Job = Idle | Writing(call: nat, src: seq<byte>, i: nat) | Reading(call: nat, n: nat)

  /** `asleep` is set while the process sleeps on the pipe. */
  datatype Thread = Thread(job: Job, asleep: bool, killed: bool)

  datatype Call = ToWrite(t: nat, src: seq<byte>) | ToRead(t: nat, n: nat)

  /** What a call returns: -1, the number of bytes it wrote, or the bytes it read. */
  datatype Outcome = Failed | Wrote(n: nat) | Got(bytes: seq<byte>)

  datatype Return = Return(call: nat, out: Outcome)

  /** `stored` and `delivered` are all bytes ever put into the ring and taken out of it, `from` has the call that each
      byte of `stored` is from. */
  datatype State = State(ring: Ring, readopen: bool, writeopen: bool, threads: seq<Thread>, stored: seq<byte>,
                         delivered: seq<byte>, from: seq<nat>, calls: seq<Call>, results: seq<Return>)

  /** A process calls `pipewrite` or `piperead`; goes on in its call until it returns or sleeps, holding the
      pipe's lock; is killed; or the last descriptor of one end is closed. */
  datatype Event = Write(t: nat, src: seq<byte>) | Read(t: nat, n: nat) | Go(t: nat) | Kill(t: nat) | CloseWrite
                 | CloseRead

  ghost predicate Init(s: State) {
    && Rep(s.ring, [], []) && s.stored == [] && s.delivered == [] && s.readopen && s.writeopen
    && s.from == [] && s.calls == [] && s.results == []
    && forall t :: 0 <= t < |s.threads| ==> s.threads[t].job == Idle && !s.threads[t].asleep
  }

  function WakeReader(t: Thread): Thread { if t.job.Reading? then t.(asleep := false) else t }
  function WakeWriter(t: Thread): Thread { if t.job.Writing? then t.(asleep := false) else t }

  function WakeReaders(ts: seq<Thread>): (r: seq<Thread>)
    ensures |r| == |ts| && forall t :: 0 <= t < |ts| ==> r[t] == WakeReader(ts[t])
  {
    seq(|ts|, t requires 0 <= t < |ts| => WakeReader(ts[t]))
  }

  function WakeWriters(ts: seq<Thread>): (r: seq<Thread>)
    ensures |r| == |ts| && forall t :: 0 <= t < |ts| ==> r[t] == WakeWriter(ts[t])
  {
    seq(|ts|, t requires 0 <= t < |ts| => WakeWriter(ts[t]))
  }

  predicate Enabled(s: State, e: Event) {
    match e
    case Write(t, _) => t < |s.threads| && s.threads[t].job == Idle
    case Read(t, _) => t < |s.threads| && s.threads[t].job == Idle
    case Go(t) => t < |s.threads| && s.threads[t].job != Idle && !s.threads[t].asleep
    case Kill(t) => t < |s.threads|
    case _ => true
  }

  /** `pipewrite` from its full-test on. */
  function GoWrite(s: State, t: nat): State
    requires t < |s.threads| && s.threads[t].job.Writing? && s.threads[t].job.i <= |s.threads[t].job.src| &&
             |s.ring.data| == PIPESIZE
  {
    var Writing(c, src, i) := s.threads[t].job;
    var f := Fill(s.ring, src, i);
    var part := if i <= f.1 <= |src| then src[i..f.1] else [];
    var u := s.(ring := f.0, stored := s.stored + part, from := s.from + seq(|part|, _ => c));
    if f.1 == |src| then
      u.(threads := WakeReaders(s.threads)[t := s.threads[t].(job := Idle)],
         results := s.results + [Return(c, Wrote(|src|))])
    else if !s.readopen || s.threads[t].killed then
      u.(threads := s.threads[t := s.threads[t].(job := Idle)], results := s.results + [Return(c, Failed)])
    else u.(threads := WakeReaders(s.threads)[t := s.threads[t].(job := Writing(c, src, f.1), asleep := true)])
  }

  /** `piperead` from its empty-test on. */
  function GoRead(s: State, t: nat): State
    requires t < |s.threads| && s.threads[t].job.Reading? && |s.ring.data| == PIPESIZE
  {
    if IsEmpty(s.ring) && s.writeopen then
      if s.threads[t].killed then
        s.(threads := s.threads[t := s.threads[t].(job := Idle)],
           results := s.results + [Return(s.threads[t].job.call, Failed)])
      else s.(threads := s.threads[t := s.threads[t].(asleep := true)])
    else
      var d := Drain(s.ring, s.threads[t].job.n);
      s.(ring := d.1, delivered := s.delivered + d.0, results := s.results + [Return(s.threads[t].job.call, Got(d.0))],
         threads := WakeWriters(s.threads)[t := s.threads[t].(job := Idle)])
  }

  ghost predicate WellFormed(s: State) {
    && |s.ring.data| == PIPESIZE
    && forall t :: 0 <= t < |s.threads| && s.threads[t].job.Writing? ==> s.threads[t].job.i <= |s.threads[t].job.src|
  }

  function Step(s: State, e: Event): State
    requires WellFormed(s) && Enabled(s, e)
  {
    match e
    case Write(t, src) =>
      s.(threads := s.threads[t := s.threads[t].(job := Writing(|s.calls|, src, 0), asleep := false)],
         calls := s.calls + [ToWrite(t, src)])
    case Read(t, n) =>
      s.(threads := s.threads[t := s.threads[t].(job := Reading(|s.calls|, n), asleep := false)],
         calls := s.calls + [ToRead(t, n)])
    case Go(t) => if s.threads[t].job.Writing? then GoWrite(s, t) else GoRead(s, t)
    case Kill(t) => s.(threads := s.threads[t := s.threads[t].(killed := true, asleep := false)])
    case CloseWrite => s.(writeopen := false, threads := WakeReaders(s.threads))
    case CloseRead => s.(readopen := false, threads := WakeWriters(s.threads))
  }

  predicate SleepsWriting(t: Thread) { t.asleep && t.job.Writing? }
  predicate SleepsReading(t: Thread) { t.asleep && t.job.Reading? }

  /** Whoever sleeps is not killed, and the other end of the pipe is open. */
  predicate MaySleep(s: State, t: Thread) {
    t.asleep ==> !t.killed && (t.job.Reading? ==> s.writeopen) && (t.job.Writing? ==> s.readopen)
  }

  /** A sleeping writer means a full ring, and then no reader sleeps. */
  ghost predicate Inv(s: State) {
    && WellFormed(s) && Rep(s.ring, s.stored, s.delivered)
    && (forall t :: 0 <= t < |s.threads| && SleepsWriting(s.threads[t]) ==> |s.stored| == |s.delivered| + PIPESIZE)
    && (forall t, u :: 0 <= t < |s.threads| && 0 <= u < |s.threads| && SleepsWriting(s.threads[t]) ==>
          !SleepsReading(s.threads[u]))
    && (forall t :: 0 <= t < |s.threads| && s.threads[t].job == Idle ==> !s.threads[t].asleep)
    && (forall t :: 0 <= t < |s.threads| ==> MaySleep(s, s.threads[t]))
  }

  lemma WriteKeeps(s: State, t: nat)
    requires Inv(s) && Enabled(s, Go(t)) && s.threads[t].job.Writing?
    ensures Inv(GoWrite(s, t))
  {
    FillRep(s.ring, s.threads[t].job.src, s.threads[t].job.i, s.stored, s.delivered);
    hide Fill, Rep, MaySleep;
    forall u | 0 <= u < |s.threads|
      ensures MaySleep(GoWrite(s, t), GoWrite(s, t).threads[u])
    {
      WriterSleeps(s, t, u);
    }
  }

  lemma WriterSleeps(s: State, t: nat, u: nat)
    requires Inv(s) && Enabled(s, Go(t)) && s.threads[t].job.Writing? && u < |s.threads|
    ensures MaySleep(GoWrite(s, t), GoWrite(s, t).threads[u])
  {
    hide Fill, Rep;
    assert MaySleep(s, s.threads[u]);
  }

  lemma ReadKeeps(s: State, t: nat)
    requires Inv(s) && Enabled(s, Go(t)) && s.threads[t].job.Reading?
    ensures Inv(GoRead(s, t))
  {
    Counters(s.ring, s.stored, s.delivered);
    DrainRep(s.ring, s.threads[t].job.n, s.stored, s.delivered);
  }

  lemma StepKeepsInv(s: State, e: Event)
    requires Inv(s) && Enabled(s, e)
    ensures Inv(Step(s, e))
  {
    if e.Go? {
      if s.threads[e.t].job.Writing? { WriteKeeps(s, e.t); } else { ReadKeeps(s, e.t); }
    }
  }

  ghost predicate IsRun(trace: seq<State>, es: seq<Event>) {
    && |trace| == |es| + 1 && Init(trace[0])
    && forall k :: 0 <= k < |es| ==>
         WellFormed(trace[k]) && Enabled(trace[k], es[k]) && trace[k + 1] == Step(trace[k], es[k])
  }

  lemma {:induction false} RunKeepsInv(trace: seq<State>, es: seq<Event>, k: nat)
    requires IsRun(trace, es) && k < |trace|
    ensures Inv(trace[k])
  {
    if k > 0 {
      RunKeepsInv(trace, es, k - 1);
      StepKeepsInv(trace[k - 1], es[k - 1]);
    }
  }

  /** The stream: whatever the interleaving and however often the counters wrap, what was delivered is a prefix of
      what was stored, at most 512 bytes are in flight, no reader and writer are both asleep, and whoever sleeps is not
      killed and has the other end open. */
  lemma Stream(trace: seq<State>, es: seq<Event>, k: nat)
    requires IsRun(trace, es) && k < |trace|
    ensures var s := trace[k];
            && |s.delivered| <= |s.stored| <= |s.delivered| + PIPESIZE && s.delivered == s.stored[..|s.delivered|]
            && (forall t, u :: 0 <= t < |s.threads| && 0 <= u < |s.threads| ==>
                  !(SleepsWriting(s.threads[t]) && SleepsReading(s.threads[u])))
            && forall t :: 0 <= t < |s.threads| ==> MaySleep(s, s.threads[t])
  {
    RunKeepsInv(trace, es, k);
  }

  predicate Returned(s: State, u: State, c: nat, out: Outcome) { u.results == s.results + [Return(c, out)] }

  /** What a write does when it has the lock: it returns all, or fails, or sleeps with the ring full. */
  lemma WriteReturns(s: State, t: nat)
    requires Inv(s) && Enabled(s, Go(t)) && s.threads[t].job.Writing?
    ensures var u, Writing(c, src, i) := GoWrite(s, t), s.threads[t].job;
            var room := PIPESIZE - (|s.stored| - |s.delivered|);
            if |src| - i <= room then u.threads[t].job == Idle && Returned(s, u, c, Wrote(|src|))
            else if !s.readopen || s.threads[t].killed then u.threads[t].job == Idle && Returned(s, u, c, Failed)
            else u.threads[t].job == Writing(c, src, i + room) && u.threads[t].asleep && u.results == s.results
  {
    FillRep(s.ring, s.threads[t].job.src, s.threads[t].job.i, s.stored, s.delivered);
  }

  /** What a read does: on an empty pipe with a writer left it fails or sleeps, else it returns the next bytes. */
  lemma ReadReturns(s: State, t: nat)
    requires Inv(s) && Enabled(s, Go(t)) && s.threads[t].job.Reading?
    ensures var u, Reading(c, n), flight := GoRead(s, t), s.threads[t].job, |s.stored| - |s.delivered|;
            if flight == 0 && s.writeopen then
              if s.threads[t].killed then u.threads[t].job == Idle && Returned(s, u, c, Failed)
              else u.threads[t].job == s.threads[t].job && u.threads[t].asleep && u.results == s.results
            else
              && u.threads[t].job == Idle
              && Returned(s, u, c, Got(s.stored[|s.delivered|..|s.delivered| + Min(n, flight)]))
  {
    Counters(s.ring, s.stored, s.delivered);
    DrainRep(s.ring, s.threads[t].job.n, s.stored, s.delivered);
  }

  /** A write leaves a sleeping reader asleep exactly when it does not fit and its caller is killed or has no
      reader left: then it returns -1 without a wakeup, though the ring is full. */
  lemma ReaderLeftAsleep(s: State, t: nat, u: nat)
    requires Inv(s) && Enabled(s, Go(t)) && s.threads[t].job.Writing? && u < |s.threads| && SleepsReading(s.threads[u])
    ensures var room := PIPESIZE - (|s.stored| - |s.delivered|);
            SleepsReading(GoWrite(s, t).threads[u]) <==>
              |s.threads[t].job.src| - s.threads[t].job.i > room && (!s.readopen || s.threads[t].killed)
  {
    FillRep(s.ring, s.threads[t].job.src, s.threads[t].job.i, s.stored, s.delivered);
  }

  /** A reader sleeps only on an empty pipe. */
  ghost predicate NoneMissed(s: State) {
    forall u :: 0 <= u < |s.threads| && SleepsReading(s.threads[u]) ==> |s.stored| == |s.delivered|
  }

  /** A write that does not fit, by a caller who is killed or has no reader left, while a reader sleeps. */
  ghost predicate Strands(s: State, e: Event) {
    && e.Go? && e.t < |s.threads| && s.threads[e.t].job.Writing?
    && |s.threads[e.t].job.src| - s.threads[e.t].job.i > PIPESIZE - (|s.stored| - |s.delivered|)
    && (!s.readopen || s.threads[e.t].killed)
    && exists u :: 0 <= u < |s.threads| && SleepsReading(s.threads[u])
  }

  lemma WriteMisses(s: State, t: nat)
    requires Inv(s) && Enabled(s, Go(t)) && s.threads[t].job.Writing? && NoneMissed(s)
    ensures NoneMissed(GoWrite(s, t)) <==> !Strands(s, Go(t))
  {
    FillRep(s.ring, s.threads[t].job.src, s.threads[t].job.i, s.stored, s.delivered);
    var v := GoWrite(s, t);
    if Strands(s, Go(t)) {
      var u :| 0 <= u < |s.threads| && SleepsReading(s.threads[u]);
      assert SleepsReading(v.threads[u]);
    }
  }

  lemma ReadMisses(s: State, t: nat)
    requires Inv(s) && Enabled(s, Go(t)) && s.threads[t].job.Reading? && NoneMissed(s)
    ensures NoneMissed(GoRead(s, t))
  {
    Counters(s.ring, s.stored, s.delivered);
    DrainRep(s.ring, s.threads[t].job.n, s.stored, s.delivered);
  }

  lemma StepMisses(s: State, e: Event)
    requires Inv(s) && Enabled(s, e) && NoneMissed(s)
    ensures NoneMissed(Step(s, e)) <==> !Strands(s, e)
  {
    if e.Go? {
      if s.threads[e.t].job.Writing? { WriteMisses(s, e.t); } else { ReadMisses(s, e.t); }
    }
  }

  lemma {:induction false} RunMisses(trace: seq<State>, es: seq<Event>, k: nat)
    requires IsRun(trace, es) && k < |trace| && forall j :: 0 <= j < k ==> !Strands(trace[j], es[j])
    ensures NoneMissed(trace[k])
  {
    if k > 0 {
      RunMisses(trace, es, k - 1);
      RunKeepsInv(trace, es, k - 1);
      StepMisses(trace[k - 1], es[k - 1]);
    }
  }

  /** Over a whole run: readers sleep on an empty pipe only, in every state, if and only if no write of the run ends
      that way. */
  lemma ReadersServed(trace: seq<State>, es: seq<Event>)
    requires IsRun(trace, es)
    ensures (forall k :: 0 <= k < |trace| ==> NoneMissed(trace[k])) <==>
              (forall k :: 0 <= k < |es| ==> !Strands(trace[k], es[k]))
  {
    if forall k :: 0 <= k < |es| ==> !Strands(trace[k], es[k]) {
      forall k | 0 <= k < |trace|
        ensures NoneMissed(trace[k])
      {
        RunMisses(trace, es, k);
      }
    }
    if forall k :: 0 <= k < |trace| ==> NoneMissed(trace[k]) {
      forall k | 0 <= k < |es|
        ensures !Strands(trace[k], es[k])
      {
        RunKeepsInv(trace, es, k);
        StepMisses(trace[k], es[k]);
        assert NoneMissed(trace[k + 1]);
      }
    }
  }

  /** Such a run: a reader sleeps on the empty pipe, and a killed writer fills it and leaves. */
  lemma Stranded(s: State, src: seq<byte>)
    requires Init(s) && |s.threads| == 2 && !s.threads[0].killed && |src| == PIPESIZE + 1
    ensures var es := [Read(0, 1), Go(0), Kill(1), Write(1, src), Go(1)];
            exists trace: seq<State> ::
              IsRun(trace, es) && trace[0] == s && |trace[5].threads| == 2 && |trace[5].stored| == PIPESIZE &&
              SleepsReading(trace[5].threads[0])
  {
    var es := [Read(0, 1), Go(0), Kill(1), Write(1, src), Go(1)];
    Counters(s.ring, s.stored, s.delivered);
    var s1 := Step(s, es[0]);
    var s2 := Step(s1, es[1]);
    var s3 := Step(s2, es[2]);
    var s4 := Step(s3, es[3]);
    FillRep(s4.ring, src, 0, s4.stored, s4.delivered);
    var s5 := Step(s4, es[4]);
    assert IsRun([s, s1, s2, s3, s4, s5], es);
  }
}
