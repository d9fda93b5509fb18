/** What the calls on a pipe get and give: each byte of the stream is from one `pipewrite`, in the order of its buffer,
    and what the reads return is the stream. */
module PipeCalls {
  import opened Basics
  import opened Pipe

  /** The calls that the events of a run make. */
  function CallsOf(es: seq<Event>): seq<Call> {
    if es == [] then []
    else CallsOf(es[..|es| - 1]) + match es[|es| - 1]
                                   case Write(t, src) => [ToWrite(t, src)]
                                   case Read(t, n) => [ToRead(t, n)]
                                   case _ => []
  }

  /** The bytes of the stream that are from call `c`. */
  function PartOf(stored: seq<byte>, from: seq<nat>, c: nat): seq<byte>
    requires |from| == |stored|
  {
    if stored == [] then []
    else PartOf(stored[..|stored| - 1], from[..|from| - 1], c) +
         if from[|from| - 1] == c then [stored[|stored| - 1]] else []
  }

  /** All that the reads returned, one after the other. */
  function ReadBytes(results: seq<Return>): seq<byte> {
    if results == [] then []
    else ReadBytes(results[..|results| - 1]) + match results[|results| - 1].out
                                               case Got(bytes) => bytes
                                               case _ => []
  }

  lemma {:induction false} PartGrows(stored: seq<byte>, from: seq<nat>, part: seq<byte>, d: nat, c: nat)
    requires |from| == |stored|
    ensures PartOf(stored + part, from + seq(|part|, _ => d), c) ==
            PartOf(stored, from, c) + if c == d then part else []
    decreases |part|
  {
    var tags := seq(|part|, _ => d);
    if part == [] {
      assert stored + part == stored && from + tags == from;
    } else {
      var p := part[..|part| - 1];
      assert (stored + part)[..|stored + part| - 1] == stored + p;
      assert (from + tags)[..|from + tags| - 1] == from + seq(|p|, _ => d);
      PartGrows(stored, from, p, d, c);
      assert part == p + [part[|part| - 1]];
    }
  }

  lemma ReadGrows(results: seq<Return>, r: Return)
    ensures ReadBytes(results + [r]) == ReadBytes(results) + if r.out.Got? then r.out.bytes else []
  {
    assert (results + [r])[..|results|] == results;
  }

  predicate HasReturned(s: State, c: nat) { exists k :: 0 <= k < |s.results| && s.results[k].call == c }

  predicate InCall(s: State, c: nat) {
    exists t :: 0 <= t < |s.threads| && s.threads[t].job != Idle && s.threads[t].job.call == c
  }

  /** A call in progress is the one its process made; a write has put in exactly the first `i` bytes. */
  ghost predicate JobOk(s: State, t: nat)
    requires t < |s.threads| && |s.from| == |s.stored|
  {
    match s.threads[t].job
    case Idle => true
    case Writing(c, src, i) =>
      c < |s.calls| && s.calls[c] == ToWrite(t, src) && i <= |src| && PartOf(s.stored, s.from, c) == src[..i]
    case Reading(c, n) => c < |s.calls| && s.calls[c] == ToRead(t, n)
  }

  /** A write that returned success has put in all its bytes, one that failed some first part of them; a read has
      returned no more bytes than asked for. */
  ghost predicate ResultOk(s: State, r: Return)
    requires |s.from| == |s.stored|
  {
    && r.call < |s.calls|
    && match s.calls[r.call]
    case ToWrite(_, src) =>
      !r.out.Got? && PartOf(s.stored, s.from, r.call) <= src &&
      (r.out.Wrote? ==> r.out.n == |src| && PartOf(s.stored, s.from, r.call) == src)
    case ToRead(_, n) => !r.out.Wrote? && (r.out.Got? ==> |r.out.bytes| <= n)
  }

  ghost predicate CallsInv(s: State) {
    && |s.from| == |s.stored|
    && (forall j :: 0 <= j < |s.from| ==> s.from[j] < |s.calls| && s.calls[s.from[j]].ToWrite?)
    && (forall t: nat :: t < |s.threads| ==> JobOk(s, t))
    && (forall k :: 0 <= k < |s.results| ==> ResultOk(s, s.results[k]))
    && (forall j, k :: 0 <= j < k < |s.results| ==> s.results[j].call != s.results[k].call)
    && (forall c: nat :: c < |s.calls| ==> InCall(s, c) != HasReturned(s, c))
    && s.delivered == ReadBytes(s.results)
  }

  // ---- every step keeps it ----

  ghost predicate SameJob(s: State, u: State, t: nat)
    requires t < |s.threads| == |u.threads|
  {
    u.threads[t].job == s.threads[t].job
  }

  lemma SameInCall(s: State, u: State, c: nat)
    requires |u.threads| == |s.threads| && forall t: nat :: t < |s.threads| ==> SameJob(s, u, t)
    ensures InCall(u, c) == InCall(s, c)
  {
    if InCall(s, c) {
      var t :| 0 <= t < |s.threads| && s.threads[t].job != Idle && s.threads[t].job.call == c;
      assert SameJob(s, u, t);
    }
    if InCall(u, c) {
      var t :| 0 <= t < |u.threads| && u.threads[t].job != Idle && u.threads[t].job.call == c;
      assert SameJob(s, u, t);
    }
  }

  /** Steps that only put to sleep, wake, kill and close. */
  lemma QuietBooks(s: State, u: State)
    requires CallsInv(s) && |u.threads| == |s.threads| && forall t: nat :: t < |s.threads| ==> SameJob(s, u, t)
    requires u.stored == s.stored && u.from == s.from && u.calls == s.calls && u.results == s.results
    requires u.delivered == s.delivered
    ensures CallsInv(u)
  {
    hide PartOf, ReadBytes;
    forall t: nat | t < |u.threads|
      ensures JobOk(u, t)
    {
      assert JobOk(s, t) && SameJob(s, u, t);
    }
    forall c: nat | c < |u.calls|
      ensures InCall(u, c) != HasReturned(u, c)
    {
      SameInCall(s, u, c);
    }
    forall k | 0 <= k < |u.results|
      ensures ResultOk(u, u.results[k])
    {
      assert ResultOk(s, s.results[k]);
    }
  }

  lemma {:induction false} PartNone(stored: seq<byte>, from: seq<nat>, c: nat)
    requires |from| == |stored| && forall j :: 0 <= j < |from| ==> from[j] != c
    ensures PartOf(stored, from, c) == []
    decreases |stored|
  {
    if stored != [] { PartNone(stored[..|stored| - 1], from[..|from| - 1], c); }
  }

  /** A call begins. */
  lemma StartBooks(s: State, u: State, t: nat)
    requires CallsInv(s) && |u.threads| == |s.threads| && t < |s.threads| && s.threads[t].job == Idle
    requires forall v: nat :: v < |s.threads| && v != t ==> SameJob(s, u, v)
    requires u.stored == s.stored && u.from == s.from && u.results == s.results && u.delivered == s.delivered
    requires (exists src :: u.threads[t].job == Writing(|s.calls|, src, 0) && u.calls == s.calls + [ToWrite(t, src)]) ||
             (exists n :: u.threads[t].job == Reading(|s.calls|, n) && u.calls == s.calls + [ToRead(t, n)])
    ensures CallsInv(u)
  {
    hide PartOf, ReadBytes;
    PartNone(s.stored, s.from, |s.calls|);
    forall v: nat | v < |u.threads|
      ensures JobOk(u, v)
    {
      assert JobOk(s, v);
      if v != t { assert SameJob(s, u, v); }
    }
    forall c: nat | c < |u.calls|
      ensures InCall(u, c) != HasReturned(u, c)
    {
      StartInCall(s, u, t, c);
      NewNotReturned(s, u);
    }
    forall k | 0 <= k < |u.results|
      ensures ResultOk(u, u.results[k])
    {
      assert ResultOk(s, s.results[k]);
    }
  }

  lemma NewNotReturned(s: State, u: State)
    requires CallsInv(s) && u.results == s.results
    ensures !HasReturned(u, |s.calls|) && forall c :: HasReturned(u, c) == HasReturned(s, c)
  {
    forall k | 0 <= k < |u.results|
      ensures u.results[k].call != |s.calls|
    {
      assert ResultOk(s, s.results[k]);
    }
  }

  lemma StartInCall(s: State, u: State, t: nat, c: nat)
    requires |u.threads| == |s.threads| && t < |s.threads| && s.threads[t].job == Idle
    requires forall v: nat :: v < |s.threads| && v != t ==> SameJob(s, u, v)
    requires u.threads[t].job != Idle && u.threads[t].job.call == |s.calls|
    ensures InCall(u, c) == (InCall(s, c) || c == |s.calls|)
  {
    if InCall(s, c) {
      var v :| 0 <= v < |s.threads| && s.threads[v].job != Idle && s.threads[v].job.call == c;
      assert SameJob(s, u, v);
    }
    if InCall(u, c) {
      var v :| 0 <= v < |u.threads| && u.threads[v].job != Idle && u.threads[v].job.call == c;
      if v != t { assert SameJob(s, u, v); }
    }
  }

  /** A call ends: it was in progress by this process alone and has not returned before. */
  lemma EndInCall(s: State, u: State, t: nat, out: Outcome, c: nat)
    requires CallsInv(s) && |u.threads| == |s.threads| && t < |s.threads| && s.threads[t].job != Idle
    requires u.threads[t].job == Idle && u.results == s.results + [Return(s.threads[t].job.call, out)]
    requires c < |s.calls| && forall v: nat :: v < |s.threads| && v != t ==> SameJob(s, u, v)
    ensures InCall(u, c) != HasReturned(u, c)
  {
    hide PartOf, ReadBytes, ResultOk;
    var d := s.threads[t].job.call;
    assert JobOk(s, t);
    assert HasReturned(u, c) == (HasReturned(s, c) || c == d) by { ReturnedMore(s, u, Return(d, out), c); }
    if InCall(u, c) {
      var v :| 0 <= v < |u.threads| && u.threads[v].job != Idle && u.threads[v].job.call == c;
      assert SameJob(s, u, v) && JobOk(s, v);
      assert InCall(s, c) && c != d;
    }
    if InCall(s, c) && c != d {
      var v :| 0 <= v < |s.threads| && s.threads[v].job != Idle && s.threads[v].job.call == c;
      assert SameJob(s, u, v);
    }
  }

  lemma ReturnedMore(s: State, u: State, r: Return, c: nat)
    requires u.results == s.results + [r]
    ensures HasReturned(u, c) == (HasReturned(s, c) || c == r.call)
  {
    if HasReturned(s, c) {
      var k :| 0 <= k < |s.results| && s.results[k].call == c;
      assert u.results[k].call == c;
    }
    if c == r.call { assert u.results[|s.results|].call == c; }
  }

  lemma EndDistinct(s: State, u: State, t: nat, out: Outcome)
    requires CallsInv(s) && t < |s.threads| && s.threads[t].job != Idle
    requires u.results == s.results + [Return(s.threads[t].job.call, out)]
    ensures forall j, k :: 0 <= j < k < |u.results| ==> u.results[j].call != u.results[k].call
    ensures forall k :: 0 <= k < |s.results| ==> s.results[k].call != s.threads[t].job.call
  {
    hide PartOf, ReadBytes, ResultOk;
    assert JobOk(s, t);
    var d := s.threads[t].job.call;
    assert InCall(s, d);
    assert !HasReturned(s, d);
  }

  /** A read returns. */
  lemma ReadBooks(s: State, u: State, t: nat, out: Outcome)
    requires CallsInv(s) && |u.threads| == |s.threads| && t < |s.threads| && s.threads[t].job.Reading?
    requires forall v: nat :: v < |s.threads| && v != t ==> SameJob(s, u, v)
    requires u.threads[t].job == Idle && u.results == s.results + [Return(s.threads[t].job.call, out)]
    requires u.stored == s.stored && u.from == s.from && u.calls == s.calls && !out.Wrote?
    requires u.delivered == s.delivered + if out.Got? then out.bytes else []
    requires out.Got? ==> |out.bytes| <= s.threads[t].job.n
    ensures CallsInv(u)
  {
    assert JobOk(s, t);
    ReadGrows(s.results, Return(s.threads[t].job.call, out));
    hide PartOf, ReadBytes;
    EndDistinct(s, u, t, out);
    forall c: nat | c < |u.calls|
      ensures InCall(u, c) != HasReturned(u, c)
    {
      EndInCall(s, u, t, out, c);
    }
    forall v: nat | v < |u.threads|
      ensures JobOk(u, v)
    {
      assert JobOk(s, v);
      if v != t { assert SameJob(s, u, v); }
    }
    forall k | 0 <= k < |u.results|
      ensures ResultOk(u, u.results[k])
    {
      if k < |s.results| { assert ResultOk(s, s.results[k]); }
    }
  }

  /** A write puts in the bytes up to `j`. */
  ghost predicate PutIn(s: State, u: State, t: nat, j: nat)
    requires t < |s.threads| && s.threads[t].job.Writing? && s.threads[t].job.i <= j <= |s.threads[t].job.src|
  {
    var Writing(c, src, i) := s.threads[t].job;
    && |u.threads| == |s.threads| && u.calls == s.calls && u.delivered == s.delivered
    && (forall v: nat :: v < |s.threads| && v != t ==> SameJob(s, u, v))
    && u.stored == s.stored + src[i..j] && u.from == s.from + seq(j - i, _ => c)
  }

  lemma PutParts(s: State, u: State, t: nat, j: nat, c: nat)
    requires CallsInv(s) && t < |s.threads| && s.threads[t].job.Writing?
    requires s.threads[t].job.i <= j <= |s.threads[t].job.src| && PutIn(s, u, t, j)
    ensures |u.from| == |u.stored|
    ensures var Writing(d, src, i) := s.threads[t].job;
            PartOf(u.stored, u.from, c) == if c == d then src[..j] else PartOf(s.stored, s.from, c)
  {
    var Writing(d, src, i) := s.threads[t].job;
    assert JobOk(s, t);
    hide PartOf;
    PartGrows(s.stored, s.from, src[i..j], d, c);
    assert src[..i] + src[i..j] == src[..j];
    assert PartOf(s.stored, s.from, c) + [] == PartOf(s.stored, s.from, c);
  }

  lemma PutTags(s: State, u: State, t: nat, j: nat)
    requires CallsInv(s) && t < |s.threads| && s.threads[t].job.Writing?
    requires s.threads[t].job.i <= j <= |s.threads[t].job.src| && PutIn(s, u, t, j)
    ensures forall k :: 0 <= k < |u.from| ==> u.from[k] < |u.calls| && u.calls[u.from[k]].ToWrite?
  {
    assert JobOk(s, t);
    hide PartOf, ReadBytes;
  }

  lemma PutJob(s: State, u: State, t: nat, j: nat, v: nat)
    requires CallsInv(s) && t < |s.threads| && s.threads[t].job.Writing? && v < |s.threads|
    requires s.threads[t].job.i <= j <= |s.threads[t].job.src| && PutIn(s, u, t, j)
    requires u.threads[t].job == Idle || u.threads[t].job == s.threads[t].job.(i := j)
    ensures |u.from| == |u.stored| && JobOk(u, v)
  {
    assert JobOk(s, t) && JobOk(s, v);
    hide PartOf, ReadBytes;
    PutParts(s, u, t, j, s.threads[t].job.call);
    if v != t {
      assert SameJob(s, u, v);
      if s.threads[v].job.Writing? { PutParts(s, u, t, j, s.threads[v].job.call); }
    }
  }

  lemma PutResult(s: State, u: State, t: nat, j: nat, r: Return)
    requires CallsInv(s) && t < |s.threads| && s.threads[t].job.Writing? && r in s.results
    requires s.threads[t].job.i <= j <= |s.threads[t].job.src| && PutIn(s, u, t, j)
    ensures |u.from| == |u.stored| && ResultOk(u, r)
  {
    hide PartOf, ReadBytes;
    var c := s.threads[t].job.call;
    EndDistinct(s, s.(results := s.results + [Return(c, Failed)]), t, Failed);
    PutParts(s, u, t, j, r.call);
    assert ResultOk(s, r);
  }

  lemma WriteBooks(s: State, u: State, t: nat, j: nat, out: Outcome)
    requires CallsInv(s) && t < |s.threads| && s.threads[t].job.Writing?
    requires s.threads[t].job.i <= j <= |s.threads[t].job.src| && PutIn(s, u, t, j)
    requires u.threads[t].job == Idle && u.results == s.results + [Return(s.threads[t].job.call, out)]
    requires out == Failed || (out == Wrote(j) && j == |s.threads[t].job.src|)
    ensures CallsInv(u)
  {
    var Writing(c, src, i) := s.threads[t].job;
    assert JobOk(s, t);
    ReadGrows(s.results, Return(c, out));
    hide PartOf, ReadBytes, JobOk;
    EndDistinct(s, u, t, out);
    PutTags(s, u, t, j);
    PutParts(s, u, t, j, c);
    forall v: nat | v < |u.threads|
      ensures JobOk(u, v)
    {
      PutJob(s, u, t, j, v);
    }
    forall d: nat | d < |u.calls|
      ensures InCall(u, d) != HasReturned(u, d)
    {
      EndInCall(s, u, t, out, d);
    }
    forall k | 0 <= k < |u.results|
      ensures ResultOk(u, u.results[k])
    {
      if k < |s.results| { PutResult(s, u, t, j, s.results[k]); }
    }
  }

  lemma SleepBooks(s: State, u: State, t: nat, j: nat)
    requires CallsInv(s) && t < |s.threads| && s.threads[t].job.Writing?
    requires s.threads[t].job.i <= j <= |s.threads[t].job.src| && PutIn(s, u, t, j)
    requires u.threads[t].job == s.threads[t].job.(i := j) && u.results == s.results
    ensures CallsInv(u)
  {
    hide PartOf, ReadBytes, JobOk, ResultOk;
    PutTags(s, u, t, j);
    PutParts(s, u, t, j, s.threads[t].job.call);
    forall v: nat | v < |u.threads|
      ensures JobOk(u, v)
    {
      PutJob(s, u, t, j, v);
    }
    forall d: nat | d < |u.calls|
      ensures InCall(u, d) != HasReturned(u, d)
    {
      SameCalls(s, u, t, d);
    }
    forall k | 0 <= k < |u.results|
      ensures ResultOk(u, u.results[k])
    {
      PutResult(s, u, t, j, s.results[k]);
    }
  }

  lemma SameCalls(s: State, u: State, t: nat, d: nat)
    requires |u.threads| == |s.threads| && t < |s.threads| && s.threads[t].job.Writing? && u.threads[t].job.Writing?
    requires u.threads[t].job.call == s.threads[t].job.call && u.results == s.results
    requires forall v: nat :: v < |s.threads| && v != t ==> SameJob(s, u, v)
    ensures InCall(u, d) == InCall(s, d) && HasReturned(u, d) == HasReturned(s, d)
  {
    if InCall(s, d) {
      var v :| 0 <= v < |s.threads| && s.threads[v].job != Idle && s.threads[v].job.call == d;
      if v != t { assert SameJob(s, u, v); }
    }
    if InCall(u, d) {
      var v :| 0 <= v < |u.threads| && u.threads[v].job != Idle && u.threads[v].job.call == d;
      if v != t { assert SameJob(s, u, v); }
    }
  }

  lemma GoWriteBooks(s: State, t: nat)
    requires Inv(s) && CallsInv(s) && Enabled(s, Go(t)) && s.threads[t].job.Writing?
    ensures CallsInv(GoWrite(s, t))
  {
    var Writing(c, src, i) := s.threads[t].job;
    var u := GoWrite(s, t);
    FillRep(s.ring, src, i, s.stored, s.delivered);
    hide Rep, Inv, CallsInv, Fill;
    var j := Fill(s.ring, src, i).1;
    assert PutIn(s, u, t, j);
    if j == |src| {
      WriteBooks(s, u, t, j, Wrote(j));
    } else if !s.readopen || s.threads[t].killed {
      WriteBooks(s, u, t, j, Failed);
    } else {
      SleepBooks(s, u, t, j);
    }
  }

  lemma GoReadBooks(s: State, t: nat)
    requires Inv(s) && CallsInv(s) && Enabled(s, Go(t)) && s.threads[t].job.Reading?
    ensures CallsInv(GoRead(s, t))
  {
    var u := GoRead(s, t);
    DrainRep(s.ring, s.threads[t].job.n, s.stored, s.delivered);
    hide Rep, Inv, CallsInv, Drain;
    if IsEmpty(s.ring) && s.writeopen {
      assert s.delivered + [] == s.delivered;
      if s.threads[t].killed { ReadBooks(s, u, t, Failed); } else { QuietBooks(s, u); }
    } else {
      ReadBooks(s, u, t, Got(Drain(s.ring, s.threads[t].job.n).0));
    }
  }

  lemma StepKeepsCalls(s: State, e: Event)
    requires Inv(s) && CallsInv(s) && Enabled(s, e)
    ensures CallsInv(Step(s, e))
  {
    hide CallsInv;
    var u := Step(s, e);
    match e
    case Write(t, src) => StartBooks(s, u, t);
    case Read(t, n) => StartBooks(s, u, t);
    case Go(t) => if s.threads[t].job.Writing? { GoWriteBooks(s, t); } else { GoReadBooks(s, t); }
    case _ => QuietBooks(s, u);
  }

  lemma CallsNext(es: seq<Event>, k: nat)
    requires k < |es|
    ensures CallsOf(es[..k + 1]) == CallsOf(es[..k]) + match es[k]
                                                       case Write(t, src) => [ToWrite(t, src)]
                                                       case Read(t, n) => [ToRead(t, n)]
                                                       case _ => []
  {
    assert es[..k + 1][..k] == es[..k];
  }

  lemma StepCalls(s: State, e: Event)
    requires WellFormed(s) && Enabled(s, e)
    ensures Step(s, e).calls == s.calls + match e
                                          case Write(t, src) => [ToWrite(t, src)]
                                          case Read(t, n) => [ToRead(t, n)]
                                          case _ => []
  {
    hide Fill, Drain;
  }

  lemma {:induction false} RunKeepsCalls(trace: seq<State>, es: seq<Event>, k: nat)
    requires IsRun(trace, es) && k < |trace|
    ensures CallsInv(trace[k]) && trace[k].calls == CallsOf(es[..k])
  {
    if k > 0 {
      RunKeepsInv(trace, es, k - 1);
      RunKeepsCalls(trace, es, k - 1);
      hide CallsInv, Inv, CallsOf, WellFormed;
      StepKeepsCalls(trace[k - 1], es[k - 1]);
      StepCalls(trace[k - 1], es[k - 1]);
      CallsNext(es, k - 1);
    }
  }

  /** In every state of every run, for every call the events have made: it is in progress or has returned once, not
      both. Every byte of the stream is from one write, and the bytes from it are the first part of its buffer, in
      order: those up to where it is, all of them if it has returned success. What the reads have returned, in order,
      is what was delivered. */
  lemma EveryByteCounts(trace: seq<State>, es: seq<Event>, k: nat)
    requires IsRun(trace, es) && k < |trace|
    ensures var s, calls := trace[k], CallsOf(es[..k]);
            && |s.from| == |s.stored| && s.delivered == ReadBytes(s.results)
            && (forall j :: 0 <= j < |s.from| ==> s.from[j] < |calls| && calls[s.from[j]].ToWrite?)
            && (forall c: nat :: c < |calls| ==> InCall(s, c) != HasReturned(s, c))
            && (forall i, j :: 0 <= i < j < |s.results| ==> s.results[i].call != s.results[j].call)
            && (forall t :: 0 <= t < |s.threads| && s.threads[t].job.Writing? ==>
                  var Writing(c, src, i) := s.threads[t].job;
                  c < |calls| && calls[c] == ToWrite(t, src) && i <= |src| && PartOf(s.stored, s.from, c) == src[..i])
            && (forall j :: 0 <= j < |s.results| ==>
                  var Return(c, out) := s.results[j];
                  && c < |calls|
                  && (calls[c].ToWrite? ==> !out.Got? && PartOf(s.stored, s.from, c) <= calls[c].src)
                  && (calls[c].ToWrite? && out.Wrote? ==>
                        out.n == |calls[c].src| && PartOf(s.stored, s.from, c) == calls[c].src)
                  && (calls[c].ToRead? ==> !out.Wrote? && (out.Got? ==> |out.bytes| <= calls[c].n)))
  {
    RunKeepsCalls(trace, es, k);
    var s := trace[k];
    hide PartOf, ReadBytes, CallsOf, IsRun;
    forall t: nat | t < |s.threads| && s.threads[t].job.Writing?
      ensures JobOk(s, t)
    {
    }
    assert forall j :: 0 <= j < |s.results| ==> ResultOk(s, s.results[j]);
  }

  // ---- kills and closed ends ----

  /** A process is killed, and an end is closed, exactly if an event did that. */
  lemma {:induction false} FlagsAre(trace: seq<State>, es: seq<Event>, k: nat, t: nat)
    requires IsRun(trace, es) && k < |trace| && t < |trace[0].threads|
    ensures |trace[k].threads| == |trace[0].threads|
    ensures trace[k].threads[t].killed <==> trace[0].threads[t].killed || Kill(t) in es[..k]
    ensures trace[k].readopen <==> CloseRead !in es[..k]
    ensures trace[k].writeopen <==> CloseWrite !in es[..k]
  {
    hide WellFormed, Step, Enabled;
    if k > 0 {
      FlagsAre(trace, es, k - 1, t);
      StepFlags(trace[k - 1], es[k - 1], t);
      assert trace[k] == Step(trace[k - 1], es[k - 1]);
      InNext(es, k, Kill(t));
      InNext(es, k, CloseRead);
      InNext(es, k, CloseWrite);
    }
  }

  lemma InNext(es: seq<Event>, k: nat, e: Event)
    requires 0 < k <= |es|
    ensures e in es[..k] <==> e in es[..k - 1] || e == es[k - 1]
  {
    assert es[..k] == es[..k - 1] + [es[k - 1]];
  }

  lemma StepFlags(s: State, e: Event, t: nat)
    requires WellFormed(s) && Enabled(s, e) && t < |s.threads|
    ensures var u := Step(s, e);
            && |u.threads| == |s.threads| && u.threads[t].killed == (s.threads[t].killed || e == Kill(t))
            && u.readopen == (s.readopen && e != CloseRead) && u.writeopen == (s.writeopen && e != CloseWrite)
  {
    hide Fill, Drain;
  }
}
