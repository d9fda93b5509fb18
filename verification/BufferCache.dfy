/** The buffer cache: a ring of buffers in order of last use, `bget`, `bread`, `bwrite` and `brelse`, over the
    memory disk of `iderw`. */
module BufferCache {
  import opened Basics
  import opened Blocks
  import opened Rings

  /** The disk device that `iderw` serves. */
  const ROOTDEV: nat := 1

  datatype Buf = Buf(dev: nat, blockno: nat, refcnt: nat, valid: bool, dirty: bool, locked: bool, data: Block)

  // ---- the ring ----

  predicate LinkOk(next: seq<nat>, prev: seq<nat>, ring: seq<nat>, k: nat)
    requires k < |ring|
  {
    && ring[k] < |next| && Succ(ring, k) < |prev|
    && next[ring[k]] == Succ(ring, k) && prev[Succ(ring, k)] == ring[k]
  }

  /** `next` goes around the ring, `prev` goes around it backwards. */
  ghost predicate RingOf(next: seq<nat>, prev: seq<nat>, ring: seq<nat>) {
    && |ring| > 0 && Distinct(ring) && |next| == |prev|
    && (forall k: nat :: k < |ring| ==> LinkOk(next, prev, ring, k))
    && (forall k :: 0 <= k < |ring| ==> ring[k] < |next|)
  }

  function Unlinked(next: seq<nat>, prev: seq<nat>, b: nat): (seq<nat>, seq<nat>)
    requires b < |next| == |prev| && next[b] < |prev| && prev[b] < |next|
  {
    (next[prev[b] := next[b]], prev[next[b] := prev[b]])
  }

  lemma UnlinkRing(next: seq<nat>, prev: seq<nat>, ring: seq<nat>, k: nat)
    requires RingOf(next, prev, ring) && 0 < k < |ring|
    ensures var b := ring[k]; b < |next| && next[b] < |prev| && prev[b] < |next|
    ensures RingOf(Unlinked(next, prev, ring[k]).0, Unlinked(next, prev, ring[k]).1, RemoveAt(ring, k))
  {
    assert LinkOk(next, prev, ring, k) && LinkOk(next, prev, ring, k - 1);
    var b, r := ring[k], RemoveAt(ring, k);
    var n', p' := Unlinked(next, prev, b).0, Unlinked(next, prev, b).1;
    forall j: nat | j < |r|
      ensures LinkOk(n', p', r, j)
    {
      UnlinkAt(next, prev, ring, k, j);
    }
  }

  lemma UnlinkAt(next: seq<nat>, prev: seq<nat>, ring: seq<nat>, k: nat, j: nat)
    requires RingOf(next, prev, ring) && 0 < k < |ring| && j < |ring| - 1
    requires ring[k] < |next| && next[ring[k]] < |prev| && prev[ring[k]] < |next|
    ensures LinkOk(Unlinked(next, prev, ring[k]).0, Unlinked(next, prev, ring[k]).1, RemoveAt(ring, k), j)
  {
    assert LinkOk(next, prev, ring, k) && LinkOk(next, prev, ring, k - 1);
    assert LinkOk(next, prev, ring, if j < k then j else j + 1);
  }

  /** `b` put right after the head. */
  function Pushed(next: seq<nat>, prev: seq<nat>, head: nat, b: nat): (seq<nat>, seq<nat>)
    requires head < |next| == |prev| && b < |next| && next[head] < |prev|
  {
    (next[b := next[head]][head := b], prev[b := head][next[head] := b])
  }

  lemma PushAt(next: seq<nat>, prev: seq<nat>, ring: seq<nat>, b: nat, j: nat)
    requires RingOf(next, prev, ring) && b < |next| && b !in ring && j <= |ring| && next[ring[0]] < |prev|
    ensures LinkOk(Pushed(next, prev, ring[0], b).0, Pushed(next, prev, ring[0], b).1, InsertAt(ring, 0, b), j)
  {
    assert LinkOk(next, prev, ring, 0);
    if j > 1 { assert LinkOk(next, prev, ring, j - 1); }
  }

  lemma PushRing(next: seq<nat>, prev: seq<nat>, ring: seq<nat>, b: nat)
    requires RingOf(next, prev, ring) && b < |next| && b !in ring
    ensures next[ring[0]] < |prev| &&
            RingOf(Pushed(next, prev, ring[0], b).0, Pushed(next, prev, ring[0], b).1, InsertAt(ring, 0, b))
  {
    assert LinkOk(next, prev, ring, 0);
    forall j: nat | j < |ring| + 1
      ensures LinkOk(Pushed(next, prev, ring[0], b).0, Pushed(next, prev, ring[0], b).1, InsertAt(ring, 0, b), j)
    {
      PushAt(next, prev, ring, b, j);
    }
  }

  // ---- the cache ----

  /** The cache and the disk below it.  The list's head is the number after the last buffer.  Books kept beside:
      `ring` is the list from the head on, `stamp` when each buffer was last let go, `clock` the next stamp,
      `current` the contents of each block as last written or logged, and for each buffer how many processes
      have it from `bget` but not its lock yet (`waiting`), or gave its lock up and not yet the buffer
      (`leaving`). */
  datatype Cache = Cache(next: seq<nat>, prev: seq<nat>, bufs: seq<Buf>, disk: Disk,
                         ring: seq<nat>, stamp: seq<nat>, clock: nat, current: Disk,
                         waiting: seq<nat>, leaving: seq<nat>)

  /** The list holds the head and every buffer once, latest let go first. */
  ghost predicate Listed(c: Cache) {
    match c case Cache(next, prev, bufs, _, ring, stamp, clock, _, _, _) =>
    && RingOf(next, prev, ring) && ring[0] == |bufs| && |next| == |bufs| + 1 && |stamp| == |bufs|
    && (forall b: nat :: b <= |bufs| ==> b in ring)
    && (forall b :: 0 <= b < |stamp| ==> stamp[b] < clock)
    && (forall j, k :: 0 < j < k < |ring| && ring[j] < |stamp| && ring[k] < |stamp| ==> stamp[ring[j]] > stamp[ring[k]])
  }

  /** A block of a real device is in one buffer at most, and `refcnt` counts the processes that use a buffer. */
  ghost predicate Used(c: Cache) {
    match c case Cache(_, _, bufs, _, _, _, _, _, waiting, leaving) =>
    && |waiting| == |leaving| == |bufs|
    && (forall a, b :: 0 <= a < b < |bufs| && bufs[a].dev == bufs[b].dev && bufs[a].blockno == bufs[b].blockno ==>
          bufs[a].dev == 0)
    && (forall b :: 0 <= b < |bufs| ==> bufs[b].refcnt == waiting[b] + leaving[b] + if bufs[b].locked then 1 else 0)
  }

  /** Some dirty buffer has block `n`. */
  ghost predicate Pinned(bufs: seq<Buf>, n: nat) {
    exists b :: 0 <= b < |bufs| && bufs[b].dirty && bufs[b].blockno == n
  }

  /** A buffer with data has the current data of its block; a block without a dirty buffer is current on disk. */
  ghost predicate Coherent(c: Cache) {
    match c case Cache(_, _, bufs, disk, _, _, _, current, _, _) =>
    && |current| == |disk|
    && (forall b :: 0 <= b < |bufs| && bufs[b].dirty ==> bufs[b].valid)
    && (forall b :: 0 <= b < |bufs| && bufs[b].valid ==>
          bufs[b].dev == ROOTDEV && bufs[b].blockno < |disk| && bufs[b].data == current[bufs[b].blockno])
    && (forall n: nat :: n < |disk| && !Pinned(bufs, n) ==> disk[n] == current[n])
  }

  ghost predicate Valid(c: Cache) { Listed(c) && Used(c) && Coherent(c) }

  predicate Holds(b: Buf, dev: nat, blockno: nat) { b.dev == dev && b.blockno == blockno }

  predicate Idle(b: Buf) { b.refcnt == 0 && !b.dirty }

  // ---- when bget panics ----

  /** The blocks in those of the first `k` buffers that cannot be recycled. */
  ghost function InUse(bufs: seq<Buf>, k: nat): set<nat>
    requires k <= |bufs|
  {
    if k == 0 then {} else InUse(bufs, k - 1) + if Idle(bufs[k - 1]) then {} else {bufs[k - 1].blockno}
  }

  lemma {:induction false} InUseIs(bufs: seq<Buf>, k: nat, n: nat)
    requires k <= |bufs|
    ensures n in InUse(bufs, k) <==> exists b :: 0 <= b < k && !Idle(bufs[b]) && bufs[b].blockno == n
  {
    if k > 0 { InUseIs(bufs, k - 1, n); }
  }

  lemma {:induction false} InUseFew(bufs: seq<Buf>, k: nat)
    requires k <= |bufs|
    ensures |InUse(bufs, k)| <= k && ((exists b :: 0 <= b < k && Idle(bufs[b])) ==> |InUse(bufs, k)| < k)
  {
    if k > 0 {
      InUseFew(bufs, k - 1);
      Grows(InUse(bufs, k - 1), bufs[k - 1].blockno);
    }
  }

  lemma {:induction false} InUseAll(bufs: seq<Buf>, k: nat)
    requires k <= |bufs| && forall b :: 0 <= b < k ==> !Idle(bufs[b])
    requires forall a, b :: 0 <= a < b < k ==> bufs[a].blockno != bufs[b].blockno
    ensures |InUse(bufs, k)| == k
  {
    if k > 0 {
      InUseAll(bufs, k - 1);
      InUseIs(bufs, k - 1, bufs[k - 1].blockno);
      Grows(InUse(bufs, k - 1), bufs[k - 1].blockno);
    }
  }

  /** By the pigeonhole: with one device in use, `bget` finds no buffer exactly when the blocks in use and the one asked
      for are more than there are buffers. */
  lemma PanicsByCount(c: Cache, blockno: nat)
    requires Used(c) && forall b :: 0 <= b < |c.bufs| && !Idle(c.bufs[b]) ==> c.bufs[b].dev == ROOTDEV
    ensures (forall b :: 0 <= b < |c.bufs| ==> !Holds(c.bufs[b], ROOTDEV, blockno) && !Idle(c.bufs[b]))
        <==> |InUse(c.bufs, |c.bufs|) + {blockno}| > |c.bufs|
  {
    var n := |c.bufs|;
    InUseFew(c.bufs, n);
    InUseIs(c.bufs, n, blockno);
    Grows(InUse(c.bufs, n), blockno);
    if forall b :: 0 <= b < n ==> !Idle(c.bufs[b]) {
      InUseAll(c.bufs, n);
      if blockno in InUse(c.bufs, n) { assert InUse(c.bufs, n) + {blockno} == InUse(c.bufs, n); }
    }
  }

  /** The first loop of `bget`: forward from the head, for the block. */
  method FindCached(c: Cache, dev: nat, blockno: nat) returns (r: Option<nat>)
    requires Listed(c)
    ensures r.Some? ==> r.value < |c.bufs| && Holds(c.bufs[r.value], dev, blockno)
    ensures r.None? ==> forall b :: 0 <= b < |c.bufs| ==> !Holds(c.bufs[b], dev, blockno)
  {
    assert LinkOk(c.next, c.prev, c.ring, 0);
    var head := |c.bufs|;
    var b := c.next[head];
    ghost var k := if |c.ring| > 1 then 1 else |c.ring|;
    while b != head
      invariant 1 <= k <= |c.ring| && b == (if k < |c.ring| then c.ring[k] else head)
      invariant forall j :: 0 < j < k && c.ring[j] < |c.bufs| ==> !Holds(c.bufs[c.ring[j]], dev, blockno)
      decreases |c.ring| - k
    {
      InRing(c, k);
      if Holds(c.bufs[b], dev, blockno) { return Some(b); }
      b := c.next[b];
      k := k + 1;
    }
    forall x: nat | x < |c.bufs|
      ensures !Holds(c.bufs[x], dev, blockno)
    {
      assert x in c.ring;
      var j :| 0 <= j < |c.ring| && c.ring[j] == x;
    }
    r := None;
  }

  lemma InRing(c: Cache, k: nat)
    requires Listed(c) && 0 < k < |c.ring|
    ensures c.ring[k] < |c.bufs| && LinkOk(c.next, c.prev, c.ring, k) && LinkOk(c.next, c.prev, c.ring, k - 1)
  {
    assert c.ring[k] != c.ring[0];
  }

  /** The second loop of `bget`: backward from the head, for a buffer nobody uses and nothing pins.  It is the
      one let go longest ago. */
  method FindIdle(c: Cache) returns (r: Option<nat>)
    requires Listed(c)
    ensures r.Some? ==> r.value < |c.bufs| && Idle(c.bufs[r.value]) && |c.stamp| == |c.bufs|
    ensures r.Some? ==> forall b :: 0 <= b < |c.bufs| && Idle(c.bufs[b]) ==> c.stamp[r.value] <= c.stamp[b]
    ensures r.None? ==> forall b :: 0 <= b < |c.bufs| ==> !Idle(c.bufs[b])
  {
    var head := |c.bufs|;
    assert LinkOk(c.next, c.prev, c.ring, |c.ring| - 1);
    var b := c.prev[head];
    ghost var k := |c.ring| - 1;
    while b != head
      invariant 0 <= k < |c.ring| && b == c.ring[k]
      invariant forall j :: k < j < |c.ring| && c.ring[j] < |c.bufs| ==> !Idle(c.bufs[c.ring[j]])
      decreases k
    {
      InRing(c, k);
      if Idle(c.bufs[b]) {
        forall x: nat | x < |c.bufs| && Idle(c.bufs[x])
          ensures c.stamp[b] <= c.stamp[x]
        {
          assert x in c.ring;
          var j :| 0 <= j < |c.ring| && c.ring[j] == x;
        }
        return Some(b);
      }
      b := c.prev[b];
      k := k - 1;
    }
    forall x: nat | x < |c.bufs|
      ensures !Idle(c.bufs[x])
    {
      assert x in c.ring;
      var j :| 0 <= j < |c.ring| && c.ring[j] == x;
    }
    r := None;
  }

  /** A buffer in use keeps its block. */
  ghost predicate Kept(c: Cache, d: Cache) {
    |d.bufs| == |c.bufs| && |d.disk| == |c.disk| &&
    forall b :: 0 <= b < |c.bufs| && c.bufs[b].refcnt > 0 ==>
      d.bufs[b].dev == c.bufs[b].dev && d.bufs[b].blockno == c.bufs[b].blockno
  }

  /** `bget` up to its wait for the lock: the buffer that has the block, else the idle buffer let go longest ago;
      a panic when there is neither. */
  method Get(c: Cache, dev: nat, blockno: nat) returns (d: Cache, r: Option<nat>)
    requires Valid(c)
    ensures r.None? <==> forall b :: 0 <= b < |c.bufs| ==> !Holds(c.bufs[b], dev, blockno) && !Idle(c.bufs[b])
    ensures r.None? ==> d == c
    ensures r.Some? ==> Valid(d) && Kept(c, d) && r.value < |d.bufs| && Holds(d.bufs[r.value], dev, blockno)
    ensures r.Some? ==> d == c.(bufs := d.bufs, waiting := c.waiting[r.value := c.waiting[r.value] + 1])
    ensures r.Some? ==> forall b :: 0 <= b < |c.bufs| && b != r.value ==> d.bufs[b] == c.bufs[b]
    ensures r.Some? ==> d.bufs[r.value].refcnt == c.bufs[r.value].refcnt + 1
    ensures r.Some? && !Holds(c.bufs[r.value], dev, blockno) ==> Idle(c.bufs[r.value]) && !d.bufs[r.value].valid
    ensures r.Some? && !Holds(c.bufs[r.value], dev, blockno) ==>
              forall b :: 0 <= b < |c.bufs| && Idle(c.bufs[b]) ==> c.stamp[r.value] <= c.stamp[b]
  {
    hide Listed, Coherent;
    r := FindCached(c, dev, blockno);
    d := c;
    if r.Some? {
      var b := r.value;
      d := c.(bufs := c.bufs[b := c.bufs[b].(refcnt := c.bufs[b].refcnt + 1)],
              waiting := c.waiting[b := c.waiting[b] + 1]);
      SameListed(c, d);
      SameCoherent(c, d);
      return;
    }
    r := FindIdle(c);
    if r.Some? {
      var b := r.value;
      d := c.(bufs := c.bufs[b := c.bufs[b].(dev := dev, blockno := blockno, valid := false, dirty := false,
                                             refcnt := 1)],
              waiting := c.waiting[b := c.waiting[b] + 1]);
      SameListed(c, d);
      RecycledCoherent(c, d, b);
    }
  }

  lemma SameListed(c: Cache, d: Cache)
    requires Listed(c) && |d.bufs| == |c.bufs|
    requires d.next == c.next && d.prev == c.prev && d.ring == c.ring && d.stamp == c.stamp && d.clock == c.clock
    ensures Listed(d)
  {}

  /** Only reference counts and locks differ. */
  lemma SameCoherent(c: Cache, d: Cache)
    requires Coherent(c) && |d.bufs| == |c.bufs| && d.disk == c.disk && d.current == c.current
    requires forall b :: 0 <= b < |c.bufs| ==>
               && d.bufs[b].dev == c.bufs[b].dev && d.bufs[b].blockno == c.bufs[b].blockno &&
                  d.bufs[b].data == c.bufs[b].data
               && d.bufs[b].valid == c.bufs[b].valid && d.bufs[b].dirty == c.bufs[b].dirty
    ensures Coherent(d)
  {
    forall n: nat
      ensures Pinned(d.bufs, n) == Pinned(c.bufs, n)
    {
    }
  }

  /** Giving up a clean buffer loses nothing. */
  lemma RecycledCoherent(c: Cache, d: Cache, b: nat)
    requires Coherent(c) && b < |c.bufs| && !c.bufs[b].dirty && d.disk == c.disk && d.current == c.current
    requires |d.bufs| == |c.bufs| && !d.bufs[b].valid && !d.bufs[b].dirty &&
             forall x :: 0 <= x < |c.bufs| && x != b ==> d.bufs[x] == c.bufs[x]
    ensures Coherent(d)
  {
    forall n: nat | Pinned(c.bufs, n)
      ensures Pinned(d.bufs, n)
    {
      var x :| 0 <= x < |c.bufs| && c.bufs[x].dirty && c.bufs[x].blockno == n;
      assert d.bufs[x] == c.bufs[x];
    }
  }

  /** The list and the time stamps, which give its order, are the same. */
  ghost predicate SameOrder(c: Cache, d: Cache) {
    d.next == c.next && d.prev == c.prev && d.ring == c.ring && d.stamp == c.stamp && d.clock == c.clock
  }

  /** `acquiresleep` of the buffer's lock returning. */
  method Lock(c: Cache, b: nat) returns (d: Cache)
    requires Valid(c) && b < |c.bufs| && |c.waiting| == |c.bufs| && c.waiting[b] > 0 && !c.bufs[b].locked
    ensures Valid(d) && Kept(c, d) && d.bufs == c.bufs[b := c.bufs[b].(locked := true)] && d.disk == c.disk &&
            d.current == c.current
    ensures SameOrder(c, d) && d.waiting == c.waiting[b := c.waiting[b] - 1] && d.leaving == c.leaving
  {
    d := c.(bufs := c.bufs[b := c.bufs[b].(locked := true)], waiting := c.waiting[b := c.waiting[b] - 1]);
    SameListed(c, d);
    SameCoherent(c, d);
  }

  /** The rest of `bread`, with `iderw` reading: the current contents of the block, whether from the cache or
      from the disk; a panic for a block that is not on the disk. */
  method Fill(c: Cache, b: nat) returns (d: Cache, ok: bool)
    requires Valid(c) && b < |c.bufs| && c.bufs[b].locked
    ensures ok <==> c.bufs[b].valid || (c.bufs[b].dev == ROOTDEV && c.bufs[b].blockno < |c.disk|)
    ensures !ok ==> d == c
    ensures ok ==>
              Valid(d) && Kept(c, d) && d.disk == c.disk && d.current == c.current && b < |d.bufs| && d.bufs[b].valid
    ensures ok ==> d.bufs == c.bufs[b := d.bufs[b]] && d.bufs[b] == c.bufs[b].(valid := true, data := d.bufs[b].data)
    ensures ok ==> c.bufs[b].blockno < |d.current| && d.bufs[b].data == d.current[c.bufs[b].blockno]
    ensures SameOrder(c, d) && d.waiting == c.waiting && d.leaving == c.leaving
  {
    d := c;
    if c.bufs[b].valid { return d, true; }
    if c.bufs[b].dev != ROOTDEV || c.bufs[b].blockno >= |c.disk| { return d, false; }
    d := c.(bufs := c.bufs[b := c.bufs[b].(valid := true, data := c.disk[c.bufs[b].blockno])]);
    SameListed(c, d);
    FilledCoherent(c, d, b);
    ok := true;
  }

  /** The buffer of a block that no valid buffer has is not pinned. */
  lemma NotPinned(c: Cache, b: nat)
    requires Used(c) && Coherent(c) && b < |c.bufs| && !c.bufs[b].dirty && c.bufs[b].dev == ROOTDEV
    ensures !Pinned(c.bufs, c.bufs[b].blockno)
  {
    forall x: nat | x < |c.bufs| && c.bufs[x].dirty
      ensures c.bufs[x].blockno != c.bufs[b].blockno
    {
      assert c.bufs[x].valid && c.bufs[x].dev == ROOTDEV && x != b;
      assert c.bufs[x].blockno != c.bufs[b].blockno;
    }
  }

  lemma FilledCoherent(c: Cache, d: Cache, b: nat)
    requires Used(c) && Coherent(c) && b < |c.bufs| && !c.bufs[b].valid && c.bufs[b].dev == ROOTDEV &&
             c.bufs[b].blockno < |c.disk|
    requires d == c.(bufs := c.bufs[b := c.bufs[b].(valid := true, data := c.disk[c.bufs[b].blockno])])
    ensures Coherent(d)
  {
    NotPinned(c, b);
    forall n: nat | Pinned(c.bufs, n)
      ensures Pinned(d.bufs, n)
    {
      var x :| 0 <= x < |c.bufs| && c.bufs[x].dirty && c.bufs[x].blockno == n;
      assert d.bufs[x].dirty && d.bufs[x].blockno == n;
    }
  }

  // ---- writing ----

  /** The holder changes the data and calls `log_write`, whose part here is to pin the buffer: the new data is
      current from now on, though not on disk. */
  method WriteLogged(c: Cache, b: nat, data: Block) returns (d: Cache)
    requires Valid(c) && b < |c.bufs| && c.bufs[b].locked && c.bufs[b].valid
    ensures Valid(d) && Kept(c, d) && d.disk == c.disk
    ensures d.bufs == c.bufs[b := c.bufs[b].(data := data, dirty := true)]
    ensures c.bufs[b].blockno < |c.current| && d.current == c.current[c.bufs[b].blockno := data]
    ensures SameOrder(c, d) && d.waiting == c.waiting && d.leaving == c.leaving
  {
    d := c.(bufs := c.bufs[b := c.bufs[b].(data := data, dirty := true)],
            current := c.current[c.bufs[b].blockno := data]);
    SameListed(c, d);
    assert Used(d);
    LoggedCoherent(c, d, b);
  }

  lemma LoggedCoherent(c: Cache, d: Cache, b: nat)
    requires Used(c) && Coherent(c) && b < |c.bufs| && c.bufs[b].valid && c.bufs[b].blockno < |c.current|
    requires |d.bufs| == |c.bufs| && d.bufs == c.bufs[b := c.bufs[b].(data := d.bufs[b].data, dirty := true)]
    requires d.disk == c.disk && d.current == c.current[c.bufs[b].blockno := d.bufs[b].data]
    ensures Coherent(d)
  {
    var m := c.bufs[b].blockno;
    assert d.bufs[b].dirty && d.bufs[b].blockno == m;
    assert Pinned(d.bufs, m);
    OneBuffer(c, b);
    forall n: nat | Pinned(c.bufs, n)
      ensures Pinned(d.bufs, n)
    {
      var x :| 0 <= x < |c.bufs| && c.bufs[x].dirty && c.bufs[x].blockno == n;
      assert d.bufs[x].dirty && d.bufs[x].blockno == n;
    }
  }

  /** No other buffer with data has the block of `b`. */
  lemma OneBuffer(c: Cache, b: nat)
    requires Used(c) && Coherent(c) && b < |c.bufs| && c.bufs[b].dev == ROOTDEV
    ensures forall x :: 0 <= x < |c.bufs| && x != b && c.bufs[x].valid ==> c.bufs[x].blockno != c.bufs[b].blockno
  {
    forall x: nat | x < |c.bufs| && x != b && c.bufs[x].valid
      ensures c.bufs[x].blockno != c.bufs[b].blockno
    {
      assert c.bufs[x].dev == ROOTDEV;
      assert c.bufs[x].blockno != c.bufs[b].blockno;
    }
  }

  /** The holder changes the data and calls `bwrite`, which makes `iderw` write it to disk and unpin it. */
  method Bwrite(c: Cache, b: nat, data: Block) returns (d: Cache, ok: bool)
    requires Valid(c) && b < |c.bufs| && c.bufs[b].locked
    ensures ok <==> c.bufs[b].dev == ROOTDEV && c.bufs[b].blockno < |c.disk|
    ensures !ok ==> d == c
    ensures ok ==>
              Valid(d) && Kept(c, d) && d.bufs == c.bufs[b := c.bufs[b].(data := data, dirty := false, valid := true)]
    ensures ok ==>
              d.disk == c.disk[c.bufs[b].blockno := data] && |c.current| == |c.disk| &&
              d.current == c.current[c.bufs[b].blockno := data]
    ensures SameOrder(c, d) && d.waiting == c.waiting && d.leaving == c.leaving
  {
    if c.bufs[b].dev != ROOTDEV || c.bufs[b].blockno >= |c.disk| { return c, false; }
    var n := c.bufs[b].blockno;
    d := c.(bufs := c.bufs[b := c.bufs[b].(data := data, dirty := false, valid := true)], disk := c.disk[n := data],
            current := c.current[n := data]);
    SameListed(c, d);
    assert Used(d);
    WrittenCoherent(c, d, b, data);
    ok := true;
  }

  lemma WrittenCoherent(c: Cache, d: Cache, b: nat, data: Block)
    requires Used(c) && Coherent(c) && b < |c.bufs| && c.bufs[b].dev == ROOTDEV &&
             c.bufs[b].blockno < |c.disk| == |c.current|
    requires d.disk == c.disk[c.bufs[b].blockno := data] && d.current == c.current[c.bufs[b].blockno := data]
    requires d.bufs == c.bufs[b := c.bufs[b].(data := data, dirty := false, valid := true)]
    ensures Coherent(d)
  {
    OneBuffer(c, b);
    forall n: nat | n != c.bufs[b].blockno && Pinned(c.bufs, n)
      ensures Pinned(d.bufs, n)
    {
      var x :| 0 <= x < |c.bufs| && c.bufs[x].dirty && c.bufs[x].blockno == n;
      assert d.bufs[x].dirty && d.bufs[x].blockno == n;
    }
  }

  // ---- letting go ----

  /** The first half of `brelse`: the lock. */
  method Unlock(c: Cache, b: nat) returns (d: Cache)
    requires Valid(c) && b < |c.bufs| && c.bufs[b].locked
    ensures Valid(d) && Kept(c, d) && d.bufs == c.bufs[b := c.bufs[b].(locked := false)] && d.disk == c.disk &&
            d.current == c.current
    ensures b < |c.leaving| && d.leaving == c.leaving[b := c.leaving[b] + 1]
    ensures SameOrder(c, d) && d.waiting == c.waiting
  {
    d := c.(bufs := c.bufs[b := c.bufs[b].(locked := false)], leaving := c.leaving[b := c.leaving[b] + 1]);
    SameListed(c, d);
    SameCoherent(c, d);
  }

  /** The second half: one user less, and the buffer goes to the front of the list when it was the last. */
  method Drop(c: Cache, b: nat) returns (d: Cache)
    requires Valid(c) && b < |c.bufs| == |c.leaving| && c.leaving[b] > 0
    ensures Valid(d) && Kept(c.(bufs := c.bufs[b := c.bufs[b].(refcnt := 0)]), d) && d.disk == c.disk &&
            d.current == c.current
    ensures c.bufs[b].refcnt > 0 && d.bufs == c.bufs[b := c.bufs[b].(refcnt := c.bufs[b].refcnt - 1)]
    ensures d.bufs[b].refcnt == 0 ==>
              |d.ring| > 1 && d.ring[1] == b &&
              forall x :: 0 <= x < |d.bufs| == |d.stamp| && x != b ==> d.stamp[x] < d.stamp[b]
    ensures forall x :: 0 <= x < |d.stamp| == |c.stamp| && x != b ==> d.stamp[x] == c.stamp[x]
    ensures d.bufs[b].refcnt > 0 ==> SameOrder(c, d)
    ensures d.waiting == c.waiting && d.leaving == c.leaving[b := c.leaving[b] - 1]
  {
    d := c.(bufs := c.bufs[b := c.bufs[b].(refcnt := c.bufs[b].refcnt - 1)],
            leaving := c.leaving[b := c.leaving[b] - 1]);
    SameListed(c, d);
    SameCoherent(c, d);
    if d.bufs[b].refcnt == 0 {
      ghost var e := d;
      var k := PlaceOf(d, b);
      MoveListed(d, k);
      var next, prev, head := d.next, d.prev, |d.bufs|;
      prev := prev[next[b] := prev[b]];
      next := next[prev[b] := next[b]];
      next := next[b := next[head]];
      prev := prev[b := head];
      prev := prev[next[head] := b];
      next := next[head := b];
      d := Moved(d, k).(next := next, prev := prev);
      SameCoherent(e, d);
    }
  }

  /** The list with the buffer at position `k` moved to the front. */
  function Moved(c: Cache, k: nat): Cache
    requires 0 < k < |c.ring| && c.ring[k] < |c.stamp|
    requires var b := c.ring[k]; b < |c.next| == |c.prev| && c.next[b] < |c.prev| && c.prev[b] < |c.next|
    requires var u := Unlinked(c.next, c.prev, c.ring[k]); c.ring[0] < |u.0| && u.0[c.ring[0]] < |u.1|
  {
    var b := c.ring[k];
    var u := Unlinked(c.next, c.prev, b);
    var v := Pushed(u.0, u.1, c.ring[0], b);
    c.(next := v.0, prev := v.1, ring := InsertAt(RemoveAt(c.ring, k), 0, b), stamp := c.stamp[b := c.clock],
       clock := c.clock + 1)
  }

  method PlaceOf(c: Cache, b: nat) returns (k: nat)
    requires Listed(c) && b < |c.bufs|
    ensures 0 < k < |c.ring| && c.ring[k] == b
  {
    assert b in c.ring;
    k :| k < |c.ring| && c.ring[k] == b;
  }

  lemma MoveListed(c: Cache, k: nat)
    requires Listed(c) && 0 < k < |c.ring|
    ensures var b := c.ring[k];
            b < |c.bufs| && b < |c.stamp| && b < |c.next| == |c.prev| && c.next[b] < |c.prev| && c.prev[b] < |c.next|
    ensures var u := Unlinked(c.next, c.prev, c.ring[k]); c.ring[0] < |u.0| && u.0[c.ring[0]] < |u.1|
    ensures Listed(Moved(c, k))
  {
    InRing(c, k);
    UnlinkRing(c.next, c.prev, c.ring, k);
    var b, r := c.ring[k], RemoveAt(c.ring, k);
    RemovedMember(c.ring, k, b);
    var u := Unlinked(c.next, c.prev, b);
    PushRing(u.0, u.1, r, b);
    hide RingOf, LinkOk;
    MovedMembers(c, k);
    MovedStamps(c, k);
  }

  lemma MovedMembers(c: Cache, k: nat)
    requires Listed(c) && 0 < k < |c.ring|
    ensures forall b: nat :: b <= |c.bufs| ==> b in InsertAt(RemoveAt(c.ring, k), 0, c.ring[k])
  {
    forall x: nat | x <= |c.bufs|
      ensures x in InsertAt(RemoveAt(c.ring, k), 0, c.ring[k])
    {
      assert x in c.ring;
      RemovedMember(c.ring, k, x);
    }
  }

  lemma MovedStamps(c: Cache, k: nat)
    requires Listed(c) && 0 < k < |c.ring| && c.ring[k] < |c.stamp|
    ensures var ring, stamp := InsertAt(RemoveAt(c.ring, k), 0, c.ring[k]), c.stamp[c.ring[k] := c.clock];
            forall i, j :: 0 < i < j < |ring| && ring[i] < |stamp| && ring[j] < |stamp| ==>
              stamp[ring[i]] > stamp[ring[j]]
  {
    var b, r := c.ring[k], RemoveAt(c.ring, k);
    var ring, stamp := InsertAt(r, 0, b), c.stamp[b := c.clock];
    forall i, j | 0 < i < j < |ring| && ring[i] < |stamp| && ring[j] < |stamp|
      ensures stamp[ring[i]] > stamp[ring[j]]
    {
      var x, y := if i - 1 < k then i - 1 else i, if j - 1 < k then j - 1 else j;
      assert i > 1 ==> ring[i] == c.ring[x];
      assert ring[j] == c.ring[y] && y != k;
    }
  }

  /** `binit`: every buffer pushed onto an empty list in turn, none holding a block of a real device. */
  method Binit(n: nat, disk: Disk) returns (c: Cache)
    ensures Valid(c) && |c.bufs| == n && c.disk == disk && c.current == disk
    ensures forall b :: 0 <= b < n ==> Idle(c.bufs[b]) && !c.bufs[b].valid && !c.bufs[b].locked && c.bufs[b].dev == 0
  {
    var next: seq<nat>, prev: seq<nat> := seq(n + 1, _ => n), seq(n + 1, _ => n);
    var ring: seq<nat>, b := [n], 0;
    assert LinkOk(next, prev, ring, 0);
    while b < n
      invariant 0 <= b <= n && |next| == n + 1 && RingOf(next, prev, ring) && |ring| == b + 1 && ring[0] == n
      invariant forall k :: 0 < k < |ring| ==> ring[k] == b - k
    {
      assert b !in ring;
      PushRing(next, prev, ring, b);
      ring := InsertAt(ring, 0, b);
      var first := next[n];
      next := next[b := first];
      prev := prev[b := n];
      prev := prev[first := b];
      next := next[n := b];
      b := b + 1;
    }
    c := Cache(next, prev, seq(n, _ => Buf(0, 0, 0, false, false, false, ZeroBlock())), disk,
               ring, seq(n, k => k), n, disk, seq(n, _ => 0), seq(n, _ => 0));
    forall x: nat | x <= n
      ensures x in c.ring
    {
      assert x < n ==> c.ring[n - x] == x;
    }
  }

  /** The one cache of the system. */
  class Bcache {
    var c: Cache

    constructor (n: nat, disk: Disk)
      ensures Valid(c) && |c.bufs| == n && c.disk == disk && c.current == disk
      ensures forall b :: 0 <= b < n ==> Idle(c.bufs[b]) && !c.bufs[b].valid && !c.bufs[b].locked && c.bufs[b].dev == 0
    {
      var d := Binit(n, disk);
      c := d;
    }

    /** `bread` by a process that finds the lock free: the current contents of the block. */
    method Bread(dev: nat, blockno: nat) returns (b: nat, ok: bool)
      requires Valid(c) && forall x :: 0 <= x < |c.bufs| && Holds(c.bufs[x], dev, blockno) ==> !c.bufs[x].locked
      modifies this
      ensures ok <==>
                dev == ROOTDEV && blockno < |old(c.disk)| &&
                exists x :: 0 <= x < |old(c.bufs)| && (Holds(old(c.bufs)[x], dev, blockno) || Idle(old(c.bufs)[x]))
      ensures ok ==> Valid(c) && Kept(old(c), c) && c.disk == old(c.disk) && c.current == old(c.current)
      ensures ok ==> b < |c.bufs| && Holds(c.bufs[b], dev, blockno) && c.bufs[b].locked && blockno < |c.current|
      ensures ok ==> c.bufs[b].data == c.current[blockno]
    {
      var d, r := Get(c, dev, blockno);
      if r.None? { return 0, false; }
      b := r.value;
      IdleUnlocked(c, b);
      d := Lock(d, b);
      c, ok := Fill(d, b);
    }

    /** `brelse` without another process in between. */
    method Brelse(b: nat)
      requires Valid(c) && b < |c.bufs| && c.bufs[b].locked
      modifies this
      ensures Valid(c) && c.disk == old(c.disk) && c.current == old(c.current) && old(c.bufs[b].refcnt) > 0
      ensures c.bufs == old(c.bufs)[b := old(c.bufs[b]).(locked := false, refcnt := old(c.bufs[b].refcnt) - 1)]
      ensures forall x :: 0 <= x < |c.stamp| == |old(c.stamp)| && x != b ==> c.stamp[x] == old(c.stamp)[x]
      ensures c.bufs[b].refcnt == 0 ==> |c.ring| > 1 && c.ring[1] == b
    {
      var d := Unlock(c, b);
      c := Drop(d, b);
    }
  }

  lemma IdleUnlocked(c: Cache, b: nat)
    requires Valid(c) && b < |c.bufs|
    ensures Idle(c.bufs[b]) ==> !c.bufs[b].locked
  {}
}
