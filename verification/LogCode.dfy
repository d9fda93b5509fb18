/** The log as the kernel runs it: `struct log`, the device and the pinned buffers updated in place.
    The ghost field `images` records the disk after every single block write, so a statement about all
    images is a statement about a crash between any two writes. */
module LogCode {
  import opened Basics
  import opened Blocks
  import opened LogDisk
  import opened LogProtocol

  /** How `read_head` ends: with the list, without a buffer, or behind the end of its array. */
  datatype HeadRead = Read | NoBuffer | Overrun

  /** There is a buffer for the header and for each of the first `n` log blocks. */
  ghost predicate LogRoom(g: Geometry, used: set<nat>, n: nat) {
    && Buffered(g.nbuf, used, g.start, g.start)
    && forall k: nat :: k < n ==> Buffered(g.nbuf, used, LogBlock(g, k), LogBlock(g, k))
  }

  /** There are buffers for each listed block together with its log block. */
  ghost predicate InstallRoom(g: Geometry, used: set<nat>, lh: seq<nat>) {
    forall k :: 0 <= k < |lh| ==> Buffered(g.nbuf, used, LogBlock(g, k), lh[k])
  }

  class Log {
    const g: Geometry
    var disk: Disk
    var pinned: map<nat, Block>
    /** Blocks that other processes have in buffers. */
    var held: set<nat>
    var lh: seq<nat>
    var outstanding: int
    var committing: bool
    /** The processes that sleep in `begin_op`. */
    var asleep: set<nat>
    ghost var images: seq<Disk>

    ghost predicate Valid()
      reads this
    {
      ValidDisk(g, disk) && ValidHeader(g, lh)
    }

    /** All disk images from number `from` on hold `base` in redo form. */
    ghost predicate ImagesHold(from: nat, upTo: nat, base: Disk)
      reads this
      requires ValidDisk(g, base)
    {
      upTo <= |images| &&
      forall k :: from <= k < upTo ==> ValidDisk(g, images[k]) && Recoverable(g, images[k], base)
    }

    /** Whoever sleeps in `begin_op` does so for a commit or for a log too full. */
    ghost predicate NobodyForgotten()
      reads this
    {
      asleep != {} ==> committing || |lh| + (outstanding + 1) * MAXOPBLOCKS > LOGSIZE
    }

    /** The blocks whose buffers cannot be recycled. */
    function Used(): set<nat>
      reads this
    {
      pinned.Keys + held
    }

    /** `initlog` up to the recovery: nothing in memory yet. */
    constructor (g: Geometry, disk: Disk)
      requires ValidDisk(g, disk)
      ensures Valid() && this.g == g && this.disk == disk && NobodyForgotten()
      ensures pinned == map[] && lh == [] && outstanding == 0 && !committing && images == []
      ensures held == {} && asleep == {}
    {
      this.g, this.disk := g, disk;
      pinned, lh, outstanding, committing, images := map[], [], 0, false, [];
      held, asleep := {}, {};
    }

    method Bwrite(b: nat, data: Block)
      requires Valid() && b < g.nblocks
      modifies this`disk, this`images
      ensures Valid() && disk == old(disk)[b := data] && images == old(images) + [disk]
    {
      disk := disk[b := data];
      images := images + [disk];
    }

    method InstallOne(tail: nat, ghost base: Disk)
      requires Valid() && ValidDisk(g, base) && tail < |lh|
      requires Recoverable(g, disk, base) && InstalledUpTo(g, disk, pinned, lh, base, tail)
      modifies this`disk, this`images, this`pinned
      ensures Valid() && Recoverable(g, disk, base) && InstalledUpTo(g, disk, pinned, lh, base, tail + 1)
      ensures images == old(images) + [disk] && pinned.Keys <= old(pinned.Keys)
    {
      hide Recoverable, InstalledUpTo, HomeList;
      InstallTurn(g, disk, pinned, lh, base, tail);
      Bwrite(lh[tail], disk[LogBlock(g, tail)]);
      pinned := pinned - {lh[tail]};
    }

    /** The committed state survives a crash at any of the writes, and is home at the end; it stops only for want of
        a buffer. */
    method InstallTrans(ghost base: Disk) returns (ok: bool)
      requires Valid() && ValidDisk(g, base) && Recoverable(g, disk, base) &&
               InstalledUpTo(g, disk, pinned, lh, base, 0)
      modifies this`disk, this`images, this`pinned
      ensures Valid() && Recoverable(g, disk, base) && old(images) <= images
      ensures ImagesHold(|old(images)|, |images|, base)
      ensures old(InstallRoom(g, Used(), lh)) ==> ok
      ensures ok ==> InstalledUpTo(g, disk, pinned, lh, base, |lh|) && |images| == |old(images)| + |lh|
      ensures pinned.Keys <= old(pinned.Keys)
    {
      hide Buffered, Recoverable, InstalledUpTo, HomeList;
      var tail := 0;
      while tail < |lh|
        invariant 0 <= tail <= |lh| && Valid() && pinned.Keys <= old(pinned.Keys)
        invariant Recoverable(g, disk, base) && InstalledUpTo(g, disk, pinned, lh, base, tail)
        invariant old(images) <= images && |images| == |old(images)| + tail
        invariant ImagesHold(|old(images)|, |images|, base)
      {
        if !Buffered(g.nbuf, Used(), LogBlock(g, tail), lh[tail]) {
          MoreInUse(g, old(Used()), Used(), lh, tail);
          return false;
        }
        InstallOne(tail, base);
        tail := tail + 1;
      }
      ok := true;
    }

    /** `log.lh` becomes what the header block lists, sensible or not. */
    method ReadHead() returns (r: HeadRead)
      requires ValidDisk(g, disk)
      modifies this`lh
      ensures r.NoBuffer? <==> !Buffered(g.nbuf, Used(), g.start, g.start)
      ensures r.Overrun? <==> !r.NoBuffer? && !WellFormedHeader(disk[g.start])
      ensures !r.Read? ==> lh == old(lh)
      ensures r.Read? ==> HeaderIs(g, disk, lh) && (Valid() <==> ValidHeader(g, DecodeHeader(disk[g.start])))
    {
      if !Buffered(g.nbuf, Used(), g.start, g.start) { return NoBuffer; }
      var hb := disk[g.start];
      var n, blocks: seq<nat> := HeaderCount(hb), [];
      var i := 0;
      while i < n
        invariant 0 <= i && (i <= n || i == 0) && |blocks| == i <= LOGSIZE
        invariant forall k :: 0 <= k < i ==> blocks[k] == Word(hb, k + 1)
      {
        if i == LOGSIZE { return Overrun; }
        blocks := blocks + [Word(hb, i + 1)];
        i := i + 1;
      }
      lh := blocks;
      assert lh == DecodeHeader(hb);
      r := Read;
    }

    /** The header block on disk becomes `log.lh`; nothing else changes. */
    method WriteHead() returns (ok: bool)
      requires Valid()
      modifies this`disk, this`images
      ensures Valid() && Encodable(lh) && (ok <==> Buffered(g.nbuf, Used(), g.start, g.start))
      ensures ok ==> disk == old(disk)[g.start := EncodeHeader(old(disk)[g.start], lh)] &&
                     images == old(images) + [disk] && HeaderIs(g, disk, lh)
      ensures !ok ==> disk == old(disk) && images == old(images)
    {
      ListEncodable(g, lh);
      if !Buffered(g.nbuf, Used(), g.start, g.start) { return false; }
      var hb := SetWord(disk[g.start], 0, |lh|);
      var i := 0;
      while i < |lh|
        invariant 0 <= i <= |lh| && hb == PutList(SetWord(disk[g.start], 0, |lh|), lh, i)
      {
        hb := SetWord(hb, i + 1, lh[i]);
        i := i + 1;
      }
      HeaderRoundTrip(disk[g.start], lh);
      hide PutList, DecodeHeader, WellFormedHeader;
      Bwrite(g.start, hb);
      ok := true;
    }

    /** `recover_from_log` installs the state the disk holds in redo form, empties the log, and keeps that state
        recoverable at every write on the way.  Two buffers are enough for it. */
    method RecoverFromLog(ghost base: Disk) returns (ok: bool)
      requires Valid() && ValidDisk(g, base) && Recoverable(g, disk, base) && pinned == map[] && held == {}
      modifies this`disk, this`images, this`pinned, this`lh
      ensures Valid() && old(images) <= images && ImagesHold(|old(images)|, |images|, base)
      ensures g.nbuf >= 2 ==> ok
      ensures ok ==> lh == [] && pinned == map[] && HeaderIs(g, disk, []) && SameHome(g, disk, base)
    {
      hide EncodeHeader, WellFormedHeader, DecodeHeader, Buffered;
      if g.nbuf >= 2 { TwoAreEnough(g.nbuf, g.start, g.start); }
      assert Used() == {};
      var r := ReadHead();
      if !r.Read? { return false; }
      AllRoom(g, lh);
      ok := InstallTrans(base);
      if !ok { return; }
      ClearedIsHome(g, disk, pinned, lh, base);
      lh := [];
      ok := WriteHead();
    }

    /** Copy the pinned blocks to the log area; the disk still recovers to what it was.  It stops exactly when there
        is no buffer for some log block. */
    method WriteLog(ghost after: Disk, ghost base: Disk) returns (ok: bool)
      requires Valid() && ValidDisk(g, after) && ValidDisk(g, base)
      requires Uncommitted(g, disk, pinned, lh, after) && Recoverable(g, disk, base)
      modifies this`disk, this`images
      ensures Valid() && Uncommitted(g, disk, pinned, lh, after) && Recoverable(g, disk, base)
      ensures old(images) <= images && ImagesHold(|old(images)|, |images|, base)
      ensures ok <==> forall k: nat :: k < |lh| ==> Buffered(g.nbuf, Used(), LogBlock(g, k), LogBlock(g, k))
      ensures ok ==> LoggedUpTo(g, disk, pinned, lh, |lh|) && |images| == |old(images)| + |lh|
    {
      hide Buffered;
      var tail := 0;
      while tail < |lh|
        invariant 0 <= tail <= |lh| && Valid() && LoggedUpTo(g, disk, pinned, lh, tail)
        invariant Uncommitted(g, disk, pinned, lh, after) && Recoverable(g, disk, base)
        invariant old(images) <= images && |images| == |old(images)| + tail
        invariant ImagesHold(|old(images)|, |images|, base)
        invariant forall k: nat :: k < tail ==> Buffered(g.nbuf, Used(), LogBlock(g, k), LogBlock(g, k))
      {
        if !Buffered(g.nbuf, Used(), LogBlock(g, tail), LogBlock(g, tail)) { return false; }
        LogBlockWriteShows(g, disk, pinned, lh, after, tail);
        LogBlockWriteIsSafe(g, disk, base, tail, pinned[lh[tail]]);
        Bwrite(LogBlock(g, tail), pinned[lh[tail]]);
        tail := tail + 1;
      }
      ok := true;
    }

    /** The rest of `commit`, after the header is written. */
    method Erase(ghost base: Disk)
      requires Valid() && ValidDisk(g, base) && Recoverable(g, disk, base) &&
               InstalledUpTo(g, disk, pinned, lh, base, 0)
      requires InstallRoom(g, Used(), lh) && Buffered(g.nbuf, Used(), g.start, g.start)
      modifies this`disk, this`images, this`pinned, this`lh
      ensures Valid() && lh == [] && pinned == map[] && HeaderIs(g, disk, []) && SameHome(g, disk, base)
      ensures old(images) <= images && ImagesHold(|old(images)|, |images|, base)
    {
      hide EncodeHeader, HeaderIs, Buffered, Recoverable, InstalledUpTo, HomeList, InstallRoom;
      var ok := InstallTrans(base);
      ClearedIsHome(g, disk, pinned, lh, base);
      LessInUse(g.nbuf, old(Used()), Used(), g.start, g.start);
      lh := [];
      EmptyListIsValid(g);
      ok := WriteHead();
    }

    /** `commit`: `after` is the disk as the cache shows it.  It stops exactly when there is something to commit and no
        buffer for the header or for some log block, and then the disk recovers to the state before.  Otherwise,
        of the images it leaves behind the first |lh| recover to the state before the transaction, all later ones to
        the state after it, and at the end the new contents are in place with the log empty and no buffer pinned. */
    method Commit(ghost after: Disk) returns (ok: bool)
      requires Valid() && ValidDisk(g, after) && Uncommitted(g, disk, pinned, lh, after)
      modifies this`disk, this`images, this`pinned, this`lh
      ensures Valid() && old(images) <= images && (ok <==> old(lh) == [] || old(LogRoom(g, Used(), |lh|)))
      ensures ok ==> lh == [] && pinned == map[] && HeaderIs(g, disk, []) && SameHome(g, disk, after)
      ensures ok ==> var cut := |old(images)| + |old(lh)|;
                     ImagesHold(|old(images)|, cut, old(disk)) && ImagesHold(cut, |images|, after)
      ensures !ok ==> ImagesHold(|old(images)|, |images|, old(disk)) && Recoverable(g, disk, old(disk))
    {
      hide EncodeHeader, HeaderIs, Buffered, Recoverable, InstalledUpTo, LoggedUpTo, Uncommitted, HomeList, InstallRoom;
      ghost var before := disk;
      StartsRecoverable(g, disk, pinned, lh, after);
      if |lh| == 0 {
        NothingPinned(g, disk, pinned, lh, after);
        return true;
      }
      ok := WriteLog(after, before);
      if !ok { return; }
      ghost var d := disk;
      ok := WriteHead();
      if !ok { return; }
      CommitShows(g, d, pinned, lh, after);
      PinnedRoom(g, Used(), lh);
      Erase(after);
    }

    /** One turn of the loop of `begin_op` by process `p`, which sleeps when it is not let in. */
    method BeginOp(p: nat) returns (entered: bool)
      requires Valid() && NobodyForgotten()
      modifies this`outstanding, this`asleep
      ensures NobodyForgotten()
      ensures entered <==> !committing && |lh| + (old(outstanding) + 1) * MAXOPBLOCKS <= LOGSIZE
      ensures outstanding == old(outstanding) + if entered then 1 else 0
      ensures asleep == old(asleep) + if entered then {} else {p}
    {
      if committing {
        asleep := asleep + {p};
        entered := false;
      } else if |lh| + (outstanding + 1) * MAXOPBLOCKS > LOGSIZE {
        asleep := asleep + {p};
        entered := false;
      } else {
        outstanding := outstanding + 1;
        entered := true;
      }
    }

    /** The start of `log_write`, before it takes the lock. */
    method TestRoom() returns (panicked: bool)
      ensures panicked <==> |lh| >= LOGSIZE || |lh| >= g.size - 1 || outstanding < 1
    {
      panicked := |lh| >= LOGSIZE || |lh| >= g.size - 1;
      if !panicked { panicked := outstanding < 1; }
    }

    /** The rest of it, which does not test again, for a buffer whose new contents are `data`: the cache then
        shows it, and the header lists the block exactly once. */
    method Append(b: nat, data: Block, ghost logical: Disk)
      requires Valid() && IsHome(g, b) && (b in lh || (|lh| < LOGSIZE && |lh| < g.size - 1))
      requires ValidDisk(g, logical) && Uncommitted(g, disk, pinned, lh, logical)
      modifies this`lh, this`pinned
      ensures Valid() && lh == Absorb(old(lh), b) && Uncommitted(g, disk, pinned, lh, logical[b := data])
      ensures old(NobodyForgotten()) ==> NobodyForgotten()
    {
      var i := 0;
      while i < |lh|
        invariant 0 <= i <= |lh| && b !in lh[..i]
      {
        if lh[i] == b { break; }
        i := i + 1;
      }
      AppendShows(g, disk, pinned, lh, logical, b, data);
      if i == |lh| {
        lh := lh + [b];
      } else {
        lh := lh[i := b];
      }
      pinned := pinned[b := data];
    }

    /** `log_write` without another process between its test and its append. */
    method LogWrite(b: nat, data: Block, ghost logical: Disk) returns (panicked: bool)
      requires Valid() && IsHome(g, b)
      requires ValidDisk(g, logical) && Uncommitted(g, disk, pinned, lh, logical)
      modifies this`lh, this`pinned
      ensures Valid() && (old(NobodyForgotten()) ==> NobodyForgotten())
      ensures panicked <==> |old(lh)| >= LOGSIZE || |old(lh)| >= g.size - 1 || outstanding < 1
      ensures panicked ==> lh == old(lh) && pinned == old(pinned)
      ensures !panicked ==> lh == Absorb(old(lh), b) && Uncommitted(g, disk, pinned, lh, logical[b := data])
    {
      panicked := TestRoom();
      if !panicked { Append(b, data, logical); }
    }

    /** `end_op`: the last one out commits what the cache shows; an earlier one writes nothing.  Either way everybody
        asleep in `begin_op` is woken. */
    method EndOp(ghost logical: Disk) returns (fate: Fate)
      requires Valid() && ValidDisk(g, logical) && Uncommitted(g, disk, pinned, lh, logical)
      modifies this`disk, this`images, this`pinned, this`lh, this`outstanding, this`committing, this`asleep
      ensures Valid() && outstanding == old(outstanding) - 1 && (fate.WhileCommitting? <==> old(committing))
      ensures fate.NoBuffers? <==>
                !old(committing) && outstanding == 0 && old(lh) != [] && !old(LogRoom(g, Used(), |lh|))
      ensures fate.Alive? || fate.WhileCommitting? || fate.NoBuffers?
      ensures fate.Alive? && outstanding != 0 ==> disk == old(disk) && lh == old(lh) && pinned == old(pinned)
      ensures fate.Alive? && outstanding == 0 ==> lh == [] && pinned == map[] && SameHome(g, disk, logical)
      ensures fate.Alive? ==> !committing && asleep == {} && Uncommitted(g, disk, pinned, lh, logical)
      ensures old(images) <= images && (fate.WhileCommitting? || outstanding != 0 ==> images == old(images))
      ensures fate.Alive? && outstanding == 0 ==>
                var cut := |old(images)| + |old(lh)|;
                ImagesHold(|old(images)|, cut, old(disk)) && ImagesHold(cut, |images|, logical)
      ensures fate.NoBuffers? ==> ImagesHold(|old(images)|, |images|, old(disk))
    {
      outstanding := outstanding - 1;
      if committing {
        return WhileCommitting;
      }
      if outstanding == 0 {
        committing := true;
        var ok := Commit(logical);
        if !ok { return NoBuffers; }
        committing := false;
        HomeIsShown(g, disk, logical);
      }
      asleep := {};
      fate := Alive;
    }
  }

  /** With less in use there is no less room. */
  lemma LessInUse(nbuf: nat, before: set<nat>, after: set<nat>, a: nat, b: nat)
    requires after <= before && Buffered(nbuf, before, a, b)
    ensures Buffered(nbuf, after, a, b)
  {
    AtMost(after + {a, b}, before + {a, b});
  }

  lemma MoreInUse(g: Geometry, before: set<nat>, after: set<nat>, lh: seq<nat>, k: nat)
    requires after <= before && k < |lh| && !Buffered(g.nbuf, after, LogBlock(g, k), lh[k])
    ensures !InstallRoom(g, before, lh)
  {
    AtMost(after + {LogBlock(g, k), lh[k]}, before + {LogBlock(g, k), lh[k]});
  }

  lemma EmptyListIsValid(g: Geometry)
    requires ValidGeometry(g)
    ensures ValidHeader(g, [])
  {}

  lemma TwoAreEnough(nbuf: nat, a: nat, b: nat)
    requires nbuf >= 2
    ensures Buffered(nbuf, {}, a, b)
  {
    assert {} + {a, b} == {a} + {b};
  }

  lemma AllRoom(g: Geometry, lh: seq<nat>)
    ensures g.nbuf >= 2 ==> InstallRoom(g, {}, lh)
  {
    if g.nbuf >= 2 {
      forall k | 0 <= k < |lh|
        ensures Buffered(g.nbuf, {}, LogBlock(g, k), lh[k])
      {
        TwoAreEnough(g.nbuf, LogBlock(g, k), lh[k]);
      }
    }
  }

  /** A listed block is pinned: with its log block it needs no buffer more than that one alone. */
  lemma PinnedRoom(g: Geometry, used: set<nat>, lh: seq<nat>)
    requires Elems(lh) <= used && LogRoom(g, used, |lh|)
    ensures InstallRoom(g, used, lh)
  {
    forall k | 0 <= k < |lh|
      ensures Buffered(g.nbuf, used, LogBlock(g, k), lh[k])
    {
      assert lh[k] in Elems(lh);
      assert used + {LogBlock(g, k), lh[k]} == used + {LogBlock(g, k), LogBlock(g, k)};
    }
  }

  lemma InstallTurn(g: Geometry, d: Disk, pinned: map<nat, Block>, lh: seq<nat>, base: Disk, i: nat)
    requires ValidDisk(g, d) && ValidDisk(g, base) && ValidHeader(g, lh) && i < |lh|
    requires InstalledUpTo(g, d, pinned, lh, base, i) && Recoverable(g, d, base)
    ensures lh[i] < g.nblocks && LogBlock(g, i) < g.nblocks
    ensures var e := d[lh[i] := d[LogBlock(g, i)]];
            Recoverable(g, e, base) && InstalledUpTo(g, e, pinned - {lh[i]}, lh, base, i + 1)
  {
    InstallOneIsSafe(g, d, base, i);
    InstallOneShows(g, d, pinned, lh, base, i);
  }

  lemma StartsRecoverable(g: Geometry, d: Disk, pinned: map<nat, Block>, lh: seq<nat>, logical: Disk)
    requires ValidDisk(g, d) && ValidDisk(g, logical) && Uncommitted(g, d, pinned, lh, logical)
    ensures Recoverable(g, d, d) && Elems(lh) <= pinned.Keys
  {}

  lemma NothingPinned(g: Geometry, d: Disk, pinned: map<nat, Block>, lh: seq<nat>, logical: Disk)
    requires ValidDisk(g, d) && ValidDisk(g, logical) && Uncommitted(g, d, pinned, lh, logical) && lh == []
    ensures pinned == map[] && HeaderIs(g, d, []) && SameHome(g, d, logical)
  {
    assert pinned.Keys == {};
  }

  lemma HomeIsShown(g: Geometry, d: Disk, logical: Disk)
    requires ValidDisk(g, d) && ValidDisk(g, logical) && HeaderIs(g, d, []) && SameHome(g, d, logical)
    ensures Uncommitted(g, d, map[], [], logical)
  {}

  /** Once everything listed is home, emptying the header leaves the state in place. */
  lemma ClearedIsHome(g: Geometry, d: Disk, pinned: map<nat, Block>, lh: seq<nat>, base: Disk)
    requires ValidDisk(g, d) && ValidDisk(g, base) && ValidHeader(g, lh)
    requires Recoverable(g, d, base) && InstalledUpTo(g, d, pinned, lh, base, |lh|)
    ensures pinned == map[]
    ensures var e := d[g.start := EncodeHeader(d[g.start], [])];
            SameHome(g, e, base) && Recoverable(g, e, base) && HeaderIs(g, e, [])
  {
    HeaderRoundTrip(d[g.start], []);
    assert forall b :: b !in pinned;
  }
}
