/** `writei`: bytes into a file, through freshly allocated blocks where it grows, within a bounded number of
    logged blocks. */
module FileWrite {
  import opened Basics
  import opened Blocks
  import opened Inodes
  import opened WriteLemmas
  import opened FileSystem

  /** From `s` to `t`, `piece` went into the block of inode `i` that holds byte `off`, block `addr`: only the
      slots this needs came to be, and what was logged is bounded. */
  ghost predicate ChunkDone(sb: Superblock, s: Fs, t: Fs, i: nat, off: nat, piece: seq<byte>, addr: nat,
                            more: set<nat>) {
    match t case Fs(e, jnodes, _, l2, _, _) =>
    && ValidFs(sb, s.disk, s.inodes) && ValidFs(sb, e, jnodes) && i < |jnodes| && off / BSIZE < MAXFILE
    && SlotsGrown(sb, s.disk, s.inodes, e, jnodes, i, SlotsFor(off / BSIZE))
    && OtherData(sb, s.disk, s.inodes, e, jnodes, i)
    && Written(s.disk, s.inodes[i], e, jnodes[i], off, piece, |piece|)
    && (Slot(s.disk, s.inodes[i], off / BSIZE) != 0 ==> jnodes == s.inodes)
    && ChunkCost(s.disk, s.inodes[i], jnodes[i], off / BSIZE, s.logged, l2, more, addr)
  }

  /** One turn of the loop of `writei`. */
  method WriteChunk(sb: Superblock, s: Fs, i: nat, off: nat, piece: seq<byte>)
    returns (t: Fs, ok: bool, addr: nat, ghost bits: set<nat>)
    requires Owned(sb, s) && i < |s.inodes|
    requires 0 < |piece| && off % BSIZE + |piece| <= BSIZE && off + |piece| <= MAXFILE * BSIZE
    ensures t.base == s.base
    ensures ValidSuperblock(sb) && |s.disk| == sb.size
    ensures ok <==> FreeBlocks(sb, s.disk) >= Missing(s.disk, s.inodes[i], off / BSIZE)
    ensures ok ==> Owned(sb, t) && ChunkDone(sb, s, t, i, off, piece, addr, bits)
    ensures ok ==> |t.disk| == sb.size
    ensures ok ==> FreeBlocks(sb, t.disk) == FreeBlocks(sb, s.disk) - Missing(s.disk, s.inodes[i], off / BSIZE)
    ensures !ok ==> HalfMapped(sb, s, t, i)
  {
    hide FreeBlocks, HalfMapped, Owned, Grown, ChunkCost, Traced, ChunkDone;
    OwnedMeans(sb, s);
    t, addr, ok, bits := Bmap(sb, s, i, off / BSIZE);
    if ok {
      OwnedMeans(sb, t);
      var data := Overwrite(t.disk[addr], off % BSIZE, piece);
      ghost var u := t;
      t := LogWrite(t, addr, data);
      ChunkPut(sb, s, u, t, i, off, piece, addr, bits, data);
      SameFree(sb, u, t);
    }
  }

  /** The block that `bmap` gave, with the piece in it. */
  lemma ChunkPut(sb: Superblock, s: Fs, u: Fs, t: Fs, i: nat, off: nat, piece: seq<byte>, addr: nat, bits: set<nat>,
                 data: Block)
    requires Owned(sb, u) && ValidFs(sb, s.disk, s.inodes) && i < |s.inodes| && off / BSIZE < MAXFILE
    requires 0 < |piece| && off % BSIZE + |piece| <= BSIZE
    requires ValidFs(sb, u.disk, u.inodes) && Grown(sb, s.disk, s.inodes, u.disk, u.inodes, i, SlotsFor(off / BSIZE))
    requires addr == Slot(u.disk, u.inodes[i], off / BSIZE) && 0 < addr < |u.disk|
    requires Slot(s.disk, s.inodes[i], off / BSIZE) != 0 ==> u == s
    requires ChunkCost(s.disk, s.inodes[i], u.inodes[i], off / BSIZE, s.logged, u.logged, bits, addr)
    requires data == Overwrite(u.disk[addr], off % BSIZE, piece) && Traced(t)
    requires t.disk == u.disk[addr := data] && t.inodes == u.inodes && t.owner == u.owner &&
             t.logged == u.logged + {addr}
    ensures Owned(sb, t) && ChunkDone(sb, s, t, i, off, piece, addr, bits)
  {
    hide Grown, SlotsGrown, OtherData, Written, OwnInv, Traced, Slot, DataAt, SlotsFor, ChunkCost, ValidFs;
    OwnedMeans(sb, u);
    DataThere(sb, s, u, i, off / BSIZE, SlotsFor(off / BSIZE));
    GrowThenPut(sb, s.disk, s.inodes, u.disk, u.inodes, u.owner, i, SlotsFor(off / BSIZE), off / BSIZE, data);
    BlockWritten(s.disk, s.inodes[i], t.disk, t.inodes[i], off, piece);
    CostPut(s.disk, s.inodes[i], u.inodes[i], off / BSIZE, s.logged, u.logged, bits, addr);
    OwnedFs(sb, t.disk, t.inodes, t.owner);
  }

  lemma OwnedFs(sb: Superblock, d: Disk, inodes: seq<Inode>, owner: map<nat, (nat, nat)>)
    requires OwnInv(sb, d, inodes, owner)
    ensures ValidFs(sb, d, inodes)
  {}

  lemma DataThere(sb: Superblock, s: Fs, u: Fs, i: nat, n: nat, added: set<nat>)
    requires ValidFs(sb, s.disk, s.inodes) && ValidFs(sb, u.disk, u.inodes) && i < |s.inodes| && n < MAXFILE
    requires Grown(sb, s.disk, s.inodes, u.disk, u.inodes, i, added) && 0 < Slot(u.disk, u.inodes[i], n) < |u.disk|
    ensures |s.inodes[i].addrs| == |u.inodes[i].addrs| == NDIRECT + 1 && |u.inodes| == |s.inodes|
    ensures u.disk[Slot(u.disk, u.inodes[i], n)] == DataAt(s.disk, s.inodes[i], n)
  {
    hide Slot, SlotsGrown;
  }

  /** The data block is within the cost already. */
  lemma CostPut(d: Disk, ip: Inode, jp: Inode, bn: nat, l1: set<nat>, l2: set<nat>, more: set<nat>, addr: nat)
    requires |ip.addrs| == NDIRECT + 1 && |jp.addrs| == NDIRECT + 1 && bn < MAXFILE
    requires ChunkCost(d, ip, jp, bn, l1, l2, more, addr)
    ensures ChunkCost(d, ip, jp, bn, l1, l2 + {addr}, more, addr)
  {
    hide Missing;
  }

  /** The first `tot` bytes of `src` are in, on a block edge unless it is the start or the end, and what was
      logged is bounded. */
  ghost predicate Progress(sb: Superblock, s: Fs, t: Fs, i: nat, off: nat, src: seq<byte>, tot: nat, bits: set<nat>,
                           data: set<nat>) {
    match t case Fs(e, jnodes, _, l1, _, _) =>
    && (tot == 0 || tot == |src| || BlockEdge(off + tot))
    && WriteState(sb, s.disk, s.inodes, e, jnodes, i, off, src, tot)
    && CostSoFar(l1, s.logged, jnodes[i], s.inodes[i].size, off, tot, bits, data)
  }

  lemma WritesStep(sb: Superblock, s: Fs, u: Fs, t: Fs, i: nat, off: nat, src: seq<byte>, tot: nat, m: nat,
                   bits: set<nat>, more: set<nat>, data: set<nat>, addr: nat)
    requires Progress(sb, s, u, i, off, src, tot, bits, data) && i < |s.inodes|
    requires off <= s.inodes[i].size && tot < |src| && m == Chunk(off + tot, |src| - tot) &&
             off + |src| <= MAXFILE * BSIZE
    requires ChunkDone(sb, u, t, i, off + tot, src[tot..tot + m], addr, more)
    ensures WriteState(sb, s.disk, s.inodes, t.disk, t.inodes, i, off, src, tot + m)
  {
    WriteStateStep(sb, s.disk, s.inodes, u.disk, u.inodes, t.disk, t.inodes, i, off, src, tot, m);
  }

  lemma ProgressStep(sb: Superblock, s: Fs, u: Fs, t: Fs, i: nat, off: nat, src: seq<byte>, tot: nat, m: nat,
                     bits: set<nat>, more: set<nat>, data: set<nat>, addr: nat)
    requires Progress(sb, s, u, i, off, src, tot, bits, data) && i < |s.inodes|
    requires off <= s.inodes[i].size && tot < |src| && m == Chunk(off + tot, |src| - tot) &&
             off + |src| <= MAXFILE * BSIZE
    requires ChunkDone(sb, u, t, i, off + tot, src[tot..tot + m], addr, more)
    ensures Progress(sb, s, t, i, off, src, tot + m, bits + more, data + {addr}) && |t.inodes| == |s.inodes|
  {
    WritesStep(sb, s, u, t, i, off, src, tot, m, bits, more, data, addr);
    CostSoFarStep(sb, u.disk, u.inodes, t.disk, t.inodes, i, s.logged, u.logged, t.logged, bits, more, data, addr,
                  s.inodes[i].size, off, tot, m);
  }

  lemma ProgressStart(sb: Superblock, s: Fs, i: nat, off: nat, src: seq<byte>)
    requires Valid(sb, s) && i < |s.inodes| && off <= s.inodes[i].size
    ensures Owned(sb, s) && Progress(sb, s, s, i, off, src, 0, {}, {})
  {
    WriteStart(sb, s.disk, s.inodes, s.owner, i, off, src, s.logged);
  }

  /** All of `src` is in the file at `off`, and nothing but that has changed. */
  ghost predicate RangeDone(sb: Superblock, s: Fs, t: Fs, i: nat, off: nat, src: seq<byte>) {
    match t case Fs(e, jnodes, _, l1, _, _) =>
    && WriteState(sb, s.disk, s.inodes, e, jnodes, i, off, src, |src|)
    && LoggedAtMost(s.logged, l1, LoopBudget(s.inodes[i].size, off, |src|))
  }

  lemma ProgressEnd(sb: Superblock, s: Fs, t: Fs, i: nat, off: nat, src: seq<byte>, bits: set<nat>, data: set<nat>)
    requires Progress(sb, s, t, i, off, src, |src|, bits, data)
    ensures RangeDone(sb, s, t, i, off, src)
  {
    CostIsBounded(t.logged, s.logged, t.inodes[i], s.inodes[i].size, off, |src|, bits, data);
  }

  /** Where a write stops for want of a free block: the disk is full, fewer bytes than asked are in, the inode has
      its old size, and no other file has changed. */
  ghost predicate Stopped(sb: Superblock, s: Fs, t: Fs, i: nat, off: nat, src: seq<byte>) {
    match t case Fs(e, jnodes, _, _, _, _) =>
    && Owned(sb, t) && ValidFs(sb, s.disk, s.inodes) && ValidFs(sb, e, jnodes) && i < |s.inodes| &&
       FreeBlocks(sb, e) == 0
    && (forall j :: 0 <= j < |s.inodes| && j != i ==> jnodes[j] == s.inodes[j])
    && jnodes[i] == s.inodes[i].(addrs := jnodes[i].addrs)
    && OtherData(sb, s.disk, s.inodes, e, jnodes, i)
    && exists tot :: 0 <= tot < |src| && Written(s.disk, s.inodes[i], e, jnodes[i], off, src, tot)
  }

  lemma StopsHere(sb: Superblock, s: Fs, u: Fs, t: Fs, i: nat, off: nat, src: seq<byte>, tot: nat, bits: set<nat>,
                  data: set<nat>)
    requires Progress(sb, s, u, i, off, src, tot, bits, data) && tot < |src| && HalfMapped(sb, u, t, i) &&
             i < |s.inodes|
    ensures Stopped(sb, s, t, i, off, src)
  {
    hide Slot, DataAt, DenseTo, FreeBlocks, Owned;
    forall k: nat | k < MAXFILE * BSIZE
      ensures ByteAt(t.disk, t.inodes[i], k) == ByteAt(u.disk, u.inodes[i], k)
    {
      assert k / BSIZE < MAXFILE;
    }
    assert Written(s.disk, s.inodes[i], t.disk, t.inodes[i], off, src, tot);
  }

  /** The chunk at `tot` lacks what the file gains by it. */
  lemma ProgressNeeds(sb: Superblock, s: Fs, u: Fs, i: nat, off: nat, src: seq<byte>, tot: nat, m: nat, bits: set<nat>,
                      data: set<nat>)
    requires Progress(sb, s, u, i, off, src, tot, bits, data) && i < |s.inodes|
    requires off <= s.inodes[i].size && tot < |src| && m == Chunk(off + tot, |src| - tot) &&
             off + |src| <= MAXFILE * BSIZE
    ensures i < |u.inodes| && |u.inodes[i].addrs| == NDIRECT + 1
    ensures NewBlocks(s.inodes[i].size, Max(s.inodes[i].size, off + tot + m)) ==
              NewBlocks(s.inodes[i].size, Max(s.inodes[i].size, off + tot)) +
              Missing(u.disk, u.inodes[i], (off + tot) / BSIZE)
    ensures NewBlocks(s.inodes[i].size, Max(s.inodes[i].size, off + tot + m)) <= Gained(s.inodes[i].size, off, |src|)
  {
    var size := s.inodes[i].size;
    ChunkNeeds(u.disk, u.inodes[i], size, off, tot, m);
    NewBlocksAdd(size, Max(size, off + tot + m), Max(size, off + |src|));
  }

  /** The loop of `writei`.  It panics exactly when fewer blocks are free than the file gains. */
  method WriteRange(sb: Superblock, s: Fs, i: nat, off: nat, src: seq<byte>) returns (t: Fs, ok: bool)
    requires Valid(sb, s) && i < |s.inodes| && off <= s.inodes[i].size && off + |src| <= MAXFILE * BSIZE
    ensures t.base == s.base
    ensures ValidSuperblock(sb) && |s.disk| == sb.size
    ensures ok <==> FreeBlocks(sb, s.disk) >= Gained(s.inodes[i].size, off, |src|)
    ensures ok ==> Owned(sb, t) && RangeDone(sb, s, t, i, off, src)
    ensures ok ==> |t.disk| == sb.size
    ensures ok ==> FreeBlocks(sb, t.disk) == FreeBlocks(sb, s.disk) - Gained(s.inodes[i].size, off, |src|)
    ensures !ok ==> Stopped(sb, s, t, i, off, src)
  {
    hide Valid, Owned, Progress, ChunkDone, RangeDone, FreeBlocks, HalfMapped, Stopped, NewBlocks,
         Missing, ValidSuperblock;
    ProgressStart(sb, s, i, off, src);
    OwnedFits(sb, s);
    ghost var size := s.inodes[i].size;
    NothingGained(size, off);
    ghost var bits, data: set<nat> := {}, {};
    t, ok := s, true;
    var tot := 0;
    while tot < |src|
      invariant 0 <= tot <= |src| && Owned(sb, t) && |t.inodes| == |s.inodes| && |t.disk| == sb.size
      invariant Progress(sb, s, t, i, off, src, tot, bits, data) && t.base == s.base
      invariant FreeBlocks(sb, t.disk) == FreeBlocks(sb, s.disk) - NewBlocks(size, Max(size, off + tot))
    {
      var m := Chunk(off + tot, |src| - tot);
      var u := t;
      var addr;
      ghost var more;
      ProgressNeeds(sb, s, u, i, off, src, tot, m, bits, data);
      t, ok, addr, more := WriteChunk(sb, u, i, off + tot, src[tot..tot + m]);
      if !ok {
        StopsHere(sb, s, u, t, i, off, src, tot, bits, data);
        return;
      }
      ProgressStep(sb, s, u, t, i, off, src, tot, m, bits, more, data, addr);
      bits, data := bits + more, data + {addr};
      tot := tot + m;
    }
    ProgressEnd(sb, s, t, i, off, src, bits, data);
  }

  lemma SameContent(d: Disk, e: Disk, ip: Inode)
    requires |ip.addrs| == NDIRECT + 1 && ip.size <= MAXFILE * BSIZE
    requires forall n :: 0 <= n < MAXFILE ==> DataAt(e, ip, n) == DataAt(d, ip, n)
    ensures Content(e, ip) == Content(d, ip)
  {
    forall k | 0 <= k < ip.size
      ensures Content(e, ip)[k] == Content(d, ip)[k]
    {
      assert k / BSIZE < MAXFILE;
    }
  }

  lemma UpdatedMeans(sb: Superblock, t: Fs, v: Fs, i: nat, size: nat)
    requires i < |t.inodes| && InodeUpdated(sb, Resized(t, i, size), v, i)
    ensures |v.inodes| == |t.inodes| && ValidFs(sb, v.disk, v.inodes)
  {}

  /** File `j` is in `t` what it was in `s`. */
  ghost predicate FileKept(sb: Superblock, s: Fs, t: Fs, j: nat) {
    match t case Fs(e, jnodes, _, _, _, _) =>
    && ValidFs(sb, s.disk, s.inodes) && ValidFs(sb, e, jnodes) && j < |jnodes| && jnodes[j] == s.inodes[j]
    && Dense(e, jnodes[j]) && WrittenThrough(sb, e, jnodes, j)
    && Content(e, jnodes[j]) == Content(s.disk, s.inodes[j])
  }

  /** File `i` is what `writei` makes of it. */
  ghost predicate FileSpliced(sb: Superblock, s: Fs, t: Fs, i: nat, off: nat, src: seq<byte>) {
    match t case Fs(e, jnodes, _, _, _, _) =>
    && ValidFs(sb, s.disk, s.inodes) && ValidFs(sb, e, jnodes) && i < |jnodes|
    && jnodes[i] == s.inodes[i].(size := jnodes[i].size, addrs := jnodes[i].addrs)
    && Dense(e, jnodes[i]) && WrittenThrough(sb, e, jnodes, i)
    && off <= s.inodes[i].size <= MAXFILE * BSIZE && jnodes[i].size == Max(s.inodes[i].size, off + |src|)
    && Content(e, jnodes[i]) == Splice(Content(s.disk, s.inodes[i]), off, src)
  }

  /** What `writei` does when it returns a count: one file changes, by one splice. */
  ghost predicate FileWritten(sb: Superblock, s: Fs, t: Fs, i: nat, off: nat, src: seq<byte>) {
    match t case Fs(_, jnodes, _, _, _, _) =>
    && FileSpliced(sb, s, t, i, off, src)
    && (forall j :: 0 <= j < |jnodes| && j != i ==> FileKept(sb, s, t, j))
  }

  lemma OtherSame(sb: Superblock, s: Fs, t: Fs, i: nat, off: nat, src: seq<byte>, j: nat)
    requires Valid(sb, s) && i < |s.inodes| && RangeDone(sb, s, t, i, off, src) && j < |s.inodes| && j != i
    ensures |t.inodes| == |s.inodes| && t.inodes[j] == s.inodes[j] && Dense(t.disk, t.inodes[j])
    ensures Content(t.disk, t.inodes[j]) == Content(s.disk, s.inodes[j])
  {
    assert Dense(s.disk, s.inodes[j]);
    SameContent(s.disk, t.disk, s.inodes[j]);
  }

  /** A write below the old size leaves the inode alone, so its copy on disk is still right. */
  lemma WriteInside(sb: Superblock, s: Fs, t: Fs, i: nat, off: nat, src: seq<byte>)
    requires Valid(sb, s) && i < |s.inodes| && Owned(sb, t) && RangeDone(sb, s, t, i, off, src) &&
             off + |src| <= s.inodes[i].size
    ensures Valid(sb, t) && FileWritten(sb, s, t, i, off, src)
  {
    hide Valid, Owned, RangeDone, FileKept, FileSpliced;
    InsideFile(sb, s, t, i, off, src);
    forall j | 0 <= j < |s.inodes| && j != i
      ensures FileKept(sb, s, t, j)
    {
      InsideOther(sb, s, t, i, off, src, j);
    }
    RangeMeans(sb, s, t, i, off, src);
    FilesMake(sb, s, t, i, off, src);
  }

  lemma InsideFile(sb: Superblock, s: Fs, t: Fs, i: nat, off: nat, src: seq<byte>)
    requires Valid(sb, s) && i < |s.inodes| && Owned(sb, t) && RangeDone(sb, s, t, i, off, src) &&
             off + |src| <= s.inodes[i].size
    ensures FileSpliced(sb, s, t, i, off, src)
  {
    WrittenIsSplice(s.disk, s.inodes[i], t.disk, t.inodes[i], off, src);
    assert IBlock(sb, i) < sb.bmapstart && WrittenThrough(sb, s.disk, s.inodes, i);
  }

  lemma InsideOther(sb: Superblock, s: Fs, t: Fs, i: nat, off: nat, src: seq<byte>, j: nat)
    requires Valid(sb, s) && i < |s.inodes| && Owned(sb, t) && RangeDone(sb, s, t, i, off, src) &&
             off + |src| <= s.inodes[i].size
    requires j < |s.inodes| && j != i
    ensures FileKept(sb, s, t, j)
  {
    OtherSame(sb, s, t, i, off, src, j);
    assert IBlock(sb, j) < sb.bmapstart && WrittenThrough(sb, s.disk, s.inodes, j);
  }

  function Resized(t: Fs, i: nat, size: nat): Fs
    requires i < |t.inodes|
  {
    t.(inodes := t.inodes[i := t.inodes[i].(size := size)])
  }

  lemma ResizeKeeps(sb: Superblock, t: Fs, i: nat, size: nat)
    requires Owned(sb, t) && i < |t.inodes| && size <= MAXFILE * BSIZE
    ensures Owned(sb, Resized(t, i, size))
    ensures forall j, n :: 0 <= j < |t.inodes| && 0 <= n <= ROOT ==>
              Slot(t.disk, Resized(t, i, size).inodes[j], n) == Slot(t.disk, t.inodes[j], n)
  {
    var u := Resized(t, i, size);
    assert forall j, n :: 0 <= j < |t.inodes| && 0 <= n <= ROOT ==>
             Slot(t.disk, u.inodes[j], n) == Slot(t.disk, t.inodes[j], n);
    hide Slot;
  }

  /** Two views of a file through equal slots: the same data, hence the same bytes. */
  ghost predicate SameFile(d: Disk, ip: Inode, e: Disk, jp: Inode)
    requires |ip.addrs| == NDIRECT + 1 && |jp.addrs| == NDIRECT + 1
  {
    && (forall n :: 0 <= n <= ROOT ==> Slot(e, jp, n) == Slot(d, ip, n))
    && (forall n :: 0 <= n < MAXFILE ==> DataAt(e, jp, n) == DataAt(d, ip, n))
  }

  lemma SameFileDense(d: Disk, ip: Inode, e: Disk, jp: Inode)
    requires |ip.addrs| == NDIRECT + 1 && |jp.addrs| == NDIRECT + 1 && SameFile(d, ip, e, jp) && DenseTo(d, ip, jp.size)
    ensures Dense(e, jp)
  {
    hide Slot;
  }

  lemma SameFileWritten(d: Disk, ip: Inode, e: Disk, jp: Inode, f: Disk, kp: Inode, off: nat, src: seq<byte>)
    requires |ip.addrs| == NDIRECT + 1 && |jp.addrs| == NDIRECT + 1 && |kp.addrs| == NDIRECT + 1
    requires Written(d, ip, e, jp, off, src, |src|) && SameFile(e, jp, f, kp)
    ensures Written(d, ip, f, kp, off, src, |src|)
  {
    hide Slot, DataAt;
    forall k: nat | k < MAXFILE * BSIZE
      ensures ByteAt(f, kp, k) == if off <= k < off + |src| then src[k - off] else ByteAt(d, ip, k)
    {
      assert k / BSIZE < MAXFILE && ByteAt(e, jp, k) == ByteAt(f, kp, k);
    }
  }

  /** Neither a new size nor `iupdate` moves a slot or data. */
  lemma UpdatedSame(sb: Superblock, t: Fs, v: Fs, i: nat, size: nat, j: nat)
    requires i < |t.inodes| && j < |t.inodes| && InodeUpdated(sb, Resized(t, i, size), v, i)
    ensures |v.inodes| == |t.inodes| && |v.inodes[j].addrs| == |t.inodes[j].addrs| == NDIRECT + 1
    ensures j != i ==> v.inodes[j] == t.inodes[j]
    ensures SameFile(t.disk, t.inodes[j], v.disk, v.inodes[j])
  {
    var u := Resized(t, i, size);
    assert SameFile(t.disk, t.inodes[j], t.disk, u.inodes[j]);
    hide Slot, DataAt;
  }

  lemma FilesMake(sb: Superblock, s: Fs, t: Fs, i: nat, off: nat, src: seq<byte>)
    requires Owned(sb, t) && FileWritten(sb, s, t, i, off, src)
    ensures Valid(sb, t)
  {
    forall j | 0 <= j < |t.inodes|
      ensures Dense(t.disk, t.inodes[j]) && WrittenThrough(sb, t.disk, t.inodes, j)
    {
      assert j != i ==> FileKept(sb, s, t, j);
    }
  }

  lemma ExtendedThrough(sb: Superblock, s: Fs, t: Fs, v: Fs, i: nat, off: nat, src: seq<byte>, j: nat)
    requires Valid(sb, s) && i < |s.inodes| && RangeDone(sb, s, t, i, off, src) && j < |s.inodes|
    requires |t.inodes| == |s.inodes| && InodeUpdated(sb, Resized(t, i, off + |src|), v, i)
    ensures WrittenThrough(sb, v.disk, v.inodes, j)
  {
    assert IBlock(sb, j) < sb.bmapstart && WrittenThrough(sb, s.disk, s.inodes, j);
  }

  lemma ExtendedFile(sb: Superblock, s: Fs, t: Fs, v: Fs, i: nat, off: nat, src: seq<byte>)
    requires Valid(sb, s) && i < |s.inodes| && Owned(sb, t) && RangeDone(sb, s, t, i, off, src)
    requires off <= s.inodes[i].size < off + |src| <= MAXFILE * BSIZE
    requires |t.inodes| == |s.inodes| && InodeUpdated(sb, Resized(t, i, off + |src|), v, i)
    ensures FileSpliced(sb, s, v, i, off, src)
  {
    hide Slot, DataAt, DinodeAt, ValidSuperblock;
    UpdatedSame(sb, t, v, i, off + |src|, i);
    SameFileDense(t.disk, t.inodes[i], v.disk, v.inodes[i]);
    SameFileWritten(s.disk, s.inodes[i], t.disk, t.inodes[i], v.disk, v.inodes[i], off, src);
    WrittenIsSplice(s.disk, s.inodes[i], v.disk, v.inodes[i], off, src);
    ExtendedThrough(sb, s, t, v, i, off, src, i);
  }

  lemma ValidMeans(sb: Superblock, s: Fs)
    requires Valid(sb, s)
    ensures ValidFs(sb, s.disk, s.inodes)
  {}

  lemma DenseSize(d: Disk, ip: Inode)
    requires |ip.addrs| == NDIRECT + 1 && Dense(d, ip)
    ensures ip.size <= MAXFILE * BSIZE
  {}

  lemma ExtendedOther(sb: Superblock, s: Fs, t: Fs, v: Fs, i: nat, off: nat, src: seq<byte>, j: nat)
    requires Valid(sb, s) && i < |s.inodes| && Owned(sb, t) && RangeDone(sb, s, t, i, off, src)
    requires off <= s.inodes[i].size < off + |src| <= MAXFILE * BSIZE && j < |s.inodes| && j != i
    requires |t.inodes| == |s.inodes| && InodeUpdated(sb, Resized(t, i, off + |src|), v, i)
    ensures FileKept(sb, s, v, j)
  {
    hide Slot, DataAt, DenseTo, WrittenThrough, RangeDone, InodeUpdated, Valid, Owned, Content;
    ValidMeans(sb, s);
    OtherSame(sb, s, t, i, off, src, j);
    UpdatedMeans(sb, t, v, i, off + |src|);
    UpdatedSame(sb, t, v, i, off + |src|, j);
    SameFileDense(t.disk, t.inodes[j], v.disk, v.inodes[j]);
    DenseSize(t.disk, t.inodes[j]);
    SameContent(t.disk, v.disk, t.inodes[j]);
    ExtendedThrough(sb, s, t, v, i, off, src, j);
  }

  /** After `iupdate` of a file that grew. */
  lemma WriteExtends(sb: Superblock, s: Fs, t: Fs, v: Fs, i: nat, off: nat, src: seq<byte>)
    requires Valid(sb, s) && i < |s.inodes| && Owned(sb, t) && RangeDone(sb, s, t, i, off, src)
    requires off <= s.inodes[i].size < off + |src| <= MAXFILE * BSIZE
    requires |t.inodes| == |s.inodes| && Owned(sb, v) && InodeUpdated(sb, Resized(t, i, off + |src|), v, i)
    ensures Valid(sb, v) && FileWritten(sb, s, v, i, off, src)
  {
    hide Valid, Owned, RangeDone, InodeUpdated, FileKept, FileSpliced;
    ExtendedFile(sb, s, t, v, i, off, src);
    forall j | 0 <= j < |s.inodes| && j != i
      ensures FileKept(sb, s, v, j)
    {
      ExtendedOther(sb, s, t, v, i, off, src, j);
    }
    UpdatedMeans(sb, t, v, i, off + |src|);
    FilesMake(sb, s, v, i, off, src);
  }

  lemma ChunkFits(sb: Superblock, s: Fs, t: Fs, i: nat, off: nat, src: seq<byte>)
    requires RangeDone(sb, s, t, i, off, src) && s.logged == {} && |src| <= 1536 && off <= s.inodes[i].size
    requires Traced(t)
    ensures |t.logged| < MAXOPBLOCKS && WithinBudget(t.writes)
  {
    ChunkBudget(s.inodes[i].size, off, |src|);
    var more: set<nat> :| t.logged <= s.logged + more && |more| <= LoopBudget(s.inodes[i].size, off, |src|);
    AtMost(t.logged, more);
    forall k | 0 <= k < |t.writes|
      ensures |BlocksOf(t.writes[..k])| < MAXOPBLOCKS
    {
      AtMost(BlocksOf(t.writes[..k]), t.logged);
    }
  }

  /** One more call, by `iupdate`, is within the budget too. */
  lemma OneMoreWrite(writes: seq<Change>, c: Change)
    requires WithinBudget(writes) && |BlocksOf(writes)| < MAXOPBLOCKS
    ensures WithinBudget(writes + [c])
  {
    BlocksNext(writes, c);
    Grows(BlocksOf(writes), c.block);
    forall k | 0 <= k < |writes| + 1
      ensures |BlocksOf((writes + [c])[..k])| < MAXOPBLOCKS
    {
      assert (writes + [c])[..k] == writes[..k];
      if k == |writes| { assert writes[..k] == writes; }
    }
  }

  /** `writei`.  It panics exactly when fewer blocks are free than the file gains.  A chunk of 1536 bytes in a
      transaction of its own stays within the budget of an operation. */
  method Writei(sb: Superblock, s: Fs, i: nat, src: seq<byte>, off: nat) returns (t: Fs, r: Outcome)
    requires Valid(sb, s) && i < |s.inodes| && off < UINT && |src| < UINT
    ensures t.base == s.base
    ensures ValidSuperblock(sb) && |s.disk| == sb.size
    ensures r.ToDevice? <==> s.inodes[i].typ == T_DEV
    ensures r.Fail? <==> s.inodes[i].typ != T_DEV && (off > s.inodes[i].size || off + |src| > MAXFILE * BSIZE)
    ensures r.ToDevice? || r.Fail? ==> t == s
    ensures r.Panic? <==> !r.ToDevice? && !r.Fail? && FreeBlocks(sb, s.disk) < Gained(s.inodes[i].size, off, |src|)
    ensures r.Panic? ==> Stopped(sb, s, t, i, off, src)
    ensures r.Count? ==> r.n == |src| && Valid(sb, t) && FileWritten(sb, s, t, i, off, src)
    ensures r.Count? ==> |t.disk| == sb.size
    ensures r.Count? ==> FreeBlocks(sb, t.disk) == FreeBlocks(sb, s.disk) - Gained(s.inodes[i].size, off, |src|)
    ensures r.Count? && s.logged == {} && |src| <= 1536 ==> WithinBudget(t.writes)
  {
    hide Valid, Owned, RangeDone, FileWritten, InodeUpdated, FreeBlocks, Stopped, NewBlocks,
         WithinBudget, ValidSuperblock;
    ValidOwned(sb, s);
    OwnedFits(sb, s);
    if s.inodes[i].typ == T_DEV { return s, ToDevice; }
    if off > s.inodes[i].size || WrapsAround(off, |src|) { return s, Fail; }
    if off + |src| > MAXFILE * BSIZE { return s, Fail; }
    var ok;
    t, ok := WriteRange(sb, s, i, off, src);
    if !ok { return t, Panic; }
    RangeMeans(sb, s, t, i, off, src);
    if s.logged == {} && |src| <= 1536 { ChunkFits(sb, s, t, i, off, src); }
    if |src| > 0 && off + |src| > t.inodes[i].size {
      ghost var u := t;
      t := Resized(t, i, off + |src|);
      ResizeKeeps(sb, u, i, off + |src|);
      t := Iupdate(sb, t, i);
      WriteExtends(sb, s, u, t, i, off, src);
      if s.logged == {} && |src| <= 1536 { OneMoreWrite(u.writes, t.writes[|u.writes|]); }
      UpdatedOwner(sb, Resized(u, i, off + |src|), t, i);
      SameFree(sb, u, t);
    } else {
      WriteInside(sb, s, t, i, off, src);
    }
    r := Count(|src|);
  }

  lemma ValidOwned(sb: Superblock, s: Fs)
    requires Valid(sb, s)
    ensures Owned(sb, s)
  {}

  lemma UpdatedOwner(sb: Superblock, s: Fs, t: Fs, i: nat)
    requires InodeUpdated(sb, s, t, i)
    ensures t.owner == s.owner
  {}

  lemma RangeMeans(sb: Superblock, s: Fs, t: Fs, i: nat, off: nat, src: seq<byte>)
    requires RangeDone(sb, s, t, i, off, src) && Owned(sb, t)
    ensures |t.inodes| == |s.inodes| && i < |t.inodes| && t.inodes[i].size == s.inodes[i].size
    ensures Traced(t)
  {}
}
