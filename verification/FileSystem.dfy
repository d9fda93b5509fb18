/** Block allocation and reading: `balloc`, `bfree`, `bmap`, `iupdate` and `readi`.  A disk write here is a
    `log_write`. */
module FileSystem {
  import opened Basics
  import opened Blocks
  import opened Inodes
  import opened WriteLemmas

  const T_DEV: nat := 3

  /** The test `off + n < off` on 32-bit unsigned numbers. */
  predicate WrapsAround(off: nat, n: nat)
    requires off < UINT && n < UINT
    ensures WrapsAround(off, n) <==> off + n >= UINT
  {
    (off + n) % UINT < off
  }

  /** How a call ends: a byte count, the result -1, a hand-over to a device driver, or a kernel panic. */
  datatype Outcome = Count(n: nat) | Fail | ToDevice | Panic

  /** The disk and the in-memory inodes, with four books kept beside them that no branch reads: `owner`
      inverts the inodes' block lists, `writes` has the current transaction's calls of `log_write` in order,
      `logged` their blocks, and `base` the disk when it began. */
  datatype Fs = Fs(disk: Disk, inodes: seq<Inode>, owner: map<nat, (nat, nat)>, logged: set<nat>, writes: seq<Change>,
                   base: Disk)

  /** Nothing of the disk changes but by `log_write`. */
  ghost predicate Traced(s: Fs) {
    match s case Fs(d, _, _, logged, writes, base) => logged == BlocksOf(writes) && d == Applied(base, writes)
  }

  /** What holds at every moment, even in the middle of `bmap`. */
  ghost predicate Owned(sb: Superblock, s: Fs) {
    match s case Fs(d, inodes, owner, _, _, _) => OwnInv(sb, d, inodes, owner) && Traced(s)
  }

  /** What every operation keeps. */
  ghost predicate Valid(sb: Superblock, s: Fs) {
    match s case Fs(d, inodes, owner, _, _, _) => FsInv(sb, d, inodes, owner) && Traced(s)
  }

  /** Only the inodes and the owners differ. */
  lemma StillTraced(s: Fs, inodes: seq<Inode>, owner: map<nat, (nat, nat)>)
    requires Traced(s)
    ensures Traced(s.(inodes := inodes, owner := owner))
  {}

  method LogWrite(s: Fs, b: nat, data: Block) returns (t: Fs)
    requires b < |s.disk| && Traced(s)
    ensures t == s.(disk := s.disk[b := data], logged := s.logged + {b}, writes := s.writes + [Change(b, data)])
    ensures Traced(t)
  {
    t := s.(disk := s.disk[b := data], logged := s.logged + {b}, writes := s.writes + [Change(b, data)]);
    AppliedNext(s.base, s.writes, Change(b, data));
    BlocksNext(s.writes, Change(b, data));
  }

  lemma BlocksNext(writes: seq<Change>, c: Change)
    ensures BlocksOf(writes + [c]) == BlocksOf(writes) + {c.block}
  {
    assert forall x :: x in writes + [c] <==> x in writes || x == c;
  }

  lemma OwnedFits(sb: Superblock, s: Fs)
    requires Owned(sb, s)
    ensures ValidSuperblock(sb) && |s.disk| == sb.size && Traced(s)
  {}

  lemma OwnedMeans(sb: Superblock, s: Fs)
    requires Owned(sb, s)
    ensures ValidFs(sb, s.disk, s.inodes) && OwnInv(sb, s.disk, s.inodes, s.owner) && Traced(s)
  {}

  // ---- free blocks ----

  /** How many of the blocks below `k` have a clear bit. */
  ghost function FreeBelow(sb: Superblock, d: Disk, k: nat): nat
    requires ValidSuperblock(sb) && |d| == sb.size && k <= sb.size
  {
    if k == 0 then 0
    else
      assert BBlock(sb, k - 1) < sb.nmeta;
      FreeBelow(sb, d, k - 1) + if Marked(sb, d, k - 1) then 0 else 1
  }

  ghost function FreeBlocks(sb: Superblock, d: Disk): nat
    requires ValidSuperblock(sb) && |d| == sb.size
  {
    FreeBelow(sb, d, sb.size)
  }

  /** The owned blocks below `k`. */
  ghost function OwnedBelow(owner: map<nat, (nat, nat)>, k: nat): set<nat> { set b | b in owner && b < k }

  lemma {:induction false} FreeCounts(sb: Superblock, d: Disk, owner: map<nat, (nat, nat)>, k: nat)
    requires ValidSuperblock(sb) && |d| == sb.size && k <= sb.size && BitmapAgrees(sb, d, owner)
    requires forall b :: b in owner ==> sb.nmeta <= b
    ensures FreeBelow(sb, d, k) + |OwnedBelow(owner, k)| == if k < sb.nmeta then 0 else k - sb.nmeta
  {
    hide OwnedBelow, BitmapAgrees, FreeBelow, ValidSuperblock;
    if k == 0 {
      NoneBelow(sb, d, owner);
    } else {
      FreeCounts(sb, d, owner, k - 1);
      FreeNext(sb, d, owner, k);
      NextOwned(owner, k);
    }
  }

  lemma NoneBelow(sb: Superblock, d: Disk, owner: map<nat, (nat, nat)>)
    requires ValidSuperblock(sb) && |d| == sb.size
    ensures FreeBelow(sb, d, 0) == 0 && |OwnedBelow(owner, 0)| == 0
  {
    assert OwnedBelow(owner, 0) == {};
  }

  lemma FreeNext(sb: Superblock, d: Disk, owner: map<nat, (nat, nat)>, k: nat)
    requires ValidSuperblock(sb) && |d| == sb.size && 0 < k <= sb.size && BitmapAgrees(sb, d, owner)
    ensures FreeBelow(sb, d, k) == FreeBelow(sb, d, k - 1) + if k - 1 < sb.nmeta || k - 1 in owner then 0 else 1
  {
    assert BBlock(sb, k - 1) < sb.nmeta;
    assert Marked(sb, d, k - 1) == (k - 1 < sb.nmeta || k - 1 in owner);
    hide Marked;
  }

  lemma NextOwned(owner: map<nat, (nat, nat)>, k: nat)
    requires k > 0
    ensures |OwnedBelow(owner, k)| == |OwnedBelow(owner, k - 1)| + if k - 1 in owner then 1 else 0
  {
    assert OwnedBelow(owner, k) == OwnedBelow(owner, k - 1) + if k - 1 in owner then {k - 1} else {};
  }

  /** The clear bits are what the owners leave of the data blocks. */
  lemma FreeIsUnowned(sb: Superblock, s: Fs)
    requires Owned(sb, s)
    ensures ValidSuperblock(sb) && |s.disk| == sb.size && FreeBlocks(sb, s.disk) + |s.owner| == sb.size - sb.nmeta
  {
    FreeCounts(sb, s.disk, s.owner, sb.size);
    assert OwnedBelow(s.owner, sb.size) == s.owner.Keys;
    assert |s.owner| == |s.owner.Keys|;
  }

  lemma {:induction false} NoneFree(sb: Superblock, d: Disk, k: nat)
    requires ValidSuperblock(sb) && |d| == sb.size && k <= sb.size
    requires forall c: nat :: c < k ==> Marked(sb, d, c)
    ensures FreeBelow(sb, d, k) == 0
  {
    if k > 0 { NoneFree(sb, d, k - 1); }
  }

  lemma {:induction false} SomeFree(sb: Superblock, d: Disk, k: nat, b: nat)
    requires ValidSuperblock(sb) && |d| == sb.size && b < k <= sb.size && BBlock(sb, b) < sb.size && !Marked(sb, d, b)
    ensures FreeBelow(sb, d, k) > 0
  {
    assert BBlock(sb, k - 1) < sb.nmeta;
    if b < k - 1 { SomeFree(sb, d, k - 1, b); }
  }

  /** As many owners, as many free blocks. */
  lemma SameFree(sb: Superblock, s: Fs, t: Fs)
    requires Owned(sb, s) && Owned(sb, t) && t.owner == s.owner
    ensures ValidSuperblock(sb) && |s.disk| == |t.disk| == sb.size && FreeBlocks(sb, t.disk) == FreeBlocks(sb, s.disk)
  {
    hide Owned, FreeBlocks;
    FreeIsUnowned(sb, s);
    FreeIsUnowned(sb, t);
  }

  /** One more owner is one free block less. */
  lemma OneLess(sb: Superblock, s: Fs, t: Fs, b: nat)
    requires Owned(sb, s) && Owned(sb, t) && b !in s.owner && t.owner.Keys == s.owner.Keys + {b}
    ensures ValidSuperblock(sb) && |s.disk| == |t.disk| == sb.size &&
            FreeBlocks(sb, t.disk) == FreeBlocks(sb, s.disk) - 1
  {
    hide Owned, FreeBlocks;
    FreeIsUnowned(sb, s);
    FreeIsUnowned(sb, t);
    assert |t.owner| == |t.owner.Keys| && |s.owner| == |s.owner.Keys|;
  }

  /** A block whose bit is clear is a data block that nobody holds. */
  lemma UnmarkedIsFree(sb: Superblock, s: Fs, b: nat)
    requires Owned(sb, s) && b < |s.disk| && BBlock(sb, b) < |s.disk| && !Marked(sb, s.disk, b)
    ensures sb.nmeta <= b && b !in s.owner
  {}

  /** The lowest free block, marked and zeroed; a panic exactly when no block is free. */
  method Balloc(sb: Superblock, s: Fs) returns (t: Fs, b: nat, ok: bool)
    requires Owned(sb, s)
    ensures ValidSuperblock(sb) && |s.disk| == sb.size && (ok <==> FreeBlocks(sb, s.disk) > 0)
    ensures ok ==> sb.nmeta <= b < sb.size && b !in s.owner
    ensures ok ==> t.disk == Allocated(sb, s.disk, b) && t.inodes == s.inodes && t.owner == s.owner
    ensures ok ==> t.logged == s.logged + {BBlock(sb, b), b} && t.base == s.base
    ensures ok ==> Traced(t)
    ensures ok ==> forall c: nat :: c < b ==> Marked(sb, s.disk, c)
    ensures !ok ==> t == s
  {
    hide Owned, Bit, SetBit, FreeBlocks, Traced;
    OwnedFits(sb, s);
    t := s;
    var base := 0;
    while base < sb.size
      invariant base % BPB == 0 && t == s
      invariant forall c: nat :: c < base && c < sb.size ==> Marked(sb, s.disk, c)
    {
      assert BBlock(sb, base) < sb.nmeta;
      var bp := s.disk[BBlock(sb, base)];
      var bi := 0;
      while bi < BPB && base + bi < sb.size
        invariant 0 <= bi <= BPB && t == s
        invariant forall c: nat :: c < base + bi && c < sb.size ==> Marked(sb, s.disk, c)
      {
        assert BBlock(sb, base + bi) == BBlock(sb, base) && (base + bi) % BPB == bi;
        if !Bit(bp, bi) {
          UnmarkedIsFree(sb, s, base + bi);
          FoundFree(sb, s.disk, base + bi);
          t := LogWrite(t, BBlock(sb, base), SetBit(bp, bi));
          t := LogWrite(t, base + bi, ZeroBlock());
          return t, base + bi, true;
        }
        bi := bi + 1;
      }
      base := base + BPB;
    }
    FoundNone(sb, s.disk);
    return t, 0, false;
  }

  lemma FoundFree(sb: Superblock, d: Disk, b: nat)
    requires ValidSuperblock(sb) && |d| == sb.size && b < sb.size && BBlock(sb, b) < sb.size && !Marked(sb, d, b)
    ensures FreeBlocks(sb, d) > 0
  {
    SomeFree(sb, d, sb.size, b);
  }

  lemma FoundNone(sb: Superblock, d: Disk)
    requires ValidSuperblock(sb) && |d| == sb.size && forall c: nat :: c < sb.size ==> Marked(sb, d, c)
    ensures FreeBlocks(sb, d) == 0
  {
    NoneFree(sb, d, sb.size);
  }

  /** Clears the bit of a block in use; a panic when it was already clear. */
  method Bfree(sb: Superblock, s: Fs, b: nat) returns (t: Fs, ok: bool)
    requires ValidSuperblock(sb) && |s.disk| == sb.size && b < sb.size && Traced(s)
    ensures ok <==> Marked(sb, s.disk, b)
    ensures ok ==> t.disk == s.disk[BBlock(sb, b) := ClearBit(s.disk[BBlock(sb, b)], b % BPB)]
    ensures ok ==> t.logged == s.logged + {BBlock(sb, b)} && t.base == s.base
    ensures t.inodes == s.inodes && t.owner == s.owner && Traced(t)
    ensures !ok ==> t == s
  {
    assert BBlock(sb, b) < sb.nmeta;
    var bp := s.disk[BBlock(sb, b)];
    if !Bit(bp, b % BPB) {
      return s, false;
    }
    t := LogWrite(s, BBlock(sb, b), ClearBit(bp, b % BPB));
    ok := true;
  }

  /** Give a fresh block to address `a` of inode `i`, which has none. */
  method AllocAddr(sb: Superblock, s: Fs, i: nat, a: nat) returns (t: Fs, b: nat, ok: bool)
    requires Owned(sb, s) && i < |s.inodes| && a <= NDIRECT && s.inodes[i].addrs[a] == 0
    ensures t.base == s.base
    ensures ValidSuperblock(sb) && |s.disk| == sb.size && (ok <==> FreeBlocks(sb, s.disk) > 0)
    ensures ok ==> Owned(sb, t) && 0 < b < sb.size
    ensures ok ==> b == t.inodes[i].addrs[a] == Slot(t.disk, t.inodes[i], SlotOfAddr(a))
    ensures ok ==> Grown(sb, s.disk, s.inodes, t.disk, t.inodes, i, {SlotOfAddr(a)})
    ensures ok ==> t.logged == s.logged + {BBlock(sb, b), b}
    ensures ok ==> |t.disk| == sb.size && FreeBlocks(sb, t.disk) == FreeBlocks(sb, s.disk) - 1
    ensures !ok ==> t == s
  {
    hide FreeBlocks, Owned, Grown, Traced, Slot, Allocated;
    OwnedMeans(sb, s);
    t, b, ok := Balloc(sb, s);
    if ok {
      ghost var u := t;
      t := t.(owner := t.owner[b := (i, SlotOfAddr(a))], inodes := t.inodes[i := WithAddr(t.inodes[i], a, b)]);
      AddrDone(sb, s, u, t, i, a, b);
      OneLess(sb, s, t, b);
    }
  }

  lemma AddrDone(sb: Superblock, s: Fs, u: Fs, t: Fs, i: nat, a: nat, b: nat)
    requires Owned(sb, s) && i < |s.inodes| && a <= NDIRECT && s.inodes[i].addrs[a] == 0
    requires sb.nmeta <= b < sb.size && b !in s.owner && Traced(u)
    requires u.disk == Allocated(sb, s.disk, b) && u.inodes == s.inodes && u.owner == s.owner
    requires t == u.(owner := u.owner[b := (i, SlotOfAddr(a))], inodes := u.inodes[i := WithAddr(u.inodes[i], a, b)])
    ensures Owned(sb, t) && ValidFs(sb, s.disk, s.inodes) && ValidFs(sb, t.disk, t.inodes) && 0 < b
    ensures |t.inodes[i].addrs| == NDIRECT + 1 && b == t.inodes[i].addrs[a] == Slot(t.disk, t.inodes[i], SlotOfAddr(a))
    ensures Grown(sb, s.disk, s.inodes, t.disk, t.inodes, i, {SlotOfAddr(a)})
  {
    GrowAddr(sb, s.disk, s.inodes, s.owner, i, a, b);
    StillTraced(u, t.inodes, t.owner);
    hide Grown, OwnersAgree, BitmapAgrees, Traced, Allocated;
  }

  /** Give a fresh block to entry `n` of the indirect block of inode `i`, and log that block. */
  method AllocEntry(sb: Superblock, s: Fs, i: nat, n: nat) returns (t: Fs, b: nat, ok: bool)
    requires Owned(sb, s) && i < |s.inodes| && NDIRECT <= n < MAXFILE
    requires Slot(s.disk, s.inodes[i], ROOT) != 0 && Slot(s.disk, s.inodes[i], n) == 0
    ensures t.base == s.base
    ensures ValidSuperblock(sb) && |s.disk| == sb.size && (ok <==> FreeBlocks(sb, s.disk) > 0)
    ensures ok ==> Owned(sb, t) && b == Slot(t.disk, t.inodes[i], n) && 0 < b < sb.size && t.inodes == s.inodes
    ensures ok ==> Grown(sb, s.disk, s.inodes, t.disk, t.inodes, i, {n})
    ensures ok ==> t.logged == s.logged + {BBlock(sb, b), b, s.inodes[i].addrs[NDIRECT]}
    ensures ok ==> |t.disk| == sb.size && FreeBlocks(sb, t.disk) == FreeBlocks(sb, s.disk) - 1
    ensures !ok ==> t == s
  {
    hide FreeBlocks, Owned, Grown, Traced, Allocated, SetWord;
    OwnedMeans(sb, s);
    t, b, ok := Balloc(sb, s);
    if ok {
      AllocatedSize(sb, s.disk, b);
      var r: nat := t.inodes[i].addrs[NDIRECT];
      ghost var v := t;
      t := LogWrite(t, r, SetWord(t.disk[r], n - NDIRECT, b));
      ghost var u := t;
      t := t.(owner := t.owner[b := (i, n)]);
      EntryDone(sb, s, v, u, t, i, n, b);
      hide Slot;
      OneLess(sb, s, t, b);
    }
  }

  lemma AllocatedSize(sb: Superblock, d: Disk, b: nat)
    requires ValidSuperblock(sb) && |d| == sb.size && b < sb.size
    ensures |Allocated(sb, d, b)| == |d|
  {}

  lemma EntryDone(sb: Superblock, s: Fs, v: Fs, u: Fs, t: Fs, i: nat, n: nat, b: nat)
    requires Owned(sb, s) && i < |s.inodes| && NDIRECT <= n < MAXFILE
    requires Slot(s.disk, s.inodes[i], ROOT) != 0 && Slot(s.disk, s.inodes[i], n) == 0
    requires sb.nmeta <= b < sb.size && b !in s.owner && Traced(u)
    requires v.disk == Allocated(sb, s.disk, b) && u.inodes == s.inodes && u.owner == s.owner
    requires |v.disk| == |s.disk| && s.inodes[i].addrs[NDIRECT] < |s.disk|
    requires var r := s.inodes[i].addrs[NDIRECT]; u.disk == v.disk[r := SetWord(v.disk[r], n - NDIRECT, b)]
    requires t == u.(owner := u.owner[b := (i, n)])
    ensures Owned(sb, t) && ValidFs(sb, s.disk, s.inodes) && ValidFs(sb, t.disk, t.inodes) && 0 < b
    ensures b == Slot(t.disk, t.inodes[i], n) && Grown(sb, s.disk, s.inodes, t.disk, t.inodes, i, {n})
  {
    GrowEntry(sb, s.disk, s.inodes, s.owner, i, n, b);
    StillTraced(u, t.inodes, t.owner);
    assert b in t.owner && t.owner[b] == (i, n);
    hide Grown, BitmapAgrees, Traced, Allocated, SetWord;
  }

  /** The indirect block of inode `i`, allocated first if there is none. */
  method IndirectRoot(sb: Superblock, s: Fs, i: nat) returns (t: Fs, root: nat, ok: bool, ghost bits: set<nat>)
    requires Owned(sb, s) && i < |s.inodes|
    ensures t.base == s.base
    ensures Slot(s.disk, s.inodes[i], ROOT) != 0 ==> ok && t == s
    ensures ValidSuperblock(sb) && |s.disk| == sb.size
    ensures ok <==> FreeBlocks(sb, s.disk) >= if Slot(s.disk, s.inodes[i], ROOT) == 0 then 1 else 0
    ensures ok ==> Owned(sb, t) && 0 < root < sb.size
    ensures ok ==> root == t.inodes[i].addrs[NDIRECT] == Slot(t.disk, t.inodes[i], ROOT)
    ensures ok ==> Grown(sb, s.disk, s.inodes, t.disk, t.inodes, i, {ROOT})
    ensures ok ==> t.logged <= s.logged + bits + {root}
    ensures ok ==> |t.disk| == sb.size
    ensures ok ==>
              FreeBlocks(sb, t.disk) == FreeBlocks(sb, s.disk) - if Slot(s.disk, s.inodes[i], ROOT) == 0 then 1 else 0
    ensures |bits| <= if Slot(s.disk, s.inodes[i], ROOT) == 0 then 1 else 0
    ensures !ok ==> t == s
  {
    hide FreeBlocks;
    OwnedFits(sb, s);
    t, bits, ok := s, {}, true;
    root := s.inodes[i].addrs[NDIRECT];
    if root == 0 {
      t, root, ok := AllocAddr(sb, s, i, NDIRECT);
      bits := {BBlock(sb, root)};
    }
  }

  /** The block in entry `n` of the indirect block of inode `i`, allocated first if there is none. */
  method IndirectEntry(sb: Superblock, s: Fs, i: nat, n: nat)
    returns (t: Fs, addr: nat, ok: bool, ghost bits: set<nat>)
    requires Owned(sb, s) && i < |s.inodes| && NDIRECT <= n < MAXFILE && Slot(s.disk, s.inodes[i], ROOT) != 0
    ensures t.base == s.base
    ensures Slot(s.disk, s.inodes[i], n) != 0 ==> ok && t == s
    ensures ValidSuperblock(sb) && |s.disk| == sb.size
    ensures ok <==> FreeBlocks(sb, s.disk) >= if Slot(s.disk, s.inodes[i], n) == 0 then 1 else 0
    ensures ok ==> Owned(sb, t) && addr == Slot(t.disk, t.inodes[i], n) && 0 < addr < sb.size && t.inodes == s.inodes
    ensures ok ==> Grown(sb, s.disk, s.inodes, t.disk, t.inodes, i, {n})
    ensures ok ==> t.logged <= s.logged + bits + {addr, t.inodes[i].addrs[NDIRECT]}
    ensures ok ==> |t.disk| == sb.size
    ensures ok ==> FreeBlocks(sb, t.disk) == FreeBlocks(sb, s.disk) - if Slot(s.disk, s.inodes[i], n) == 0 then 1 else 0
    ensures |bits| <= if Slot(s.disk, s.inodes[i], n) == 0 then 1 else 0
    ensures !ok ==> t == s
  {
    hide FreeBlocks;
    OwnedFits(sb, s);
    t, bits, ok := s, {}, true;
    addr := Word(s.disk[s.inodes[i].addrs[NDIRECT]], n - NDIRECT);
    assert addr == Slot(s.disk, s.inodes[i], n);
    if addr == 0 {
      t, addr, ok := AllocEntry(sb, s, i, n);
      bits := {BBlock(sb, addr)};
    } else {
      assert addr in s.owner;
    }
  }

  /** Where `bmap` stops when the disk is full: nothing has happened, or the indirect block has been made. */
  ghost predicate HalfMapped(sb: Superblock, s: Fs, t: Fs, i: nat) {
    match t case Fs(e, jnodes, _, _, _, _) =>
    && Owned(sb, t) && ValidFs(sb, s.disk, s.inodes) && ValidFs(sb, e, jnodes) && i < |s.inodes|
    && (t == s || Grown(sb, s.disk, s.inodes, e, jnodes, i, {ROOT})) && FreeBlocks(sb, e) == 0
  }

  /** The indirect case of `Bmap`. */
  method BmapIndirect(sb: Superblock, s: Fs, i: nat, bn: nat)
    returns (t: Fs, addr: nat, ok: bool, ghost bits: set<nat>)
    requires Owned(sb, s) && i < |s.inodes| && NDIRECT <= bn < MAXFILE
    ensures t.base == s.base
    ensures Slot(s.disk, s.inodes[i], bn) != 0 ==> ok && t == s
    ensures ValidSuperblock(sb) && |s.disk| == sb.size
    ensures ok <==> FreeBlocks(sb, s.disk) >= Missing(s.disk, s.inodes[i], bn)
    ensures ok ==> Owned(sb, t) && addr == Slot(t.disk, t.inodes[i], bn) && 0 < addr < sb.size
    ensures ok ==> Grown(sb, s.disk, s.inodes, t.disk, t.inodes, i, {ROOT} + {bn})
    ensures ok ==> ChunkCost(s.disk, s.inodes[i], t.inodes[i], bn, s.logged, t.logged, bits, addr)
    ensures ok ==> |t.disk| == sb.size
    ensures ok ==> FreeBlocks(sb, t.disk) == FreeBlocks(sb, s.disk) - Missing(s.disk, s.inodes[i], bn)
    ensures !ok ==> HalfMapped(sb, s, t, i)
  {
    hide FreeBlocks, Owned, Grown, Slot, ChunkCost, OwnInv, Traced;
    OwnedMeans(sb, s);
    EntryNeedsRoot(s.disk, s.inodes[i], bn);
    var root;
    t, root, ok, bits := IndirectRoot(sb, s, i);
    if !ok { return t, 0, ok, bits; }
    ghost var u, bits1 := t, bits;
    OwnedMeans(sb, u);
    GrownElsewhere(sb, s.disk, s.inodes, u.disk, u.inodes, i, {ROOT}, bn);
    t, addr, ok, bits := IndirectEntry(sb, t, i, bn);
    if ok {
      OwnedMeans(sb, t);
      JoinCost(s.disk, s.inodes[i], t.inodes[i], bn, s.logged, u.logged, t.logged, bits1, bits, addr);
      GrownTrans(sb, s.disk, s.inodes, u.disk, u.inodes, t.disk, t.inodes, i, {ROOT}, {bn});
    }
    bits := bits1 + bits;
  }

  /** What the two halves of the indirect case log. */
  lemma JoinCost(d: Disk, ip: Inode, jp: Inode, bn: nat, l0: set<nat>, l1: set<nat>, l2: set<nat>, b1: set<nat>,
                 b2: set<nat>, addr: nat)
    requires |ip.addrs| == NDIRECT + 1 && |jp.addrs| == NDIRECT + 1 && NDIRECT <= bn < MAXFILE
    requires l1 <= l0 + b1 + {jp.addrs[NDIRECT]} && l2 <= l1 + b2 + {addr, jp.addrs[NDIRECT]}
    requires |b1| <= (if Slot(d, ip, ROOT) == 0 then 1 else 0) && |b2| <= (if Slot(d, ip, bn) == 0 then 1 else 0)
    ensures ChunkCost(d, ip, jp, bn, l0, l2, b1 + b2, addr)
  {
    JoinLogged(l0, l1, l2, b1, b2, jp.addrs[NDIRECT], addr);
    hide Slot;
  }

  lemma EntryNeedsRoot(d: Disk, ip: Inode, n: nat)
    requires |ip.addrs| == NDIRECT + 1 && NDIRECT <= n < MAXFILE
    ensures Slot(d, ip, ROOT) == 0 ==> Slot(d, ip, n) == 0
  {}

  lemma GrownElsewhere(sb: Superblock, d: Disk, inodes: seq<Inode>, e: Disk, jnodes: seq<Inode>, i: nat,
                       added: set<nat>, n: nat)
    requires ValidFs(sb, d, inodes) && ValidFs(sb, e, jnodes) && i < |inodes| && n <= ROOT && n !in added
    requires Grown(sb, d, inodes, e, jnodes, i, added)
    ensures |jnodes| == |inodes| && Slot(e, jnodes[i], n) == Slot(d, inodes[i], n)
  {
    hide Slot, DataAt;
  }

  /** A slot that is there is a block of the device. */
  lemma SlotThere(sb: Superblock, s: Fs, i: nat, n: nat)
    requires Owned(sb, s) && i < |s.inodes| && n <= ROOT && Slot(s.disk, s.inodes[i], n) != 0
    ensures 0 < Slot(s.disk, s.inodes[i], n) < sb.size
  {
    assert Slot(s.disk, s.inodes[i], n) in s.owner;
    hide Slot, BitmapAgrees;
  }

  lemma GrownNone(sb: Superblock, d: Disk, inodes: seq<Inode>, i: nat, n: nat)
    requires ValidFs(sb, d, inodes) && i < |inodes| && n < MAXFILE && Slot(d, inodes[i], n) != 0
    requires n >= NDIRECT ==> Slot(d, inodes[i], ROOT) != 0
    ensures Grown(sb, d, inodes, d, inodes, i, SlotsFor(n))
  {
    hide Slot, DataAt;
  }

  /** The block of slot `bn` of inode `i`, allocated first if there is none.  Allocation shows in no file:
      the data of every slot reads as before.  It panics exactly when too few blocks are free, or `bn` is out of
      range.  `bits` are the bitmap blocks it logged. */
  method Bmap(sb: Superblock, s: Fs, i: nat, bn: nat) returns (t: Fs, addr: nat, ok: bool, ghost bits: set<nat>)
    requires Owned(sb, s) && i < |s.inodes|
    ensures t.base == s.base
    ensures bn >= MAXFILE ==> !ok && t == s
    ensures bn < MAXFILE && Slot(s.disk, s.inodes[i], bn) != 0 ==> ok && t == s
    ensures ValidSuperblock(sb) && |s.disk| == sb.size
    ensures bn < MAXFILE ==> (ok <==> FreeBlocks(sb, s.disk) >= Missing(s.disk, s.inodes[i], bn))
    ensures ok ==> Owned(sb, t) && addr == Slot(t.disk, t.inodes[i], bn) && 0 < addr < sb.size
    ensures ok ==> Grown(sb, s.disk, s.inodes, t.disk, t.inodes, i, SlotsFor(bn))
    ensures ok ==> ChunkCost(s.disk, s.inodes[i], t.inodes[i], bn, s.logged, t.logged, bits, addr)
    ensures ok ==> |t.disk| == sb.size
    ensures ok ==> FreeBlocks(sb, t.disk) == FreeBlocks(sb, s.disk) - Missing(s.disk, s.inodes[i], bn)
    ensures bn < MAXFILE && !ok ==> HalfMapped(sb, s, t, i)
  {
    hide FreeBlocks, Owned, Grown;
    OwnedMeans(sb, s);
    t, addr, ok, bits := s, 0, false, {};
    if bn < NDIRECT {
      ok := true;
      addr := s.inodes[i].addrs[bn];
      if addr == 0 {
        t, addr, ok := AllocAddr(sb, s, i, bn);
        bits := {BBlock(sb, addr)};
      } else {
        assert addr == Slot(s.disk, s.inodes[i], bn);
        SlotThere(sb, s, i, bn);
        GrownNone(sb, s.disk, s.inodes, i, bn);
      }
    } else if bn - NDIRECT < NINDIRECT {
      t, addr, ok, bits := BmapIndirect(sb, s, i, bn);
    }
  }

  /** The block with the fields of `ip` stored in position `s` of it: they read back as `ip`, and the
      inodes in the other positions read as before. */
  method EncodeDinode(sb: Superblock, b: Block, s: nat, ip: Inode) returns (r: Block)
    requires s < 8 && ValidInode(sb, ip) && IsWord(sb.size)
    ensures DinodeAt(r, s) == ip
    ensures forall t: nat :: t < 8 && t != s ==> DinodeAt(r, t) == DinodeAt(b, t)
  {
    var k := 0;
    r := b;
    while k < 16
      invariant 0 <= k <= 16
      invariant forall w :: 0 <= w < k ==> Word(r, 16 * s + w) == DinodeWord(ip, w)
      invariant forall w: nat :: w < BSIZE / 4 && !(16 * s <= w < 16 * s + 16) ==> Word(r, w) == Word(b, w)
    {
      ghost var q := r;
      r := SetWord(r, 16 * s + k, DinodeWord(ip, k));
      forall w: nat | w < BSIZE / 4
        ensures Word(r, w) == if w == 16 * s + k then DinodeWord(ip, k) else Word(q, w)
      {
        WordSetWord(q, 16 * s + k, DinodeWord(ip, k), w);
      }
      k := k + 1;
    }
    DinodeRoundTrip(sb, r, s, ip);
    forall t: nat | t < 8 && t != s
      ensures DinodeAt(r, t) == DinodeAt(b, t)
    {
      DinodeUnchanged(b, r, t);
    }
  }

  /** All slots and all data are the same on both disks. */
  ghost predicate SameFiles(sb: Superblock, d: Disk, e: Disk, inodes: seq<Inode>)
    requires ValidFs(sb, d, inodes) && ValidFs(sb, e, inodes)
  {
    && (forall j, m :: 0 <= j < |inodes| && 0 <= m <= ROOT ==> Slot(e, inodes[j], m) == Slot(d, inodes[j], m))
    && (forall j, m :: 0 <= j < |inodes| && 0 <= m < MAXFILE ==> DataAt(e, inodes[j], m) == DataAt(d, inodes[j], m))
  }

  /** From `s` to `t` the disk copy of inode `i` became the cached one; no other disk inode, no slot and no
      data moved. */
  ghost predicate InodeUpdated(sb: Superblock, s: Fs, t: Fs, i: nat) {
    match t case Fs(e, jnodes, owner, _, _, _) =>
    && ValidFs(sb, s.disk, s.inodes) && ValidFs(sb, e, jnodes) && jnodes == s.inodes && owner == s.owner && i < |jnodes|
    && SameFiles(sb, s.disk, e, jnodes) && WrittenThrough(sb, e, jnodes, i)
    && (forall j :: 0 <= j < |jnodes| && j != i ==>
          DinodeAt(e[IBlock(sb, j)], j % 8) == DinodeAt(s.disk[IBlock(sb, j)], j % 8))
  }

  method Iupdate(sb: Superblock, s: Fs, i: nat) returns (t: Fs)
    requires Owned(sb, s) && i < |s.inodes|
    ensures Owned(sb, t) && InodeUpdated(sb, s, t, i)
    ensures t.logged == s.logged + {IBlock(sb, i)} && t.base == s.base
    ensures t.writes == s.writes + [Change(IBlock(sb, i), t.disk[IBlock(sb, i)])]
  {
    assert IBlock(sb, i) < sb.bmapstart;
    var bp := EncodeDinode(sb, s.disk[IBlock(sb, i)], i % 8, s.inodes[i]);
    PutInodeBlock(sb, s.disk, s.inodes, s.owner, IBlock(sb, i), bp);
    t := LogWrite(s, IBlock(sb, i), bp);
    forall j | 0 <= j < |s.inodes| && j != i
      ensures DinodeAt(t.disk[IBlock(sb, j)], j % 8) == DinodeAt(s.disk[IBlock(sb, j)], j % 8)
    {
      if IBlock(sb, j) == IBlock(sb, i) { assert j % 8 != i % 8; }
    }
  }

  // ---- reading ----

  /** One turn of the loop of `readi`: bytes of the file within one block, without any change. */
  method ReadChunk(sb: Superblock, s: Fs, i: nat, off: nat, m: nat) returns (t: Fs, piece: seq<byte>)
    requires Owned(sb, s) && i < |s.inodes| && Dense(s.disk, s.inodes[i])
    requires 0 < m && off % BSIZE + m <= BSIZE && off + m <= s.inodes[i].size
    ensures t == s && piece == Content(s.disk, s.inodes[i])[off..off + m]
  {
    DenseSlot(s.disk, s.inodes[i], off);
    var b, ok;
    ghost var bits;
    t, b, ok, bits := Bmap(sb, s, i, off / BSIZE);
    ContentInBlock(s.disk, s.inodes[i], off, m);
    piece := t.disk[b][off % BSIZE..off % BSIZE + m];
  }

  lemma SliceJoin(c: seq<byte>, a: nat, b: nat, d: nat)
    requires a <= b <= d <= |c|
    ensures c[a..b] + c[b..d] == c[a..d]
  {}

  /** The loop of `readi`. */
  method ReadRange(sb: Superblock, s: Fs, i: nat, off: nat, n: nat) returns (t: Fs, dst: seq<byte>)
    requires Owned(sb, s) && i < |s.inodes| && Dense(s.disk, s.inodes[i]) && off + n <= s.inodes[i].size
    ensures t == s && dst == Content(s.disk, s.inodes[i])[off..off + n]
  {
    t, dst := s, [];
    var tot := 0;
    ghost var c := Content(s.disk, s.inodes[i]);
    hide Owned, Dense;
    while tot < n
      invariant 0 <= tot <= n && t == s && dst == c[off..off + tot]
    {
      var m := Chunk(off + tot, n - tot);
      var piece;
      t, piece := ReadChunk(sb, t, i, off + tot, m);
      SliceJoin(c, off, off + tot, off + tot + m);
      dst := dst + piece;
      tot := tot + m;
    }
  }

  /** `readi`: exactly the requested bytes, clipped to the size, across direct and indirect blocks.
      Although it goes through `bmap`, it neither allocates nor logs. */
  method Readi(sb: Superblock, s: Fs, i: nat, off: nat, n: nat) returns (t: Fs, r: Outcome, dst: seq<byte>)
    requires Valid(sb, s) && i < |s.inodes| && off < UINT && n < UINT
    ensures t == s && !r.Panic?
    ensures r.ToDevice? <==> s.inodes[i].typ == T_DEV
    ensures r.Fail? <==> s.inodes[i].typ != T_DEV && (off > s.inodes[i].size || off + n >= UINT)
    ensures r.Count? ==> off <= s.inodes[i].size <= MAXFILE * BSIZE && r.n == Min(n, s.inodes[i].size - off)
    ensures r.Count? ==> dst == Content(s.disk, s.inodes[i])[off..off + r.n]
    ensures !r.Count? ==> dst == []
  {
    t, dst := s, [];
    if s.inodes[i].typ == T_DEV { return t, ToDevice, dst; }
    if off > s.inodes[i].size || WrapsAround(off, n) { return t, Fail, dst; }
    assert Dense(s.disk, s.inodes[i]);
    var len := if off + n > s.inodes[i].size then s.inodes[i].size - off else n;
    t, dst := ReadRange(sb, t, i, off, len);
    r := Count(len);
  }
}
