/** Inodes, the blocks they own, and the free bitmap: the layout and the invariants of the file system
    that survive every operation on it. */
module Inodes {
  import opened Basics
  import opened Blocks

  const NDIRECT: nat := 12
  const NINDIRECT: nat := 128
  const MAXFILE: nat := 140

  /** Each inode has a slot per data block, and one more for its indirect block. */
  const ROOT: nat := 140

  /** `nmeta` is the number of blocks before the data area: boot, super block, log, inodes, bitmap. */
  datatype Superblock = Superblock(size: nat, ninodes: nat, inodestart: nat, bmapstart: nat, nmeta: nat)

  datatype Inode = Inode(typ: nat, major: nat, minor: nat, nlink: nat, size: nat, addrs: seq<nat>)

  /** The block of the bitmap holding the bit of block `b`. */
  function BBlock(sb: Superblock, b: nat): nat { b / BPB + sb.bmapstart }

  /** The block holding inode `i`. */
  function IBlock(sb: Superblock, i: nat): nat { i / 8 + sb.inodestart }

  ghost predicate ValidSuperblock(sb: Superblock) {
    && sb.nmeta <= sb.size && IsWord(sb.size)
    && (forall i: nat {:trigger IBlock(sb, i)} :: i < sb.ninodes ==> IBlock(sb, i) < sb.bmapstart)
    && (forall b: nat {:trigger BBlock(sb, b)} :: b < sb.size ==> BBlock(sb, b) < sb.nmeta)
    && 0 < sb.nmeta && sb.bmapstart <= sb.nmeta
  }

  ghost predicate ValidInode(sb: Superblock, ip: Inode) {
    && |ip.addrs| == NDIRECT + 1
    && ip.typ < 0x1_0000 && ip.major < 0x1_0000 && ip.minor < 0x1_0000 && ip.nlink < 0x1_0000
    && IsWord(ip.size)
    && forall n :: 0 <= n <= NDIRECT ==> ip.addrs[n] < sb.size
  }

  ghost predicate ValidFs(sb: Superblock, d: Disk, inodes: seq<Inode>) {
    && ValidSuperblock(sb) && |d| == sb.size && |inodes| == sb.ninodes
    && forall i :: 0 <= i < |inodes| ==> ValidInode(sb, inodes[i])
  }

  /** The block in slot `n` of an inode, 0 if there is none. */
  function Slot(d: Disk, ip: Inode, n: nat): nat
    requires |ip.addrs| == NDIRECT + 1 && n <= ROOT
  {
    if n < NDIRECT then ip.addrs[n]
    else if n == ROOT then ip.addrs[NDIRECT]
    else if 0 < ip.addrs[NDIRECT] < |d| then Word(d[ip.addrs[NDIRECT]], n - NDIRECT)
    else 0
  }

  predicate Marked(sb: Superblock, d: Disk, b: nat)
    requires b < |d| && BBlock(sb, b) < |d|
  {
    Bit(d[BBlock(sb, b)], b % BPB)
  }

  /** `owner` names for each block in use the inode and slot that hold it, and is exactly the inverse of
      `Slot`: so no block is in two slots. */
  ghost predicate OwnersAgree(sb: Superblock, d: Disk, inodes: seq<Inode>, owner: map<nat, (nat, nat)>)
    requires ValidFs(sb, d, inodes)
  {
    && (forall i, n :: 0 <= i < |inodes| && 0 <= n <= ROOT && Slot(d, inodes[i], n) != 0 ==>
          Slot(d, inodes[i], n) in owner && owner[Slot(d, inodes[i], n)] == (i, n))
    && (forall b :: b in owner ==>
          && sb.nmeta <= b < sb.size
          && owner[b].0 < |inodes| && owner[b].1 <= ROOT
          && Slot(d, inodes[owner[b].0], owner[b].1) == b)
  }

  /** The set bits are the metadata blocks and the owned blocks, no others. */
  ghost predicate BitmapAgrees(sb: Superblock, d: Disk, owner: map<nat, (nat, nat)>)
    requires ValidSuperblock(sb) && |d| == sb.size
  {
    forall b: nat :: b < sb.size ==> Marked(sb, d, b) == (b < sb.nmeta || b in owner)
  }

  /** What holds at every moment, even inside `bmap`. */
  ghost predicate OwnInv(sb: Superblock, d: Disk, inodes: seq<Inode>, owner: map<nat, (nat, nat)>) {
    ValidFs(sb, d, inodes) && OwnersAgree(sb, d, inodes, owner) && BitmapAgrees(sb, d, owner)
  }

  /** A file has no holes: data block `n` exists exactly when it lies below the size, the indirect block
      exactly when some data block needs it. */
  ghost predicate Dense(d: Disk, ip: Inode)
    requires |ip.addrs| == NDIRECT + 1
  {
    DenseTo(d, ip, ip.size)
  }

  ghost predicate DenseTo(d: Disk, ip: Inode, size: nat)
    requires |ip.addrs| == NDIRECT + 1
  {
    && size <= MAXFILE * BSIZE
    && (forall n :: 0 <= n < MAXFILE ==> (Slot(d, ip, n) != 0) == (n * BSIZE < size))
    && ((Slot(d, ip, ROOT) != 0) == (NDIRECT * BSIZE < size))
  }

  // ---- the on-disk inode: sixteen words, eight inodes to a block ----

  function WordsFrom(b: Block, j: nat, n: nat): (ws: seq<nat>)
    requires j + n <= BSIZE / 4
    ensures |ws| == n && forall k :: 0 <= k < n ==> ws[k] == Word(b, j + k)
    decreases n
  {
    if n == 0 then [] else [Word(b, j)] + WordsFrom(b, j + 1, n - 1)
  }

  function DinodeAt(b: Block, s: nat): (ip: Inode)
    requires s < 8
  {
    Inode(Word(b, 16 * s) % 0x1_0000, Word(b, 16 * s) / 0x1_0000,
          Word(b, 16 * s + 1) % 0x1_0000, Word(b, 16 * s + 1) / 0x1_0000,
          Word(b, 16 * s + 2),
          WordsFrom(b, 16 * s + 3, NDIRECT + 1))
  }

  ghost predicate WrittenThrough(sb: Superblock, d: Disk, inodes: seq<Inode>, i: nat)
    requires ValidFs(sb, d, inodes) && i < sb.ninodes
  {
    DinodeAt(d[IBlock(sb, i)], i % 8) == inodes[i]
  }

  /** What holds between operations. */
  ghost predicate FsInv(sb: Superblock, d: Disk, inodes: seq<Inode>, owner: map<nat, (nat, nat)>) {
    && OwnInv(sb, d, inodes, owner)
    && (forall i :: 0 <= i < |inodes| ==> Dense(d, inodes[i]))
    && (forall i :: 0 <= i < |inodes| ==> WrittenThrough(sb, d, inodes, i))
  }

  /** The data in slot `n` of an inode; a slot without a block reads as zeroes. */
  function DataAt(d: Disk, ip: Inode, n: nat): Block
    requires |ip.addrs| == NDIRECT + 1 && n < MAXFILE
  {
    var b := Slot(d, ip, n);
    if 0 < b < |d| then d[b] else ZeroBlock()
  }

  /** The bytes of a file. */
  function Content(d: Disk, ip: Inode): (c: seq<byte>)
    requires |ip.addrs| == NDIRECT + 1 && ip.size <= MAXFILE * BSIZE
    ensures |c| == ip.size
  {
    seq(ip.size, k requires 0 <= k < ip.size => DataAt(d, ip, k / BSIZE)[k % BSIZE])
  }

  function ByteAt(d: Disk, ip: Inode, k: nat): byte
    requires |ip.addrs| == NDIRECT + 1 && k < MAXFILE * BSIZE
  {
    DataAt(d, ip, k / BSIZE)[k % BSIZE]
  }

  /** A byte below the size of a dense file is in a block the file has. */
  lemma DenseSlot(d: Disk, ip: Inode, k: nat)
    requires |ip.addrs| == NDIRECT + 1 && Dense(d, ip) && k < ip.size
    ensures k / BSIZE < MAXFILE && Slot(d, ip, k / BSIZE) != 0
  {}

  /** Within one block a file is the data of that block. */
  lemma ContentInBlock(d: Disk, ip: Inode, off: nat, m: nat)
    requires |ip.addrs| == NDIRECT + 1 && ip.size <= MAXFILE * BSIZE
    requires off % BSIZE + m <= BSIZE && off + m <= ip.size && 0 < m
    ensures Content(d, ip)[off..off + m] == DataAt(d, ip, off / BSIZE)[off % BSIZE..off % BSIZE + m]
  {
    var c, b := Content(d, ip)[off..off + m], DataAt(d, ip, off / BSIZE)[off % BSIZE..off % BSIZE + m];
    forall k | 0 <= k < m
      ensures c[k] == b[k]
    {
      assert (off + k) / BSIZE == off / BSIZE && (off + k) % BSIZE == off % BSIZE + k;
    }
  }

  /** `src[..tot]` has been written at `off`, every other byte the inode can address is as before. */
  ghost predicate Written(d: Disk, ip: Inode, e: Disk, jp: Inode, off: nat, src: seq<byte>, tot: nat)
    requires |ip.addrs| == NDIRECT + 1 && |jp.addrs| == NDIRECT + 1 && tot <= |src|
  {
    forall k: nat :: k < MAXFILE * BSIZE ==>
      ByteAt(e, jp, k) == if off <= k < off + tot then src[k - off] else ByteAt(d, ip, k)
  }

  /** The file with `src` written at `off`. */
  function Splice(c: seq<byte>, off: nat, src: seq<byte>): seq<byte>
    requires off <= |c|
  {
    c[..off] + src + if off + |src| <= |c| then c[off + |src|..] else []
  }

  function Overwrite(data: Block, o: nat, piece: seq<byte>): (r: Block)
    requires o + |piece| <= BSIZE
    ensures r == Splice(data, o, piece)
  {
    data[..o] + piece + data[o + |piece|..]
  }

  /** Bytes written through the slots are bytes written to the file. */
  lemma WrittenIsSplice(d: Disk, ip: Inode, e: Disk, jp: Inode, off: nat, src: seq<byte>)
    requires |ip.addrs| == NDIRECT + 1 && |jp.addrs| == NDIRECT + 1
    requires ip.size <= MAXFILE * BSIZE && off <= ip.size && off + |src| <= MAXFILE * BSIZE
    requires jp.size == if off + |src| > ip.size then off + |src| else ip.size
    requires Written(d, ip, e, jp, off, src, |src|)
    ensures Content(e, jp) == Splice(Content(d, ip), off, src)
  {
    var c, c' := Content(d, ip), Content(e, jp);
    forall k | 0 <= k < jp.size
      ensures c'[k] == Splice(c, off, src)[k]
    {
      assert c'[k] == ByteAt(e, jp, k);
      if k < ip.size { assert c[k] == ByteAt(d, ip, k); }
    }
  }

  /** Overwriting part of one block writes those bytes. */
  lemma BlockWritten(d: Disk, ip: Inode, e: Disk, jp: Inode, off: nat, piece: seq<byte>)
    requires |ip.addrs| == NDIRECT + 1 && |jp.addrs| == NDIRECT + 1
    requires 0 < |piece| && off % BSIZE + |piece| <= BSIZE && off / BSIZE < MAXFILE
    requires forall n :: 0 <= n < MAXFILE && n != off / BSIZE ==> DataAt(e, jp, n) == DataAt(d, ip, n)
    requires DataAt(e, jp, off / BSIZE) == Splice(DataAt(d, ip, off / BSIZE), off % BSIZE, piece)
    ensures Written(d, ip, e, jp, off, piece, |piece|)
  {
    forall k: nat | k < MAXFILE * BSIZE
      ensures ByteAt(e, jp, k) == if off <= k < off + |piece| then piece[k - off] else ByteAt(d, ip, k)
    {
      assert off <= k < off + |piece| ==> k / BSIZE == off / BSIZE;
    }
  }

  lemma WrittenTrans(d: Disk, ip: Inode, e: Disk, jp: Inode, f: Disk, kp: Inode, off: nat, src: seq<byte>, tot: nat,
                     m: nat)
    requires |ip.addrs| == NDIRECT + 1 && |jp.addrs| == NDIRECT + 1 && |kp.addrs| == NDIRECT + 1 && tot + m <= |src|
    requires Written(d, ip, e, jp, off, src, tot) && Written(e, jp, f, kp, off + tot, src[tot..tot + m], m)
    ensures Written(d, ip, f, kp, off, src, tot + m)
  {
    hide DataAt;
  }

  // ---- allocation ----

  /** The disk after `balloc` returned `b`: its bit set and its contents zeroed. */
  function Allocated(sb: Superblock, d: Disk, b: nat): (r: Disk)
    requires b < |d| && BBlock(sb, b) < |d|
    ensures |r| == |d|
  {
    d[BBlock(sb, b) := SetBit(d[BBlock(sb, b)], b % BPB)][b := ZeroBlock()]
  }

  /** Blocks of equal position in the bitmap are the same block. */
  lemma BitPositions(sb: Superblock, b: nat, c: nat)
    requires BBlock(sb, b) == BBlock(sb, c) && b % BPB == c % BPB
    ensures b == c
  {}

  lemma AllocatedMarks(sb: Superblock, d: Disk, b: nat, c: nat)
    requires ValidSuperblock(sb) && |d| == sb.size && sb.nmeta <= b < sb.size && c < sb.size
    ensures Marked(sb, Allocated(sb, d, b), c) <==> c == b || Marked(sb, d, c)
  {
    assert BBlock(sb, b) < sb.nmeta && BBlock(sb, c) < sb.nmeta;
    if BBlock(sb, b) == BBlock(sb, c) {
      BitUpdate(d[BBlock(sb, b)], b % BPB, c % BPB);
      if b % BPB == c % BPB { BitPositions(sb, b, c); }
    }
  }

  /** A block nobody owns can be allocated without any slot or data changing. */
  lemma AllocatedKeepsSlots(sb: Superblock, d: Disk, inodes: seq<Inode>, owner: map<nat, (nat, nat)>, b: nat)
    requires OwnInv(sb, d, inodes, owner) && sb.nmeta <= b < sb.size && b !in owner
    ensures ValidFs(sb, Allocated(sb, d, b), inodes)
    ensures forall i, n :: 0 <= i < |inodes| && 0 <= n <= ROOT ==>
              Slot(Allocated(sb, d, b), inodes[i], n) == Slot(d, inodes[i], n)
    ensures forall i, n :: 0 <= i < |inodes| && 0 <= n < MAXFILE ==>
              DataAt(Allocated(sb, d, b), inodes[i], n) == DataAt(d, inodes[i], n)
  {
    var e := Allocated(sb, d, b);
    assert BBlock(sb, b) < sb.nmeta;
    assert forall x :: sb.nmeta <= x < sb.size && x != b ==> e[x] == d[x];
    forall i, n | 0 <= i < |inodes| && 0 <= n <= ROOT
      ensures Slot(e, inodes[i], n) == Slot(d, inodes[i], n)
      ensures n < MAXFILE ==> DataAt(e, inodes[i], n) == DataAt(d, inodes[i], n)
    {
      var r := Slot(d, inodes[i], ROOT);
      assert r != 0 ==> r in owner;
      var x := Slot(d, inodes[i], n);
      assert x != 0 ==> x in owner;
    }
  }

  function WithAddr(ip: Inode, n: nat, b: nat): Inode
    requires n < |ip.addrs|
  {
    ip.(addrs := ip.addrs[n := b])
  }

  /** From one state to the next, inode `i` got blocks for the slots `added`; every other slot holds what
      it held, no other inode changed, and nothing in the blocks before the bitmap. */
  ghost predicate SlotsGrown(sb: Superblock, d: Disk, inodes: seq<Inode>, e: Disk, jnodes: seq<Inode>, i: nat,
                             added: set<nat>)
    requires ValidFs(sb, d, inodes) && ValidFs(sb, e, jnodes) && i < |inodes|
  {
    && (forall j :: 0 <= j < |inodes| && j != i ==> jnodes[j] == inodes[j])
    && jnodes[i] == inodes[i].(addrs := jnodes[i].addrs)
    && (forall j, n :: 0 <= j < |inodes| && 0 <= n <= ROOT && Slot(d, inodes[j], n) != 0 ==>
          Slot(e, jnodes[j], n) == Slot(d, inodes[j], n))
    && (forall j, n :: 0 <= j < |inodes| && 0 <= n <= ROOT && j != i ==> Slot(e, jnodes[j], n) == Slot(d, inodes[j], n))
    && (forall n: nat :: n <= ROOT && n !in added ==> Slot(e, jnodes[i], n) == Slot(d, inodes[i], n))
    && (forall n: nat :: n <= ROOT && n in added ==> Slot(e, jnodes[i], n) != 0)
    && (forall x :: 0 <= x < sb.bmapstart ==> e[x] == d[x])
  }

  /** The slots grew without any data changing: what was added reads as zeroes, as it did before. */
  ghost predicate Grown(sb: Superblock, d: Disk, inodes: seq<Inode>, e: Disk, jnodes: seq<Inode>, i: nat,
                        added: set<nat>)
    requires ValidFs(sb, d, inodes) && ValidFs(sb, e, jnodes) && i < |inodes|
  {
    && SlotsGrown(sb, d, inodes, e, jnodes, i, added)
    && (forall j, n :: 0 <= j < |inodes| && 0 <= n < MAXFILE ==> DataAt(e, jnodes[j], n) == DataAt(d, inodes[j], n))
  }

  lemma GrownTrans(sb: Superblock, d: Disk, inodes: seq<Inode>, e: Disk, jnodes: seq<Inode>, f: Disk,
                   knodes: seq<Inode>, i: nat, s: set<nat>, t: set<nat>)
    requires ValidFs(sb, d, inodes) && ValidFs(sb, e, jnodes) && ValidFs(sb, f, knodes) && i < |inodes|
    requires Grown(sb, d, inodes, e, jnodes, i, s) && Grown(sb, e, jnodes, f, knodes, i, t)
    ensures Grown(sb, d, inodes, f, knodes, i, s + t)
  {
    hide Slot, DataAt;
  }

  /** Slot `n` of inode `i` now holds `b`, every other slot what it held, and no data changed. */
  ghost predicate SlotSet(sb: Superblock, d: Disk, inodes: seq<Inode>, e: Disk, jnodes: seq<Inode>, i: nat, n: nat,
                          b: nat)
    requires ValidFs(sb, d, inodes) && ValidFs(sb, e, jnodes)
  {
    && (forall j, m :: 0 <= j < |inodes| && 0 <= m <= ROOT ==>
          Slot(e, jnodes[j], m) == if j == i && m == n then b else Slot(d, inodes[j], m))
    && (forall j, m :: 0 <= j < |inodes| && 0 <= m < MAXFILE ==> DataAt(e, jnodes[j], m) == DataAt(d, inodes[j], m))
  }

  lemma SlotSetOwners(sb: Superblock, d: Disk, inodes: seq<Inode>, e: Disk, jnodes: seq<Inode>,
                      owner: map<nat, (nat, nat)>, i: nat, n: nat, b: nat)
    requires ValidFs(sb, d, inodes) && ValidFs(sb, e, jnodes) && i < |inodes| && n <= ROOT
    requires OwnersAgree(sb, d, inodes, owner) && SlotSet(sb, d, inodes, e, jnodes, i, n, b)
    requires sb.nmeta <= b < sb.size && b !in owner && Slot(d, inodes[i], n) == 0
    ensures OwnersAgree(sb, e, jnodes, owner[b := (i, n)])
  {
    hide Slot, DataAt;
  }

  lemma SlotSetGrown(sb: Superblock, d: Disk, inodes: seq<Inode>, e: Disk, jnodes: seq<Inode>, i: nat, n: nat, b: nat)
    requires ValidFs(sb, d, inodes) && ValidFs(sb, e, jnodes) && i < |inodes| && n <= ROOT
    requires SlotSet(sb, d, inodes, e, jnodes, i, n, b) && b != 0 && Slot(d, inodes[i], n) == 0
    requires forall j :: 0 <= j < |inodes| && j != i ==> jnodes[j] == inodes[j]
    requires jnodes[i] == inodes[i].(addrs := jnodes[i].addrs)
    requires forall x :: 0 <= x < sb.bmapstart ==> e[x] == d[x]
    ensures Grown(sb, d, inodes, e, jnodes, i, {n})
  {
    hide Slot, DataAt;
  }

  lemma AllocatedBitmap(sb: Superblock, d: Disk, owner: map<nat, (nat, nat)>, b: nat, at: (nat, nat))
    requires ValidSuperblock(sb) && |d| == sb.size && BitmapAgrees(sb, d, owner) && sb.nmeta <= b < sb.size
    ensures BitmapAgrees(sb, Allocated(sb, d, b), owner[b := at])
  {
    forall c: nat | c < sb.size
      ensures Marked(sb, Allocated(sb, d, b), c) == (c < sb.nmeta || c in owner[b := at])
    {
      AllocatedMarks(sb, d, b, c);
    }
  }

  lemma BitmapIgnoresData(sb: Superblock, d: Disk, owner: map<nat, (nat, nat)>, e: Disk)
    requires ValidSuperblock(sb) && |d| == |e| == sb.size && BitmapAgrees(sb, d, owner)
    requires forall x :: sb.bmapstart <= x < sb.nmeta ==> e[x] == d[x]
    ensures BitmapAgrees(sb, e, owner)
  {
    forall c: nat | c < sb.size
      ensures Marked(sb, e, c) == (c < sb.nmeta || c in owner)
    {
      assert e[BBlock(sb, c)] == d[BBlock(sb, c)];
      assert Marked(sb, d, c) == (c < sb.nmeta || c in owner);
    }
  }

  /** A fresh zeroed block in an empty direct slot, or in the indirect slot, where it reads as 128 empty
      entries. */
  lemma AddrSlotSet(sb: Superblock, d: Disk, inodes: seq<Inode>, owner: map<nat, (nat, nat)>, i: nat, a: nat, b: nat)
    requires OwnInv(sb, d, inodes, owner) && i < |inodes| && a <= NDIRECT
    requires sb.nmeta <= b < sb.size && b !in owner && inodes[i].addrs[a] == 0
    ensures ValidFs(sb, Allocated(sb, d, b), inodes[i := WithAddr(inodes[i], a, b)])
    ensures SlotSet(sb, d, inodes, Allocated(sb, d, b), inodes[i := WithAddr(inodes[i], a, b)], i, SlotOfAddr(a), b)
  {
    var e, ip := Allocated(sb, d, b), WithAddr(inodes[i], a, b);
    AllocatedKeepsSlots(sb, d, inodes, owner, b);
    assert BBlock(sb, b) < sb.nmeta;
    forall m | 0 <= m <= ROOT
      ensures Slot(e, ip, m) == if m == SlotOfAddr(a) then b else Slot(e, inodes[i], m)
      ensures m < MAXFILE ==> DataAt(e, ip, m) == DataAt(e, inodes[i], m)
    {
      if NDIRECT <= m < ROOT { WordOfZero(m - NDIRECT); }
    }
  }

  function SlotOfAddr(a: nat): nat { if a < NDIRECT then a else ROOT }

  lemma GrowAddr(sb: Superblock, d: Disk, inodes: seq<Inode>, owner: map<nat, (nat, nat)>, i: nat, a: nat, b: nat)
    requires OwnInv(sb, d, inodes, owner) && i < |inodes| && a <= NDIRECT
    requires sb.nmeta <= b < sb.size && b !in owner && inodes[i].addrs[a] == 0
    ensures var e, jnodes := Allocated(sb, d, b), inodes[i := WithAddr(inodes[i], a, b)];
            && OwnInv(sb, e, jnodes, owner[b := (i, SlotOfAddr(a))])
            && Grown(sb, d, inodes, e, jnodes, i, {SlotOfAddr(a)})
  {
    var n, e, jnodes := SlotOfAddr(a), Allocated(sb, d, b), inodes[i := WithAddr(inodes[i], a, b)];
    AddrSlotSet(sb, d, inodes, owner, i, a, b);
    SlotSetOwners(sb, d, inodes, e, jnodes, owner, i, n, b);
    AllocatedBitmap(sb, d, owner, b, (i, n));
    assert BBlock(sb, b) >= sb.bmapstart;
    SlotSetGrown(sb, d, inodes, e, jnodes, i, n, b);
  }

  function WithEntry(d: Disk, r: nat, n: nat, b: nat): Disk
    requires r < |d| && NDIRECT <= n < MAXFILE && IsWord(b)
  {
    d[r := SetWord(d[r], n - NDIRECT, b)]
  }

  /** The indirect block of an inode is the indirect block of no other, and holds no data. */
  lemma RootIsAlone(sb: Superblock, d: Disk, inodes: seq<Inode>, owner: map<nat, (nat, nat)>, i: nat, j: nat, m: nat)
    requires OwnInv(sb, d, inodes, owner) && i < |inodes| && j < |inodes| && m <= ROOT && Slot(d, inodes[i], ROOT) != 0
    requires j != i || m != ROOT
    ensures Slot(d, inodes[j], m) != Slot(d, inodes[i], ROOT) && sb.nmeta <= Slot(d, inodes[i], ROOT) < sb.size
  {
    hide Slot;
    var r := Slot(d, inodes[i], ROOT);
    assert r in owner && owner[r] == (i, ROOT);
  }

  /** Writing entry `n` of the indirect block of inode `i` sets that slot alone. */
  lemma WithEntrySlots(sb: Superblock, d: Disk, inodes: seq<Inode>, owner: map<nat, (nat, nat)>, i: nat, n: nat, b: nat,
                       j: nat, m: nat)
    requires OwnInv(sb, d, inodes, owner) && i < |inodes| && j < |inodes| && NDIRECT <= n < MAXFILE && m <= ROOT
    requires IsWord(b) && Slot(d, inodes[i], ROOT) != 0
    ensures var f := WithEntry(d, inodes[i].addrs[NDIRECT], n, b);
            Slot(f, inodes[j], m) == if j == i && m == n then b else Slot(d, inodes[j], m)
  {
    var r: nat := inodes[i].addrs[NDIRECT];
    if j != i {
      RootIsAlone(sb, d, inodes, owner, i, j, ROOT);
    } else if NDIRECT <= m < ROOT {
      WordSetWord(d[r], n - NDIRECT, b, m - NDIRECT);
    }
  }

  /** A fresh zeroed block in an empty entry of the indirect block. */
  lemma EntrySlotSet(sb: Superblock, d: Disk, inodes: seq<Inode>, owner: map<nat, (nat, nat)>, i: nat, n: nat, b: nat)
    requires OwnInv(sb, d, inodes, owner) && i < |inodes| && NDIRECT <= n < MAXFILE
    requires sb.nmeta <= b < sb.size && b !in owner && Slot(d, inodes[i], ROOT) != 0 && Slot(d, inodes[i], n) == 0
    ensures ValidFs(sb, WithEntry(Allocated(sb, d, b), inodes[i].addrs[NDIRECT], n, b), inodes)
    ensures SlotSet(sb, d, inodes, WithEntry(Allocated(sb, d, b), inodes[i].addrs[NDIRECT], n, b), inodes, i, n, b)
  {
    var r: nat := inodes[i].addrs[NDIRECT];
    var e := WithEntry(d, r, n, b);
    assert r in owner;
    AllocatedKeepsSlots(sb, d, inodes, owner, b);
    var f := WithEntry(Allocated(sb, d, b), r, n, b);
    assert f[r] == e[r];
    forall j, m | 0 <= j < |inodes| && 0 <= m <= ROOT
      ensures Slot(f, inodes[j], m) == if j == i && m == n then b else Slot(d, inodes[j], m)
      ensures m < MAXFILE ==> DataAt(f, inodes[j], m) == DataAt(d, inodes[j], m)
    {
      WithEntrySlots(sb, d, inodes, owner, i, n, b, j, m);
      if j != i { RootIsAlone(sb, d, inodes, owner, i, j, ROOT); }
      if m < MAXFILE { RootIsAlone(sb, d, inodes, owner, i, j, m); }
    }
  }

  lemma GrowEntry(sb: Superblock, d: Disk, inodes: seq<Inode>, owner: map<nat, (nat, nat)>, i: nat, n: nat, b: nat)
    requires OwnInv(sb, d, inodes, owner) && i < |inodes| && NDIRECT <= n < MAXFILE
    requires sb.nmeta <= b < sb.size && b !in owner && Slot(d, inodes[i], ROOT) != 0 && Slot(d, inodes[i], n) == 0
    ensures var f := WithEntry(Allocated(sb, d, b), inodes[i].addrs[NDIRECT], n, b);
            && OwnInv(sb, f, inodes, owner[b := (i, n)])
            && Grown(sb, d, inodes, f, inodes, i, {n})
  {
    var r: nat := inodes[i].addrs[NDIRECT];
    var f := WithEntry(Allocated(sb, d, b), r, n, b);
    EntrySlotSet(sb, d, inodes, owner, i, n, b);
    SlotSetOwners(sb, d, inodes, f, inodes, owner, i, n, b);
    AllocatedBitmap(sb, d, owner, b, (i, n));
    assert Slot(d, inodes[i], ROOT) == r && r in owner;
    BitmapIgnoresData(sb, Allocated(sb, d, b), owner[b := (i, n)], f);
    assert BBlock(sb, b) >= sb.bmapstart;
    SlotSetGrown(sb, d, inodes, f, inodes, i, n, b);
  }

  // ---- writing data and inodes ----

  /** Overwriting the block in a data slot changes the data of that slot and nothing else. */
  lemma PutData(sb: Superblock, d: Disk, inodes: seq<Inode>, owner: map<nat, (nat, nat)>, i: nat, n: nat, data: Block)
    requires OwnInv(sb, d, inodes, owner) && i < |inodes| && n < MAXFILE && Slot(d, inodes[i], n) != 0
    ensures sb.nmeta <= Slot(d, inodes[i], n) < sb.size
    ensures var e := d[Slot(d, inodes[i], n) := data];
            && OwnInv(sb, e, inodes, owner)
            && (forall j, m :: 0 <= j < |inodes| && 0 <= m <= ROOT ==> Slot(e, inodes[j], m) == Slot(d, inodes[j], m))
            && (forall j, m :: 0 <= j < |inodes| && 0 <= m < MAXFILE ==>
                  DataAt(e, inodes[j], m) == if j == i && m == n then data else DataAt(d, inodes[j], m))
  {
    var b := Slot(d, inodes[i], n);
    assert b in owner && owner[b] == (i, n);
    var e := d[b := data];
    forall j, m | 0 <= j < |inodes| && 0 <= m <= ROOT
      ensures Slot(e, inodes[j], m) == Slot(d, inodes[j], m)
    {
      assert Slot(d, inodes[j], ROOT) != b;
    }
    BitmapIgnoresData(sb, d, owner, e);
  }

  /** The data of every other inode is the same. */
  ghost predicate OtherData(sb: Superblock, d: Disk, inodes: seq<Inode>, e: Disk, jnodes: seq<Inode>, i: nat)
    requires ValidFs(sb, d, inodes) && ValidFs(sb, e, jnodes)
  {
    forall j, n :: 0 <= j < |inodes| && j != i && 0 <= n < MAXFILE ==>
      DataAt(e, jnodes[j], n) == DataAt(d, inodes[j], n)
  }

  /** Growing the slots of inode `i` and then writing one of its data blocks. */
  lemma GrowThenPut(sb: Superblock, d: Disk, inodes: seq<Inode>, e: Disk, jnodes: seq<Inode>,
                    owner: map<nat, (nat, nat)>, i: nat, added: set<nat>, n: nat, data: Block)
    requires ValidFs(sb, d, inodes) && OwnInv(sb, e, jnodes, owner) && i < |inodes| && n < MAXFILE
    requires Grown(sb, d, inodes, e, jnodes, i, added) && Slot(e, jnodes[i], n) != 0
    ensures sb.nmeta <= Slot(e, jnodes[i], n) < sb.size
    ensures var f := e[Slot(e, jnodes[i], n) := data];
            && OwnInv(sb, f, jnodes, owner)
            && SlotsGrown(sb, d, inodes, f, jnodes, i, added)
            && OtherData(sb, d, inodes, f, jnodes, i)
            && (forall m :: 0 <= m < MAXFILE ==>
                  DataAt(f, jnodes[i], m) == if m == n then data else DataAt(d, inodes[i], m))
  {
    PutData(sb, e, jnodes, owner, i, n, data);
    hide Slot, DataAt;
  }

  /** Writing a block before the bitmap touches no slot and no data. */
  lemma PutInodeBlock(sb: Superblock, d: Disk, inodes: seq<Inode>, owner: map<nat, (nat, nat)>, x: nat, data: Block)
    requires OwnInv(sb, d, inodes, owner) && x < sb.bmapstart
    ensures OwnInv(sb, d[x := data], inodes, owner)
    ensures forall j, m :: 0 <= j < |inodes| && 0 <= m <= ROOT ==>
              Slot(d[x := data], inodes[j], m) == Slot(d, inodes[j], m)
    ensures forall j, m :: 0 <= j < |inodes| && 0 <= m < MAXFILE ==>
              DataAt(d[x := data], inodes[j], m) == DataAt(d, inodes[j], m)
  {
    var e := d[x := data];
    forall j, m | 0 <= j < |inodes| && 0 <= m <= ROOT
      ensures Slot(e, inodes[j], m) == Slot(d, inodes[j], m)
    {
      var r := Slot(d, inodes[j], ROOT);
      assert r != 0 ==> r in owner;
    }
    BitmapIgnoresData(sb, d, owner, e);
  }

  /** Word `k` of the dinode image of `ip`. */
  function DinodeWord(ip: Inode, k: nat): (w: nat)
    requires |ip.addrs| == NDIRECT + 1 && k < 16
  {
    if k == 0 then ip.typ + 0x1_0000 * ip.major
    else if k == 1 then ip.minor + 0x1_0000 * ip.nlink
    else if k == 2 then ip.size
    else ip.addrs[k - 3]
  }

  lemma Halves(lo: nat, hi: nat)
    requires lo < 0x1_0000
    ensures (lo + 0x1_0000 * hi) % 0x1_0000 == lo && (lo + 0x1_0000 * hi) / 0x1_0000 == hi
  {}

  /** Words that spell out an inode decode to it. */
  lemma DinodeRoundTrip(sb: Superblock, b: Block, s: nat, ip: Inode)
    requires s < 8 && ValidInode(sb, ip)
    requires forall k :: 0 <= k < 16 ==> Word(b, 16 * s + k) == DinodeWord(ip, k)
    ensures DinodeAt(b, s) == ip
  {
    hide Word;
    assert Word(b, 16 * s + 0) == DinodeWord(ip, 0);
    assert Word(b, 16 * s + 1) == DinodeWord(ip, 1);
    assert Word(b, 16 * s + 2) == DinodeWord(ip, 2);
    Halves(ip.typ, ip.major);
    Halves(ip.minor, ip.nlink);
    DinodeAddrs(b, s, ip);
    hide WordsFrom;
  }

  lemma DinodeAddrs(b: Block, s: nat, ip: Inode)
    requires s < 8 && |ip.addrs| == NDIRECT + 1
    requires forall k :: 0 <= k < 16 ==> Word(b, 16 * s + k) == DinodeWord(ip, k)
    ensures WordsFrom(b, 16 * s + 3, NDIRECT + 1) == ip.addrs
  {
    hide Word;
    forall k | 0 <= k <= NDIRECT
      ensures Word(b, 16 * s + 3 + k) == ip.addrs[k]
    {
      assert Word(b, 16 * s + (k + 3)) == DinodeWord(ip, k + 3);
    }
  }

  /** Inodes in other positions of the block do not notice. */
  lemma DinodeUnchanged(b: Block, c: Block, s: nat)
    requires s < 8 && forall k :: 16 * s <= k < 16 * s + 16 ==> Word(c, k) == Word(b, k)
    ensures DinodeAt(c, s) == DinodeAt(b, s)
  {}

  // ---- freeing ----

  /** From `d` to `e` exactly the bits of `freed` were cleared, and only bitmap blocks were written. */
  ghost predicate Freed(sb: Superblock, d: Disk, e: Disk, freed: set<nat>)
    requires ValidSuperblock(sb) && |d| == sb.size
  {
    && |e| == |d|
    && (forall x :: 0 <= x < |d| && !(sb.bmapstart <= x < sb.nmeta) ==> e[x] == d[x])
    && (forall c: nat :: c < sb.size ==> Marked(sb, e, c) == (Marked(sb, d, c) && c !in freed))
  }

  lemma FreeOne(sb: Superblock, d: Disk, e: Disk, freed: set<nat>, b: nat)
    requires ValidSuperblock(sb) && |d| == sb.size && Freed(sb, d, e, freed) && b < sb.size
    ensures Freed(sb, d, e[BBlock(sb, b) := ClearBit(e[BBlock(sb, b)], b % BPB)], freed + {b})
  {
    var f := e[BBlock(sb, b) := ClearBit(e[BBlock(sb, b)], b % BPB)];
    assert BBlock(sb, b) < sb.nmeta && BBlock(sb, b) >= sb.bmapstart;
    forall c: nat | c < sb.size
      ensures Marked(sb, f, c) == (Marked(sb, d, c) && c !in freed + {b})
    {
      assert Marked(sb, e, c) == (Marked(sb, d, c) && c !in freed);
      if BBlock(sb, b) == BBlock(sb, c) {
        BitUpdate(e[BBlock(sb, b)], b % BPB, c % BPB);
        if b % BPB == c % BPB { BitPositions(sb, b, c); }
      }
    }
  }

  /** The blocks in the first `k` slots of an inode. */
  ghost function SlotBlocks(d: Disk, ip: Inode, k: nat): set<nat>
    requires |ip.addrs| == NDIRECT + 1 && k <= ROOT + 1
  {
    if k == 0 then {}
    else SlotBlocks(d, ip, k - 1) + if Slot(d, ip, k - 1) == 0 then {} else {Slot(d, ip, k - 1)}
  }

  lemma {:induction false} SlotBlocksAre(sb: Superblock, d: Disk, inodes: seq<Inode>, owner: map<nat, (nat, nat)>,
                                         i: nat, k: nat)
    requires OwnInv(sb, d, inodes, owner) && i < |inodes| && k <= ROOT + 1
    ensures forall b :: b in SlotBlocks(d, inodes[i], k) <==> b in owner && owner[b].0 == i && owner[b].1 < k
  {
    hide Slot, BitmapAgrees;
    if k > 0 { SlotBlocksAre(sb, d, inodes, owner, i, k - 1); }
  }

  function Emptied(ip: Inode): Inode {
    ip.(size := 0, addrs := seq(NDIRECT + 1, _ => 0))
  }

  function Disown(owner: map<nat, (nat, nat)>, i: nat): map<nat, (nat, nat)> {
    map b | b in owner && owner[b].0 != i :: owner[b]
  }

  /** Writing bitmap blocks alone moves no slot and no data. */
  lemma FreedKeepsSlots(sb: Superblock, d: Disk, inodes: seq<Inode>, owner: map<nat, (nat, nat)>, e: Disk,
                        freed: set<nat>, j: nat, n: nat)
    requires OwnInv(sb, d, inodes, owner) && Freed(sb, d, e, freed) && j < |inodes| && n <= ROOT
    ensures Slot(e, inodes[j], n) == Slot(d, inodes[j], n)
    ensures n < MAXFILE ==> DataAt(e, inodes[j], n) == DataAt(d, inodes[j], n)
  {
    var r, x := Slot(d, inodes[j], ROOT), Slot(d, inodes[j], n);
    assert r != 0 ==> r in owner;
    assert x != 0 ==> x in owner;
  }

  /** Clearing the bits of all blocks of inode `i` and emptying it leaves every other file as it was. */
  lemma FreedAll(sb: Superblock, d: Disk, inodes: seq<Inode>, owner: map<nat, (nat, nat)>, i: nat, e: Disk)
    requires OwnInv(sb, d, inodes, owner) && i < |inodes|
    requires Freed(sb, d, e, SlotBlocks(d, inodes[i], ROOT + 1))
    ensures OwnInv(sb, e, inodes[i := Emptied(inodes[i])], Disown(owner, i))
    ensures forall n :: 0 <= n <= ROOT ==> Slot(e, Emptied(inodes[i]), n) == 0
    ensures forall j, n :: 0 <= j < |inodes| && j != i && 0 <= n <= ROOT ==>
              Slot(e, inodes[j], n) == Slot(d, inodes[j], n)
    ensures forall j, n :: 0 <= j < |inodes| && j != i && 0 <= n < MAXFILE ==>
              DataAt(e, inodes[j], n) == DataAt(d, inodes[j], n)
  {
    SlotBlocksAre(sb, d, inodes, owner, i, ROOT + 1);
    forall j, n | 0 <= j < |inodes| && 0 <= n <= ROOT
      ensures Slot(e, inodes[j], n) == Slot(d, inodes[j], n)
      ensures n < MAXFILE ==> DataAt(e, inodes[j], n) == DataAt(d, inodes[j], n)
    {
      FreedKeepsSlots(sb, d, inodes, owner, e, SlotBlocks(d, inodes[i], ROOT + 1), j, n);
    }
    DisownAgrees(sb, d, inodes, owner, i, e);
    forall c: nat | c < sb.size
      ensures Marked(sb, e, c) == (c < sb.nmeta || c in Disown(owner, i))
    {
      assert Marked(sb, d, c) == (c < sb.nmeta || c in owner);
    }
  }

  lemma DisownAgrees(sb: Superblock, d: Disk, inodes: seq<Inode>, owner: map<nat, (nat, nat)>, i: nat, e: Disk)
    requires ValidFs(sb, d, inodes) && OwnersAgree(sb, d, inodes, owner) && |e| == |d| && i < |inodes|
    requires forall j, n :: 0 <= j < |inodes| && 0 <= n <= ROOT ==> Slot(e, inodes[j], n) == Slot(d, inodes[j], n)
    ensures ValidFs(sb, e, inodes[i := Emptied(inodes[i])])
    ensures OwnersAgree(sb, e, inodes[i := Emptied(inodes[i])], Disown(owner, i))
    ensures forall n :: 0 <= n <= ROOT ==> Slot(e, Emptied(inodes[i]), n) == 0
  {
    assert forall n :: 0 <= n <= ROOT ==> Slot(e, Emptied(inodes[i]), n) == 0;
    hide Slot;
  }
}
