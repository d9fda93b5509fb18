/** The file system that the image builder starts from: every inode free, every data block free. */
module Format {
  import opened Blocks
  import opened Inodes
  import opened FileSystem

  /** The layout of the image that is built: 1000 blocks, 200 inodes, a log area of 30 blocks from block 2 on. */
  const IMAGE: Superblock := Superblock(1000, 200, 32, 58, 59)

  lemma ImageIsValid()
    ensures ValidSuperblock(IMAGE)
  {}

  function FreeInode(): (ip: Inode) { Inode(0, 0, 0, 0, 0, seq(NDIRECT + 1, _ => 0)) }

  /** The blocks up to `n` have their bits set, no others, and only bitmap blocks have been written. */
  ghost predicate MarkedBelow(sb: Superblock, d: Disk, n: nat) {
    && ValidSuperblock(sb) && |d| == sb.size
    && (forall c: nat :: c < sb.size ==> Marked(sb, d, c) == (c < n))
    && (forall x :: 0 <= x < sb.bmapstart ==> d[x] == ZeroBlock())
  }

  lemma BlankMarks(sb: Superblock, d: Disk)
    requires ValidSuperblock(sb) && |d| == sb.size && forall x :: 0 <= x < |d| ==> d[x] == ZeroBlock()
    ensures MarkedBelow(sb, d, 0)
  {
    forall c: nat | c < sb.size
      ensures !Marked(sb, d, c)
    {
      assert BBlock(sb, c) < sb.nmeta;
      ZeroBits(c % BPB);
    }
  }

  lemma ZeroBits(j: nat)
    requires j < BPB
    ensures !Bit(ZeroBlock(), j)
  {
    ZeroBitOf(j % 8);
  }

  lemma {:induction false} ZeroBitOf(k: nat)
    ensures !BitOf(0, k)
  {
    if k > 0 { ZeroBitOf(k - 1); }
  }

  lemma MarkOne(sb: Superblock, d: Disk, n: nat)
    requires MarkedBelow(sb, d, n) && n < sb.nmeta && BBlock(sb, n) < |d|
    ensures MarkedBelow(sb, d[BBlock(sb, n) := SetBit(d[BBlock(sb, n)], n % BPB)], n + 1)
  {
    var x := BBlock(sb, n);
    var e := d[x := SetBit(d[x], n % BPB)];
    forall c: nat | c < sb.size
      ensures Marked(sb, e, c) == (c < n + 1)
    {
      assert BBlock(sb, c) < sb.nmeta;
      assert Marked(sb, d, c) == (c < n);
      if BBlock(sb, c) == x {
        BitUpdate(d[x], n % BPB, c % BPB);
        if c % BPB == n % BPB { BitPositions(sb, c, n); }
      }
    }
  }

  lemma ZeroDinode(s: nat)
    requires s < 8
    ensures DinodeAt(ZeroBlock(), s) == FreeInode()
  {
    forall j: nat | 16 * s <= j < 16 * s + 16
      ensures Word(ZeroBlock(), j) == 0
    {
      WordOfZero(j);
    }
    hide Word;
    assert DinodeAt(ZeroBlock(), s).addrs == FreeInode().addrs;
  }

  lemma BlankValid(sb: Superblock, d: Disk, s: Fs)
    requires MarkedBelow(sb, d, sb.nmeta) && s == Fs(d, seq(sb.ninodes, _ => FreeInode()), map[], {}, [], d)
    ensures Valid(sb, s) && Owned(sb, s)
  {
    assert BlocksOf([]) == {};
    forall i: nat | i < sb.ninodes
      ensures WrittenThrough(sb, d, s.inodes, i)
    {
      assert IBlock(sb, i) < sb.bmapstart;
      ZeroDinode(i % 8);
    }
  }

  /** A blank disk with the metadata blocks marked is a valid file system, and every other block is free. */
  method Blank(sb: Superblock) returns (s: Fs)
    requires ValidSuperblock(sb)
    ensures Valid(sb, s) && |s.inodes| == sb.ninodes && (forall i :: 0 <= i < sb.ninodes ==> s.inodes[i] == FreeInode())
    ensures |s.disk| == sb.size && FreeBlocks(sb, s.disk) == sb.size - sb.nmeta
  {
    hide Marked, SetBit;
    var d: Disk := seq(sb.size, _ => ZeroBlock());
    BlankMarks(sb, d);
    var n := 0;
    while n < sb.nmeta
      invariant 0 <= n <= sb.nmeta && MarkedBelow(sb, d, n)
    {
      assert BBlock(sb, n) < sb.nmeta;
      MarkOne(sb, d, n);
      d := d[BBlock(sb, n) := SetBit(d[BBlock(sb, n)], n % BPB)];
      n := n + 1;
    }
    s := Fs(d, seq(sb.ninodes, _ => FreeInode()), map[], {}, [], d);
    BlankValid(sb, d, s);
    hide Valid, Owned, FreeBlocks;
    FreeIsUnowned(sb, s);
  }
}
