/** Disk blocks as bytes, with the little-endian words and the bitmap bits the kernel reads in them. */
module Blocks {
  import opened Basics

  const BSIZE: nat := 512

  type Block = b: seq<byte> | |b| == BSIZE witness seq(BSIZE, _ => 0)

  type Disk = seq<Block>

  function ZeroBlock(): (z: Block)
    ensures forall i :: 0 <= i < BSIZE ==> z[i] == 0
  {
    seq(BSIZE, _ => 0)
  }

  // ---- 32-bit words ----

  predicate IsWord(v: int) { 0 <= v < 0x1_0000_0000 }

  function Word(b: Block, j: nat): (v: nat)
    requires j < BSIZE / 4
    ensures IsWord(v)
  {
    var b0: int, b1: int, b2: int, b3: int := b[4 * j], b[4 * j + 1], b[4 * j + 2], b[4 * j + 3];
    b0 + 0x100 * b1 + 0x1_0000 * b2 + 0x100_0000 * b3
  }

  function SetWord(b: Block, j: nat, v: nat): (r: Block)
    requires j < BSIZE / 4 && IsWord(v)
  {
    b[4 * j := v % 0x100][4 * j + 1 := v / 0x100 % 0x100]
     [4 * j + 2 := v / 0x1_0000 % 0x100][4 * j + 3 := v / 0x100_0000]
  }

  lemma WordSetWord(b: Block, j: nat, v: nat, k: nat)
    requires j < BSIZE / 4 && k < BSIZE / 4 && IsWord(v)
    ensures Word(SetWord(b, j, v), k) == if k == j then v else Word(b, k)
  {
    var r := SetWord(b, j, v);
    if k == j {
      FourBytes(v);
    } else {
      assert r[4 * k] == b[4 * k] && r[4 * k + 1] == b[4 * k + 1] && r[4 * k + 2] == b[4 * k + 2] &&
             r[4 * k + 3] == b[4 * k + 3];
    }
  }

  lemma FourBytes(v: nat)
    requires IsWord(v)
    ensures v % 0x100 + 0x100 * (v / 0x100 % 0x100) + 0x1_0000 * (v / 0x1_0000 % 0x100)
            + 0x100_0000 * (v / 0x100_0000) == v
  {}

  lemma WordOfZero(k: nat)
    requires k < BSIZE / 4
    ensures Word(ZeroBlock(), k) == 0
  {}

  // ---- bitmap bits ----

  /** Bits in a bitmap block. */
  const BPB: nat := 4096

  /** Bit `k` of `x`: `x & (1 << k)` is not zero. */
  predicate BitOf(x: nat, k: nat) {
    if k == 0 then x % 2 == 1 else BitOf(x / 2, k - 1)
  }

  /** `x | (1 << k)` */
  function OrBit(x: nat, k: nat): (r: nat) {
    if k == 0 then (if x % 2 == 0 then x + 1 else x) else x % 2 + 2 * OrBit(x / 2, k - 1)
  }

  /** `x & ~(1 << k)` */
  function AndNotBit(x: nat, k: nat): (r: nat)
    ensures r <= x
  {
    if k == 0 then (if x % 2 == 0 then x else x - 1) else x % 2 + 2 * AndNotBit(x / 2, k - 1)
  }

  lemma {:induction false} OrBitBits(x: nat, k: nat, l: nat)
    ensures BitOf(OrBit(x, k), l) <==> l == k || BitOf(x, l)
  {
    if k > 0 && l > 0 { OrBitBits(x / 2, k - 1, l - 1); }
  }

  lemma {:induction false} AndNotBitBits(x: nat, k: nat, l: nat)
    ensures BitOf(AndNotBit(x, k), l) <==> l != k && BitOf(x, l)
  {
    if k > 0 && l > 0 { AndNotBitBits(x / 2, k - 1, l - 1); }
  }

  function Pow2(n: nat): nat { if n == 0 then 1 else 2 * Pow2(n - 1) }

  lemma {:induction false} OrBitFits(x: nat, k: nat, n: nat)
    requires x < Pow2(n) && k < n
    ensures OrBit(x, k) < Pow2(n)
  {
    if k > 0 { OrBitFits(x / 2, k - 1, n - 1); }
  }

  lemma ByteFits(x: byte, k: nat)
    requires k < 8
    ensures OrBit(x, k) < 256
  {
    assert Pow2(4) == 16;
    assert Pow2(8) == 256;
    OrBitFits(x, k, 8);
  }

  predicate Bit(b: Block, i: nat)
    requires i < BPB
  {
    BitOf(b[i / 8], i % 8)
  }

  function SetBit(b: Block, i: nat): (r: Block)
    requires i < BPB
  {
    ByteFits(b[i / 8], i % 8);
    b[i / 8 := OrBit(b[i / 8], i % 8)]
  }

  function ClearBit(b: Block, i: nat): (r: Block)
    requires i < BPB
  {
    b[i / 8 := AndNotBit(b[i / 8], i % 8)]
  }

  /** Setting or clearing one bit changes that bit alone. */
  lemma BitUpdate(b: Block, i: nat, j: nat)
    requires i < BPB && j < BPB
    ensures Bit(SetBit(b, i), j) <==> j == i || Bit(b, j)
    ensures Bit(ClearBit(b, i), j) <==> j != i && Bit(b, j)
  {
    if i / 8 == j / 8 {
      OrBitBits(b[i / 8], i % 8, j % 8);
      AndNotBitBits(b[i / 8], i % 8, j % 8);
    }
  }

  // ---- logged writes ----

  /** One `log_write`: a block and its new contents. */
  datatype Change = Change(block: nat, data: Block)

  ghost function BlocksOf(writes: seq<Change>): set<nat> { set c | c in writes :: c.block }

  /** An operation that logs these blocks in this order logs at most MAXOPBLOCKS different ones, and fewer before
      each call. */
  ghost predicate WithinBudget(writes: seq<Change>) {
    |BlocksOf(writes)| <= MAXOPBLOCKS && forall k :: 0 <= k < |writes| ==> |BlocksOf(writes[..k])| < MAXOPBLOCKS
  }

  /** The disk after all the writes, one by one. */
  ghost function Applied(d: Disk, writes: seq<Change>): (e: Disk)
    ensures |e| == |d|
  {
    if writes == [] then d
    else
      var n := |writes| - 1;
      var e := Applied(d, writes[..n]);
      if writes[n].block < |d| then e[writes[n].block := writes[n].data] else e
  }

  lemma AppliedNext(d: Disk, writes: seq<Change>, c: Change)
    requires c.block < |d|
    ensures Applied(d, writes + [c]) == Applied(d, writes)[c.block := c.data]
  {
    assert (writes + [c])[..|writes|] == writes;
  }
}
