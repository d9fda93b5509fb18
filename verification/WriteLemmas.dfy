/** Steps of the write loop: which bytes are written, which blocks exist, and what has been logged. */
module WriteLemmas {
  import opened Basics
  import opened Blocks
  import opened Inodes

  function Max(a: nat, b: nat): nat { if a < b then b else a }

  predicate BlockEdge(o: nat) { o % BSIZE == 0 }

  /** How much of `rest` bytes fits into the block of byte `o`. */
  function Chunk(o: nat, rest: nat): (m: nat)
    requires rest > 0
    ensures 0 < m <= rest && o % BSIZE + m <= BSIZE
    ensures m == rest || BlockEdge(o + m)
  {
    Min(rest, BSIZE - o % BSIZE)
  }

  /** The slots a data block needs: its own, and the indirect one from block NDIRECT on. */
  function SlotsFor(bn: nat): set<nat> { if bn < NDIRECT then {bn} else {ROOT} + {bn} }

  /** Between the start of a write at `off` and the moment `tot` bytes of `src` are in: exactly those bytes
      of inode `i` have changed, its blocks reach to the end of what is written, and nothing else moved.
      As long as the write stays below the old size, the inode itself has not changed. */
  ghost predicate WriteState(sb: Superblock, d: Disk, inodes: seq<Inode>, e: Disk, jnodes: seq<Inode>,
                             i: nat, off: nat, src: seq<byte>, tot: nat) {
    && ValidFs(sb, d, inodes) && ValidFs(sb, e, jnodes) && i < |inodes| && tot <= |src|
    && (forall j :: 0 <= j < |inodes| && j != i ==> jnodes[j] == inodes[j])
    && jnodes[i] == inodes[i].(addrs := jnodes[i].addrs)
    && (forall j, n :: 0 <= j < |inodes| && 0 <= n <= ROOT && j != i ==> Slot(e, jnodes[j], n) == Slot(d, inodes[j], n))
    && OtherData(sb, d, inodes, e, jnodes, i)
    && (forall x :: 0 <= x < sb.bmapstart ==> e[x] == d[x])
    && Written(d, inodes[i], e, jnodes[i], off, src, tot)
    && DenseTo(e, jnodes[i], Max(inodes[i].size, off + tot))
    && (off + tot <= inodes[i].size ==> jnodes == inodes)
  }

  /** Adding the block of byte `off` to a file dense up to `size` makes it dense up to the end of what is
      written there. */
  lemma DenseGrows(sb: Superblock, d: Disk, inodes: seq<Inode>, e: Disk, jnodes: seq<Inode>, i: nat, off: nat, m: nat,
                   size: nat)
    requires ValidFs(sb, d, inodes) && ValidFs(sb, e, jnodes) && i < |inodes|
    requires DenseTo(d, inodes[i], size) && off <= size && 0 < m && off % BSIZE + m <= BSIZE &&
             off + m <= MAXFILE * BSIZE
    requires SlotsGrown(sb, d, inodes, e, jnodes, i, SlotsFor(off / BSIZE))
    ensures DenseTo(e, jnodes[i], Max(size, off + m))
  {
    hide Slot;
    var bn, s := off / BSIZE, Max(size, off + m);
    forall n | 0 <= n < MAXFILE
      ensures (Slot(e, jnodes[i], n) != 0) == (n * BSIZE < s)
    {
      assert n in SlotsFor(bn) <==> n == bn;
    }
  }

  lemma WriteStateStep(sb: Superblock, d: Disk, inodes: seq<Inode>, e: Disk, jnodes: seq<Inode>, f: Disk,
                       knodes: seq<Inode>,
                       i: nat, off: nat, src: seq<byte>, tot: nat, m: nat)
    requires WriteState(sb, d, inodes, e, jnodes, i, off, src, tot) && ValidFs(sb, f, knodes)
    requires off <= inodes[i].size && 0 < m && tot + m <= |src| && (off + tot) % BSIZE + m <= BSIZE &&
             off + tot + m <= MAXFILE * BSIZE
    requires SlotsGrown(sb, e, jnodes, f, knodes, i, SlotsFor((off + tot) / BSIZE)) &&
             OtherData(sb, e, jnodes, f, knodes, i)
    requires Written(e, jnodes[i], f, knodes[i], off + tot, src[tot..tot + m], m)
    requires Slot(e, jnodes[i], (off + tot) / BSIZE) != 0 ==> knodes == jnodes
    ensures WriteState(sb, d, inodes, f, knodes, i, off, src, tot + m)
  {
    DenseGrows(sb, e, jnodes, f, knodes, i, off + tot, m, Max(inodes[i].size, off + tot));
    WrittenTrans(d, inodes[i], e, jnodes[i], f, knodes[i], off, src, tot, m);
    hide Slot, DataAt;
  }

  // ---- what a write logs ----

  function BlocksIn(size: nat): nat { (size + 511) / 512 }

  /** Blocks a file gains by growing from `s` to `t` bytes, the indirect block included. */
  function NewBlocks(s: nat, t: nat): int {
    BlocksIn(t) - BlocksIn(s) + if s <= NDIRECT * BSIZE < t then 1 else 0
  }

  /** Data blocks that `tot` bytes at `off` touch. */
  function Touched(off: nat, tot: nat): nat {
    if tot == 0 then 0 else (off + tot - 1) / 512 - off / 512 + 1
  }

  /** The indirect block, for a file large enough to have one. */
  function RootSet(ip: Inode, size: nat): set<nat>
    requires |ip.addrs| == NDIRECT + 1
  {
    if NDIRECT * BSIZE < size then {ip.addrs[NDIRECT]} else {}
  }

  /** Blocks the write loop may log: one bitmap block per new block, the data blocks, the indirect block. */
  function LoopBudget(size: nat, off: nat, n: nat): int {
    NewBlocks(size, Max(size, off + n)) + Touched(off, n) + 1
  }

  /** One more chunk: at most one bitmap block for its data block, one for the indirect block, and one
      data block more. */
  lemma CostStep(size: nat, off: nat, tot: nat, m: nat)
    requires off <= size && 0 < m && (off + tot) % BSIZE + m <= BSIZE
    requires tot == 0 || BlockEdge(off + tot)
    ensures var o, s, t := off + tot, Max(size, off + tot), Max(size, off + tot + m);
            NewBlocks(size, t) == NewBlocks(size, s) + (if o / BSIZE * BSIZE >= s then 1 else 0)
                                                     + (if o / BSIZE >= NDIRECT && NDIRECT * BSIZE >= s then 1 else 0)
    ensures Touched(off, tot + m) == Touched(off, tot) + 1
  {}

  /** Blocks a file of `size` bytes gains when `n` bytes are written at `off`. */
  function Gained(size: nat, off: nat, n: nat): int { NewBlocks(size, Max(size, off + n)) }

  lemma NothingGained(size: nat, off: nat)
    requires off <= size
    ensures NewBlocks(size, Max(size, off)) == 0
  {}

  /** Growing in two steps is growing in one. */
  lemma NewBlocksAdd(a: nat, b: nat, c: nat)
    requires a <= b <= c
    ensures NewBlocks(a, b) + NewBlocks(b, c) == NewBlocks(a, c) && 0 <= NewBlocks(a, b) <= NewBlocks(a, c)
  {}

  /** A chunk of at most 1536 bytes stays within the ten blocks an operation may log: nine in the loop at
      most, then the inode.  A write into existing blocks only logs those. */
  lemma ChunkBudget(size: nat, off: nat, n: nat)
    requires off <= size && n <= 1536
    ensures LoopBudget(size, off, n) <= 9
  {}

  /** A dense file lacks the block of byte `o` exactly when that block starts at or after its end. */
  lemma DenseLacks(d: Disk, ip: Inode, size: nat, o: nat)
    requires |ip.addrs| == NDIRECT + 1 && DenseTo(d, ip, size) && o / BSIZE < MAXFILE
    ensures (Slot(d, ip, o / BSIZE) == 0) == (o / BSIZE * BSIZE >= size)
    ensures (Slot(d, ip, ROOT) == 0) == (NDIRECT * BSIZE >= size)
  {}

  /** The indirect block stays the same one, and a chunk that goes through it makes the file need it. */
  lemma RootStep(sb: Superblock, d: Disk, inodes: seq<Inode>, e: Disk, jnodes: seq<Inode>, i: nat, o: nat, m: nat,
                 s: nat)
    requires ValidFs(sb, d, inodes) && ValidFs(sb, e, jnodes) && i < |inodes| && 0 < m && DenseTo(d, inodes[i], s)
    requires SlotsGrown(sb, d, inodes, e, jnodes, i, SlotsFor(o / BSIZE))
    ensures RootSet(inodes[i], s) <= RootSet(jnodes[i], Max(s, o + m))
    ensures o / BSIZE >= NDIRECT ==> jnodes[i].addrs[NDIRECT] in RootSet(jnodes[i], Max(s, o + m))
  {
    assert Slot(d, inodes[i], ROOT) == inodes[i].addrs[NDIRECT];
  }

  ghost predicate LoggedAtMost(l0: set<nat>, l1: set<nat>, n: int) {
    exists s: set<nat> :: l1 <= l0 + s && |s| <= n
  }

  lemma CardSum(a: set<nat>, b: set<nat>)
    ensures |a + b| <= |a| + |b|
  {
    assert a + b == a + (b - a);
    assert b == (b - a) + (b * a);
  }

  lemma JoinLogged(l0: set<nat>, l1: set<nat>, l2: set<nat>, b1: set<nat>, b2: set<nat>, root: nat, addr: nat)
    requires l1 <= l0 + b1 + {root}
    ensures l2 <= l1 + b2 + {addr, root} ==> l2 <= l0 + (b1 + b2) + {addr, root}
    ensures |b1 + b2| <= |b1| + |b2|
  {
    CardSum(b1, b2);
  }

  lemma SetsAtMost(l0: set<nat>, l1: set<nat>, bits: set<nat>, data: set<nat>, root: set<nat>, n: int)
    requires l1 <= l0 + bits + data + root && |bits| + |data| + |root| <= n
    ensures LoggedAtMost(l0, l1, n)
  {
    CardSum(bits, data);
    CardSum(bits + data, root);
    assert l1 <= l0 + (bits + data + root);
  }

  lemma LoggedStep(l0: set<nat>, l1: set<nat>, l2: set<nat>, bits: set<nat>, more: set<nat>, data: set<nat>, addr: nat,
                   r1: set<nat>, r2: set<nat>, at: set<nat>)
    requires l1 <= l0 + bits + data + r1 && l2 <= l1 + more + at && r1 <= r2 && at <= {addr} + r2
    ensures l2 <= l0 + (bits + more) + (data + {addr}) + r2
    ensures |bits + more| <= |bits| + |more| && |data + {addr}| <= |data| + 1
  {
    CardSum(bits, more);
    CardSum(data, {addr});
  }

  /** What the loop of `writei` has logged so far: `bits` bitmap blocks, `data` data blocks, and the
      indirect block. */
  ghost predicate CostSoFar(logged: set<nat>, l0: set<nat>, ip: Inode, size: nat, off: nat, tot: nat, bits: set<nat>,
                            data: set<nat>)
    requires |ip.addrs| == NDIRECT + 1
  {
    && |bits| <= NewBlocks(size, Max(size, off + tot)) && |data| <= Touched(off, tot)
    && logged <= l0 + bits + data + RootSet(ip, Max(size, off + tot))
  }

  /** How many blocks slot `bn` of a file lacks: its own, and the indirect one. */
  function Missing(d: Disk, ip: Inode, bn: nat): nat
    requires |ip.addrs| == NDIRECT + 1 && bn < MAXFILE
  {
    (if Slot(d, ip, bn) == 0 then 1 else 0) + (if bn >= NDIRECT && Slot(d, ip, ROOT) == 0 then 1 else 0)
  }

  /** The blocks that mapping and writing data block `bn` may log: those bitmap blocks, the data block,
      the indirect block. */
  ghost predicate ChunkCost(d: Disk, ip: Inode, jp: Inode, bn: nat, l1: set<nat>, l2: set<nat>, more: set<nat>,
                            addr: nat)
    requires |ip.addrs| == NDIRECT + 1 && |jp.addrs| == NDIRECT + 1 && bn < MAXFILE
  {
    && l2 <= l1 + more + (if bn < NDIRECT then {addr} else {addr, jp.addrs[NDIRECT]})
    && |more| <= Missing(d, ip, bn)
  }

  /** The blocks that one more chunk lacks are those the file gains by it. */
  lemma ChunkNeeds(d: Disk, ip: Inode, size: nat, off: nat, tot: nat, m: nat)
    requires |ip.addrs| == NDIRECT + 1 && off <= size && 0 < m && (off + tot) % BSIZE + m <= BSIZE
    requires (tot == 0 || BlockEdge(off + tot)) && off + tot + m <= MAXFILE * BSIZE &&
             DenseTo(d, ip, Max(size, off + tot))
    ensures NewBlocks(size, Max(size, off + tot + m)) ==
              NewBlocks(size, Max(size, off + tot)) + Missing(d, ip, (off + tot) / BSIZE)
  {
    hide NewBlocks, Slot;
    DenseLacks(d, ip, Max(size, off + tot), off + tot);
    CostStep(size, off, tot, m);
  }

  lemma CostSoFarStep(sb: Superblock, d: Disk, inodes: seq<Inode>, e: Disk, jnodes: seq<Inode>, i: nat,
                      l0: set<nat>, l1: set<nat>, l2: set<nat>, bits: set<nat>, more: set<nat>, data: set<nat>,
                      addr: nat, size: nat, off: nat, tot: nat, m: nat)
    requires ValidFs(sb, d, inodes) && ValidFs(sb, e, jnodes) && i < |inodes|
    requires off <= size && 0 < m && (off + tot) % BSIZE + m <= BSIZE && (tot == 0 || BlockEdge(off + tot))
    requires off + tot + m <= MAXFILE * BSIZE && DenseTo(d, inodes[i], Max(size, off + tot))
    requires SlotsGrown(sb, d, inodes, e, jnodes, i, SlotsFor((off + tot) / BSIZE))
    requires CostSoFar(l1, l0, inodes[i], size, off, tot, bits, data)
    requires ChunkCost(d, inodes[i], jnodes[i], (off + tot) / BSIZE, l1, l2, more, addr)
    ensures CostSoFar(l2, l0, jnodes[i], size, off, tot + m, bits + more, data + {addr})
  {
    hide NewBlocks, Touched, RootSet, Slot;
    var o, s := off + tot, Max(size, off + tot);
    DenseLacks(d, inodes[i], s, o);
    CostStep(size, off, tot, m);
    RootStep(sb, d, inodes, e, jnodes, i, o, m, s);
    LoggedStep(l0, l1, l2, bits, more, data, addr, RootSet(inodes[i], s), RootSet(jnodes[i], Max(s, o + m)),
               if o / BSIZE < NDIRECT then {addr} else {addr, jnodes[i].addrs[NDIRECT]});
  }

  lemma CostIsBounded(logged: set<nat>, l0: set<nat>, ip: Inode, size: nat, off: nat, n: nat, bits: set<nat>,
                      data: set<nat>)
    requires |ip.addrs| == NDIRECT + 1 && CostSoFar(logged, l0, ip, size, off, n, bits, data)
    ensures LoggedAtMost(l0, logged, LoopBudget(size, off, n))
  {
    SetsAtMost(l0, logged, bits, data, RootSet(ip, Max(size, off + n)), LoopBudget(size, off, n));
  }

  lemma WriteStart(sb: Superblock, d: Disk, inodes: seq<Inode>, owner: map<nat, (nat, nat)>, i: nat, off: nat,
                   src: seq<byte>, l0: set<nat>)
    requires OwnInv(sb, d, inodes, owner) && i < |inodes| && Dense(d, inodes[i]) && off <= inodes[i].size
    ensures WriteState(sb, d, inodes, d, inodes, i, off, src, 0)
    ensures CostSoFar(l0, l0, inodes[i], inodes[i].size, off, 0, {}, {})
  {}
}
