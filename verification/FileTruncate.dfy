/** `itrunc`: every block of a file goes back to the free bitmap. */
module FileTruncate {
  import opened Blocks
  import opened Inodes
  import opened FileSystem
  import opened FileWrite

  /** The blocks in the first `k` slots of inode `i` have been freed, and the direct addresses among them
      cleared; nothing else has happened. */
  ghost predicate Freeing(sb: Superblock, s: Fs, t: Fs, i: nat, k: nat) {
    match t case Fs(e, jnodes, owner, logged, writes, _) =>
    && OwnInv(sb, s.disk, s.inodes, s.owner) && i < |s.inodes| && k <= ROOT + 1 && Traced(t) &&
       owner == s.owner
    && |s.inodes[i].addrs| == NDIRECT + 1 && AddrsCleared(s.inodes, jnodes, i, k)
    && Freed(sb, s.disk, e, SlotBlocks(s.disk, s.inodes[i], k))
  }

  /** Of inode `i` the addresses behind slots below `k` are cleared, and no other inode has changed. */
  ghost predicate AddrsCleared(inodes: seq<Inode>, jnodes: seq<Inode>, i: nat, k: nat)
    requires i < |inodes| && |inodes[i].addrs| == NDIRECT + 1
  {
    && |jnodes| == |inodes| && jnodes == inodes[i := inodes[i].(addrs := jnodes[i].addrs)]
    && |jnodes[i].addrs| == NDIRECT + 1
    && (forall a :: 0 <= a <= NDIRECT ==> jnodes[i].addrs[a] == if SlotOfAddr(a) < k then 0 else inodes[i].addrs[a])
  }

  lemma ClearOne(inodes: seq<Inode>, jnodes: seq<Inode>, i: nat, k: nat)
    requires i < |inodes| && |inodes[i].addrs| == NDIRECT + 1 && k <= ROOT && AddrsCleared(inodes, jnodes, i, k)
    ensures AddrsCleared(inodes, jnodes[i := Cleared(jnodes[i], k)], i, k + 1)
  {
    ClearedAddrs(jnodes[i], k);
    hide Cleared;
  }

  lemma FreeingSlot(sb: Superblock, s: Fs, t: Fs, i: nat, k: nat)
    requires Freeing(sb, s, t, i, k) && k <= ROOT && Slot(s.disk, s.inodes[i], k) != 0
    ensures sb.nmeta <= Slot(s.disk, s.inodes[i], k) < sb.size == |t.disk| && ValidSuperblock(sb)
    ensures Marked(sb, t.disk, Slot(s.disk, s.inodes[i], k))
  {
    var b := Slot(s.disk, s.inodes[i], k);
    assert b in s.owner && s.owner[b] == (i, k);
    SlotBlocksAre(sb, s.disk, s.inodes, s.owner, i, k);
    assert Marked(sb, s.disk, b);
  }

  /** The inode with the address behind slot `k` cleared, for the slots that are addresses. */
  function Cleared(ip: Inode, k: nat): Inode
    requires |ip.addrs| == NDIRECT + 1
  {
    if k < NDIRECT then WithAddr(ip, k, 0) else if k == ROOT then WithAddr(ip, NDIRECT, 0) else ip
  }

  lemma ClearedAddrs(ip: Inode, k: nat)
    requires |ip.addrs| == NDIRECT + 1 && k <= ROOT
    ensures Cleared(ip, k) == ip.(addrs := Cleared(ip, k).addrs) && |Cleared(ip, k).addrs| == NDIRECT + 1
    ensures forall a :: 0 <= a <= NDIRECT ==> Cleared(ip, k).addrs[a] == if SlotOfAddr(a) == k then 0 else ip.addrs[a]
  {}

  lemma NextBlock(d: Disk, ip: Inode, k: nat)
    requires |ip.addrs| == NDIRECT + 1 && k <= ROOT && Slot(d, ip, k) != 0
    ensures SlotBlocks(d, ip, k + 1) == SlotBlocks(d, ip, k) + {Slot(d, ip, k)}
  {
    hide Slot;
  }

  lemma FreeingSkip(sb: Superblock, s: Fs, t: Fs, i: nat, k: nat)
    requires Freeing(sb, s, t, i, k) && k <= ROOT && Slot(s.disk, s.inodes[i], k) == 0
    ensures Freeing(sb, s, t, i, k + 1)
  {
    assert SlotBlocks(s.disk, s.inodes[i], k + 1) == SlotBlocks(s.disk, s.inodes[i], k);
  }

  lemma FreeingStep(sb: Superblock, s: Fs, t: Fs, u: Fs, i: nat, k: nat)
    requires Freeing(sb, s, t, i, k) && k <= ROOT && Slot(s.disk, s.inodes[i], k) != 0 &&
             Slot(s.disk, s.inodes[i], k) < sb.size
    requires ValidSuperblock(sb) && |t.disk| == sb.size && BBlock(sb, Slot(s.disk, s.inodes[i], k)) < sb.size
    requires u.disk == (var b := Slot(s.disk, s.inodes[i], k);
                          t.disk[BBlock(sb, b) := ClearBit(t.disk[BBlock(sb, b)], b % BPB)])
    requires u.inodes == t.inodes[i := Cleared(t.inodes[i], k)] && u.owner == t.owner && Traced(u)
    ensures Freeing(sb, s, u, i, k + 1)
  {
    var b := Slot(s.disk, s.inodes[i], k);
    ClearOne(s.inodes, t.inodes, i, k);
    hide Marked, ClearBit, Slot, Freed, Cleared, SlotBlocks, OwnInv, Traced, ValidSuperblock, AddrsCleared;
    FreeOne(sb, s.disk, t.disk, SlotBlocks(s.disk, s.inodes[i], k), b);
    NextBlock(s.disk, s.inodes[i], k);
  }

  /** One `bfree` of the loops of `itrunc`: the block in slot `k` is in use, so it does not panic. */
  method FreeSlot(sb: Superblock, ghost s: Fs, t: Fs, i: nat, k: nat, b: nat) returns (u: Fs, ok: bool)
    requires Freeing(sb, s, t, i, k) && k <= ROOT && b == Slot(s.disk, s.inodes[i], k)
    ensures ok && Freeing(sb, s, u, i, k + 1)
  {
    if b == 0 {
      FreeingSkip(sb, s, t, i, k);
      return t, true;
    }
    FreeingSlot(sb, s, t, i, k);
    u, ok := Bfree(sb, t, b);
    u := u.(inodes := u.inodes[i := Cleared(u.inodes[i], k)]);
    FreeingStep(sb, s, t, u, i, k);
  }

  lemma {:induction false} NoEntries(sb: Superblock, s: Fs, t: Fs, i: nat, k: nat)
    requires Freeing(sb, s, t, i, NDIRECT) && NDIRECT <= k <= ROOT + 1 && s.inodes[i].addrs[NDIRECT] == 0
    ensures Freeing(sb, s, t, i, k)
  {
    if k > NDIRECT {
      NoEntry(sb, s, t, i, k - 1);
      hide Freeing, Slot;
      NoEntries(sb, s, t, i, k - 1);
      FreeingSkip(sb, s, t, i, k - 1);
    }
  }

  lemma NoEntry(sb: Superblock, s: Fs, t: Fs, i: nat, k: nat)
    requires Freeing(sb, s, t, i, NDIRECT) && NDIRECT <= k <= ROOT && s.inodes[i].addrs[NDIRECT] == 0
    ensures i < |s.inodes| && |s.inodes[i].addrs| == NDIRECT + 1 && Slot(s.disk, s.inodes[i], k) == 0
  {}

  lemma FreeingAddr(sb: Superblock, s: Fs, t: Fs, i: nat, a: nat)
    requires Freeing(sb, s, t, i, if a == NDIRECT then ROOT else a) && a <= NDIRECT
    ensures i < |t.inodes| && |t.inodes[i].addrs| == NDIRECT + 1
    ensures t.inodes[i].addrs[a] == s.inodes[i].addrs[a] == Slot(s.disk, s.inodes[i], SlotOfAddr(a))
  {}

  lemma FreeingRoot(sb: Superblock, s: Fs, t: Fs, i: nat)
    requires Freeing(sb, s, t, i, NDIRECT)
    ensures i < |t.inodes| && |t.inodes[i].addrs| == NDIRECT + 1 &&
            t.inodes[i].addrs[NDIRECT] == s.inodes[i].addrs[NDIRECT]
  {}

  lemma FreeingEntries(sb: Superblock, s: Fs, t: Fs, i: nat)
    requires Freeing(sb, s, t, i, NDIRECT) && s.inodes[i].addrs[NDIRECT] != 0
    ensures s.inodes[i].addrs[NDIRECT] < |t.disk|
    ensures forall j :: 0 <= j < NINDIRECT ==>
              Word(t.disk[s.inodes[i].addrs[NDIRECT]], j) == Slot(s.disk, s.inodes[i], NDIRECT + j)
  {
    assert Slot(s.disk, s.inodes[i], ROOT) in s.owner;
  }

  /** The loops of `itrunc`. */
  method FreeAll(sb: Superblock, s: Fs, i: nat) returns (t: Fs, ok: bool)
    requires Freeing(sb, s, s, i, 0)
    ensures ok && Freeing(sb, s, t, i, ROOT + 1)
  {
    hide Freeing, Slot;
    t, ok := s, true;
    var a := 0;
    while a < NDIRECT
      invariant 0 <= a <= NDIRECT && ok && Freeing(sb, s, t, i, a)
    {
      FreeingAddr(sb, s, t, i, a);
      t, ok := FreeSlot(sb, s, t, i, a, t.inodes[i].addrs[a]);
      a := a + 1;
    }
    FreeingRoot(sb, s, t, i);
    var root := t.inodes[i].addrs[NDIRECT];
    if root == 0 {
      NoEntries(sb, s, t, i, ROOT + 1);
      return;
    }
    FreeingEntries(sb, s, t, i);
    var bp, j := t.disk[root], 0;
    while j < NINDIRECT
      invariant 0 <= j <= NINDIRECT && ok && Freeing(sb, s, t, i, NDIRECT + j)
    {
      t, ok := FreeSlot(sb, s, t, i, NDIRECT + j, Word(bp, j));
      j := j + 1;
    }
    FreeingAddr(sb, s, t, i, NDIRECT);
    t, ok := FreeSlot(sb, s, t, i, ROOT, t.inodes[i].addrs[NDIRECT]);
  }

  lemma FreeingStart(sb: Superblock, s: Fs, i: nat)
    requires Valid(sb, s) && i < |s.inodes|
    ensures Freeing(sb, s, s, i, 0)
  {}

  /** With every slot freed, the inode is empty but for its size. */
  lemma FreeingEnd(sb: Superblock, s: Fs, t: Fs, i: nat)
    requires Freeing(sb, s, t, i, ROOT + 1)
    ensures i < |t.inodes| == |s.inodes| && t.inodes[i].(size := 0) == Emptied(s.inodes[i])
    ensures Owned(sb, t.(inodes := s.inodes[i := Emptied(s.inodes[i])], owner := Disown(s.owner, i)))
    ensures t.inodes[i := Emptied(s.inodes[i])] == s.inodes[i := Emptied(s.inodes[i])]
  {
    FreedAll(sb, s.disk, s.inodes, s.owner, i, t.disk);
    assert t.inodes[i].addrs == seq(NDIRECT + 1, _ => 0);
  }

  /** What `itrunc` leaves: an empty file, and its blocks without an owner, so free by the invariant. */
  ghost predicate Truncated(sb: Superblock, s: Fs, t: Fs, i: nat) {
    match t case Fs(e, jnodes, owner, _, _, _) =>
    && i < |s.inodes| && |jnodes| == |s.inodes| && jnodes[i] == Emptied(s.inodes[i]) && owner == Disown(s.owner, i)
    && (forall j :: 0 <= j < |jnodes| && j != i ==> FileKept(sb, s, t, j))
  }

  lemma TruncatedOther(sb: Superblock, s: Fs, t: Fs, v: Fs, i: nat, j: nat)
    requires Valid(sb, s) && Freeing(sb, s, t, i, ROOT + 1) && j < |s.inodes| && j != i
    requires InodeUpdated(sb, t.(inodes := s.inodes[i := Emptied(s.inodes[i])], owner := Disown(s.owner, i)), v, i)
    ensures FileKept(sb, s, v, j)
  {
    FreedAll(sb, s.disk, s.inodes, s.owner, i, t.disk);
    assert Dense(s.disk, s.inodes[j]) && WrittenThrough(sb, s.disk, s.inodes, j);
    assert IBlock(sb, j) < sb.bmapstart;
    hide Slot, DataAt, DinodeAt;
    assert SameFile(s.disk, s.inodes[j], v.disk, v.inodes[j]);
    SameFileDense(s.disk, s.inodes[j], v.disk, v.inodes[j]);
    SameContent(s.disk, v.disk, s.inodes[j]);
  }

  lemma TruncatedEmpty(sb: Superblock, s: Fs, t: Fs, v: Fs, i: nat)
    requires Valid(sb, s) && Freeing(sb, s, t, i, ROOT + 1) && Owned(sb, v)
    requires InodeUpdated(sb, t.(inodes := s.inodes[i := Emptied(s.inodes[i])], owner := Disown(s.owner, i)), v, i)
    requires forall j :: 0 <= j < |s.inodes| && j != i ==> FileKept(sb, s, v, j)
    ensures Valid(sb, v) && Truncated(sb, s, v, i)
  {
    assert Dense(v.disk, Emptied(s.inodes[i]));
    forall j | 0 <= j < |s.inodes|
      ensures Dense(v.disk, v.inodes[j]) && WrittenThrough(sb, v.disk, v.inodes, j)
    {
      assert j != i ==> FileKept(sb, s, v, j);
    }
  }

  method Itrunc(sb: Superblock, s: Fs, i: nat) returns (t: Fs, ok: bool)
    requires Valid(sb, s) && i < |s.inodes|
    ensures ok && Valid(sb, t) && Truncated(sb, s, t, i)
  {
    hide Valid, Owned, Freeing, Truncated, InodeUpdated, FileKept;
    FreeingStart(sb, s, i);
    t, ok := FreeAll(sb, s, i);
    FreeingEnd(sb, s, t, i);
    ghost var u := t;
    t := t.(inodes := t.inodes[i := t.inodes[i].(size := 0)], owner := Disown(s.owner, i));
    t := Iupdate(sb, t, i);
    forall j | 0 <= j < |s.inodes| && j != i
      ensures FileKept(sb, s, t, j)
    {
      TruncatedOther(sb, s, u, t, i, j);
    }
    TruncatedEmpty(sb, s, u, t, i);
  }
}
