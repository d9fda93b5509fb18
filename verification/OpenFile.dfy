/** `fileread` and `filewrite` on an inode: the open file's offset, and one transaction per chunk. */
module OpenFile {
  import opened Basics
  import opened Blocks
  import opened Inodes
  import opened WriteLemmas
  import opened FileSystem
  import opened FileWrite

  /** The largest piece of a write that goes into one transaction. */
  const CHUNK: nat := (MAXOPBLOCKS - 1 - 1 - 2) / 2 * 512

  /** `begin_op`: a transaction with nothing logged yet. */
  function Begin(s: Fs): Fs { s.(logged := {}, writes := [], base := s.disk) }

  lemma BeginKeeps(sb: Superblock, s: Fs)
    requires Valid(sb, s)
    ensures Valid(sb, Begin(s))
  {}

  lemma SpliceTwice(c: seq<byte>, off: nat, a: seq<byte>, b: seq<byte>)
    requires off <= |c|
    ensures Splice(Splice(c, off, a), off + |a|, b) == Splice(c, off, a + b)
  {}

  /** A write after a write, at its end, is one write; transactions in between do not matter. */
  lemma WrittenTwice(sb: Superblock, s: Fs, u: Fs, t: Fs, i: nat, off: nat, a: seq<byte>, b: seq<byte>)
    requires FileWritten(sb, s, u, i, off, a) && FileWritten(sb, Begin(u), t, i, off + |a|, b)
    ensures FileWritten(sb, s, t, i, off, a + b)
  {
    hide DenseTo, WrittenThrough, Slot, DataAt;
    SpliceTwice(Content(s.disk, s.inodes[i]), off, a, b);
    forall j | 0 <= j < |s.inodes| && j != i
      ensures FileKept(sb, s, t, j)
    {
      assert FileKept(sb, s, u, j) && FileKept(sb, Begin(u), t, j);
    }
  }

  /** The file after the first `done` bytes of a write, in as many transactions as that took. */
  ghost predicate SoFar(sb: Superblock, s: Fs, t: Fs, i: nat, off: nat, src: seq<byte>, done: nat) {
    match t case Fs(e, jnodes, owner, _, _, _) =>
    && i < |s.inodes| && |jnodes| == |s.inodes| && done <= |src| && jnodes[i].typ == s.inodes[i].typ
    && if done == 0 then e == s.disk && jnodes == s.inodes && owner == s.owner
       else FileWritten(sb, s, t, i, off, src[..done])
  }

  lemma WrittenFile(sb: Superblock, s: Fs, t: Fs, i: nat, off: nat, src: seq<byte>)
    requires FileWritten(sb, s, t, i, off, src)
    ensures i < |s.inodes| == |t.inodes| && t.inodes[i].typ == s.inodes[i].typ
  {}

  lemma PrefixJoin(src: seq<byte>, a: nat, b: nat)
    requires a <= b <= |src|
    ensures src[..a] + src[a..b] == src[..b] && |src[..a]| == a
  {}

  lemma SoFarFirst(sb: Superblock, s: Fs, u: Fs, t: Fs, i: nat, off: nat, src: seq<byte>, n1: nat)
    requires SoFar(sb, s, u, i, off, src, 0) && 0 < n1 <= |src| && FileWritten(sb, Begin(u), t, i, off, src[0..n1])
    ensures SoFar(sb, s, t, i, off, src, n1)
  {
    hide FileWritten;
    WrittenFile(sb, Begin(u), t, i, off, src[0..n1]);
    PrefixJoin(src, 0, n1);
    FirstWrite(sb, s, Begin(u), t, i, off, src[..n1]);
  }

  lemma SoFarNext(sb: Superblock, s: Fs, u: Fs, t: Fs, i: nat, off: nat, src: seq<byte>, done: nat, n1: nat)
    requires SoFar(sb, s, u, i, off, src, done) && 0 < done && 0 < n1 && done + n1 <= |src|
    requires FileWritten(sb, Begin(u), t, i, off + done, src[done..done + n1])
    ensures SoFar(sb, s, t, i, off, src, done + n1)
  {
    hide FileWritten;
    WrittenFile(sb, Begin(u), t, i, off + done, src[done..done + n1]);
    PrefixJoin(src, done, done + n1);
    WrittenTwice(sb, s, u, t, i, off, src[..done], src[done..done + n1]);
  }

  lemma SoFarStep(sb: Superblock, s: Fs, u: Fs, t: Fs, i: nat, off: nat, src: seq<byte>, done: nat, n1: nat)
    requires SoFar(sb, s, u, i, off, src, done) && 0 < n1 && done + n1 <= |src|
    requires FileWritten(sb, Begin(u), t, i, off + done, src[done..done + n1])
    ensures SoFar(sb, s, t, i, off, src, done + n1)
  {
    hide SoFar, FileWritten;
    if done == 0 { SoFarFirst(sb, s, u, t, i, off, src, n1); } else { SoFarNext(sb, s, u, t, i, off, src, done, n1); }
  }

  lemma FirstWrite(sb: Superblock, s: Fs, u: Fs, t: Fs, i: nat, off: nat, src: seq<byte>)
    requires u.disk == s.disk && u.inodes == s.inodes && FileWritten(sb, u, t, i, off, src)
    ensures FileWritten(sb, s, t, i, off, src)
  {
    hide DenseTo, WrittenThrough, Slot, DataAt;
    forall j | 0 <= j < |s.inodes| && j != i
      ensures FileKept(sb, s, t, j)
    {
      assert FileKept(sb, u, t, j);
    }
  }

  /** Once a first chunk is in, the file reaches to the end of what has been written. */
  lemma SoFarSize(sb: Superblock, s: Fs, t: Fs, i: nat, off: nat, src: seq<byte>, done: nat)
    requires SoFar(sb, s, t, i, off, src, done)
    ensures i < |t.inodes| == |s.inodes| && t.inodes[i].typ == s.inodes[i].typ
    ensures t.inodes[i].size == if done == 0 then s.inodes[i].size else Max(s.inodes[i].size, off + done)
    ensures done > 0 ==> off <= s.inodes[i].size
  {}

  /** How far a write of `n` bytes at `off` gets if the disk has room: to its end, or over the whole chunks below the
      largest file. */
  function Reach(off: nat, n: nat): (r: nat)
    requires off <= MAXFILE * BSIZE
  {
    if off + n <= MAXFILE * BSIZE then n else (MAXFILE * BSIZE - off) / CHUNK * CHUNK
  }

  /** The next chunk of a write that has come to a whole number of chunks: `writei` takes it exactly if it is within
      reach. */
  lemma NextReach(off: nat, n: nat, done: nat)
    requires off <= MAXFILE * BSIZE && done < n && done % CHUNK == 0 && done <= Reach(off, n)
    ensures var n1 := if n - done > CHUNK then CHUNK else n - done;
            && (off + done + n1 <= MAXFILE * BSIZE <==> done + n1 <= Reach(off, n))
            && (off + done + n1 > MAXFILE * BSIZE ==> done == Reach(off, n) && off + n > MAXFILE * BSIZE)
            && (done + n1 < n ==> (done + n1) % CHUNK == 0)
  {
    var room := MAXFILE * BSIZE - off;
    assert CHUNK == 1536;
  }

  /** A negative count asks for nothing. */
  function Asked(n: int): nat { if n < 0 then 0 else n }

  /** The file system before the first of some transactions of a write and after each of them: every one is valid and
      has a whole number of chunks in, or all `n` bytes, and each comes of the one before by the writes of a
      transaction within the budget. */
  ghost predicate ChunkByChunk(sb: Superblock, states: seq<Fs>, i: nat, off: nat, src: seq<byte>, n: nat) {
    && states != [] && n <= |src|
    && (forall k :: 0 <= k < |states| ==>
          Valid(sb, states[k]) && SoFar(sb, states[0], states[k], i, off, src, Min(k * CHUNK, n)))
    && (forall k :: 0 < k < |states| ==> states[k].base == states[k - 1].disk && WithinBudget(states[k].writes))
  }

  /** After `m - 1` whole chunks, the next one makes `m` of them or reaches the end. */
  lemma OneChunkMore(m: nat, done: nat, n: nat, n1: nat)
    requires m > 0 && done == (m - 1) * CHUNK && done < n && n1 == if n - done > CHUNK then CHUNK else n - done
    ensures done % CHUNK == 0 && done + n1 == Min(m * CHUNK, n) && 0 < n1 <= CHUNK
    ensures done + n1 < n ==> done + n1 == m * CHUNK
  {
    assert CHUNK == 1536;
  }

  lemma FirstChunk(sb: Superblock, s: Fs, i: nat, off: nat, src: seq<byte>, n: nat)
    requires Valid(sb, s) && i < |s.inodes| && n <= |src|
    ensures ChunkByChunk(sb, [s], i, off, src, n)
  {
    SoFarStart(sb, s, i, off, src);
    hide Valid, SoFar, WithinBudget;
  }

  lemma NextChunk(sb: Superblock, states: seq<Fs>, t: Fs, i: nat, off: nat, src: seq<byte>, n: nat)
    requires states != [] && t.base == states[|states| - 1].disk && WithinBudget(t.writes)
    requires SoFar(sb, states[0], t, i, off, src, Min(|states| * CHUNK, n)) && Valid(sb, t)
    requires ChunkByChunk(sb, states, i, off, src, n)
    ensures ChunkByChunk(sb, states + [t], i, off, src, n)
  {
    hide Valid, SoFar, WithinBudget;
  }

  /** The loop of `filewrite`: `done` bytes went in, and `states` has the file system before the first transaction and
      after each.  It panics exactly when fewer blocks are free than the file gains up to its reach; the last of
      `states` is then the state before the chunk that found the disk full. */
  method WriteChunks(sb: Superblock, s: Fs, i: nat, off: nat, src: seq<byte>, n: int)
    returns (t: Fs, r: Outcome, done: nat, ghost states: seq<Fs>)
    requires Valid(sb, s) && i < |s.inodes| && off < UINT && n <= |src|
    ensures ValidSuperblock(sb) && |s.disk| == sb.size && s.inodes[i].size <= MAXFILE * BSIZE
    ensures r.ToDevice? <==> n > 0 && s.inodes[i].typ == T_DEV
    ensures r.Panic? <==> n > 0 && s.inodes[i].typ != T_DEV && off <= s.inodes[i].size &&
                          FreeBlocks(sb, s.disk) < Gained(s.inodes[i].size, off, Reach(off, n))
    ensures r.Fail? <==> n < 0 || (n > 0 && !r.ToDevice? && !r.Panic? &&
                                   (off > s.inodes[i].size || off + n > MAXFILE * BSIZE))
    ensures r.Count? ==> r.n == done == n
    ensures r.Fail? ==> done == if n > 0 && off <= s.inodes[i].size then Reach(off, n) else 0
    ensures r.Count? || r.Fail? ==> Valid(sb, t) && SoFar(sb, s, t, i, off, src, done)
    ensures ChunkByChunk(sb, states, i, off, src, Asked(n)) && states[0] == s
    ensures r.Panic? ==> done < n && SoFar(sb, s, states[|states| - 1], i, off, src, done)
    ensures r.Panic? ==>
              Stopped(sb, Begin(states[|states| - 1]), t, i, off + done, src[done..done + Min(CHUNK, n - done)])
  {
    hide Valid, SoFar, FileWritten, Stopped, WithinBudget, FreeBlocks, NewBlocks, ValidSuperblock, ChunkByChunk;
    t, done, states := s, 0, [s];
    FirstChunk(sb, s, i, off, src, Asked(n));
    SoFarStart(sb, s, i, off, src);
    SizeBound(sb, s, i);
    ghost var size := s.inodes[i].size;
    NothingGained(size, Min(off, size));
    while done < n
      invariant done == 0 || done <= n
      invariant Valid(sb, t) && SoFar(sb, s, t, i, off, src, done) && |t.disk| == sb.size
      invariant done > 0 ==> s.inodes[i].typ != T_DEV && off <= size
      invariant off <= size ==> done <= Reach(off, Asked(n))
      invariant off <= size ==> FreeBlocks(sb, t.disk) == FreeBlocks(sb, s.disk) - Gained(size, off, done)
      invariant ChunkByChunk(sb, states, i, off, src, Asked(n)) && states != [] && states[0] == s
      invariant states[|states| - 1] == t && (done < n ==> done == (|states| - 1) * CHUNK)
    {
      SoFarSize(sb, s, t, i, off, src, done);
      var n1 := if n - done > CHUNK then CHUNK else n - done;
      OneChunkMore(|states|, done, n, n1);
      if off <= size {
        NextReach(off, n, done);
        ChunksGain(size, off, done, n1, Reach(off, n));
      }
      ghost var last := t;
      BeginKeeps(sb, t);
      t, r := Writei(sb, Begin(t), i, src[done..done + n1], off + done);
      if r.ToDevice? || r.Panic? { return; }
      if r.Fail? {
        FailSame(sb, s, last, t, i, off, src, done);
        return;
      }
      SoFarStep(sb, s, last, t, i, off, src, done, n1);
      done := done + n1;
      NextChunk(sb, states, t, i, off, src, n);
      states := states + [t];
    }
    r := if done == n then Count(done) else Fail;
  }

  /** A write of `src` stopped for want of a free block in the chunk after its first `done` bytes. */
  ghost predicate StoppedAfter(sb: Superblock, s: Fs, t: Fs, i: nat, off: nat, src: seq<byte>, done: nat)
    requires done < |src|
  {
    exists last: Fs ::
      (&& SoFar(sb, s, last, i, off, src, done)
       && Stopped(sb, Begin(last), t, i, off + done, src[done..done + Min(CHUNK, |src| - done)]))
  }

  lemma SoFarShorter(sb: Superblock, s: Fs, t: Fs, i: nat, off: nat, src: seq<byte>, n: nat, done: nat)
    requires SoFar(sb, s, t, i, off, src, done) && done <= n <= |src|
    ensures SoFar(sb, s, t, i, off, src[..n], done)
  {
    assert src[..n][..done] == src[..done];
  }

  /** What chunk after chunk gains is what the write gains. */
  lemma ChunksGain(size: nat, off: nat, done: nat, n1: nat, reach: nat)
    requires off <= size
    ensures var now := Max(size, off + done);
            && Gained(size, off, done + n1) == Gained(size, off, done) + Gained(now, off + done, n1)
            && (done + n1 <= reach ==> Gained(size, off, done + n1) <= Gained(size, off, reach))
  {
    var now := Max(size, off + done);
    var later := Max(size, off + done + n1);
    NewBlocksAdd(size, now, later);
    if done + n1 <= reach { NewBlocksAdd(size, later, Max(size, off + reach)); }
    hide NewBlocks;
  }

  lemma SizeBound(sb: Superblock, s: Fs, i: nat)
    requires Valid(sb, s) && i < |s.inodes|
    ensures s.inodes[i].size <= MAXFILE * BSIZE && ValidSuperblock(sb) && |s.disk| == sb.size
  {
    assert Dense(s.disk, s.inodes[i]);
  }

  lemma SoFarStart(sb: Superblock, s: Fs, i: nat, off: nat, src: seq<byte>)
    requires i < |s.inodes|
    ensures SoFar(sb, s, s, i, off, src, 0)
  {}

  /** A chunk that `writei` refuses ends the call in the state before it. */
  lemma FailSame(sb: Superblock, s: Fs, u: Fs, t: Fs, i: nat, off: nat, src: seq<byte>, done: nat)
    requires Valid(sb, u) && SoFar(sb, s, u, i, off, src, done) && t == Begin(u)
    ensures Valid(sb, t) && SoFar(sb, s, t, i, off, src, done)
  {
    if done > 0 {
      assert src[..done] + [] == src[..done];
      UnchangedWrite(sb, s, u, i, off, src[..done]);
    }
  }

  lemma UnchangedWrite(sb: Superblock, s: Fs, u: Fs, i: nat, off: nat, src: seq<byte>)
    requires FileWritten(sb, s, u, i, off, src)
    ensures FileWritten(sb, s, Begin(u), i, off, src)
  {
    forall j | 0 <= j < |u.inodes| && j != i
      ensures FileKept(sb, s, Begin(u), j)
    {
      assert FileKept(sb, s, u, j);
    }
  }

  lemma SpliceReads(c: seq<byte>, off: nat, src: seq<byte>)
    requires off <= |c|
    ensures var r := Splice(c, off, src);
            && |r| == Max(|c|, off + |src|) && r[off..off + |src|] == src && r[..off] == c[..off]
            && (off + |src| <= |c| ==> r[off + |src|..] == c[off + |src|..])
  {}

  /** The bytes `readi` returns for file `i`. */
  ghost function BytesAt(s: Fs, i: nat, at: nat, n: nat): seq<byte>
    requires i < |s.inodes| && |s.inodes[i].addrs| == NDIRECT + 1 && s.inodes[i].size <= MAXFILE * BSIZE
  {
    var ip := s.inodes[i];
    if ip.typ == T_DEV || at > ip.size || at + n >= UINT then []
    else Content(s.disk, ip)[at..at + Min(n, ip.size - at)]
  }

  lemma ValidFile(sb: Superblock, s: Fs, i: nat)
    requires Valid(sb, s) && i < |s.inodes|
    ensures |s.inodes[i].addrs| == NDIRECT + 1 && s.inodes[i].size <= MAXFILE * BSIZE
  {
    assert Dense(s.disk, s.inodes[i]);
  }

  /** What `writei` put somewhere, `readi` returns from there; any other file reads as it did. */
  method ReadBack(sb: Superblock, s: Fs, i: nat, src: seq<byte>, off: nat, j: nat, at: nat, n: nat)
    returns (t: Fs, w: Outcome, mine: seq<byte>, before: seq<byte>, after: seq<byte>)
    requires Valid(sb, s) && i < |s.inodes| && off < UINT && |src| < UINT
    requires j < |s.inodes| && j != i && at < UINT && n < UINT
    ensures ValidSuperblock(sb) && |s.disk| == sb.size
    ensures w.Count? <==> s.inodes[i].typ != T_DEV && off <= s.inodes[i].size && off + |src| <= MAXFILE * BSIZE &&
                          FreeBlocks(sb, s.disk) >= Gained(s.inodes[i].size, off, |src|)
    ensures |s.inodes[j].addrs| == NDIRECT + 1 && s.inodes[j].size <= MAXFILE * BSIZE
    ensures before == BytesAt(s, j, at, n)
    ensures w.Count? ==> Valid(sb, t) && FileWritten(sb, s, t, i, off, src) && |t.inodes| == |s.inodes|
    ensures w.Count? ==> |t.inodes[i].addrs| == NDIRECT + 1 && t.inodes[i].size <= MAXFILE * BSIZE
    ensures w.Count? ==> mine == BytesAt(t, i, off, |src|) == src
    ensures w.Count? ==> t.inodes[j] == s.inodes[j] && after == BytesAt(t, j, at, n) == before
  {
    hide Valid, FileWritten, Stopped, FreeBlocks, WithinBudget, NewBlocks, ValidSuperblock;
    ValidFile(sb, s, j);
    var u, r;
    mine := [];
    u, r, before := Readi(sb, s, j, at, n);
    t, w := Writei(sb, s, i, src, off);
    after := before;
    if !w.Count? { return; }
    WrittenBytes(sb, s, t, i, off, src);
    WrittenElsewhere(sb, s, t, i, off, src, j);
    u, r, mine := Readi(sb, t, i, off, |src|);
    u, r, after := Readi(sb, t, j, at, n);
  }

  lemma WrittenBytes(sb: Superblock, s: Fs, t: Fs, i: nat, off: nat, src: seq<byte>)
    requires FileWritten(sb, s, t, i, off, src)
    ensures i < |s.inodes| == |t.inodes| && t.inodes[i].typ == s.inodes[i].typ
    ensures |t.inodes[i].addrs| == NDIRECT + 1 && off + |src| <= t.inodes[i].size <= MAXFILE * BSIZE
    ensures Content(t.disk, t.inodes[i])[off..off + |src|] == src
  {
    SpliceReads(Content(s.disk, s.inodes[i]), off, src);
  }

  lemma WrittenElsewhere(sb: Superblock, s: Fs, t: Fs, i: nat, off: nat, src: seq<byte>, j: nat)
    requires FileWritten(sb, s, t, i, off, src) && j < |s.inodes| && j != i
    ensures |t.inodes| == |s.inodes| && t.inodes[j] == s.inodes[j]
    ensures |s.inodes[j].addrs| == NDIRECT + 1 && s.inodes[j].size <= MAXFILE * BSIZE
    ensures Content(t.disk, t.inodes[j]) == Content(s.disk, s.inodes[j])
  {
    assert FileKept(sb, s, t, j);
  }

  /** `struct file` for an inode. */
  class File {
    const sb: Superblock
    const ip: nat
    const readable: bool
    const writable: bool
    var off: nat
    var fs: Fs

    ghost predicate Open()
      reads this
    {
      Valid(sb, fs) && ip < |fs.inodes| && off < UINT
    }

    constructor (sb: Superblock, fs: Fs, ip: nat, readable: bool, writable: bool)
      requires Valid(sb, fs) && ip < |fs.inodes|
      ensures Open() && this.sb == sb && this.fs == fs && this.ip == ip && off == 0
      ensures this.readable == readable && this.writable == writable
    {
      this.sb, this.fs, this.ip, this.readable, this.writable, off := sb, fs, ip, readable, writable, 0;
    }

    /** `fileread`: the bytes at the offset, which moves past them. */
    method Read(n: nat) returns (r: Outcome, dst: seq<byte>)
      requires Open() && n < UINT
      modifies `off
      ensures Open() && !r.Panic?
      ensures r.ToDevice? <==> readable && fs.inodes[ip].typ == T_DEV
      ensures r.Fail? <==>
                !readable || (fs.inodes[ip].typ != T_DEV && (old(off) > fs.inodes[ip].size || old(off) + n >= UINT))
      ensures r.Fail? ==> off == old(off)
      ensures r.Count? ==> r.n == |dst| && off == old(off) + |dst| && old(off) <= fs.inodes[ip].size <= MAXFILE * BSIZE
      ensures r.Count? ==>
                |dst| == Min(n, fs.inodes[ip].size - old(off)) && dst == Content(fs.disk, fs.inodes[ip])[old(off)..off]
    {
      dst := [];
      if !readable { return Fail, dst; }
      var t;
      t, r, dst := Readi(sb, fs, ip, off, n);
      if r.Count? { off := off + r.n; }
    }

    /** `filewrite`: all of it, or a prefix of whole chunks and -1; the offset moves past what went in. */
    method Write(src: seq<byte>, n: int) returns (r: Outcome, done: nat)
      requires Open() && n <= |src|
      modifies `off, `fs
      ensures ValidSuperblock(sb) && |old(fs).disk| == sb.size && old(fs).inodes[ip].size <= MAXFILE * BSIZE
      ensures r.ToDevice? <==> writable && n > 0 && old(fs).inodes[ip].typ == T_DEV
      ensures r.Panic? <==>
                writable && n > 0 && old(fs).inodes[ip].typ != T_DEV && old(off) <= old(fs).inodes[ip].size &&
                            FreeBlocks(sb, old(fs).disk) < Gained(old(fs).inodes[ip].size, old(off), Reach(old(off), n))
      ensures r.Fail? <==> !writable || n < 0 || (n > 0 && !r.ToDevice? && !r.Panic? &&
                            (old(off) > old(fs).inodes[ip].size || old(off) + n > MAXFILE * BSIZE))
      ensures r.Fail? ==>
                done == if writable && n > 0 && old(off) <= old(fs).inodes[ip].size then Reach(old(off), n) else 0
      ensures r.Count? || r.Fail? ==>
                Open() && off == old(off) + done && SoFar(sb, old(fs), fs, ip, old(off), src, done)
      ensures r.Count? ==> r.n == done == n
      ensures r.Panic? ==> done < n && StoppedAfter(sb, old(fs), fs, ip, old(off), src[..n], done)
    {
      hide FreeBlocks, NewBlocks, WithinBudget, SoFar, Stopped, Valid;
      SizeBound(sb, fs, ip);
      if !writable {
        SoFarStart(sb, fs, ip, off, src);
        return Fail, 0;
      }
      var t;
      ghost var states;
      t, r, done, states := WriteChunks(sb, fs, ip, off, src, n);
      if r.Count? || r.Fail? { SoFarSize(sb, fs, t, ip, off, src, done); SizeBound(sb, t, ip); }
      if r.Panic? {
        assert src[done..done + Min(CHUNK, n - done)] == src[..n][done..done + Min(CHUNK, n - done)];
        SoFarShorter(sb, fs, states[|states| - 1], ip, off, src, n, done);
      }
      fs := t;
      if r.Count? || r.Fail? { off := off + done; }
    }
  }
}
