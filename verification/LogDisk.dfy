/** The on-disk side of the write-ahead log: its geometry, its header block, and what recovery
    computes from a disk image.  A disk write is atomic per block. */
module LogDisk {
  import opened Basics
  import opened Blocks

  const LOGSIZE: nat := 30

  /** `log.start`, `log.size`, the number of blocks of the device and the number of buffers of the cache. */
  datatype Geometry = Geometry(start: nat, size: nat, nblocks: nat, nbuf: nat)

  /** Blocks `a` and `b` can be in buffers beside the ones in use.  When not, `bget` panics. */
  predicate Buffered(nbuf: nat, used: set<nat>, a: nat, b: nat) { |used + {a, b}| <= nbuf }

  ghost predicate ValidGeometry(g: Geometry) {
    1 <= g.size && g.start + g.size <= g.nblocks && g.nblocks <= UINT
  }

  predicate InLog(g: Geometry, b: int) {
    g.start <= b < g.start + g.size
  }

  /** A block some file system operation may log: on the device and outside the log area. */
  predicate IsHome(g: Geometry, b: int) {
    0 <= b < g.nblocks && !InLog(g, b)
  }

  ghost predicate ValidDisk(g: Geometry, d: Disk) {
    ValidGeometry(g) && |d| == g.nblocks
  }

  /** A list of distinct home blocks that fits the array. */
  ghost predicate HomeList(g: Geometry, lh: seq<nat>) {
    Distinct(lh) && |lh| <= LOGSIZE && forall i :: 0 <= i < |lh| ==> IsHome(g, lh[i])
  }

  /** What the log header may list: it fits the log area as well. */
  ghost predicate ValidHeader(g: Geometry, lh: seq<nat>) {
    HomeList(g, lh) && |lh| <= g.size - 1
  }

  // ---- the header block: a count and block numbers, as 32-bit words ----

  predicate Encodable(lh: seq<nat>) {
    |lh| <= LOGSIZE && forall i :: 0 <= i < |lh| ==> IsWord(lh[i])
  }

  /** The first `k` block numbers in the words after the count. */
  function PutList(b: Block, lh: seq<nat>, k: nat): (r: Block)
    requires Encodable(lh) && k <= |lh|
  {
    if k == 0 then b else SetWord(PutList(b, lh, k - 1), k, lh[k - 1])
  }

  /** `write_head`: the count and the listed block numbers overwrite the front of the old header
      block; the words after them keep whatever they held. */
  function EncodeHeader(hb: Block, lh: seq<nat>): (b: Block)
    requires Encodable(lh)
  {
    PutList(SetWord(hb, 0, |lh|), lh, |lh|)
  }

  /** The count in word 0, a signed number. */
  function HeaderCount(hb: Block): int {
    if Word(hb, 0) < 0x8000_0000 then Word(hb, 0) else Word(hb, 0) - UINT
  }

  /** The count fits the array of block numbers; a negative one counts as none. */
  predicate WellFormedHeader(hb: Block) { HeaderCount(hb) <= LOGSIZE }

  /** `read_head`: the count, then that many block numbers. */
  function DecodeHeader(hb: Block): (lh: seq<nat>)
    requires WellFormedHeader(hb)
    ensures |lh| <= LOGSIZE
  {
    seq(if HeaderCount(hb) < 0 then 0 else HeaderCount(hb),
        i requires 0 <= i && (i < HeaderCount(hb) || i == 0) && WellFormedHeader(hb) => Word(hb, i + 1))
  }

  lemma {:induction false} PutListWords(b: Block, lh: seq<nat>, k: nat, w: nat)
    requires Encodable(lh) && k <= |lh| && w < BSIZE / 4
    ensures Word(PutList(b, lh, k), w) == if 1 <= w <= k then lh[w - 1] else Word(b, w)
  {
    if k > 0 {
      PutListWords(b, lh, k - 1, w);
      WordSetWord(PutList(b, lh, k - 1), k, lh[k - 1], w);
    }
  }

  lemma HeaderRoundTrip(hb: Block, lh: seq<nat>)
    requires Encodable(lh)
    ensures WellFormedHeader(EncodeHeader(hb, lh)) && DecodeHeader(EncodeHeader(hb, lh)) == lh
  {
    var b := EncodeHeader(hb, lh);
    forall w: nat | w <= |lh|
      ensures Word(b, w) == if w == 0 then |lh| else lh[w - 1]
    {
      WordSetWord(hb, 0, |lh|, w);
      PutListWords(SetWord(hb, 0, |lh|), lh, |lh|, w);
    }
    hide Word, PutList, SetWord;
  }

  lemma ListEncodable(g: Geometry, lh: seq<nat>)
    requires ValidGeometry(g) && |lh| <= LOGSIZE && forall i :: 0 <= i < |lh| ==> IsHome(g, lh[i])
    ensures Encodable(lh)
  {}

  /** The disk address of the `i`-th log block. */
  function LogBlock(g: Geometry, i: nat): nat {
    g.start + 1 + i
  }

  ghost predicate SameHome(g: Geometry, d: Disk, e: Disk)
    requires ValidDisk(g, d) && ValidDisk(g, e)
  {
    forall b: nat :: IsHome(g, b) ==> d[b] == e[b]
  }

  /** `install_trans` after its first `k` iterations. */
  function Install(g: Geometry, d: Disk, lh: seq<nat>, k: nat): (r: Disk)
    requires ValidDisk(g, d) && ValidHeader(g, lh) && k <= |lh|
    ensures ValidDisk(g, r)
  {
    if k == 0 then d
    else
      var e := Install(g, d, lh, k - 1);
      e[lh[k - 1] := e[LogBlock(g, k - 1)]]
  }

  /** `recover_from_log` run to completion on the image `d`. */
  function Recover(g: Geometry, d: Disk): (r: Disk)
    requires ValidDisk(g, d) && WellFormedHeader(d[g.start]) && ValidHeader(g, DecodeHeader(d[g.start]))
    ensures ValidDisk(g, r)
  {
    var lh := DecodeHeader(d[g.start]);
    var e := Install(g, d, lh, |lh|);
    e[g.start := EncodeHeader(e[g.start], [])]
  }

  /** The image `d` holds `base` in redo form: a block its header lists has its contents of `base` in
      the log, every other home block has them in place. */
  ghost predicate Recoverable(g: Geometry, d: Disk, base: Disk)
    requires ValidDisk(g, d) && ValidDisk(g, base)
  {
    && WellFormedHeader(d[g.start])
    && var lh := DecodeHeader(d[g.start]);
    && ValidHeader(g, lh)
    && (forall k :: 0 <= k < |lh| ==> d[LogBlock(g, k)] == base[lh[k]])
    && (forall b: nat :: IsHome(g, b) && b !in lh ==> d[b] == base[b])
  }

  /** Installing touches only listed blocks: the first `k` of them get their log block. */
  lemma {:induction false} InstallContents(g: Geometry, d: Disk, lh: seq<nat>, k: nat)
    requires ValidDisk(g, d) && ValidHeader(g, lh) && k <= |lh|
    ensures forall b: nat :: b < g.nblocks && b !in lh[..k] ==> Install(g, d, lh, k)[b] == d[b]
    ensures forall i :: 0 <= i < k ==> Install(g, d, lh, k)[lh[i]] == d[LogBlock(g, i)]
  {
    if k > 0 {
      InstallContents(g, d, lh, k - 1);
      assert lh[..k] == lh[..k - 1] + [lh[k - 1]];
    }
  }

  /** Recovery turns the redo form of `base` into `base` itself, with an empty log. */
  lemma RecoverRestores(g: Geometry, d: Disk, base: Disk)
    requires ValidDisk(g, d) && ValidDisk(g, base) && Recoverable(g, d, base)
    ensures SameHome(g, Recover(g, d), base)
    ensures WellFormedHeader(Recover(g, d)[g.start]) && DecodeHeader(Recover(g, d)[g.start]) == []
  {
    var lh := DecodeHeader(d[g.start]);
    InstallContents(g, d, lh, |lh|);
    HeaderRoundTrip(Install(g, d, lh, |lh|)[g.start], []);
    forall b: nat | IsHome(g, b)
      ensures Recover(g, d)[b] == base[b]
    {
      if b in lh {
        var i :| 0 <= i < |lh| && lh[i] == b;
        assert lh[..|lh|] == lh;
      }
    }
  }

  /** Filling a log block cannot hurt while the header on disk is empty. */
  lemma LogBlockWriteIsSafe(g: Geometry, d: Disk, base: Disk, i: nat, data: Block)
    requires ValidDisk(g, d) && ValidDisk(g, base) && Recoverable(g, d, base)
    requires DecodeHeader(d[g.start]) == [] && i < g.size - 1
    ensures ValidDisk(g, d[LogBlock(g, i) := data])
    ensures Recoverable(g, d[LogBlock(g, i) := data], base)
  {}

  /** Copying one listed block home, in whatever order, keeps the redo form: a crash during the install
      loses nothing. */
  lemma InstallOneIsSafe(g: Geometry, d: Disk, base: Disk, i: nat)
    requires ValidDisk(g, d) && ValidDisk(g, base) && Recoverable(g, d, base)
    requires i < |DecodeHeader(d[g.start])|
    ensures var lh := DecodeHeader(d[g.start]);
            var e := d[lh[i] := d[LogBlock(g, i)]];
            ValidDisk(g, e) && Recoverable(g, e, base) && e[g.start] == d[g.start] && e[lh[i]] == base[lh[i]]
  {
    var lh := DecodeHeader(d[g.start]);
    assert IsHome(g, lh[i]);
    assert forall k :: 0 <= k < |lh| ==> LogBlock(g, k) != lh[i];
  }
}
